# Room-maintenance expense ledger, in Dafny

A model of the bill-splitting logic of the `App` component (`src/App.tsx`):
an ordered list of named costs (`tableData`), a headcount (`inputLength`) and a
flag that opens the split panel (`isSplit`); the entry form and its schema
(a required name, a required positive numeric cost); the total, computed by a
left-to-right `reduce` from 0; the per-member share, which is 0 unless the
headcount is a positive number; and the Reset and Split buttons.

Layout:

- `wrappers.dfy` — `Option` and `Result`.
- `expenses.dfy` (module `Expenses`) — `Entry`, the entry rule `ValidEntry`,
  `Total` (the `reduce`), `Split` and their lemmas.
- `validation.dfy` (module `Validation`) — the schema as one error function per
  field (`NameError`, `CostError`) and `Validate`, which either yields the entry
  the submit handler receives or the messages shown under the inputs.
- `app.dfy` (module `App`) — the state cells as a value `AppState`, each handler
  as a transition on it (`Submitted`, `AfterReset`, `AfterSplit`,
  `WithHeadcount`), what the page shows (`ShownTotal`, `EachMember`), a runner
  over user events that respects which controls are on screen (`Step`, `Run`),
  and the `Ledger` class whose fields are the three state cells and whose
  methods are the handlers, each specified by its transition. `Walkthrough` is
  a client of the class that goes through the seeded session (total 13200,
  3 members pay 4400 each), the three refused submissions, the zero, negative
  and missing headcounts, Reset, and a fresh "Water" entry of 300. Only
  `Step` and `Run` are limited to the controls on screen; the class methods
  accept calls in any state, including ones where the page shows no button
  or field for them.

Costs are exact `real` numbers; the headcount is `Option<int>`, where `None`
stands for the NaN that `parseInt` gives for an empty or non-numeric field.

Three behaviours of the code worth noting:

- Reset also hides the split panel (`setSplit(false)`), not only the list.
- The form reports one message per field, for both fields at once, rather than
  stopping at the first failing rule; "Cost is required" applies only to an
  absent value, since a blank cost field is cast to NaN and reported as
  "Cost must be a number".
- The Split and Reset buttons and the "Total:" line exist only while the list
  is non-empty, and the headcount field only while the split panel is open.
  After Reset both buttons are gone, so the split panel stays closed until a
  new entry is accepted (`EmptyLedgerIsStuck`).

## Model

| member | source | states |
|---|---|---|
| Expenses.TotalAppend | src/App.tsx:42-44 | appending an entry raises the total by exactly its cost |
| Expenses.TotalConcat | src/App.tsx:42-44 | the total of two lists joined is the sum of their totals, so any grouping of the costs gives the same total |
| Expenses.TotalPermutation | src/App.tsx:42-44 | two lists holding the same entries in any order have the same total |
| Expenses.TotalPositive | src/App.tsx:20-44 | a list of entries that all passed the rule (positive cost) totals at least 0, and more than 0 when non-empty |
| Expenses.Split | src/App.tsx:46-49 | with a present, positive headcount the share times the headcount is the total; a missing (NaN), zero or negative headcount gives 0 |
| Expenses.SplitBounds | src/App.tsx:46-49 | the share of a non-negative total lies between 0 and the total |
| Validation.Validate | src/App.tsx:20-26 | succeeds exactly when the name is non-empty and the cost is a number above 0, returning that name and cost as a valid entry; on failure the name has a message exactly when it is empty and the cost exactly when it is not a positive number |
| Validation.ValidateEntry | src/App.tsx:20-26 | an entry passes the form exactly when it satisfies the entry rule, and then comes back unchanged |
| App.ShownTotal | src/App.tsx:90-119 | the total line is shown exactly for a non-empty list, and then shows a positive amount when every entry is valid |
| App.EachMember | src/App.tsx:143-159 | the per-member line is shown exactly when the split panel is open and the headcount is positive; its amount times the headcount is the total, and lies between 0 and the total |
| App.InitialState | src/App.tsx:12-18 | the seeded list is valid, totals 13200, shows 13200 per member with headcount 1, and splits into 4400 for 3 members |
| App.SubmittedTotal | src/App.tsx:37-40 | a submission keeps the earlier entries in order, the headcount and the panel flag; an accepted one raises the total by its cost, a refused one changes nothing |
| App.ResetIdempotent | src/App.tsx:127-130 | after Reset the total is 0 and the headcount is kept; a second Reset changes nothing more |
| App.SplitIdempotent | src/App.tsx:121-122 | Split leaves list and headcount alone; pressing it again changes nothing more |
| App.StepInvariant | src/App.tsx:20-40 | every handler keeps every listed entry valid |
| App.RunInvariant | src/App.tsx:20-40 | any sequence of user events keeps every listed entry valid |
| App.ReachableInvariant | src/App.tsx:12-44 | from the mounted state, whatever the user does, every entry is valid and a shown total is positive |
| App.StepSubmission | src/App.tsx:37-40 | a submission appends what it accepts, the validated entry or nothing, and changes no other state cell |
| App.RunSubmissions | src/App.tsx:37-40 | a run of submissions turns the list into the old list followed by the accepted entries in order, with headcount and panel flag unchanged |
| App.RunSubmissionsTotal | src/App.tsx:37-44 | a run of submissions raises the total by exactly the costs of the accepted entries |
| App.StepEntries | src/App.tsx:37-40 | every event except Reset changes the list only by appending what it adds (the accepted entry of a submission, nothing otherwise) |
| App.RunWithoutReset | src/App.tsx:37-152 | over any run with no Reset, whatever Split presses and headcount edits it holds, the list becomes the old list followed by the accepted entries in order |
| App.RunWithoutResetTotal | src/App.tsx:37-152 | over any run with no Reset the total rises by exactly the costs of the accepted entries |
| App.EmptyLedgerIsStuck | src/App.tsx:90-143 | with the list empty and the split panel closed, no event short of an accepted submission changes the state |
| App.Ledger.constructor | src/App.tsx:12-18 | the mounted state: the two seeded entries, headcount 1, split panel open |
| App.Ledger.Submit | src/App.tsx:37-40 | returns the form's verdict; on success the entry is appended at the end, otherwise the list is unchanged; headcount and panel flag are unchanged; the list stays valid |
| App.Ledger.Reset | src/App.tsx:128-130 | the list becomes empty and the panel closes; the headcount is unchanged |
| App.Ledger.PressSplit | src/App.tsx:122 | the panel opens; list and headcount are unchanged |
| App.Ledger.SetHeadcount | src/App.tsx:150-152 | the headcount becomes the parsed value; list and panel flag are unchanged |
| App.Ledger.TotalCost | src/App.tsx:42-44 | the total of a valid list is at least 0, and above 0 when the list is non-empty |
| App.Ledger.SplitAmount | src/App.tsx:46-49 | with a positive headcount the share times the headcount is the total, otherwise 0; for a valid list it lies between 0 and the total |

## Left out

- Rendering: the JSX, the Tailwind classes and the alternating row colours; only what the page shows of the state (the total line, the per-member line, which controls exist) is modelled.
- The form library and the schema library themselves; only the rules they enforce and the messages they produce are modelled. Clearing the form inputs after a submission (`reset()` of the form) is form-widget state, not ledger state.
- Text parsing: `parseInt` of the headcount field and the schema's cast of the cost text to a number; the model starts from their results (`Headcount`, `CostValue`).
- JavaScript number semantics: costs and shares are exact reals, so IEEE-754 rounding, `Infinity` as a cost, and the two-decimal `toFixed(2)` display rounding are not modelled.
- React's re-rendering and batching of state updates; every handler is one atomic transition.
- Remounting of the headcount input: when the split panel reopens, the field is shown empty while the stored headcount keeps its last value; the model keeps only the stored value.
