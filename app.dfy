/**
 * The `App` component's ledger state (`tableData`, `inputLength`, `isSplit`),
 * its handlers, what the screen shows of it, and the `Ledger` object whose
 * methods are those handlers.
 */
module App {
  import opened Wrappers
  import opened Expenses
  import opened Validation

  /** The three state cells of the component. */
  datatype AppState = AppState(entries: seq<Entry>, headcount: Headcount, isSplit: bool)

  /** Every listed entry passed the form's rules. */
  predicate Invariant(s: AppState)
  {
    AllValid(s.entries)
  }

  /** The two entries the list is seeded with. */
  const InitialEntries: seq<Entry> := [Entry("Room rent", 12000.0), Entry("Maintenance", 1200.0)]

  /** The state when the component mounts: seeded list, headcount 1, split panel shown. */
  function Initial(): AppState
  {
    AppState(InitialEntries, Some(1), true)
  }

  /** Submitting the form: a validated entry goes to the end of the list; a refused one changes nothing. */
  function Submitted(s: AppState, name: string, cost: CostValue): AppState
  {
    match Validate(name, cost)
    case Success(e) => s.(entries := s.entries + [e])
    case Failure(_) => s
  }

  /** The Reset button: empty list, split panel hidden, headcount kept. */
  function AfterReset(s: AppState): AppState
  {
    s.(entries := [], isSplit := false)
  }

  /** The Split button: split panel shown. */
  function AfterSplit(s: AppState): AppState
  {
    s.(isSplit := true)
  }

  /** Typing in the "Split Into" field. */
  function WithHeadcount(s: AppState, h: Headcount): AppState
  {
    s.(headcount := h)
  }

  /** Something the user does on the page. */
  datatype Event =
    | SubmitForm(name: string, cost: CostValue)
    | ResetClicked
    | SplitClicked
    | HeadcountTyped(h: Headcount)

  /**
   * Whether the control an event comes from is on screen: the two buttons sit
   * under the table, which is shown only for a non-empty list, and the
   * headcount field sits in the split panel.
   */
  predicate OnScreen(s: AppState, ev: Event)
  {
    match ev
    case SubmitForm(_, _) => true
    case ResetClicked => |s.entries| > 0
    case SplitClicked => |s.entries| > 0
    case HeadcountTyped(_) => s.isSplit
  }

  /** One event, handled atomically; an event from a control that is not shown has no effect. */
  function Step(s: AppState, ev: Event): AppState
  {
    if !OnScreen(s, ev) then s
    else match ev
      case SubmitForm(name, cost) => Submitted(s, name, cost)
      case ResetClicked => AfterReset(s)
      case SplitClicked => AfterSplit(s)
      case HeadcountTyped(h) => WithHeadcount(s, h)
  }

  /** A sequence of events, handled in order. */
  function Run(s: AppState, evs: seq<Event>): AppState
    decreases |evs|
  {
    if evs == [] then s else Run(Step(s, evs[0]), evs[1..])
  }

  /** What the "Total:" line shows; it is on screen only with the table, that is, for a non-empty list. */
  function ShownTotal(s: AppState): (r: Option<real>)
    ensures r.Some? <==> |s.entries| > 0
    ensures r.Some? && Invariant(s) ==> r.value > 0.0
  {
    if |s.entries| > 0 then
      TotalPositive(s.entries);
      Some(Total(s.entries))
    else None
  }

  /**
   * What the "Each Member:" line shows: present only while the split panel
   * is open and the headcount is positive, and then the share that, times
   * the headcount, gives back the total.
   */
  function EachMember(s: AppState): (r: Option<real>)
    ensures r.Some? <==> s.isSplit && CanSplit(s.headcount)
    ensures r.Some? ==> r.value * (s.headcount.value as real) == Total(s.entries)
    ensures r.Some? && Invariant(s) ==> 0.0 <= r.value <= Total(s.entries)
  {
    if s.isSplit && CanSplit(s.headcount) then
      TotalPositive(s.entries);
      SplitBounds(Total(s.entries), s.headcount);
      Some(Split(Total(s.entries), s.headcount))
    else None
  }

  /** The mounted component: two entries totalling 13200, all of it on each member's line. */
  lemma InitialState()
    ensures Invariant(Initial())
    ensures ShownTotal(Initial()) == Some(13200.0)
    ensures EachMember(Initial()) == Some(13200.0)
    ensures Split(Total(InitialEntries), Some(3)) == 4400.0
  {
    assert InitialEntries[..1] == [Entry("Room rent", 12000.0)];
    assert InitialEntries[..1][..0] == [];
    assert Total(InitialEntries) == 13200.0;
  }

  /** A submission changes the total by the accepted cost, keeps the earlier entries in order and nothing else. */
  lemma SubmittedTotal(s: AppState, name: string, cost: CostValue)
    ensures Submitted(s, name, cost).headcount == s.headcount
    ensures Submitted(s, name, cost).isSplit == s.isSplit
    ensures Submitted(s, name, cost).entries[..|s.entries|] == s.entries
    ensures Validate(name, cost).Success? ==>
      Total(Submitted(s, name, cost).entries) == Total(s.entries) + cost.value
    ensures Validate(name, cost).Failure? ==> Submitted(s, name, cost) == s
  {
    match Validate(name, cost)
    case Success(e) =>
      TotalAppend(s.entries, e);
      assert (s.entries + [e])[..|s.entries|] == s.entries;
    case Failure(_) =>
  }

  /** Reset leaves nothing to total, keeps the headcount, and a second Reset changes nothing more. */
  lemma ResetIdempotent(s: AppState)
    ensures Total(AfterReset(s).entries) == 0.0
    ensures AfterReset(s).headcount == s.headcount
    ensures AfterReset(AfterReset(s)) == AfterReset(s)
  {
  }

  /** Split only opens the panel, and pressing it again changes nothing more. */
  lemma SplitIdempotent(s: AppState)
    ensures AfterSplit(s).entries == s.entries && AfterSplit(s).headcount == s.headcount
    ensures AfterSplit(AfterSplit(s)) == AfterSplit(s)
  {
  }

  /** Every handler keeps the list made of valid entries. */
  lemma StepInvariant(s: AppState, ev: Event)
    requires Invariant(s)
    ensures Invariant(Step(s, ev))
  {
    if OnScreen(s, ev) && ev.SubmitForm? {
      match Validate(ev.name, ev.cost)
      case Success(e) =>
        var t := s.entries + [e];
        assert forall i | 0 <= i < |t| :: t[i] == if i < |s.entries| then s.entries[i] else e;
      case Failure(_) =>
    }
  }

  /** Any sequence of events keeps the list made of valid entries. */
  lemma {:induction false} RunInvariant(s: AppState, evs: seq<Event>)
    requires Invariant(s)
    ensures Invariant(Run(s, evs))
    decreases |evs|
  {
    if evs != [] {
      StepInvariant(s, evs[0]);
      RunInvariant(Step(s, evs[0]), evs[1..]);
    }
  }

  /** Whatever the user does, every listed entry is valid and the total shown is positive. */
  lemma ReachableInvariant(evs: seq<Event>)
    ensures Invariant(Run(Initial(), evs))
    ensures ShownTotal(Run(Initial(), evs)).Some? ==> ShownTotal(Run(Initial(), evs)).value > 0.0
  {
    InitialState();
    RunInvariant(Initial(), evs);
  }

  /** The entry one event adds to the list: the validated one for an accepted submission, none otherwise. */
  function Added(ev: Event): seq<Entry>
  {
    if ev.SubmitForm? && Validate(ev.name, ev.cost).Success?
    then [Validate(ev.name, ev.cost).value] else []
  }

  /** The entries a sequence of form submissions adds, in order. */
  function Accepted(evs: seq<Event>): seq<Entry>
    decreases |evs|
  {
    if evs == [] then [] else Added(evs[0]) + Accepted(evs[1..])
  }

  /** Every event is a form submission. */
  predicate OnlySubmissions(evs: seq<Event>)
  {
    forall i | 0 <= i < |evs| :: evs[i].SubmitForm?
  }

  /** A submission only appends what it adds. */
  lemma StepSubmission(s: AppState, ev: Event)
    requires ev.SubmitForm?
    ensures Step(s, ev) == s.(entries := s.entries + Added(ev))
  {
    if Validate(ev.name, ev.cost).Failure? {
      assert s.entries + [] == s.entries;
    }
  }

  /** Submissions only append: the list becomes the old list followed by the accepted entries, in order. */
  lemma {:induction false} RunSubmissions(s: AppState, evs: seq<Event>)
    requires OnlySubmissions(evs)
    ensures Run(s, evs) == s.(entries := s.entries + Accepted(evs))
    decreases |evs|
  {
    if evs == [] {
      assert s.entries + [] == s.entries;
    } else {
      var rest := evs[1..];
      assert OnlySubmissions(rest) by {
        forall i | 0 <= i < |rest| ensures rest[i].SubmitForm? {
          assert rest[i] == evs[i + 1];
        }
      }
      StepSubmission(s, evs[0]);
      var next := s.(entries := s.entries + Added(evs[0]));
      assert Run(s, evs) == Run(next, rest);
      RunSubmissions(next, rest);
      assert Accepted(evs) == Added(evs[0]) + Accepted(rest);
      assert next.entries + Accepted(rest) == s.entries + Accepted(evs);
    }
  }

  /** A run of submissions raises the total by exactly the costs of the accepted entries. */
  lemma RunSubmissionsTotal(s: AppState, evs: seq<Event>)
    requires OnlySubmissions(evs)
    ensures Total(Run(s, evs).entries) == Total(s.entries) + Total(Accepted(evs))
  {
    RunSubmissions(s, evs);
    TotalConcat(s.entries, Accepted(evs));
  }

  /** No event in the sequence is a click on Reset. */
  predicate NoReset(evs: seq<Event>)
  {
    forall i | 0 <= i < |evs| :: !evs[i].ResetClicked?
  }

  /** Any event other than Reset changes the list only by appending what it adds. */
  lemma StepEntries(s: AppState, ev: Event)
    requires !ev.ResetClicked?
    ensures Step(s, ev).entries == s.entries + Added(ev)
  {
    if ev.SubmitForm? {
      StepSubmission(s, ev);
    } else {
      assert s.entries + [] == s.entries;
    }
  }

  /**
   * Until Reset the list only grows: whatever submissions, Split presses and
   * headcount edits happen, the list becomes the old list followed by the
   * accepted entries, in order.
   */
  lemma {:induction false} RunWithoutReset(s: AppState, evs: seq<Event>)
    requires NoReset(evs)
    ensures Run(s, evs).entries == s.entries + Accepted(evs)
    decreases |evs|
  {
    if evs == [] {
      assert s.entries + [] == s.entries;
    } else {
      var rest := evs[1..];
      assert NoReset(rest) by {
        forall i | 0 <= i < |rest| ensures !rest[i].ResetClicked? {
          assert rest[i] == evs[i + 1];
        }
      }
      var next := Step(s, evs[0]);
      StepEntries(s, evs[0]);
      assert Run(s, evs) == Run(next, rest);
      RunWithoutReset(next, rest);
      assert Accepted(evs) == Added(evs[0]) + Accepted(rest);
      assert next.entries + Accepted(rest) == s.entries + Accepted(evs);
    }
  }

  /** Until Reset the total rises by exactly the costs of the accepted entries. */
  lemma RunWithoutResetTotal(s: AppState, evs: seq<Event>)
    requires NoReset(evs)
    ensures Total(Run(s, evs).entries) == Total(s.entries) + Total(Accepted(evs))
  {
    RunWithoutReset(s, evs);
    TotalConcat(s.entries, Accepted(evs));
  }

  /** No submission in the sequence is accepted. */
  predicate NoneAccepted(evs: seq<Event>)
  {
    forall i | 0 <= i < |evs| :: evs[i].SubmitForm? ==> Validate(evs[i].name, evs[i].cost).Failure?
  }

  /**
   * After Reset the list is empty and the split panel hidden; the Split button
   * is hidden with the table, so until a submission is accepted nothing the
   * user does changes the state.
   */
  lemma {:induction false} EmptyLedgerIsStuck(s: AppState, evs: seq<Event>)
    requires s.entries == [] && !s.isSplit
    requires NoneAccepted(evs)
    ensures Run(s, evs) == s
    decreases |evs|
  {
    if evs != [] {
      assert Step(s, evs[0]) == s by {
        assert evs[0].SubmitForm? ==> Validate(evs[0].name, evs[0].cost).Failure?;
      }
      assert NoneAccepted(evs[1..]) by {
        forall i | 0 <= i < |evs| - 1
          ensures evs[1..][i].SubmitForm? ==> Validate(evs[1..][i].name, evs[1..][i].cost).Failure?
        {
          assert evs[1..][i] == evs[i + 1];
        }
      }
      EmptyLedgerIsStuck(s, evs[1..]);
    }
  }

  /** The component's state, held in place and changed by its handlers. */
  class Ledger {
    var entries: seq<Entry>
    var headcount: Headcount
    var isSplit: bool

    /** The current values of the three state cells. */
    function State(): AppState
      reads this
    {
      AppState(entries, headcount, isSplit)
    }

    /** Every listed entry passed the form's rules. */
    predicate Valid()
      reads this
    {
      Invariant(State())
    }

    /** Mounting: the seeded list, headcount 1, split panel shown. */
    constructor ()
      ensures State() == Initial()
      ensures Valid()
    {
      entries := InitialEntries;
      headcount := Some(1);
      isSplit := true;
      InitialState();
    }

    /** The form's submit: validate, and on success append the entry (`onSubmit`). */
    method Submit(name: string, cost: CostValue) returns (r: Result<Entry, FormErrors>)
      requires Valid()
      modifies this
      ensures Valid()
      ensures r == Validate(name, cost)
      ensures r.Success? ==> entries == old(entries) + [r.value]
      ensures r.Failure? ==> entries == old(entries)
      ensures headcount == old(headcount) && isSplit == old(isSplit)
      ensures State() == Submitted(old(State()), name, cost)
    {
      r := Validate(name, cost);
      if r.Success? {
        StepInvariant(State(), SubmitForm(name, cost));
        entries := entries + [r.value];
      }
    }

    /** The Reset button's handler. */
    method Reset()
      requires Valid()
      modifies this
      ensures Valid()
      ensures entries == [] && !isSplit && headcount == old(headcount)
      ensures State() == AfterReset(old(State()))
    {
      entries := [];
      isSplit := false;
    }

    /** The Split button's handler. */
    method PressSplit()
      requires Valid()
      modifies this
      ensures Valid()
      ensures isSplit && entries == old(entries) && headcount == old(headcount)
      ensures State() == AfterSplit(old(State()))
    {
      isSplit := true;
    }

    /** The "Split Into" field's change handler, given the parsed value. */
    method SetHeadcount(h: Headcount)
      requires Valid()
      modifies this
      ensures Valid()
      ensures headcount == h && entries == old(entries) && isSplit == old(isSplit)
      ensures State() == WithHeadcount(old(State()), h)
    {
      headcount := h;
    }

    /** `calculateTotalCost`: the sum of the listed costs. */
    function TotalCost(): (t: real)
      reads this
      ensures Valid() ==> t >= 0.0
      ensures Valid() && |entries| > 0 ==> t > 0.0
    {
      TotalPositive(entries);
      Total(entries)
    }

    /** `split`: the total over the headcount, or 0 without a positive headcount. */
    function SplitAmount(): (r: real)
      reads this
      ensures CanSplit(headcount) ==> r * (headcount.value as real) == TotalCost()
      ensures !CanSplit(headcount) ==> r == 0.0
      ensures Valid() ==> 0.0 <= r <= TotalCost()
    {
      SplitBounds(TotalCost(), headcount);
      Split(TotalCost(), headcount)
    }
  }

  /** A session on the page, from mounting to a fresh list after Reset. */
  method Walkthrough()
  {
    var ledger := new Ledger();
    assert ledger.TotalCost() == 13200.0 by { InitialState(); }
    ledger.SetHeadcount(Some(3));
    assert ledger.SplitAmount() == 4400.0;

    var r := ledger.Submit("", Number(5.0));
    assert r == Failure(FormErrors(Some(NameRequired), None));
    r := ledger.Submit("X", NotANumber);
    assert r == Failure(FormErrors(None, Some(CostTypeError)));
    r := ledger.Submit("X", Number(-3.0));
    assert r == Failure(FormErrors(None, Some(CostNotPositive)));
    assert ledger.entries == InitialEntries;

    ledger.SetHeadcount(Some(0));
    assert ledger.SplitAmount() == 0.0;
    ledger.SetHeadcount(Some(-1));
    assert ledger.SplitAmount() == 0.0;
    ledger.SetHeadcount(None);
    assert ledger.SplitAmount() == 0.0;

    ledger.Reset();
    assert ledger.TotalCost() == 0.0;
    assert ledger.entries == [] && !ledger.isSplit;
    r := ledger.Submit("Water", Number(300.0));
    assert ledger.entries == [Entry("Water", 300.0)];
    assert ledger.TotalCost() == 300.0;
  }
}
