/**
 * The entry form's schema: `name` is a required string, `cost` a required
 * positive number. Each field gets its own message; the form submits only
 * when neither field has one.
 */
module Validation {
  import opened Wrappers
  import opened Expenses

  /** The cost field once the schema has cast it to a number. */
  datatype CostValue = Missing | NotANumber | Number(value: real)

  /** The message shown under each input, if any. */
  datatype FormErrors = FormErrors(name: Option<string>, cost: Option<string>)

  const NameRequired: string := "Required"
  const CostTypeError: string := "Cost must be a number"
  const CostNotPositive: string := "Cost must be a positive number"
  const CostRequired: string := "Cost is required"

  /** The name rule: an empty name is refused. */
  function NameError(name: string): Option<string>
  {
    if name == "" then Some(NameRequired) else None
  }

  /**
   * The cost rule: a value that is not a number fails the type check, an
   * absent one the required check, and one that is not above zero the
   * positivity check.
   */
  function CostError(cost: CostValue): Option<string>
  {
    match cost
    case Missing => Some(CostRequired)
    case NotANumber => Some(CostTypeError)
    case Number(c) => if c > 0.0 then None else Some(CostNotPositive)
  }

  /**
   * Checks both fields; on success yields the entry the submit handler
   * receives, otherwise the messages of every failing field.
   */
  function Validate(name: string, cost: CostValue): (r: Result<Entry, FormErrors>)
    ensures r.Success? <==> name != "" && cost.Number? && cost.value > 0.0
    ensures r.Success? ==> ValidEntry(r.value) && r.value.name == name && r.value.cost == cost.value
    ensures r.Failure? ==> (r.error.name.Some? <==> name == "")
    ensures r.Failure? ==> (r.error.cost.Some? <==> !(cost.Number? && cost.value > 0.0))
  {
    match (NameError(name), CostError(cost))
    case (None, None) => Success(Entry(name, cost.value))
    case (n, c) => Failure(FormErrors(n, c))
  }

  /** An entry passes the form exactly when it satisfies the entry rule, and then comes back unchanged. */
  lemma ValidateEntry(e: Entry)
    ensures ValidEntry(e) <==> Validate(e.name, Number(e.cost)).Success?
    ensures ValidEntry(e) ==> Validate(e.name, Number(e.cost)) == Success(e)
  {
  }
}
