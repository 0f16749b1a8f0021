/**
 * The fail-fast argument checks every endpoint runs before it builds a
 * request: each check is a condition with the message raised when it does
 * not hold, and the checks run in order until the first one that fails.
 */
module Validation {
  import opened Wrappers
  import opened Values

  /** The largest number of identifiers or objects one request may name or ask for. */
  const MaxObjects := 100

  /** `not (xs and len(xs) > 100)`: an absent or empty list is never too long. */
  predicate WithinLimit(xs: Option<seq<string>>)
  {
    !(TruthyList(xs) && |xs.value| > MaxObjects)
  }

  /** One `if not passes: raise TwitchAttributeException(message)` step. */
  datatype Check = Check(passes: bool, message: string)

  /** True when every check holds. */
  predicate AllPass(checks: seq<Check>)
  {
    forall i :: 0 <= i < |checks| ==> checks[i].passes
  }

  /** True when check `i` is the first one that fails. */
  predicate FirstFailure(checks: seq<Check>, i: int)
  {
    0 <= i < |checks| && !checks[i].passes && forall j :: 0 <= j < i ==> checks[j].passes
  }

  /**
   * Runs the checks in order: the first failing one raises its message and
   * nothing is built; when all pass, `value` (the request) is returned.
   */
  function Validated<T>(checks: seq<Check>, value: T): (r: Result<T, Error>)
    ensures r.Ok? <==> AllPass(checks)
    ensures r.Ok? ==> r.value == value
    ensures r.Err? ==> exists i :: FirstFailure(checks, i) && r.error == AttributeError(checks[i].message)
    ensures forall i :: FirstFailure(checks, i) ==> r == Err(AttributeError(checks[i].message))
  {
    if |checks| == 0 then Ok(value)
    else if !checks[0].passes then
      assert FirstFailure(checks, 0);
      Err(AttributeError(checks[0].message))
    else
      var r := Validated(checks[1..], value);
      if r.Err? then
        var i :| FirstFailure(checks[1..], i) && r.error == AttributeError(checks[1..][i].message);
        assert FirstFailure(checks, i + 1);
        r
      else
        r
  }
}
