/** The input collector's selection rule. Each console line has already been
    run through the number parser: an attempt is None when parsing failed and
    Some(v) when it produced v. The collector takes the first attempt that is
    a strictly positive number and asks again after every other attempt. */
module InputHandler {

  datatype Option<T> = None | Some(value: T)

  /** An attempt the collector accepts: it parsed, and it is above zero. */
  predicate Accepted(attempt: Option<real>)
  {
    attempt.Some? && attempt.value > 0.0
  }

  /** The position of the first accepted attempt, or None if there is none. */
  function FirstPositive(attempts: seq<Option<real>>): (r: Option<nat>)
    ensures r.Some? ==> r.value < |attempts| && Accepted(attempts[r.value])
    ensures r.Some? ==> forall j :: 0 <= j < r.value ==> !Accepted(attempts[j])
    ensures r.None? ==> forall j :: 0 <= j < |attempts| ==> !Accepted(attempts[j])
  {
    if |attempts| == 0 then
      None
    else if Accepted(attempts[0]) then
      Some(0)
    else
      match FirstPositive(attempts[1..])
      case None => None
      case Some(k) => Some(k + 1)
  }

  /** Reads attempts until one is accepted. Returns the accepted value and the
      number of re-prompts printed before it; when the attempts run out first,
      returns None after one re-prompt per attempt. */
  method GetValidInput(attempts: seq<Option<real>>) returns (value: Option<real>, reprompts: nat)
    ensures value.Some? ==> value.value > 0.0
    ensures match FirstPositive(attempts)
            case Some(k) => value == attempts[k] && reprompts == k
            case None => value == None && reprompts == |attempts|
  {
    reprompts := 0;
    while reprompts < |attempts|
      invariant reprompts <= |attempts|
      invariant forall j :: 0 <= j < reprompts ==> !Accepted(attempts[j])
    {
      var attempt := attempts[reprompts];
      if Accepted(attempt) {
        return attempt, reprompts;
      }
      reprompts := reprompts + 1;
    }
    value := None;
  }

  /** A negative number, then a line that does not parse, then 3: the
      collector returns 3 after two re-prompts. */
  lemma RepromptExample()
    ensures FirstPositive([Some(-5.0), None, Some(3.0)]) == Some(2)
    ensures [Some(-5.0), None, Some(3.0)][2] == Some(3.0)
  {
  }
}
