/** Small value types shared by every module of the model: optional values,
    results with an error message, and the ordered list of checks that both
    submission validators (login/signup and event authoring) are made of. */
module Values {

  datatype Option<+T> = None | Some(value: T) {
    function GetOr(default: T): T {
      match this
      case Some(v) => v
      case None => default
    }
  }

  datatype Result<+T> = Ok(value: T) | Err(error: string)

  /** One guard of a form validator: whether it passes, and the message the
      form shows when it is the first one that fails. */
  datatype Check = Check(passes: bool, message: string)

  /** The message of the first failing check, if any.  The validators in the
      source are chains of early returns; this is the reference they are
      proved against. */
  function FirstFailure(cs: seq<Check>): (r: Option<string>)
    ensures r.None? <==> forall i :: 0 <= i < |cs| ==> cs[i].passes
    ensures r.Some? ==>
      exists i :: 0 <= i < |cs| && !cs[i].passes && r.value == cs[i].message &&
        forall j :: 0 <= j < i ==> cs[j].passes
  {
    if cs == [] then None
    else if !cs[0].passes then Some(cs[0].message)
    else
      var rest := FirstFailure(cs[1..]);
      assert forall j :: 1 <= j < |cs| ==> cs[j] == cs[1..][j - 1];
      rest
  }
}
