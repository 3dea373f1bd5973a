/** Option and Result values shared by every module of the model. */
module Base {

  /** Python's `None` against a present value. */
  datatype Option<+T> = None | Some(value: T)

  /** A value, or the exception that its computation raises (named by a short text). */
  datatype Result<+T> = Ok(value: T) | Err(error: string)

  /**
   * `[f(x) for x in s]` where `f` may raise: every result in order, or the error of the first element
   * whose computation raises.
   */
  function MapAll<T, U>(s: seq<T>, f: T -> Result<U>): (r: Result<seq<U>>)
    ensures r.Ok? <==> forall k :: 0 <= k < |s| ==> f(s[k]).Ok?
    ensures r.Ok? ==> |r.value| == |s| && forall k :: 0 <= k < |s| ==> f(s[k]) == Ok(r.value[k])
    ensures r.Err? ==> exists k :: 0 <= k < |s| && f(s[k]) == Err(r.error) && forall j :: 0 <= j < k ==> f(s[j]).Ok?
  {
    if s == [] then Ok([])
    else
      var init := s[..|s| - 1];
      assert forall k :: 0 <= k < |init| ==> init[k] == s[k];
      match MapAll(init, f)
      case Err(e) => Err(e)
      case Ok(p) =>
        match f(s[|s| - 1])
        case Err(e) => Err(e)
        case Ok(x) => Ok(p + [x])
  }
}
