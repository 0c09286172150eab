/**
 * The backend reply as the handlers see it. axios is not modelled: a call
 * either comes back with a status and a (possibly null) `data` body, or
 * throws. Fields of the body that the handlers read are optional strings.
 */
module Backend {
  import opened Wrappers
  import opened JsString

  /** `data.user` of the token-check reply. */
  datatype UserInfo = UserInfo(userType: Option<string>)

  /** `response.data`: every field any of the auth endpoints is read for. */
  datatype Body = Body(
    error: Option<string>,
    message: Option<string>,
    msg: Option<string>,
    token: Option<string>,
    id: Option<string>,
    role: Option<string>,
    avatar: Option<string>,
    name: Option<string>,
    email: Option<string>,
    user: Option<UserInfo>)

  /** What reaches a `catch`: an axios error (with the body of its response, if any) or anything else. */
  datatype Failure = AxiosError(data: Option<Body>, message: string) | OtherError

  datatype Reply = Responded(status: int, data: Option<Body>) | Threw(failure: Failure)

  /** A body with no fields, from which concrete replies are built. */
  const EmptyBody := Body(None, None, None, None, None, None, None, None, None, None)

  /** `data?.error` and `data?.message`, missing when `data` itself is. */
  function DataError(data: Option<Body>): Option<string> {
    if data.Some? then data.value.error else None
  }

  function DataMessage(data: Option<Body>): Option<string> {
    if data.Some? then data.value.message else None
  }

  /** The position of the first truthy operand of a `||` chain, or `|cs|` when none is. */
  function FirstTruthyIndex(cs: seq<Option<string>>): (k: nat)
    ensures k <= |cs|
    ensures forall j :: 0 <= j < k ==> !Truthy(cs[j])
    ensures k < |cs| ==> Truthy(cs[k])
  {
    if cs == [] then 0
    else if Truthy(cs[0]) then 0
    else 1 + FirstTruthyIndex(cs[1..])
  }

  /** `cs[0] || cs[1] || ... || last`: the first truthy operand, else the last one as it is. */
  function OrElse(cs: seq<Option<string>>, last: string): string
  {
    var k := FirstTruthyIndex(cs);
    if k < |cs| then cs[k].value else last
  }

  /** The chain yields `last` when no operand is truthy, and otherwise its first truthy operand. */
  lemma OrElseFirstTruthy(cs: seq<Option<string>>, last: string)
    ensures (forall j :: 0 <= j < |cs| ==> !Truthy(cs[j])) ==> OrElse(cs, last) == last
    ensures (exists j :: 0 <= j < |cs| && Truthy(cs[j])) ==>
              exists i :: 0 <= i < |cs| && cs[i] == Some(OrElse(cs, last)) && OrElse(cs, last) != ""
                       && forall j :: 0 <= j < i ==> !Truthy(cs[j])
  {
    var k := FirstTruthyIndex(cs);
    if k < |cs| {
      assert cs[k] == Some(OrElse(cs, last));
    }
  }

  /** Unfolds a `||` chain by one operand. */
  lemma {:induction false} OrElseCons(c: Option<string>, rest: seq<Option<string>>, last: string)
    ensures OrElse([c] + rest, last) == if Truthy(c) then c.value else OrElse(rest, last)
  {
    assert ([c] + rest)[1..] == rest;
  }

  /**
   * The message a `catch` block shows: for an axios error
   * `error.response?.data?.error || error.response?.data?.message || error.message`,
   * for anything else the handler's own generic message.
   */
  function ErrorMessage(f: Failure, generic: string): (m: string)
    ensures f.OtherError? ==> m == generic
    ensures f.AxiosError? && Truthy(DataError(f.data)) ==> m == DataError(f.data).value
    ensures (f.AxiosError? && !Truthy(DataError(f.data)) && Truthy(DataMessage(f.data)))
              ==> m == DataMessage(f.data).value
    ensures (f.AxiosError? && !Truthy(DataError(f.data)) && !Truthy(DataMessage(f.data)))
              ==> m == f.message
    ensures f.AxiosError? ==> m != "" || m == f.message
  {
    match f
    case OtherError => generic
    case AxiosError(data, message) =>
      OrElseCons(DataError(data), [DataMessage(data)], message);
      OrElseCons(DataMessage(data), [], message);
      OrElse([DataError(data), DataMessage(data)], message)
  }

  /** `response.data.message || fallback` for a reply whose body is present. */
  function MessageOr(data: Body, fallback: string): (m: string)
    ensures Truthy(data.message) ==> m == data.message.value
    ensures !Truthy(data.message) ==> m == fallback
  {
    OrElseCons(data.message, [], fallback);
    OrElse([data.message], fallback)
  }
}
