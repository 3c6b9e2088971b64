/** Option and Result, the shapes used for JavaScript's `undefined` and for thrown errors. */
module Wrappers {

  datatype Option<+T> = None | Some(value: T)

  datatype Result<+R, +E> = Success(value: R) | Failure(error: E)

  /** The HTTP error a NestJS exception turns into: its status code and its message. */
  datatype HttpError = HttpError(status: int, message: string)

  /** Status codes of the exceptions the services throw. */
  const InternalServerError: int := 500
  const BadGateway: int := 502

  /** `s` with the prefix `p` removed, or None when `s` does not start with `p`. */
  function StripPrefix(s: string, p: string): (r: Option<string>)
    ensures r.Some? <==> p <= s
    ensures r.Some? ==> p + r.value == s
  {
    if p <= s then
      assert s == p + s[|p|..];
      Some(s[|p|..])
    else None
  }

  lemma StripPrefixOfConcat(p: string, t: string)
    ensures StripPrefix(p + t, p) == Some(t)
  {
    assert (p + t)[|p|..] == t;
  }
}
