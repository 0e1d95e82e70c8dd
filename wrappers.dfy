/** Optional values, results and the errors the library throws. */
module Wrappers {

  datatype Option<T> = None | Some(value: T)

  /** The errors a call can end in: the library's own `throw new Error(...)` messages, and the
      JavaScript TypeError raised when a property of `undefined` is read. */
  datatype Error =
    | InvalidNoteName(name: string)
    | InvalidBassNote(bass: string)
    | UnknownQuality(quality: string)
    | InvalidBluesMode(mode: string)
    | UnsupportedScale
    | UndefinedAccess(what: string)

  /** A value, or the error that aborted the computation of it. */
  datatype Result<T> = Ok(value: T) | Err(error: Error)

  /** The text of the exception; the TypeError's text is the JavaScript engine's, so only the
      expression read through `undefined` is kept. */
  function Message(e: Error): string
  {
    match e
    case InvalidNoteName(n) => n + " is not a valid note name"
    case InvalidBassNote(b) => "Bass note '" + b + "' is not a member of this chord"
    case UnknownQuality(q) => "Unknown quality " + q
    case InvalidBluesMode(m) => "Invalid mode for blues scale: " + m
    case UnsupportedScale => "Only major and minor scales are supported"
    case UndefinedAccess(w) => "Cannot read properties of undefined (" + w + ")"
  }

  /** `indexOf`: the first index holding `x`, or -1. */
  function IndexOf<T(==)>(s: seq<T>, x: T): (r: int)
    ensures r == -1 <==> x !in s
    ensures r != -1 ==> 0 <= r < |s| && s[r] == x && x !in s[..r]
  {
    if |s| == 0 then -1
    else if s[0] == x then 0
    else
      var k := IndexOf(s[1..], x);
      assert k != -1 ==> s[..k + 1] == [s[0]] + s[1..][..k];
      if k == -1 then -1 else k + 1
  }

  /** The first index holding `x` is `k` when `x` is at `k` and nowhere before it. */
  lemma IndexOfAt<T>(s: seq<T>, x: T, k: int)
    requires 0 <= k < |s| && s[k] == x
    requires forall j :: 0 <= j < k ==> s[j] != x
    ensures IndexOf(s, x) == k
  {
  }

  /** A prefix one longer is the shorter prefix and the next element. */
  lemma PrefixSnoc<T>(s: seq<T>, i: int)
    requires 0 <= i < |s|
    ensures s[..i + 1] == s[..i] + [s[i]]
  {
  }
}
