/** Option and Result, the two shapes every fallible operation of the model returns. */
module Wrappers {

  datatype Option<+T> = None | Some(value: T) {
    function GetOr(default: T): T {
      match this
      case Some(v) => v
      case None => default
    }
  }

  /** `Err` carries the message of the exception the Python code raises. */
  datatype Result<+T> = Ok(value: T) | Err(msg: string)

  /** `[f(x) for x in s]`: one result per element, in order. */
  function Map<A, B>(f: A -> B, s: seq<A>): (r: seq<B>)
    ensures |r| == |s|
    ensures forall i :: 0 <= i < |s| ==> r[i] == f(s[i])
  {
    if |s| == 0 then [] else [f(s[0])] + Map(f, s[1..])
  }

  lemma {:induction false} MapAppend<A, B>(f: A -> B, s: seq<A>, x: A)
    ensures Map(f, s + [x]) == Map(f, s) + [f(x)]
  {
  }

  lemma SeqAssoc<T>(a: seq<T>, b: seq<T>, c: seq<T>)
    ensures a + b + c == a + (b + c)
  {
  }

  /** A loop that appends `added` to `done` keeps `whole == done + left` as `left` shrinks to `rest`. */
  lemma AppendStep<T>(whole: seq<T>, done: seq<T>, left: seq<T>, added: seq<T>, rest: seq<T>)
    requires whole == done + left && left == added + rest
    ensures whole == (done + added) + rest
  {
  }
}
