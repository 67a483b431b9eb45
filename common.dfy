/** Values shared by every page of the web client: optional values, the outcome of a
    backend call, the "is it an array?" test the pages apply to JSON replies, and
    `Array.prototype.filter`. */
module Common {

  datatype Option<+T> = None | Some(value: T)

  /** The outcome of one `api.get/post/put/patch` call: the parsed JSON body, or a
      rejected promise (network error, timeout, non-2xx status). */
  datatype ApiResult<+T> = Ok(data: T) | Failed

  /** A JSON reply as far as the pages inspect it: `Array.isArray(data)` or not. */
  datatype JsonList<+T> = JsonArray(items: seq<T>) | NotAnArray

  /** `Array.isArray(data) ? data : []` */
  function ArrayOrEmpty<T>(d: JsonList<T>): (xs: seq<T>)
    ensures d.JsonArray? ==> xs == d.items
    ensures d.NotAnArray? ==> xs == []
  {
    match d
    case JsonArray(items) => items
    case NotAnArray => []
  }

  /** `xs.filter(keep)`: the elements that pass, in their original order. */
  function Filter<T>(xs: seq<T>, keep: T -> bool): (r: seq<T>)
    ensures |r| <= |xs|
    ensures forall x :: x in r ==> x in xs && keep(x)
    ensures forall x :: x in xs && keep(x) ==> x in r
  {
    if xs == [] then []
    else if keep(xs[0]) then [xs[0]] + Filter(xs[1..], keep)
    else Filter(xs[1..], keep)
  }

  /** `sub` can be obtained from `xs` by deleting elements (order is kept). */
  ghost predicate IsSubsequence<T>(sub: seq<T>, xs: seq<T>)
  {
    if sub == [] then true
    else if xs == [] then false
    else if sub[0] == xs[0] then IsSubsequence(sub[1..], xs[1..])
    else IsSubsequence(sub, xs[1..])
  }

  /** Filtering keeps the surviving elements in their original order. */
  lemma {:induction false} FilterIsSubsequence<T>(xs: seq<T>, keep: T -> bool)
    ensures IsSubsequence(Filter(xs, keep), xs)
  {
    if xs != [] {
      FilterIsSubsequence(xs[1..], keep);
      if !keep(xs[0]) {
        SubsequenceOfTail(Filter(xs[1..], keep), xs);
      }
    }
  }

  /** A subsequence of the tail is a subsequence of the whole. */
  lemma {:induction false} SubsequenceOfTail<T>(sub: seq<T>, xs: seq<T>)
    requires xs != [] && IsSubsequence(sub, xs[1..])
    ensures IsSubsequence(sub, xs)
    decreases |sub| + |xs|
  {
    if sub != [] && sub[0] == xs[0] {
      SubsequenceDropHead(sub, xs[1..]);
    }
  }

  /** Dropping the first element of a subsequence keeps it a subsequence. */
  lemma {:induction false} SubsequenceDropHead<T>(sub: seq<T>, ys: seq<T>)
    requires sub != [] && IsSubsequence(sub, ys)
    ensures IsSubsequence(sub[1..], ys)
    decreases |sub| + |ys|
  {
    if sub[0] == ys[0] {
      SubsequenceOfTail(sub[1..], ys);
    } else {
      SubsequenceDropHead(sub, ys[1..]);
      SubsequenceOfTail(sub[1..], ys);
    }
  }

  /** Filtering a second time with the same test changes nothing. */
  lemma {:induction false} FilterIdempotent<T>(xs: seq<T>, keep: T -> bool)
    ensures Filter(Filter(xs, keep), keep) == Filter(xs, keep)
  {
    if xs != [] {
      FilterIdempotent(xs[1..], keep);
    }
  }
}
