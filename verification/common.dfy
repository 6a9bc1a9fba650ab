/** Small vocabulary shared by every store and page of the storefront:
    optional values, results that carry an error message, and the list
    operations the stores use (findIndex, find, filter). */
module Common {

  /** A value that may be absent (`null` / `undefined` in the client). */
  datatype Option<+T> = None | Some(value: T)

  /** The outcome of an operation that either yields a value or fails with
      the message the client records in its `error` field. */
  datatype Result<+T> = Ok(value: T) | Err(message: string)

  /** A reply from a remote endpoint: either the server answered with an
      HTTP status and a parsed body, or the request itself threw (network
      failure, unparsable body) with the given message. */
  datatype Reply<+T> = Answered(status: int, body: T) | Failed(message: string)
  {
    /** `Response.ok`: the status lies in 200..299. */
    predicate Ok() { Answered? && 200 <= status <= 299 }
  }

  function Min(a: int, b: int): int { if a <= b then a else b }

  function Max(a: int, b: int): int { if a <= b then b else a }

  /** `Array.prototype.findIndex`, with `None` standing for -1: the position
      of the first element satisfying `p`. */
  function FirstIndex<T>(s: seq<T>, p: T -> bool): (r: Option<nat>)
    ensures r.Some? ==> r.value < |s| && p(s[r.value])
    ensures r.Some? ==> forall j :: 0 <= j < r.value ==> !p(s[j])
    ensures r.None? <==> forall j :: 0 <= j < |s| ==> !p(s[j])
  {
    if |s| == 0 then None
    else if p(s[0]) then Some(0)
    else
      match FirstIndex(s[1..], p)
      case None => None
      case Some(k) => Some(k + 1)
  }

  /** Overwriting the first match with another element that satisfies `p`
      leaves the first match where it was. */
  lemma FirstIndexUpdate<T>(s: seq<T>, p: T -> bool, k: nat, x: T)
    requires FirstIndex(s, p) == Some(k) && p(x)
    ensures FirstIndex(s[k := x], p) == Some(k)
  {
    var t := s[k := x];
    assert p(t[k]);
    forall j | 0 <= j < k
      ensures !p(t[j])
    {
      assert t[j] == s[j];
    }
  }

  /** `Array.prototype.find`: the first element satisfying `p`, if any. */
  function First<T>(s: seq<T>, p: T -> bool): (r: Option<T>)
    ensures r.Some? <==> exists j :: 0 <= j < |s| && p(s[j])
    ensures r.Some? ==> r.value in s && p(r.value)
  {
    match FirstIndex(s, p)
    case None => None
    case Some(k) => Some(s[k])
  }

  /** `Array.prototype.filter`: the elements satisfying `p`, in their order. */
  function Filter<T>(s: seq<T>, p: T -> bool): (r: seq<T>)
    ensures |r| <= |s|
    ensures forall j :: 0 <= j < |r| ==> r[j] in s && p(r[j])
    ensures forall j :: 0 <= j < |s| && p(s[j]) ==> s[j] in r
  {
    if |s| == 0 then []
    else (if p(s[0]) then [s[0]] else []) + Filter(s[1..], p)
  }

  /** Filtering distributes over concatenation, so it keeps the relative
      order of the elements it keeps. */
  lemma {:induction false} FilterAppend<T>(a: seq<T>, b: seq<T>, p: T -> bool)
    ensures Filter(a + b, p) == Filter(a, p) + Filter(b, p)
  {
    if |a| == 0 {
      assert a + b == b;
    } else {
      assert (a + b)[1..] == a[1..] + b;
      FilterAppend(a[1..], b, p);
    }
  }

  /** Filtering keeps the length exactly when every element passes, and then
      it returns the list itself; otherwise the result is strictly shorter. */
  lemma {:induction false} FilterLength<T>(s: seq<T>, p: T -> bool)
    ensures |Filter(s, p)| == |s| <==> forall j :: 0 <= j < |s| ==> p(s[j])
    ensures (forall j :: 0 <= j < |s| ==> p(s[j])) ==> Filter(s, p) == s
  {
    if |s| > 0 {
      var tail := s[1..];
      FilterLength(tail, p);
      assert forall j :: 1 <= j < |s| ==> tail[j - 1] == s[j];
      if p(s[0]) {
        assert Filter(s, p) == [s[0]] + Filter(tail, p);
        assert [s[0]] + tail == s;
      }
    }
  }

  /** Replacing every element that satisfies `p` by `x` and keeping the
      others (`list.map(e => p(e) ? x : e)`). */
  function ReplaceWhere<T>(s: seq<T>, p: T -> bool, x: T): (r: seq<T>)
    ensures |r| == |s|
    ensures forall j :: 0 <= j < |s| ==> r[j] == if p(s[j]) then x else s[j]
  {
    seq(|s|, j requires 0 <= j < |s| => if p(s[j]) then x else s[j])
  }
}
