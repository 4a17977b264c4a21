/** Values and list primitives shared by every part of the model: the
    nullable result (`T | null`), the thrown-error result, and the JavaScript
    array searches `find`/`findIndex` by id that every store uses. */
module Common {

  datatype Option<T> = None | Some(value: T) {
    /** `x || d` / `x ?? d` for a field that is either present or absent. */
    function GetOr(default: T): T {
      match this
      case Some(v) => v
      case None => default
    }
  }

  /** A call that either returns a value or throws `new Error(message)`. */
  datatype Result<T> = Ok(value: T) | Err(message: string)

  /** `k` is the position `findIndex(x => x.id === id)` answers. */
  ghost predicate IsFirst(ids: seq<string>, id: string, k: int) {
    0 <= k < |ids| && ids[k] == id && forall j :: 0 <= j < k ==> ids[j] != id
  }

  /** `Array.prototype.findIndex` on an id key: the first position holding
      `id`, or None where JavaScript answers -1. */
  function FirstIndex(ids: seq<string>, id: string): (r: Option<nat>)
    ensures r.Some? ==> IsFirst(ids, id, r.value)
    ensures r.None? <==> id !in ids
  {
    if |ids| == 0 then None
    else if ids[0] == id then Some(0)
    else match FirstIndex(ids[1..], id)
      case None => None
      case Some(k) => Some(k + 1)
  }

  /** `k` is the first list (in order) that holds `id`: what a
      `for (const x of xs) { if (x.list.findIndex(...) !== -1) ... }` scan stops on. */
  ghost predicate IsFirstHolder(lists: seq<seq<string>>, id: string, k: int) {
    0 <= k < |lists| && id in lists[k] && forall j :: 0 <= j < k ==> id !in lists[j]
  }

  /** The first list that holds `id`, or None when no list does. */
  function FirstHolding(lists: seq<seq<string>>, id: string): (r: Option<nat>)
    ensures r.Some? ==> IsFirstHolder(lists, id, r.value)
    ensures r.None? <==> forall j :: 0 <= j < |lists| ==> id !in lists[j]
  {
    if |lists| == 0 then None
    else if id in lists[0] then Some(0)
    else match FirstHolding(lists[1..], id)
      case None => None
      case Some(k) => Some(k + 1)
  }

  /** The first position holding an id is the only one with that name. */
  lemma FirstIsUnique(ids: seq<string>, id: string, k: int)
    requires IsFirst(ids, id, k)
    ensures forall k' :: IsFirst(ids, id, k') <==> k' == k
  {
  }

  /** The first list holding an id is the only one with that name. */
  lemma FirstHolderIsUnique(lists: seq<seq<string>>, id: string, k: int)
    requires IsFirstHolder(lists, id, k)
    ensures forall k' :: IsFirstHolder(lists, id, k') <==> k' == k
  {
  }

  /** No value occurs twice. */
  ghost predicate NoDuplicates(s: seq<string>) {
    forall i, j :: 0 <= i < j < |s| ==> s[i] != s[j]
  }

  /** `a` is `b` with some entries dropped and the rest kept in their
      order. Matched from the back: the last entry of `a` is either the last
      entry of `b`, or `a` lies within `b` without its last entry. */
  ghost predicate IsSubsequence<T>(a: seq<T>, b: seq<T>)
    decreases |b|
  {
    if a == [] then true
    else if b == [] then false
    else
      || (a[|a| - 1] == b[|b| - 1] && IsSubsequence(a[..|a| - 1], b[..|b| - 1]))
      || IsSubsequence(a, b[..|b| - 1])
  }

  /** `idx` lists, in increasing order, the positions of `b` that make up
      `a`. */
  ghost predicate IsEmbedding<T>(idx: seq<nat>, a: seq<T>, b: seq<T>) {
    && |idx| == |a|
    && (forall k :: 0 <= k < |idx| ==> idx[k] < |b| && a[k] == b[idx[k]])
    && (forall k, l :: 0 <= k < l < |idx| ==> idx[k] < idx[l])
  }

  /** A subsequence picks its entries from strictly increasing positions of
      the whole. */
  lemma {:induction false} SubsequenceEmbeds<T>(a: seq<T>, b: seq<T>)
    requires IsSubsequence(a, b)
    ensures exists idx: seq<nat> :: IsEmbedding(idx, a, b)
    decreases |b|
  {
    if a == [] {
      var none: seq<nat> := [];
      assert IsEmbedding(none, a, b);
    } else {
      var a', b' := a[..|a| - 1], b[..|b| - 1];
      if a[|a| - 1] == b[|b| - 1] && IsSubsequence(a', b') {
        SubsequenceEmbeds(a', b');
        var idx: seq<nat> :| IsEmbedding(idx, a', b');
        var idx' := idx + [|b'|];
        assert IsEmbedding(idx', a, b);
      } else {
        SubsequenceEmbeds(a, b');
        var idx: seq<nat> :| IsEmbedding(idx, a, b');
        assert IsEmbedding(idx, a, b);
      }
    }
  }

  /** Dropping a new last entry keeps a subsequence. */
  lemma SubsequenceSkip<T>(a: seq<T>, b: seq<T>, x: T)
    requires IsSubsequence(a, b)
    ensures IsSubsequence(a, b + [x])
  {
    assert (b + [x])[..|b|] == b;
  }

  /** Keeping a new last entry keeps a subsequence. */
  lemma SubsequenceKeep<T>(a: seq<T>, b: seq<T>, x: T)
    requires IsSubsequence(a, b)
    ensures IsSubsequence(a + [x], b + [x])
  {
    assert (a + [x])[..|a|] == a;
    assert (b + [x])[..|b|] == b;
  }

  /** The empty sequence is a subsequence of anything. */
  lemma SubsequenceEmpty<T>(b: seq<T>)
    ensures IsSubsequence([], b)
  {
  }

  /** `xs.filter(keep)`: the entries that pass, in their order. */
  function Filter<T(!new)>(xs: seq<T>, keep: T -> bool): (r: seq<T>)
    ensures IsSubsequence(r, xs)
    ensures forall i :: 0 <= i < |r| ==> keep(r[i])
    ensures forall i :: 0 <= i < |xs| && keep(xs[i]) ==> xs[i] in r
    ensures forall x :: multiset(r)[x] == if keep(x) then multiset(xs)[x] else 0
    decreases |xs|
  {
    if xs == [] then
      SubsequenceEmpty(xs);
      []
    else
      var front := xs[..|xs| - 1];
      var last := xs[|xs| - 1];
      var rest := Filter(front, keep);
      assert xs == front + [last];
      FilterStep(front, last, rest, keep);
      if keep(last) then rest + [last] else rest
  }

  /** One more entry keeps what the filter promises: the new entry is
      appended when it passes and skipped otherwise. */
  lemma FilterStep<T(!new)>(front: seq<T>, last: T, rest: seq<T>, keep: T -> bool)
    requires IsSubsequence(rest, front)
    requires forall i :: 0 <= i < |rest| ==> keep(rest[i])
    requires forall i :: 0 <= i < |front| && keep(front[i]) ==> front[i] in rest
    requires forall x :: multiset(rest)[x] == if keep(x) then multiset(front)[x] else 0
    ensures var xs, r := front + [last], if keep(last) then rest + [last] else rest;
      && IsSubsequence(r, xs)
      && (forall i :: 0 <= i < |r| ==> keep(r[i]))
      && (forall i :: 0 <= i < |xs| && keep(xs[i]) ==> xs[i] in r)
      && (forall x :: multiset(r)[x] == if keep(x) then multiset(xs)[x] else 0)
  {
    var xs := front + [last];
    assert multiset(xs) == multiset(front) + multiset{last};
    if keep(last) {
      SubsequenceKeep(rest, front, last);
      assert multiset(rest + [last]) == multiset(rest) + multiset{last};
      forall i | 0 <= i < |xs| && keep(xs[i]) ensures xs[i] in rest + [last] {
        if i < |front| { assert xs[i] == front[i]; }
      }
    } else {
      SubsequenceSkip(rest, front, last);
      forall i | 0 <= i < |xs| && keep(xs[i]) ensures xs[i] in rest {
        assert i < |front| && xs[i] == front[i];
      }
    }
  }

  /** When every entry passes, the filter keeps them all, in order. */
  lemma {:induction false} FilterKeepsAll<T(!new)>(xs: seq<T>, keep: T -> bool)
    requires forall i :: 0 <= i < |xs| ==> keep(xs[i])
    ensures Filter(xs, keep) == xs
    decreases |xs|
  {
    if xs != [] {
      var front, last := xs[..|xs| - 1], xs[|xs| - 1];
      FilterKeepsAll(front, keep);
      assert keep(last);
      assert Filter(xs, keep) == Filter(front, keep) + [last];
      assert xs == front + [last];
    }
  }
}
