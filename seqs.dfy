/** The two list rebuilds every store in the front end uses: an id-keyed `map`
    that rewrites the matching elements, and `filter`. */
module Seqs {

  /** `s.map(x => key(x) === id ? f(x) : x)`: one element out for each element in. */
  function MapMatching<T>(s: seq<T>, key: T -> string, id: string, f: T -> T): (r: seq<T>)
    ensures |r| == |s|
  {
    if s == [] then []
    else [if key(s[0]) == id then f(s[0]) else s[0]] + MapMatching(s[1..], key, id, f)
  }

  /** The rewrite changes exactly the elements whose key is `id`, each by `f`, in place. */
  lemma {:induction false} MapMatchingAt<T>(s: seq<T>, key: T -> string, id: string, f: T -> T)
    ensures forall i :: 0 <= i < |s| ==>
      MapMatching(s, key, id, f)[i] == (if key(s[i]) == id then f(s[i]) else s[i])
  {
    if s != [] {
      var t := s[1..];
      MapMatchingAt(t, key, id, f);
      assert forall i :: 0 < i < |s| ==> s[i] == t[i - 1];
    }
  }

  /** With no element keyed `id`, the rewrite gives back the list itself. */
  lemma MapMatchingAbsent<T>(s: seq<T>, key: T -> string, id: string, f: T -> T)
    requires forall i :: 0 <= i < |s| ==> key(s[i]) != id
    ensures MapMatching(s, key, id, f) == s
  {
    MapMatchingAt(s, key, id, f);
  }

  /** `s.filter(keep)`: the elements that pass, in their original order. */
  function Filter<T>(s: seq<T>, keep: T -> bool): (r: seq<T>)
    ensures |r| <= |s|
  {
    if s == [] then []
    else (if keep(s[0]) then [s[0]] else []) + Filter(s[1..], keep)
  }

  /** An element is in the filtered list exactly when it is in the list and passes. */
  lemma {:induction false} FilterMembers<T>(s: seq<T>, keep: T -> bool)
    ensures forall x :: x in Filter(s, keep) <==> x in s && keep(x)
  {
    if s != [] {
      FilterMembers(s[1..], keep);
      assert s == [s[0]] + s[1..];
    }
  }

  /** Filtering distributes over concatenation: the kept elements stay in order. */
  lemma {:induction false} FilterConcat<T>(a: seq<T>, b: seq<T>, keep: T -> bool)
    ensures Filter(a + b, keep) == Filter(a, keep) + Filter(b, keep)
  {
    if a == [] {
      assert a + b == b;
    } else {
      var head := if keep(a[0]) then [a[0]] else [];
      assert (a + b)[0] == a[0] && (a + b)[1..] == a[1..] + b;
      assert Filter(a + b, keep) == head + Filter(a[1..] + b, keep);
      FilterConcat(a[1..], b, keep);
      assert Filter(a, keep) == head + Filter(a[1..], keep);
    }
  }

  /** A filter that every element passes changes nothing. */
  lemma {:induction false} FilterKeepsAll<T>(s: seq<T>, keep: T -> bool)
    requires forall i :: 0 <= i < |s| ==> keep(s[i])
    ensures Filter(s, keep) == s
  {
    if s != [] {
      FilterKeepsAll(s[1..], keep);
    }
  }

  /** A filter that lets through everything except position `k` cuts out exactly that position. */
  lemma {:induction false} FilterDropsOne<T>(s: seq<T>, keep: T -> bool, k: int)
    requires 0 <= k < |s|
    requires !keep(s[k])
    requires forall i :: 0 <= i < |s| && i != k ==> keep(s[i])
    ensures Filter(s, keep) == s[..k] + s[k + 1..]
    decreases k
  {
    var t := s[1..];
    assert forall i :: 0 <= i < |t| ==> t[i] == s[i + 1];
    if k == 0 {
      FilterKeepsAll(t, keep);
      assert s[..0] + s[1..] == t;
    } else {
      FilterDropsOne(t, keep, k - 1);
      assert s[..k] == [s[0]] + t[..k - 1];
      assert s[k + 1..] == t[k..];
    }
  }

  lemma SplitAt<T>(s: seq<T>, k: int)
    requires 0 <= k < |s|
    ensures s == s[..k] + ([s[k]] + s[k + 1..])
  {
  }

  function KeyIsNot<T>(key: T -> string, id: string): T -> bool
  {
    (x: T) => key(x) != id
  }

  /** `s.filter(x => key(x) !== id)`: drop every element keyed `id`. */
  function RemoveKey<T>(s: seq<T>, key: T -> string, id: string): seq<T>
  {
    Filter(s, KeyIsNot(key, id))
  }

  /** What survives the removal is exactly the elements keyed otherwise; with none keyed `id`
      the list comes back unchanged. */
  lemma RemoveKeyMembers<T>(s: seq<T>, key: T -> string, id: string)
    ensures forall x :: x in RemoveKey(s, key, id) <==> x in s && key(x) != id
    ensures (forall i :: 0 <= i < |s| ==> key(s[i]) != id) ==> RemoveKey(s, key, id) == s
  {
    FilterMembers(s, KeyIsNot(key, id));
    if forall i :: 0 <= i < |s| ==> key(s[i]) != id {
      FilterKeepsAll(s, KeyIsNot(key, id));
    }
  }

  /** The removal keeps the survivors in their original order. */
  lemma RemoveKeyConcat<T>(a: seq<T>, b: seq<T>, key: T -> string, id: string)
    ensures RemoveKey(a + b, key, id) == RemoveKey(a, key, id) + RemoveKey(b, key, id)
  {
    FilterConcat(a, b, KeyIsNot(key, id));
  }

  /** When position `k` holds the only element keyed `id`, the removal cuts out just that position. */
  lemma RemoveKeyAt<T>(s: seq<T>, key: T -> string, id: string, k: int)
    requires 0 <= k < |s| && key(s[k]) == id
    requires forall i :: 0 <= i < |s| && i != k ==> key(s[i]) != id
    ensures RemoveKey(s, key, id) == s[..k] + s[k + 1..]
  {
    FilterDropsOne(s, KeyIsNot(key, id), k);
  }
}
