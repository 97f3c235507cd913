/**
  The few Python built-ins the research and reporting code relies on, with
  Python's semantics written out: the slice `s[:n]` (also for negative `n`),
  `sep.join(parts)`, and `list(set(xs))`, whose order is not specified.
 */
module Builtins {

  /** The elements of a sequence, as a set. */
  function Elems<T>(s: seq<T>): set<T> {
    set x | x in s
  }

  lemma ElemsConcat<T>(a: seq<T>, b: seq<T>)
    ensures Elems(a + b) == Elems(a) + Elems(b)
  {
  }

  /** No element occurs twice (exact equality). */
  predicate NoDups<T(==)>(s: seq<T>) {
    forall i, j :: 0 <= i < j < |s| ==> s[i] != s[j]
  }

  predicate IsPrefix<T(==)>(p: seq<T>, s: seq<T>) {
    |p| <= |s| && p == s[..|p|]
  }

  /**
    Python's `s[:n]`: the first `n` elements when `n >= 0` (all of them if
    there are fewer), and all but the last `-n` elements when `n < 0`.
   */
  function Prefix<T>(s: seq<T>, n: int): (r: seq<T>)
    ensures |r| <= |s| && r == s[..|r|]
    ensures n >= 0 ==> |r| == if n <= |s| then n else |s|
    ensures n < 0 ==> |r| == if -n <= |s| then |s| + n else 0
  {
    if n >= 0 then
      (if n <= |s| then s[..n] else s)
    else
      (if -n <= |s| then s[..|s| + n] else [])
  }

  /** Python's `sep.join(parts)`. */
  function Join(sep: string, parts: seq<string>): string
    decreases |parts|
  {
    if |parts| == 0 then ""
    else if |parts| == 1 then parts[0]
    else Join(sep, parts[..|parts| - 1]) + sep + parts[|parts| - 1]
  }

  /** Joining one more part appends the separator and that part. */
  lemma JoinAppend(sep: string, parts: seq<string>, p: string)
    ensures Join(sep, parts + [p]) == if parts == [] then p else Join(sep, parts) + sep + p
  {
    var ps := parts + [p];
    assert ps[..|ps| - 1] == parts;
  }

  /** A join is empty exactly when there is nothing to join, provided no part is empty. */
  lemma {:induction false} JoinEmpty(sep: string, parts: seq<string>)
    requires forall k :: 0 <= k < |parts| ==> parts[k] != ""
    ensures Join(sep, parts) == "" <==> parts == []
  {
    if |parts| > 1 {
      var last := parts[|parts| - 1];
      assert last != "";
      assert |Join(sep, parts)| >= |last| > 0;
    }
  }

  /** The distinct elements of `s`, each once, in first-occurrence order. */
  function Unique<T(==)>(s: seq<T>): (r: seq<T>)
    ensures NoDups(r) && Elems(r) == Elems(s)
  {
    if s == [] then []
    else
      var rest := Unique(s[..|s| - 1]);
      var x := s[|s| - 1];
      assert Elems(s) == Elems(s[..|s| - 1]) + {x} by {
        assert s == s[..|s| - 1] + [x];
      }
      if x in rest then rest
      else
        assert forall i :: 0 <= i < |rest| ==> (rest + [x])[i] == rest[i];
        rest + [x]
  }

  /** `order` proposes a listing of the distinct elements of `s`. */
  predicate IsListingOf<T(==)>(c: seq<T>, s: seq<T>) {
    NoDups(c) && Elems(c) == Elems(s)
  }

  /**
    Python's `list(set(s))`: the distinct elements of `s`, each once, in the
    order the runtime's set happens to iterate. That order is unspecified, so
    it is a parameter: `order(s)` is used when it is a listing of the distinct
    elements of `s`; any other proposal falls back to first-occurrence order.
   */
  function ListOfSet<T(==)>(order: seq<T> -> seq<T>, s: seq<T>): (r: seq<T>)
    ensures NoDups(r) && Elems(r) == Elems(s)
    ensures |r| == |Elems(s)|
  {
    var c := order(s);
    var r := if IsListingOf(c, s) then c else Unique(s);
    DistinctCard(r);
    r
  }

  /** Every listing of the distinct elements is one the runtime may choose. */
  lemma ListOfSetAnyOrder<T>(c: seq<T>, s: seq<T>)
    requires IsListingOf(c, s)
    ensures ListOfSet(_ => c, s) == c
  {
  }

  /** A sequence without duplicates has as many elements as its set. */
  lemma {:induction false} DistinctCard<T>(s: seq<T>)
    requires NoDups(s)
    ensures |Elems(s)| == |s|
  {
    if s != [] {
      var init := s[..|s| - 1];
      var x := s[|s| - 1];
      assert s == init + [x];
      assert NoDups(init) by {
        forall i, j | 0 <= i < j < |init| ensures init[i] != init[j] {
          assert init[i] == s[i] && init[j] == s[j];
        }
      }
      DistinctCard(init);
      assert x !in init;
      assert Elems(s) == Elems(init) + {x};
    }
  }
}
