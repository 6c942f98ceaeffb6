/** Sequences used as insertion-ordered sets (a JS `Set`, a Python `seen`-set dedupe loop). */
module Seqs {
  /** `s.includes(sub)` in JS, `sub in s` in Python: `sub` occurs as a contiguous run. */
  predicate Contains<T(==)>(s: seq<T>, sub: seq<T>) {
    exists i :: 0 <= i <= |s| && sub <= s[i..]
  }

  predicate NoDup<T(==)>(s: seq<T>) {
    forall i, j :: 0 <= i < j < |s| ==> s[i] != s[j]
  }

  /** `s.filter(x => x !== v)` / `[x for x in s if x != v]`. */
  function Without<T(==,!new)>(s: seq<T>, v: T): (r: seq<T>)
    ensures v !in r
    ensures forall x :: x != v ==> (x in r <==> x in s)
    ensures v !in s ==> r == s
    ensures NoDup(s) ==> NoDup(r)
  {
    if s == [] then []
    else if s[0] == v then Without(s[1..], v)
    else
      var rest := Without(s[1..], v);
      assert NoDup(s) ==> s[0] !in rest by {
        if NoDup(s) { assert s[0] !in s[1..]; }
      }
      [s[0]] + rest
  }

  /** Add `v` unless it is already there. */
  function Insert<T(==,!new)>(s: seq<T>, v: T): (r: seq<T>)
    ensures v in r && s <= r && |r| <= |s| + 1
    ensures forall x :: x in r <==> x in s || x == v
    ensures NoDup(s) ==> NoDup(r)
  {
    if v in s then s else s + [v]
  }

  /** Every element once, in the order of its first occurrence. */
  function Dedupe<T(==,!new)>(xs: seq<T>): (r: seq<T>)
    ensures NoDup(r)
    ensures forall x :: x in r <==> x in xs
  {
    if xs == [] then [] else Insert(Dedupe(xs[..|xs| - 1]), xs[|xs| - 1])
  }

  /**
   * Deduping a longer sequence only appends: what the first part contributes comes first, in the
   * same order.
   */
  lemma {:induction false} DedupePrefix<T(!new)>(xs: seq<T>, ys: seq<T>)
    ensures Dedupe(xs) <= Dedupe(xs + ys)
    decreases |ys|
  {
    if ys == [] {
      assert xs + ys == xs;
    } else {
      var zs := xs + ys;
      var init := xs + ys[..|ys| - 1];
      assert zs[..|zs| - 1] == init;
      DedupePrefix(xs, ys[..|ys| - 1]);
      assert Dedupe(init) <= Dedupe(zs);
      PrefixTrans(Dedupe(xs), Dedupe(init), Dedupe(zs));
    }
  }

  lemma PrefixTrans<T>(a: seq<T>, b: seq<T>, c: seq<T>)
    requires a <= b && b <= c
    ensures a <= c
  {
    assert c[..|a|] == b[..|a|];
  }

  /** A sequence without duplicates is its own dedupe. */
  lemma {:induction false} DedupeNoDup<T(!new)>(xs: seq<T>)
    requires NoDup(xs)
    ensures Dedupe(xs) == xs
  {
    if xs != [] {
      var init := xs[..|xs| - 1];
      var last := xs[|xs| - 1];
      NoDupInit(xs);
      DedupeNoDup(init);
      calc {
        Dedupe(xs);
        Insert(Dedupe(init), last);
        { assert last !in Dedupe(init); }
        init + [last];
        { InitLast(xs); }
        xs;
      }
    }
  }

  /** Dropping the last element keeps the rest distinct and without it. */
  lemma NoDupInit<T>(xs: seq<T>)
    requires NoDup(xs) && xs != []
    ensures NoDup(xs[..|xs| - 1]) && xs[|xs| - 1] !in xs[..|xs| - 1]
  {
    var init := xs[..|xs| - 1];
    forall i, j | 0 <= i < j < |init| ensures init[i] != init[j] {
      assert init[i] == xs[i] && init[j] == xs[j];
    }
    forall i | 0 <= i < |init| ensures init[i] != xs[|xs| - 1] {
      assert init[i] == xs[i];
    }
  }

  lemma InitLast<T>(xs: seq<T>)
    requires xs != []
    ensures xs[..|xs| - 1] + [xs[|xs| - 1]] == xs
  {
  }
}
