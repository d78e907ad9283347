/**
 * The column sampling shared by the SELECT, INSERT, UPDATE and UPSERT
 * generators: draw how many columns to keep, shuffle the columns with a
 * reverse Fisher–Yates loop (`for i in (1..len).rev()`, swapping `i` with
 * `draw % (i + 1)`), then keep that many leading columns.
 */
module Sampling {
  import opened Rng
  import opened Schema

  /** The table a generator picks: the first draw modulo the number of tables. */
  function TableIndex(n: nat, s: u32): (i: nat)
    requires n > 0
    ensures i < n
  {
    Draw(s).0 % n
  }

  /** `Vec::swap(i, j)` */
  function Swap<T>(a: seq<T>, i: nat, j: nat): (b: seq<T>)
    requires i < |a| && j < |a|
    ensures |b| == |a| && b[i] == a[j] && b[j] == a[i]
    ensures forall k :: 0 <= k < |a| && k != i && k != j ==> b[k] == a[k]
  {
    a[i := a[j]][j := a[i]]
  }

  /** The iterations `i, i - 1, ..., 1` of the swap loop, from state `s`. */
  function ShuffleLoop<T>(a: seq<T>, i: nat, s: u32): (r: (seq<T>, u32))
    requires i < |a|
    ensures |r.0| == |a|
    decreases i
  {
    if i == 0 then (a, s)
    else
      var (d, s') := Draw(s);
      ShuffleLoop(Swap(a, i, d % (i + 1)), i - 1, s')
  }

  /** The whole swap loop over `a`: no iteration when `a` has fewer than two elements. */
  function Shuffle<T>(a: seq<T>, s: u32): (r: (seq<T>, u32))
    ensures |r.0| == |a|
  {
    if |a| == 0 then (a, s) else ShuffleLoop(a, |a| - 1, s)
  }

  /** Column-count draw, shuffle, prefix: the columns a generator emits. */
  function Sample<T>(cols: seq<T>, s: u32): (r: (seq<T>, u32))
    requires |cols| > 0
  {
    var (d, s1) := Draw(s);
    var count := d % |cols| + 1;
    var (perm, s2) := Shuffle(cols, s1);
    (perm[..count], s2)
  }

  lemma SwapPermutes<T>(a: seq<T>, i: nat, j: nat)
    requires i < |a| && j < |a|
    ensures multiset(Swap(a, i, j)) == multiset(a)
  {
    var b := a[i := a[j]];
    assert multiset(b) == multiset(a) - multiset{a[i]} + multiset{a[j]};
    assert multiset(b[j := a[i]]) == multiset(b) - multiset{b[j]} + multiset{a[i]};
  }

  lemma {:induction false} ShuffleLoopPermutes<T>(a: seq<T>, i: nat, s: u32)
    requires i < |a|
    ensures multiset(ShuffleLoop(a, i, s).0) == multiset(a)
    decreases i
  {
    if i > 0 {
      var (d, s') := Draw(s);
      SwapPermutes(a, i, d % (i + 1));
      ShuffleLoopPermutes(Swap(a, i, d % (i + 1)), i - 1, s');
    }
  }

  lemma {:induction false} ShuffleLoopKeepsDistinct<T>(a: seq<T>, i: nat, s: u32)
    requires i < |a| && Distinct(a)
    ensures Distinct(ShuffleLoop(a, i, s).0)
    decreases i
  {
    if i > 0 {
      var (d, s') := Draw(s);
      var b := Swap(a, i, d % (i + 1));
      assert Distinct(b) by {
        forall p, q | 0 <= p < q < |b|
          ensures b[p] != b[q]
        {
          var j := d % (i + 1);
          var p' := if p == i then j else if p == j then i else p;
          var q' := if q == i then j else if q == j then i else q;
          assert b[p] == a[p'] && b[q] == a[q'] && p' != q';
        }
      }
      ShuffleLoopKeepsDistinct(b, i - 1, s');
    }
  }

  /** The loop consumes one draw per iteration. */
  lemma {:induction false} ShuffleLoopDraws<T>(a: seq<T>, i: nat, s: u32)
    requires i < |a|
    ensures ShuffleLoop(a, i, s).1 == Advance(s, i)
    decreases i
  {
    if i > 0 {
      var (d, s') := Draw(s);
      ShuffleLoopDraws(Swap(a, i, d % (i + 1)), i - 1, s');
    }
  }

  /** The swaps depend on the draws only, so shuffling columns shuffles their names alike. */
  lemma {:induction false} ShuffleLoopNames(a: seq<Column>, i: nat, s: u32)
    requires i < |a|
    ensures Names(ShuffleLoop(a, i, s).0) == ShuffleLoop(Names(a), i, s).0
    decreases i
  {
    if i > 0 {
      var (d, s') := Draw(s);
      var j := d % (i + 1);
      assert Names(Swap(a, i, j)) == Swap(Names(a), i, j);
      ShuffleLoopNames(Swap(a, i, j), i - 1, s');
    }
  }

  lemma ShufflePermutes<T>(cols: seq<T>, s: u32)
    ensures multiset(Shuffle(cols, s).0) == multiset(cols)
  {
    if |cols| > 0 {
      ShuffleLoopPermutes(cols, |cols| - 1, s);
    }
  }

  lemma ShuffleKeepsDistinct<T>(cols: seq<T>, s: u32)
    requires Distinct(cols)
    ensures Distinct(Shuffle(cols, s).0)
  {
    if |cols| > 0 {
      ShuffleLoopKeepsDistinct(cols, |cols| - 1, s);
    }
  }

  /** The count draw and then one draw per swap: `|cols|` draws in all. */
  lemma SampleDraws<T>(cols: seq<T>, s: u32)
    requires |cols| > 0
    ensures Sample(cols, s).1 == Advance(s, |cols|)
  {
    ShuffleLoopDraws(cols, |cols| - 1, Next(s));
    AdvanceAdd(s, 1, |cols| - 1);
    AdvanceOne(s);
  }

  /**
   * What a generator's sampling promises: between one and all of the
   * columns, as many as the count draw says; a prefix of a permutation of
   * the columns, so each is a column of the table and none appears twice
   * when the table has no column twice; exactly `|cols|` draws consumed.
   */
  lemma SampleProperties<T>(cols: seq<T>, s: u32)
    requires |cols| > 0
    ensures 1 <= |Sample(cols, s).0| <= |cols|
    ensures |Sample(cols, s).0| == Output(Next(s)) % |cols| + 1
    ensures Sample(cols, s).0 == Shuffle(cols, Next(s)).0[..|Sample(cols, s).0|]
    ensures multiset(Shuffle(cols, Next(s)).0) == multiset(cols)
    ensures multiset(Sample(cols, s).0) <= multiset(cols)
    ensures forall x :: x in Sample(cols, s).0 ==> x in cols
    ensures Distinct(cols) ==> Distinct(Sample(cols, s).0)
    ensures Sample(cols, s).1 == Advance(s, |cols|)
  {
    var sel := Sample(cols, s).0;
    var perm := Shuffle(cols, Next(s)).0;
    ShufflePermutes(cols, Next(s));
    SampleDraws(cols, s);
    assert perm == sel + perm[|sel|..];
    assert multiset(perm) == multiset(sel) + multiset(perm[|sel|..]);
    MultisetMembers(sel, cols);
    if Distinct(cols) {
      ShuffleKeepsDistinct(cols, Next(s));
      DistinctPrefix(perm, |sel|);
    }
  }

  /** The names of the sampled columns are the sampled names. */
  lemma SampleNames(cols: seq<Column>, s: u32)
    requires |cols| > 0
    ensures Names(Sample(cols, s).0) == Sample(Names(cols), s).0
  {
    ShuffleLoopNames(cols, |cols| - 1, Next(s));
    var n := Output(Next(s)) % |cols| + 1;
    NamesPrefix(Shuffle(cols, Next(s)).0, n);
  }

  /** The swap loop, in place on the array, drawing from `rng`. */
  method ShuffleInPlace<T>(a: array<T>, rng: LcgRng)
    modifies a, rng
    ensures (a[..], rng.next) == Shuffle(old(a[..]), old(rng.next))
  {
    if a.Length == 0 {
      return;
    }
    var i := a.Length - 1;
    while i >= 1
      invariant 0 <= i < a.Length
      invariant ShuffleLoop(a[..], i, rng.next) == Shuffle(old(a[..]), old(rng.next))
    {
      var d := rng.Rand();
      var j := d % (i + 1);
      ghost var before := a[..];
      var t := a[i];
      a[i] := a[j];
      a[j] := t;
      assert a[..] == Swap(before, i, j);
      i := i - 1;
    }
  }

  /** The sampling steps as the generators run them: count, in-place shuffle, prefix. */
  method SampleColumns<T>(cols: seq<T>, rng: LcgRng) returns (selected: seq<T>)
    requires |cols| > 0
    modifies rng
    ensures (selected, rng.next) == Sample(cols, old(rng.next))
  {
    var d := rng.Rand();
    var count := d % |cols| + 1;
    var a := new T[|cols|](i requires 0 <= i < |cols| => cols[i]);
    assert a[..] == cols;
    ShuffleInPlace(a, rng);
    selected := a[..count];
  }

  /** The table the first draw picks from a non-empty list. */
  function Picked(tables: seq<Table>, s: u32): Table
    requires |tables| > 0
  {
    tables[TableIndex(|tables|, s)]
  }

  /** The columns a generator emits for the picked table. */
  function Selected(tables: seq<Table>, s: u32): seq<Column>
    requires |tables| > 0 && |Picked(tables, s).columns| > 0
  {
    Sample(Picked(tables, s).columns, Next(s)).0
  }

  /**
   * The sampling of the typed generators: between one and all columns of
   * the picked table, each one of its columns, no name twice when the table
   * has no name twice; after it the state has advanced by one draw more
   * than the table has columns.
   */
  lemma SelectedProperties(tables: seq<Table>, s: u32)
    requires |tables| > 0 && |Picked(tables, s).columns| > 0
    ensures var cols := Picked(tables, s).columns;
      && 1 <= |Selected(tables, s)| <= |cols|
      && (forall c :: c in Selected(tables, s) ==> c in cols)
      && (Distinct(Names(cols)) ==> Distinct(Names(Selected(tables, s))))
      && Sample(cols, Next(s)).1 == Advance(s, |cols| + 1)
  {
    var cols := Picked(tables, s).columns;
    SampleProperties(cols, Next(s));
    SampleNames(cols, Next(s));
    SampleProperties(Names(cols), Next(s));
    AdvanceOne(s);
    AdvanceAdd(s, 1, |cols|);
  }
}
