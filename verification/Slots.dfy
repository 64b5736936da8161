/** A sequence kept as numbered slots: laying the slots end to end, and what inserting and
    rewriting do to the result. `Indices` is the parallel vector of slot numbers. */
module Slots {

  function Flat<T>(slots: seq<seq<T>>): seq<T> {
    if slots == [] then [] else Flat(slots[..|slots| - 1]) + slots[|slots| - 1]
  }

  function Copies(n: nat, value: nat): (r: seq<nat>)
    ensures |r| == n && forall i :: 0 <= i < n ==> r[i] == value
  {
    seq(n, i => value)
  }

  function Indices<T>(slots: seq<seq<T>>): (r: seq<nat>)
    ensures |r| == |Flat(slots)|
    ensures forall i :: 0 <= i < |r| ==> r[i] < |slots|
  {
    if slots == [] then []
    else Indices(slots[..|slots| - 1]) + Copies(|slots[|slots| - 1]|, |slots| - 1)
  }

  lemma FlatPush<T>(slots: seq<seq<T>>, slot: seq<T>)
    ensures Flat(slots + [slot]) == Flat(slots) + slot
    ensures Indices(slots + [slot]) == Indices(slots) + Copies(|slot|, |slots|)
  {
    assert (slots + [slot])[..|slots|] == slots;
  }

  /** Adding at the end of the last slot adds at the end of the whole. */
  lemma FlatGrow<T>(slots: seq<seq<T>>, x: T)
    requires slots != []
    ensures var n := |slots| - 1;
            var grown := slots[n := slots[n] + [x]];
            Flat(grown) == Flat(slots) + [x] && Indices(grown) == Indices(slots) + [n]
  {
    var n := |slots| - 1;
    var grown := slots[n := slots[n] + [x]];
    assert grown[..n] == slots[..n];
    assert Copies(|slots[n]| + 1, n) == Copies(|slots[n]|, n) + [n];
  }

  lemma {:induction false} FlatSplit<T>(slots: seq<seq<T>>, k: nat)
    requires k <= |slots|
    ensures Flat(slots) == Flat(slots[..k]) + Flat(slots[k..])
  {
    if k == |slots| {
      assert slots[..k] == slots && slots[k..] == [];
    } else {
      var n := |slots| - 1;
      FlatSplit(slots[..n], k);
      assert slots[..n][..k] == slots[..k];
      assert slots[..n][k..] == slots[k..][..n - k];
    }
  }

  lemma FlatCons<T>(slot: seq<T>, slots: seq<seq<T>>)
    ensures Flat([slot] + slots) == slot + Flat(slots)
  {
    FlatSplit([slot] + slots, 1);
    assert ([slot] + slots)[..1] == [] + [slot] && ([slot] + slots)[1..] == slots;
    FlatPush([], slot);
  }

  /** The items of the slots before `k` are exactly those whose slot number is below `k`. */
  lemma {:induction false} IndicesSplit<T>(slots: seq<seq<T>>, k: nat)
    requires k <= |slots|
    ensures |Flat(slots[..k])| <= |Flat(slots)|
    ensures forall i :: 0 <= i < |Flat(slots)| ==> (Indices(slots)[i] < k <==> i < |Flat(slots[..k])|)
  {
    if k == |slots| {
      assert slots[..k] == slots;
    } else {
      var n := |slots| - 1;
      IndicesSplit(slots[..n], k);
      assert slots[..n][..k] == slots[..k];
    }
  }

  /** Slot numbers never decrease along the laid-out sequence. */
  lemma IndicesSorted<T>(slots: seq<seq<T>>, i: nat, j: nat)
    requires i <= j < |Flat(slots)|
    ensures Indices(slots)[i] <= Indices(slots)[j]
  {
    IndicesSplit(slots, Indices(slots)[j] + 1);
  }

  lemma InsertAppend<T>(a: seq<T>, n: nat, x: T, b: seq<T>)
    requires n <= |a|
    ensures (a[..n] + [x] + a[n..]) + b == (a + b)[..n] + [x] + (a + b)[n..]
  {
  }

  lemma LastInsert<T>(slots: seq<seq<T>>, x: T)
    requires slots != []
    ensures var k := |slots| - 1;
            var n := |Flat(slots[..k])|;
            var more := slots[k := [x] + slots[k]];
            && n <= |Flat(slots)|
            && Flat(more) == Flat(slots)[..n] + [x] + Flat(slots)[n..]
            && Indices(more) == Indices(slots)[..n] + [k] + Indices(slots)[n..]
  {
    var k := |slots| - 1;
    assert slots[k := [x] + slots[k]][..k] == slots[..k];
    assert Copies(|slots[k]| + 1, k) == [k] + Copies(|slots[k]|, k);
  }

  /** Putting an item in front of slot `k` inserts it where the slots before `k` end. */
  lemma {:induction false} FlatInsert<T>(slots: seq<seq<T>>, k: nat, x: T)
    requires k < |slots|
    ensures |Flat(slots[..k])| <= |Flat(slots)|
    ensures var n := |Flat(slots[..k])|;
            var more := slots[k := [x] + slots[k]];
            && Flat(more) == Flat(slots)[..n] + [x] + Flat(slots)[n..]
            && Indices(more) == Indices(slots)[..n] + [k] + Indices(slots)[n..]
  {
    var last := |slots| - 1;
    var more := slots[k := [x] + slots[k]];
    IndicesSplit(slots, k);
    if k == last {
      LastInsert(slots, x);
    } else {
      var init := slots[..last];
      FlatInsert(init, k, x);
      assert more[..last] == init[k := [x] + init[k]];
      assert init[..k] == slots[..k];
      IndicesSplit(init, k);
      var n := |Flat(slots[..k])|;
      InsertAppend(Flat(init), n, x, slots[last]);
      InsertAppend(Indices(init), n, k, Copies(|slots[last]|, last));
    }
  }

  /** The insertion point of a slot is the first index holding that slot number or a later one. */
  lemma InsertionPoint<T>(slots: seq<seq<T>>, oldest: nat, k: nat)
    requires oldest <= |slots| && k <= |Flat(slots)|
    requires forall j :: 0 <= j < k ==> Indices(slots)[j] < oldest
    requires k < |Flat(slots)| ==> Indices(slots)[k] >= oldest
    ensures k == |Flat(slots[..oldest])|
  {
    IndicesSplit(slots, oldest);
    assert k > 0 ==> Indices(slots)[k - 1] < oldest;
  }

  lemma Assoc<T>(a: seq<T>, b: seq<T>, c: seq<T>)
    ensures (a + b) + c == a + (b + c)
  {
  }

  lemma ConsConcat<T>(x: T, a: seq<T>, b: seq<T>)
    ensures ([x] + a) + b == [x] + (a + b)
  {
  }

  /** Rewriting every item slot by slot rewrites every item of the whole. */
  lemma {:induction false} FlatMap<T, U>(slots: seq<seq<T>>, mapped: seq<seq<U>>, f: T -> U)
    requires |mapped| == |slots|
    requires forall p :: 0 <= p < |slots| ==> mapped[p] == Mapped(slots[p], f)
    ensures Flat(mapped) == Mapped(Flat(slots), f)
    ensures Indices(mapped) == Indices(slots)
  {
    if slots != [] {
      var n := |slots| - 1;
      FlatMap(slots[..n], mapped[..n], f);
    }
  }

  function Mapped<T, U>(s: seq<T>, f: T -> U): (r: seq<U>)
    ensures |r| == |s| && forall i :: 0 <= i < |s| ==> r[i] == f(s[i])
  {
    seq(|s|, i requires 0 <= i < |s| => f(s[i]))
  }

  function Filtered<T>(s: seq<T>, keep: T -> bool): seq<T> {
    if s == [] then []
    else Filtered(s[..|s| - 1], keep) + (if keep(s[|s| - 1]) then [s[|s| - 1]] else [])
  }

  lemma {:induction false} FilteredConcat<T>(a: seq<T>, b: seq<T>, keep: T -> bool)
    ensures Filtered(a + b, keep) == Filtered(a, keep) + Filtered(b, keep)
  {
    if b == [] {
      assert a + b == a;
    } else {
      var n := |b| - 1;
      assert (a + b)[..|a| + n] == a + b[..n];
      FilteredConcat(a, b[..n], keep);
    }
  }

  lemma {:induction false} FlatFilter<T>(slots: seq<seq<T>>, kept: seq<seq<T>>, keep: T -> bool)
    requires |kept| == |slots|
    requires forall p :: 0 <= p < |slots| ==> kept[p] == Filtered(slots[p], keep)
    ensures Flat(kept) == Filtered(Flat(slots), keep)
  {
    if slots != [] {
      var n := |slots| - 1;
      FlatFilter(slots[..n], kept[..n], keep);
      FilteredConcat(Flat(slots[..n]), slots[n], keep);
    }
  }
}
