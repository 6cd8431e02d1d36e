/**
 * The order in which a tick's BUD requests are handled: the comparator of
 * `prepareQueue` (type first, then `x`, `y`, `z` ascending) under a stable
 * sort, as `Array.prototype.sort` is. The data tree puts the higher type
 * first; src/bud/bud.ts puts the lower type first. Two requests with the
 * same type and position compare equal and keep their queue order.
 */
module BatchOrder {
  import opened Common
  import opened BudTypes

  /** The sort key: the type's rank (negated when higher types go first), then the position. */
  function Rank(d: BudData, higherTypeFirst: bool): int
  {
    var o: int := Ordinal(d.budType);
    if higherTypeFirst then -o else o
  }

  /** The comparator is negative: `a` goes strictly before `b`. */
  predicate Before(a: BudData, b: BudData, higherTypeFirst: bool)
  {
    var ra, rb := Rank(a, higherTypeFirst), Rank(b, higherTypeFirst);
    ra < rb
    || (ra == rb && a.pos.x < b.pos.x)
    || (ra == rb && a.pos.x == b.pos.x && a.pos.y < b.pos.y)
    || (ra == rb && a.pos.x == b.pos.x && a.pos.y == b.pos.y && a.pos.z < b.pos.z)
  }

  /** The comparator is zero: same type and same position. */
  predicate SameKey(a: BudData, b: BudData)
  {
    a.budType == b.budType && a.pos == b.pos
  }

  /** `Before` is a strict order whose incomparable pairs are exactly the equal keys. */
  lemma BeforeIsStrictTotal(a: BudData, b: BudData, c: BudData, higherTypeFirst: bool)
    ensures !Before(a, a, higherTypeFirst)
    ensures Before(a, b, higherTypeFirst) && Before(b, c, higherTypeFirst) ==> Before(a, c, higherTypeFirst)
    ensures Before(a, b, higherTypeFirst) || Before(b, a, higherTypeFirst) || SameKey(a, b)
    ensures SameKey(a, b) ==> !Before(a, b, higherTypeFirst) && !Before(b, a, higherTypeFirst)
  {
  }

  /** No request comes strictly before an earlier one. */
  predicate Ordered(s: seq<BudData>, higherTypeFirst: bool)
  {
    forall i, j :: 0 <= i < j < |s| ==> !Before(s[j], s[i], higherTypeFirst)
  }

  /** Where `d` goes in `s`: after the last request it does not come strictly before. */
  function Slot(s: seq<BudData>, d: BudData, higherTypeFirst: bool): (k: nat)
    ensures k <= |s|
    ensures k > 0 ==> !Before(d, s[k - 1], higherTypeFirst)
    ensures k < |s| ==> Before(d, s[|s| - 1], higherTypeFirst)
  {
    if s == [] then 0
    else if Before(d, s[|s| - 1], higherTypeFirst) then Slot(s[..|s| - 1], d, higherTypeFirst)
    else |s|
  }

  /** `s` with `d` inserted at its slot. */
  function InsertAtSlot(s: seq<BudData>, d: BudData, higherTypeFirst: bool): seq<BudData>
  {
    var k := Slot(s, d, higherTypeFirst);
    s[..k] + [d] + s[k..]
  }

  /** The stable sort of the queue: each request inserted, in queue order, at its slot. */
  function SortBatch(s: seq<BudData>, higherTypeFirst: bool): seq<BudData>
  {
    if s == [] then []
    else InsertAtSlot(SortBatch(s[..|s| - 1], higherTypeFirst), s[|s| - 1], higherTypeFirst)
  }

  /** The requests of `s` with the same type and position as `d`, in order. */
  function WithKeyOf(s: seq<BudData>, d: BudData): seq<BudData>
  {
    if s == [] then []
    else WithKeyOf(s[..|s| - 1], d) + (if SameKey(s[|s| - 1], d) then [s[|s| - 1]] else [])
  }

  lemma {:induction false} WithKeyOfConcat(a: seq<BudData>, b: seq<BudData>, d: BudData)
    ensures WithKeyOf(a + b, d) == WithKeyOf(a, d) + WithKeyOf(b, d)
  {
    if b == [] {
      assert a + b == a;
    } else {
      var n := |b| - 1;
      assert (a + b)[..|a + b| - 1] == a + b[..n];
      WithKeyOfConcat(a, b[..n], d);
    }
  }

  /** `!Before` is transitive: keys that do not decrease chain. */
  lemma NotBeforeTransitive(a: BudData, b: BudData, c: BudData, higherTypeFirst: bool)
    requires !Before(a, b, higherTypeFirst) && !Before(b, c, higherTypeFirst)
    ensures !Before(a, c, higherTypeFirst)
  {
  }

  /** Index by index, `d` inserted at its slot: the requests before the slot, `d`, the requests after it. */
  lemma InsertAtSlotIndex(s: seq<BudData>, d: BudData, higherTypeFirst: bool, i: int)
    requires 0 <= i <= |s|
    ensures |InsertAtSlot(s, d, higherTypeFirst)| == |s| + 1
    ensures var k := Slot(s, d, higherTypeFirst);
      InsertAtSlot(s, d, higherTypeFirst)[i] == if i < k then s[i] else if i == k then d else s[i - 1]
  {
  }

  /** One pair of positions of the inserted sequence is in order. */
  lemma InsertAtSlotPair(s: seq<BudData>, d: BudData, higherTypeFirst: bool, i: int, j: int)
    requires Ordered(s, higherTypeFirst)
    requires 0 <= i < j <= |s|
    ensures !Before(InsertAtSlot(s, d, higherTypeFirst)[j], InsertAtSlot(s, d, higherTypeFirst)[i], higherTypeFirst)
  {
    var k := Slot(s, d, higherTypeFirst);
    InsertAtSlotIndex(s, d, higherTypeFirst, i);
    InsertAtSlotIndex(s, d, higherTypeFirst, j);
    if i < k && j == k {
      if i < k - 1 {
        assert !Before(s[k - 1], s[i], higherTypeFirst);
        NotBeforeTransitive(d, s[k - 1], s[i], higherTypeFirst);
      }
    } else if i == k {
      AfterSlot(s, d, higherTypeFirst);
      assert Before(d, s[j - 1], higherTypeFirst);
      BeforeIsStrictTotal(d, s[j - 1], d, higherTypeFirst);
    } else if i < k {
      assert !Before(s[j - 1], s[i], higherTypeFirst);
    } else {
      assert !Before(s[j - 1], s[i - 1], higherTypeFirst);
    }
  }

  /** Inserting keeps an ordered sequence ordered and adds exactly `d`. */
  lemma InsertAtSlotProperties(s: seq<BudData>, d: BudData, higherTypeFirst: bool)
    requires Ordered(s, higherTypeFirst)
    ensures Ordered(InsertAtSlot(s, d, higherTypeFirst), higherTypeFirst)
    ensures multiset(InsertAtSlot(s, d, higherTypeFirst)) == multiset(s) + multiset{d}
  {
    var k := Slot(s, d, higherTypeFirst);
    var r := InsertAtSlot(s, d, higherTypeFirst);
    assert s == s[..k] + s[k..];
    assert |r| == |s| + 1;
    forall i, j | 0 <= i < j < |r|
      ensures !Before(r[j], r[i], higherTypeFirst)
    {
      InsertAtSlotPair(s, d, higherTypeFirst, i, j);
    }
  }

  /** Every request after the slot of `d` comes strictly after `d`. */
  lemma {:induction false} AfterSlot(s: seq<BudData>, d: BudData, higherTypeFirst: bool)
    ensures forall j :: Slot(s, d, higherTypeFirst) <= j < |s| ==> Before(d, s[j], higherTypeFirst)
  {
    if s != [] && Before(d, s[|s| - 1], higherTypeFirst) {
      var n := |s| - 1;
      AfterSlot(s[..n], d, higherTypeFirst);
      forall j | Slot(s, d, higherTypeFirst) <= j < n
        ensures Before(d, s[j], higherTypeFirst)
      {
        assert s[..n][j] == s[j];
      }
    }
  }

  /** Inserting `d` appends it to the requests sharing its key, and leaves other keys' requests alone. */
  lemma InsertAtSlotStable(s: seq<BudData>, d: BudData, e: BudData, higherTypeFirst: bool)
    ensures WithKeyOf(InsertAtSlot(s, d, higherTypeFirst), e)
      == WithKeyOf(s, e) + (if SameKey(d, e) then [d] else [])
  {
    var k := Slot(s, d, higherTypeFirst);
    var lo, hi := s[..k], s[k..];
    if SameKey(d, e) {
      AfterSlot(s, d, higherTypeFirst);
      forall j | 0 <= j < |hi|
        ensures Before(d, hi[j], higherTypeFirst)
      {
        assert hi[j] == s[k + j];
      }
      NoneWithKey(hi, d, e, higherTypeFirst);
    }
    StableSplit(lo, d, hi, e);
    assert lo + hi == s;
  }

  /** `d` placed between `lo` and `hi`, with no request of its key after it, ends its key's requests. */
  lemma StableSplit(lo: seq<BudData>, d: BudData, hi: seq<BudData>, e: BudData)
    requires SameKey(d, e) ==> WithKeyOf(hi, e) == []
    ensures WithKeyOf(lo + [d] + hi, e) == WithKeyOf(lo + hi, e) + (if SameKey(d, e) then [d] else [])
  {
    WithKeyOfSplit(lo, d, hi, e);
    WithKeyOfConcat(lo, hi, e);
  }

  lemma WithKeyOfSplit(lo: seq<BudData>, d: BudData, hi: seq<BudData>, e: BudData)
    ensures WithKeyOf(lo + [d] + hi, e) == WithKeyOf(lo, e) + (if SameKey(d, e) then [d] else []) + WithKeyOf(hi, e)
  {
    WithKeyOfConcat(lo + [d], hi, e);
    WithKeyOfConcat(lo, [d], e);
    WithKeyOfSingle(d, e);
  }

  lemma WithKeyOfSingle(d: BudData, e: BudData)
    ensures WithKeyOf([d], e) == if SameKey(d, e) then [d] else []
  {
    assert [d][..0] == [];
  }

  /** No request after the slot of `d` shares the key of `d`. */
  lemma {:induction false} NoneWithKey(t: seq<BudData>, d: BudData, e: BudData, higherTypeFirst: bool)
    requires SameKey(d, e)
    requires forall j :: 0 <= j < |t| ==> Before(d, t[j], higherTypeFirst)
    ensures WithKeyOf(t, e) == []
  {
    if t != [] {
      NoneWithKey(t[..|t| - 1], d, e, higherTypeFirst);
      BeforeIsStrictTotal(d, t[|t| - 1], d, higherTypeFirst);
    }
  }

  /**
   * The sorted batch is ordered by the comparator, holds exactly the queued
   * requests, and keeps requests that compare equal in their queue order.
   */
  lemma {:induction false} SortBatchProperties(s: seq<BudData>, higherTypeFirst: bool, e: BudData)
    ensures Ordered(SortBatch(s, higherTypeFirst), higherTypeFirst)
    ensures multiset(SortBatch(s, higherTypeFirst)) == multiset(s)
    ensures WithKeyOf(SortBatch(s, higherTypeFirst), e) == WithKeyOf(s, e)
  {
    if s != [] {
      var n := |s| - 1;
      SortBatchProperties(s[..n], higherTypeFirst, e);
      InsertAtSlotProperties(SortBatch(s[..n], higherTypeFirst), s[n], higherTypeFirst);
      InsertAtSlotStable(SortBatch(s[..n], higherTypeFirst), s[n], e, higherTypeFirst);
      assert s == s[..n] + [s[n]];
    }
  }
}
