/**
 The session-long snapshot history: thinned by two whenever it fills, keeping
 pinned state changes, the first snapshot and the latest one.
 */
module SnapshotHistory {

  import opened Arithmetic
  import opened Wrappers

  /** A snapshot; a change of state is what pins it. */
  datatype Snapshot = Snapshot(body: int, state: int)

  datatype Entry = Entry(index: nat, snapshot: Snapshot, pinned: bool)

  predicate Keeps(e: Entry, stride: nat)
    requires stride > 0
  {
    e.pinned || e.index % stride == 0
  }

  /** The entries a stride keeps: pinned ones and those at its multiples, in order. */
  function Kept(all: seq<Entry>, stride: nat): (r: seq<Entry>)
    requires stride > 0
    ensures |r| <= |all|
  {
    if all == [] then []
    else
      Kept(all[..|all| - 1], stride) + if Keeps(all[|all| - 1], stride) then [all[|all| - 1]] else []
  }

  function Pins(all: seq<Entry>): nat {
    if all == [] then 0 else Pins(all[..|all| - 1]) + if all[|all| - 1].pinned then 1 else 0
  }

  /** Entry i is the snapshot appended i-th. */
  ghost predicate Indexed(all: seq<Entry>) {
    forall i | 0 <= i < |all| :: all[i].index == i
  }

  lemma {:induction false} KeptMembers(all: seq<Entry>, stride: nat)
    requires stride > 0
    ensures forall e :: e in Kept(all, stride) <==> e in all && Keeps(e, stride)
  {
    if all != [] {
      KeptMembers(all[..|all| - 1], stride);
      assert all == all[..|all| - 1] + [all[|all| - 1]];
    }
  }

  /** Thinning what is kept is keeping at the doubled stride. */
  lemma {:induction false} KeptTwice(all: seq<Entry>, stride: nat, wide: nat)
    requires stride > 0 && wide == 2 * stride
    ensures Kept(Kept(all, stride), wide) == Kept(all, wide)
  {
    if all != [] {
      var rest, last := all[..|all| - 1], all[|all| - 1];
      KeptTwice(rest, stride, wide);
      DoubleMultiple(last.index, stride);
      KeptAgain(Kept(rest, stride), last, stride, wide);
    }
  }

  lemma PowerDoubles(n: nat)
    ensures PowerOfTwo(n + 1) == 2 * PowerOfTwo(n)
  {
  }

  /** The entries that survive a stride, in order. */
  method Filtered(entries: seq<Entry>, stride: nat) returns (kept: seq<Entry>)
    requires stride > 0
    ensures kept == Kept(entries, stride)
  {
    kept := [];
    for i := 0 to |entries|
      invariant kept == Kept(entries[..i], stride)
    {
      assert entries[..i + 1][..i] == entries[..i];
      if entries[i].pinned || entries[i].index % stride == 0 {
        kept := kept + [entries[i]];
      }
    }
    assert entries[..|entries|] == entries;
  }

  lemma KeptAgain(kept: seq<Entry>, last: Entry, stride: nat, wide: nat)
    requires stride > 0 && wide > 0 && (Keeps(last, wide) ==> Keeps(last, stride))
    ensures Kept(kept + if Keeps(last, stride) then [last] else [], wide)
         == Kept(kept, wide) + if Keeps(last, wide) then [last] else []
  {
    hide Keeps;
    KeptAppend(kept, last, wide);
    assert kept + [] == kept;
  }

  lemma DoubleMultiple(n: nat, stride: nat)
    requires stride > 0
    ensures n % (2 * stride) == 0 ==> n % stride == 0
  {
    if n % (2 * stride) == 0 {
      var q := n / (2 * stride);
      assert n == (2 * q) * stride + 0;
      ModUnique(n, stride, 2 * q, 0);
    }
  }

  /** Between the multiples of the stride alone and those plus every pin. */
  lemma {:induction false} KeptCount(all: seq<Entry>, stride: nat)
    requires stride > 0 && Indexed(all)
    ensures CeilDiv(|all|, stride) <= |Kept(all, stride)| <= CeilDiv(|all|, stride) + Pins(all)
  {
    if all == [] {
      CeilBounds(0, stride);
    } else {
      var n := |all| - 1;
      KeptCount(all[..n], stride);
      CeilNext(n, stride);
    }
  }

  lemma CeilNext(n: nat, stride: nat)
    requires stride > 0
    ensures CeilDiv(n + 1, stride) == CeilDiv(n, stride) + if n % stride == 0 then 1 else 0
  {
    var q, r := n / stride, n % stride;
    assert n == q * stride + r;
    if r == 0 {
      assert (q - 1) * stride == q * stride - stride;
      CeilUnique(n, stride, q);
      assert (q + 1) * stride == q * stride + stride;
      CeilUnique(n + 1, stride, q + 1);
    } else {
      assert (q + 1) * stride == q * stride + stride;
      CeilUnique(n, stride, q + 1);
      CeilUnique(n + 1, stride, q + 1);
    }
  }

  lemma {:induction false} IndexedKept(all: seq<Entry>, stride: nat)
    requires stride > 0 && Indexed(all)
    ensures forall i, j | 0 <= i < j < |Kept(all, stride)| :: Kept(all, stride)[i].index < Kept(all, stride)[j].index
    ensures all != [] ==> Kept(all, stride) != [] && Kept(all, stride)[0] == all[0]
  {
    if all != [] {
      var n := |all| - 1;
      IndexedKept(all[..n], stride);
      KeptMembers(all[..n], stride);
      assert forall e | e in all[..n] :: e.index < n;
      assert forall i | 0 <= i < |Kept(all[..n], stride)| :: Kept(all[..n], stride)[i] in all[..n];
    }
  }

  /** A full history is well below its limit after one thinning. */
  lemma ThinnedCount(all: seq<Entry>, stride: nat, limit: nat)
    requires limit >= 8 && stride > 0 && Indexed(all) && Pins(all) <= limit / 4
    requires |Kept(all, stride)| == limit
    ensures |Kept(all, 2 * stride)| < limit
    ensures (limit - limit / 4 - 1) * stride < |all|
  {
    KeptCount(all, stride);
    KeptCount(all, 2 * stride);
    CeilHalf(|all|, stride);
    CeilCharacterised(|all|, stride);
    hide CeilDiv, Kept;
    TimesMonotone(limit - limit / 4 - 1, CeilDiv(|all|, stride) - 1, stride);
  }

  class SnapshotHistory {
    const limit: nat
    var stride: nat
    var entries: seq<Entry>
    var pins: nat
    var seen: nat
    var lastState: Option<int>
    var latest: Option<Entry>
    /** Every entry ever made, in order. */
    ghost var all: seq<Entry>
    /** How often the stride has doubled. */
    ghost var rounds: nat

    ghost predicate Valid()
      reads this
    {
      && limit >= 8
      && stride == PowerOfTwo(rounds) && stride > 0
      && Indexed(all) && seen == |all|
      && entries == Kept(all, stride) && |entries| < limit
      && pins == Pins(all) <= limit / 4
      && (stride > 1 ==> (limit - limit / 4 - 1) * (stride / 2) < seen)
      && latest == (if all == [] then None else Some(all[|all| - 1]))
      && lastState == (if all == [] then None else Some(all[|all| - 1].snapshot.state))
    }

    constructor (limit: nat)
      requires limit >= 8
      ensures Valid() && all == [] && this.limit == limit
    {
      this.limit := limit;
      stride, entries, pins, seen := 1, [], 0, 0;
      lastState, latest := None, None;
      all, rounds := [], 0;
    }

    /** One more snapshot: pinned when the state changed and the pins allow it, thinned when full. */
    method Append(snapshot: Snapshot)
      requires Valid()
      modifies this
      ensures Valid()
      ensures all == old(all) + [Entry(|old(all)|, snapshot,
                old(lastState) != Some(snapshot.state) && old(pins) < limit / 4)]
    {
      hide Kept, PowerOfTwo, Pins;
      var index := seen;
      seen := seen + 1;
      var changed := lastState != Some(snapshot.state);
      lastState := Some(snapshot.state);
      var pinned := changed && pins < limit / 4;
      var entry := Entry(index, snapshot, pinned);
      latest := Some(entry);
      KeptAppend(all, entry, stride);
      all := all + [entry];
      if !pinned && index % stride != 0 {
        return;
      }
      pins := pins + if pinned then 1 else 0;
      entries := entries + [entry];
      if |entries| >= limit {
        Thin();
      }
    }

    /** Keep every other one of the unpinned. */
    method Thin()
      requires limit >= 8 && stride == PowerOfTwo(rounds) && stride > 0
      requires Indexed(all) && seen == |all| && Pins(all) <= limit / 4
      requires entries == Kept(all, stride) && |entries| == limit
      modifies `stride, `entries, `rounds
      ensures stride == 2 * old(stride) == PowerOfTwo(rounds)
      ensures entries == Kept(all, stride) && |entries| < limit
      ensures (limit - limit / 4 - 1) * (stride / 2) < seen
    {
      ThinnedCount(all, stride, limit);
      KeptTwice(all, stride, 2 * stride);
      hide Kept, Pins, PowerOfTwo;
      assert (2 * stride) / 2 == stride;
      var kept := Filtered(entries, 2 * stride);
      PowerDoubles(rounds);
      stride := stride * 2;
      rounds := rounds + 1;
      entries := kept;
    }

    predicate LatestIsExtra()
      reads this
    {
      latest.Some? && (entries == [] || entries[|entries| - 1] != latest.value)
    }

    /** What iterating the history yields. */
    method Iterate() returns (yielded: seq<Entry>)
      requires Valid()
      ensures |yielded| <= limit && Covers(yielded, all, stride)
    {
      hide Kept, Covers;
      IteratedCovers(all, stride);
      yielded := [];
      for i := 0 to |entries|
        invariant yielded == entries[..i]
      {
        yielded := yielded + [entries[i]];
      }
      assert entries[..|entries|] == entries;
      if LatestIsExtra() {
        yielded := yielded + [latest.value];
      }
    }
  }

  lemma KeptAppend(all: seq<Entry>, entry: Entry, stride: nat)
    requires stride > 0
    ensures Kept(all + [entry], stride) == Kept(all, stride) + if Keeps(entry, stride) then [entry] else []
    ensures Pins(all + [entry]) == Pins(all) + if entry.pinned then 1 else 0
  {
    assert (all + [entry])[..|all|] == all;
  }

  /** In order, what the stride keeps, with the first and the latest snapshot always among it. */
  ghost predicate Covers(yielded: seq<Entry>, all: seq<Entry>, stride: nat)
    requires stride > 0
  {
    && (all == [] <==> yielded == [])
    && (all != [] ==> yielded[0] == all[0] && yielded[|yielded| - 1] == all[|all| - 1])
    && (forall e :: e in yielded <==> e in all && (Keeps(e, stride) || e == all[|all| - 1]))
    && (forall i, j | 0 <= i < j < |yielded| :: yielded[i].index < yielded[j].index)
  }

  lemma IteratedCovers(all: seq<Entry>, stride: nat)
    requires stride > 0 && Indexed(all)
    ensures var kept := Kept(all, stride);
      var extra := all != [] && (kept == [] || kept[|kept| - 1] != all[|all| - 1]);
      Covers(if extra then kept + [all[|all| - 1]] else kept, all, stride)
  {
    var kept := Kept(all, stride);
    IndexedKept(all, stride);
    KeptMembers(all, stride);
    if all != [] {
      KeptLast(all, stride);
      hide Kept, Keeps;
      LastCovers(kept, all, stride);
    }
  }

  lemma LastCovers(kept: seq<Entry>, all: seq<Entry>, stride: nat)
    requires stride > 0 && Indexed(all) && all != [] && kept != [] && kept[0] == all[0]
    requires forall e :: e in kept <==> e in all && Keeps(e, stride)
    requires forall i, j | 0 <= i < j < |kept| :: kept[i].index < kept[j].index
    requires kept[|kept| - 1] != all[|all| - 1] ==> forall i | 0 <= i < |kept| :: kept[i].index < |all| - 1
    ensures Covers(if kept[|kept| - 1] != all[|all| - 1] then kept + [all[|all| - 1]] else kept, all, stride)
  {
    hide Keeps;
    var last := all[|all| - 1];
    if kept[|kept| - 1] != last {
      assert forall e :: e in kept + [last] <==> e in kept || e == last;
    }
  }

  /** An entry that is kept although not last came earlier. */
  lemma KeptLast(all: seq<Entry>, stride: nat)
    requires stride > 0 && Indexed(all) && all != []
    ensures var kept := Kept(all, stride);
      kept != [] && kept[|kept| - 1] != all[|all| - 1]
      ==> all[|all| - 1] !in kept && forall i | 0 <= i < |kept| :: kept[i].index < |all| - 1
  {
    var n := |all| - 1;
    KeptMembers(all[..n], stride);
    var kept := Kept(all, stride);
    if kept != [] && kept[|kept| - 1] != all[n] {
      assert kept == Kept(all[..n], stride);
      assert forall i | 0 <= i < |kept| :: kept[i] in all[..n];
    }
  }
}
