/**
 Materializations of one key that overlap: the reads of one and its save are separate queries, and nothing
 keeps other saves from coming between. This module says what any number of them store, by how much each
 balance is then off, and what repairs it.
 */
module BalanceOverlap {
  import opened Common
  import opened BalanceHistory
  import opened BalanceRuns
  import opened BalanceStore

  // ---------------------------------------------------------------------------
  // Tables along a timeline
  // ---------------------------------------------------------------------------

  /** The key's events in replay order: all that any of the materializations deliver. */
  ghost predicate Timeline(es: seq<Event>, k: Key) {
    StrictlySortedBy(EventOrder, es) && DistinctBy(EventId, es) && forall e | e in es :: e.key == k
  }

  /** For every event of the timeline: whether it is stored, and with which balance. */
  type Balances = seq<Option<real>>

  /** Some of the timeline's events. */
  type Mask = seq<bool>

  function RowFor(e: Event, balance: real): Row { Row(e.key, e.timestamp, e.id, balance, Some(e.delta)) }

  function RowIf(e: Event, balance: Option<real>): seq<Row> { if balance.Some? then [RowFor(e, balance.value)] else [] }

  function Rows(m: Balances, es: seq<Event>, n: nat): seq<Row>
    requires n <= |es| == |m|
  {
    if n == 0 then [] else Rows(m, es, n - 1) + RowIf(es[n - 1], m[n - 1])
  }

  function TableOf(m: Balances, es: seq<Event>): seq<Row>
    requires |es| == |m|
  {
    Rows(m, es, |es|)
  }

  function Pick(mask: Mask, es: seq<Event>, n: nat): seq<Event>
    requires n <= |es| == |mask|
  {
    if n == 0 then [] else Pick(mask, es, n - 1) + if mask[n - 1] then [es[n - 1]] else []
  }

  /** The deltas of the picked events among the first `n`. */
  function Total(mask: Mask, es: seq<Event>, n: nat): real
    requires n <= |es| == |mask|
  {
    if n == 0 then 0.0 else Total(mask, es, n - 1) + if mask[n - 1] then es[n - 1].delta else 0.0
  }

  function Known(m: Balances): Mask { seq(|m|, i requires 0 <= i < |m| => m[i].Some?) }

  /** The balance stored last before the n-th event; zero without one. */
  function LastStored(m: Balances, n: nat): real
    requires n <= |m|
  {
    if n == 0 then 0.0 else if m[n - 1].Some? then m[n - 1].value else LastStored(m, n - 1)
  }

  /** By how much a stored balance is off: it should be the sum of all stored deltas up to it. */
  function Off(m: Balances, es: seq<Event>, i: nat): real
    requires i < |es| == |m| && m[i].Some?
  {
    m[i].value - Total(Known(m), es, i + 1)
  }

  function LastOff(m: Balances, es: seq<Event>, n: nat): real
    requires n <= |es| == |m|
  {
    if n == 0 then 0.0 else if m[n - 1].Some? then Off(m, es, n - 1) else LastOff(m, es, n - 1)
  }

  lemma {:induction false} LastStoredIs(m: Balances, es: seq<Event>, n: nat)
    requires n <= |es| == |m|
    ensures LastStored(m, n) == LastOff(m, es, n) + Total(Known(m), es, n)
  {
    if n > 0 && m[n - 1].None? { LastStoredIs(m, es, n - 1); }
  }

  lemma {:induction false} RowsMember(m: Balances, es: seq<Event>, n: nat, r: Row)
    requires n <= |es| == |m|
    ensures r in Rows(m, es, n) <==> exists i: nat | i < n :: m[i].Some? && r == RowFor(es[i], m[i].value)
  {
    if n > 0 { RowsMember(m, es, n - 1, r); }
  }

  lemma {:induction false} RowsOrdered(m: Balances, es: seq<Event>, n: nat)
    requires n <= |es| == |m| && StrictlySortedBy(EventOrder, es)
    ensures Ordered(Rows(m, es, n))
  {
    if n > 0 {
      RowsOrdered(m, es, n - 1);
      forall r | r in Rows(m, es, n - 1) ensures RowOrder(r) < EventOrder(es[n - 1]) {
        RowsMember(m, es, n - 1, r);
      }
    }
  }

  lemma {:induction false} RowsLast(m: Balances, es: seq<Event>, n: nat)
    requires n <= |es| == |m|
    ensures BalanceBefore(Rows(m, es, n), 0.0, |Rows(m, es, n)|) == LastStored(m, n)
  {
    if n > 0 { RowsLast(m, es, n - 1); }
  }

  lemma {:induction false} ChainedSnoc(t: seq<Row>, r: Row)
    requires r.delta.Some?
    ensures Chained(t + [r], 0.0) <==> Chained(t, 0.0) && r.balance == BalanceBefore(t, 0.0, |t|) + r.delta.value
  {
    var u := t + [r];
    assert forall i | 0 <= i <= |t| :: BalanceBefore(u, 0.0, i) == BalanceBefore(t, 0.0, i);
    assert forall i | 0 <= i < |t| :: u[i] == t[i];
    assert u[|t|] == r;
  }

  lemma {:induction false} NoneOff(m: Balances, es: seq<Event>, n: nat)
    requires n <= |es| == |m| && forall i: nat | i < n && m[i].Some? :: Off(m, es, i) == 0.0
    ensures LastOff(m, es, n) == 0.0
  {
    if n > 0 && m[n - 1].None? { NoneOff(m, es, n - 1); }
  }

  lemma {:induction false} ChainedPrefix(m: Balances, es: seq<Event>, n: nat)
    requires n <= |es| == |m|
    ensures Chained(Rows(m, es, n), 0.0) <==> forall i: nat | i < n && m[i].Some? :: Off(m, es, i) == 0.0
  {
    if n > 0 {
      ChainedPrefix(m, es, n - 1);
      if m[n - 1].Some? {
        ChainedNext(m, es, n - 1);
        if forall i: nat | i < n - 1 && m[i].Some? :: Off(m, es, i) == 0.0 { NoneOff(m, es, n - 1); }
      } else {
        assert Rows(m, es, n) == Rows(m, es, n - 1);
      }
    }
  }

  lemma {:induction false} ChainedNext(m: Balances, es: seq<Event>, n: nat)
    requires n < |es| == |m| && m[n].Some?
    ensures Chained(Rows(m, es, n + 1), 0.0) <==> Chained(Rows(m, es, n), 0.0) && Off(m, es, n) == LastOff(m, es, n)
  {
    ChainedSnoc(Rows(m, es, n), RowFor(es[n], m[n].value));
    RowsLast(m, es, n);
    LastStoredIs(m, es, n);
  }

  /** The chain of balances holds exactly when no stored balance is off. */
  lemma {:induction false} ChainedIffNoneOff(m: Balances, es: seq<Event>)
    requires |es| == |m|
    ensures Chained(TableOf(m, es), 0.0) <==> forall i: nat | i < |es| && m[i].Some? :: Off(m, es, i) == 0.0
  {
    ChainedPrefix(m, es, |es|);
  }

  // ---------------------------------------------------------------------------
  // One save
  // ---------------------------------------------------------------------------

  ghost predicate IsFirst(batch: Mask, p: nat) { p < |batch| && batch[p] && forall i: nat | i < p :: !batch[i] }

  /** What a materialization rewrites: all that it read or brings, from its first event on. */
  function Rewritten(read: Balances, batch: Mask, p: nat): Mask
    requires |read| == |batch|
  {
    seq(|read|, i requires 0 <= i < |read| => p <= i && (read[i].Some? || batch[i]))
  }

  function Planned(read: Balances, batch: Mask, p: nat, es: seq<Event>): Balances
    requires |read| == |batch| == |es| && p <= |es|
  {
    var mask := Rewritten(read, batch, p);
    seq(|es|, i requires 0 <= i < |es| =>
      if mask[i] then Some(LastStored(read, p) + Total(mask, es, i + 1)) else None)
  }

  /** What is stored after the save: every balance as its last writer computed it. */
  function Saved(read: Balances, now: Balances, batch: Mask, p: nat, es: seq<Event>): Balances
    requires |read| == |now| == |batch| == |es| && p <= |es|
  {
    var planned := Planned(read, batch, p, es);
    seq(|es|, i requires 0 <= i < |es| => if planned[i].Some? then planned[i] else now[i])
  }

  lemma {:induction false} PickMember(mask: Mask, es: seq<Event>, n: nat, e: Event)
    requires n <= |es| == |mask|
    ensures e in Pick(mask, es, n) <==> exists i: nat | i < n :: mask[i] && es[i] == e
  {
    if n > 0 { PickMember(mask, es, n - 1, e); }
  }

  lemma {:induction false} PickOrdered(mask: Mask, es: seq<Event>, n: nat)
    requires n <= |es| == |mask| && StrictlySortedBy(EventOrder, es)
    ensures StrictlySortedBy(EventOrder, Pick(mask, es, n))
  {
    if n > 0 {
      PickOrdered(mask, es, n - 1);
      forall e | e in Pick(mask, es, n - 1) ensures EventOrder(e) < EventOrder(es[n - 1]) {
        PickMember(mask, es, n - 1, e);
      }
    }
  }

  lemma {:induction false} PickFirst(batch: Mask, es: seq<Event>, p: nat, n: nat)
    requires n <= |es| == |batch| && IsFirst(batch, p)
    ensures n <= p ==> Pick(batch, es, n) == []
    ensures p < n ==> Pick(batch, es, n) != [] && Pick(batch, es, n)[0] == es[p]
  {
    if n > 0 { PickFirst(batch, es, p, n - 1); }
  }

  /** Accumulating the picked events gives each the seed and the total so far. */
  lemma {:induction false} AccumulatePick(mask: Mask, es: seq<Event>, seed: real, m: Balances, n: nat)
    requires n <= |es| == |mask| == |m|
    requires forall i: nat | i < |es| :: m[i] == if mask[i] then Some(seed + Total(mask, es, i + 1)) else None
    ensures Accumulate(seed, Pick(mask, es, n)) == Rows(m, es, n)
    ensures BalanceBefore(Rows(m, es, n), seed, |Rows(m, es, n)|) == seed + Total(mask, es, n)
  {
    if n > 0 {
      AccumulatePick(mask, es, seed, m, n - 1);
      AccumulateNext(mask, es, seed, m, n - 1);
    }
  }

  lemma {:induction false} AccumulateNext(mask: Mask, es: seq<Event>, seed: real, m: Balances, n: nat)
    requires n < |es| == |mask| == |m|
    requires m[n] == if mask[n] then Some(seed + Total(mask, es, n + 1)) else None
    requires Accumulate(seed, Pick(mask, es, n)) == Rows(m, es, n)
    requires BalanceBefore(Rows(m, es, n), seed, |Rows(m, es, n)|) == seed + Total(mask, es, n)
    ensures Accumulate(seed, Pick(mask, es, n + 1)) == Rows(m, es, n + 1)
    ensures BalanceBefore(Rows(m, es, n + 1), seed, |Rows(m, es, n + 1)|) == seed + Total(mask, es, n + 1)
  {
    var a, e := Pick(mask, es, n), es[n];
    if mask[n] {
      AccumulateSnoc(seed, a, e);
      assert Accumulate(seed, a + [e]) == Rows(m, es, n) + [RowFor(e, seed + Total(mask, es, n + 1))];
    } else {
      assert Pick(mask, es, n + 1) == a + [] == a;
      assert Rows(m, es, n + 1) == Rows(m, es, n) + [] == Rows(m, es, n);
    }
  }

  lemma {:induction false} RowsPrefix(m: Balances, es: seq<Event>, p: nat, n: nat)
    requires p <= n <= |es| == |m|
    ensures |Rows(m, es, p)| <= |Rows(m, es, n)| && Rows(m, es, n)[..|Rows(m, es, p)|] == Rows(m, es, p)
    decreases n
  {
    if p < n {
      RowsPrefix(m, es, p, n - 1);
      var a, c := Rows(m, es, n - 1), |Rows(m, es, p)|;
      assert (a + RowIf(es[n - 1], m[n - 1]))[..c] == a[..c];
    }
  }

  ghost predicate RowFrom(m: Balances, es: seq<Event>, p: nat, n: nat, r: Row)
    requires n <= |es| == |m|
  {
    exists i: nat | p <= i < n :: m[i].Some? && r == RowFor(es[i], m[i].value)
  }

  /** The rows behind the p-th event. */
  lemma {:induction false} RowsSplit(m: Balances, es: seq<Event>, p: nat, n: nat, r: Row)
    requires p <= n <= |es| == |m|
    ensures |Rows(m, es, p)| <= |Rows(m, es, n)|
    ensures r in Rows(m, es, n)[|Rows(m, es, p)|..] <==> RowFrom(m, es, p, n, r)
    decreases n
  {
    RowsPrefix(m, es, p, n);
    if p < n {
      RowsSplit(m, es, p, n - 1, r);
      RowsPrefix(m, es, p, n - 1);
      var a, b, c := Rows(m, es, n - 1), RowIf(es[n - 1], m[n - 1]), |Rows(m, es, p)|;
      assert (a + b)[c..] == a[c..] + b;
      if RowFrom(m, es, p, n, r) {
        var i: nat :| p <= i < n && m[i].Some? && r == RowFor(es[i], m[i].value);
        assert i < n - 1 ==> RowFrom(m, es, p, n - 1, r);
      }
    }
  }

  lemma {:induction false} CutIs(t: seq<Row>, order: int, c: nat)
    requires Ordered(t) && c <= |t|
    requires (forall r | r in t[..c] :: RowOrder(r) < order) && (forall r | r in t[c..] :: order <= RowOrder(r))
    ensures Cut(t, order) == c
  {
    var n := Cut(t, order);
    CutSplits(t, order);
    forall i | 0 <= i < |t| ensures RowOrder(t[i]) < order <==> i < c {
      if i < c { assert t[i] == t[..c][i]; } else { assert t[i] == t[c..][i - c]; }
    }
    assert n < |t| ==> (RowOrder(t[n]) < order <==> n < c);
    assert c < |t| ==> (RowOrder(t[c]) < order <==> c < n);
  }

  lemma {:induction false} TableCut(m: Balances, es: seq<Event>, p: nat)
    requires p < |es| == |m| && StrictlySortedBy(EventOrder, es)
    ensures Cut(TableOf(m, es), EventOrder(es[p])) == |Rows(m, es, p)| <= |TableOf(m, es)|
    ensures TableOf(m, es)[..|Rows(m, es, p)|] == Rows(m, es, p)
  {
    var t, c := TableOf(m, es), |Rows(m, es, p)|;
    RowsOrdered(m, es, |es|);
    RowsPrefix(m, es, p, |es|);
    forall r | r in t[..c] ensures RowOrder(r) < EventOrder(es[p]) { RowsMember(m, es, p, r); }
    forall r | r in t[c..] ensures EventOrder(es[p]) <= RowOrder(r) {
      RowsSplit(m, es, p, |es|, r);
      var i: nat :| p <= i < |es| && m[i].Some? && r == RowFor(es[i], m[i].value);
    }
    CutIs(t, EventOrder(es[p]), c);
  }

  lemma {:induction false} SeedIs(m: Balances, es: seq<Event>, p: nat)
    requires p < |es| == |m| && StrictlySortedBy(EventOrder, es)
    ensures Seed(TableOf(m, es), EventOrder(es[p])) == LastStored(m, p)
  {
    TableCut(m, es, p);
    RowsLast(m, es, p);
    var t, c := TableOf(m, es), |Rows(m, es, p)|;
    assert c > 0 ==> t[c - 1] == t[..c][c - 1];
  }

  lemma {:induction false} SameEvent(es: seq<Event>, i: nat, j: nat)
    requires DistinctBy(EventId, es) && i < |es| && j < |es| && es[i].id == es[j].id
    ensures i == j
  {
    assert EventId(es[i]) == EventId(es[j]);
  }

  ghost predicate Overlap(es: seq<Event>, k: Key, read: Balances, batch: Mask, p: nat) {
    Timeline(es, k) && |read| == |batch| == |es| && IsFirst(batch, p)
  }

  function Batch(batch: Mask, es: seq<Event>): seq<Event>
    requires |batch| == |es|
  {
    Pick(batch, es, |es|)
  }

  lemma {:induction false} BatchFacts(es: seq<Event>, k: Key, read: Balances, batch: Mask, p: nat)
    requires Overlap(es, k, read, batch, p)
    ensures DistinctBy(EventId, Batch(batch, es)) && Incoming(Batch(batch, es), k) == Batch(batch, es)
    ensures Batch(batch, es) != [] && Batch(batch, es)[0] == es[p]
    ensures forall e :: e in Batch(batch, es) <==> exists i: nat | i < |es| :: batch[i] && es[i] == e
  {
    var b := Batch(batch, es);
    PickOrdered(batch, es, |es|);
    PickFirst(batch, es, p, |es|);
    forall e ensures e in b <==> exists i: nat | i < |es| :: batch[i] && es[i] == e { PickMember(batch, es, |es|, e); }
    forall i, j | 0 <= i < j < |b| ensures EventId(b[i]) != EventId(b[j]) {
      assert b[i] in b && b[j] in b;
      var x: nat :| x < |es| && batch[x] && es[x] == b[i];
      var y: nat :| y < |es| && batch[y] && es[y] == b[j];
      assert EventOrder(b[i]) < EventOrder(b[j]);
    }
    IncomingFacts(b, k);
    StrictlySortedUnique(EventOrder, Incoming(b, k), b);
  }

  lemma {:induction false} ReadFits(es: seq<Event>, k: Key, read: Balances, batch: Mask, p: nat)
    requires Overlap(es, k, read, batch, p)
    ensures Fits(TableOf(read, es), k, Batch(batch, es))
    ensures Batch(batch, es) != [] && !Refused(TableOf(read, es), Batch(batch, es), BatchIds(Batch(batch, es)))
  {
    var t := TableOf(read, es);
    BatchFacts(es, k, read, batch, p);
    RowsOrdered(read, es, |es|);
    forall r | r in t ensures r.key == k && r.delta.Some? { RowsMember(read, es, |es|, r); }
    forall r, e | r in t && e in Batch(batch, es) && r.id == e.id ensures r.key == e.key && r.timestamp == e.timestamp {
      RowsMember(read, es, |es|, r);
      var i: nat :| i < |es| && read[i].Some? && r == RowFor(es[i], read[i].value);
      var j: nat :| j < |es| && batch[j] && es[j] == e;
      SameEvent(es, i, j);
    }
  }

  /** The events a materialization sums: those it read or brings, from its first event on. */
  lemma {:induction false} MergedIs(es: seq<Event>, k: Key, read: Balances, batch: Mask, p: nat)
    requires Overlap(es, k, read, batch, p)
    ensures Batch(batch, es) != [] && !Refused(TableOf(read, es), Batch(batch, es), BatchIds(Batch(batch, es)))
    ensures Merged(TableOf(read, es), Batch(batch, es), BatchIds(Batch(batch, es))) ==
            Pick(Rewritten(read, batch, p), es, |es|)
  {
    var t, b, mask := TableOf(read, es), Batch(batch, es), Rewritten(read, batch, p);
    BatchFacts(es, k, read, batch, p);
    ReadFits(es, k, read, batch, p);
    MergedFacts(t, k, b);
    PickOrdered(mask, es, |es|);
    forall e ensures e in Merged(t, b, BatchIds(b)) <==> e in Pick(mask, es, |es|) {
      PickMember(mask, es, |es|, e);
      MergedMember(es, k, read, batch, p, e);
    }
    StrictlySortedUnique(EventOrder, Merged(t, b, BatchIds(b)), Pick(mask, es, |es|));
  }

  lemma {:induction false} MergedMember(es: seq<Event>, k: Key, read: Balances, batch: Mask, p: nat, e: Event)
    requires Overlap(es, k, read, batch, p)
    ensures Batch(batch, es) != [] && !Refused(TableOf(read, es), Batch(batch, es), BatchIds(Batch(batch, es)))
    ensures e in Merged(TableOf(read, es), Batch(batch, es), BatchIds(Batch(batch, es))) <==>
            exists i: nat | i < |es| :: Rewritten(read, batch, p)[i] && es[i] == e
  {
    BatchFacts(es, k, read, batch, p);
    ReadFits(es, k, read, batch, p);
    MergedFacts(TableOf(read, es), k, Batch(batch, es));
    TableCut(read, es, p);
    if e in Merged(TableOf(read, es), Batch(batch, es), BatchIds(Batch(batch, es))) {
      if e in Batch(batch, es) {
        var i: nat :| i < |es| && batch[i] && es[i] == e;
        assert Rewritten(read, batch, p)[i];
      } else {
        var i := ReplayedIs(es, read, batch, p, e, BatchIds(Batch(batch, es)));
      }
    }
    if i: nat :| i < |es| && Rewritten(read, batch, p)[i] && es[i] == e {
      if batch[i] {
        assert e in Batch(batch, es);
      } else {
        CarriedIs(es, k, read, batch, p, i);
      }
    }
  }

  /** A replayed row is one that was read, from the first event on. */
  lemma {:induction false} ReplayedIs(es: seq<Event>, read: Balances, batch: Mask, p: nat, e: Event, ids: set<Uuid>)
    returns (i: nat)
    requires p <= |es| == |read| == |batch| && |Rows(read, es, p)| <= |TableOf(read, es)|
    requires Replays(e, TableOf(read, es)[|Rows(read, es, p)|..], ids)
    ensures i < |es| && Rewritten(read, batch, p)[i] && es[i] == e
  {
    var c := |Rows(read, es, p)|;
    var r :| r in TableOf(read, es)[c..] && r.id !in ids && r.delta.Some? && e == AsEvent(r);
    RowsSplit(read, es, p, |es|, r);
    i :| p <= i < |es| && read[i].Some? && r == RowFor(es[i], read[i].value);
  }

  lemma {:induction false} CarriedIs(es: seq<Event>, k: Key, read: Balances, batch: Mask, p: nat, i: nat)
    requires Overlap(es, k, read, batch, p) && i < |es| && Rewritten(read, batch, p)[i] && !batch[i]
    ensures var c := |Rows(read, es, p)|;
            var r := RowFor(es[i], read[i].value);
            && c <= |TableOf(read, es)| && r in TableOf(read, es)[c..] && AsEvent(r) == es[i]
            && r.id !in BatchIds(Batch(batch, es))
  {
    RowsSplit(read, es, p, |es|, RowFor(es[i], read[i].value));
    BatchFacts(es, k, read, batch, p);
    forall f | f in Batch(batch, es) ensures f.id != es[i].id {
      var j: nat :| j < |es| && batch[j] && es[j] == f;
      if f.id == es[i].id { SameEvent(es, i, j); }
    }
  }

  /** The snapshots that a materialization plans from what it read. */
  lemma {:induction false} PlannedIs(es: seq<Event>, k: Key, read: Balances, batch: Mask, p: nat, rows: seq<Row>)
    requires Overlap(es, k, read, batch, p) && Table(rows, k) == TableOf(read, es)
    ensures KeySnapshots(rows, Batch(batch, es), {}, k) == TableOf(Planned(read, batch, p, es), es)
  {
    BatchFacts(es, k, read, batch, p);
    RecomputedIs(es, k, read, batch, p);
  }

  lemma {:induction false} RecomputedIs(es: seq<Event>, k: Key, read: Balances, batch: Mask, p: nat)
    requires Overlap(es, k, read, batch, p)
    ensures Batch(batch, es) != [] && !Refused(TableOf(read, es), Batch(batch, es), BatchIds(Batch(batch, es)))
    ensures Recomputed(TableOf(read, es), Batch(batch, es), BatchIds(Batch(batch, es))) ==
            TableOf(Planned(read, batch, p, es), es)
  {
    MergedIs(es, k, read, batch, p);
    assert Batch(batch, es)[0] == es[p] by { BatchFacts(es, k, read, batch, p); }
    SeedIs(read, es, p);
    PlannedRows(es, read, batch, p);
  }

  lemma {:induction false} PlannedRows(es: seq<Event>, read: Balances, batch: Mask, p: nat)
    requires p <= |es| == |read| == |batch|
    ensures Accumulate(LastStored(read, p), Pick(Rewritten(read, batch, p), es, |es|)) ==
            TableOf(Planned(read, batch, p, es), es)
  {
    AccumulatePick(Rewritten(read, batch, p), es, LastStored(read, p), Planned(read, batch, p, es), |es|);
  }

  // ---------------------------------------------------------------------------
  // What is stored after a late save
  // ---------------------------------------------------------------------------

  /** The heap holds the key's table, and its ids agree with the timeline. */
  ghost predicate Heap(rows: seq<Row>, es: seq<Event>, k: Key, m: Balances) {
    && |m| == |es| && DistinctBy(RowId, rows) && Table(rows, k) == TableOf(m, es)
    && forall r, e | r in rows && e in es && r.id == e.id :: r.key == e.key && r.timestamp == e.timestamp
  }

  lemma {:induction false} TableIds(m: Balances, es: seq<Event>, i: nat)
    requires i < |es| == |m| && DistinctBy(EventId, es)
    ensures HasId(TableOf(m, es), es[i].id) <==> m[i].Some?
    ensures m[i].Some? ==> RowFor(es[i], m[i].value) in TableOf(m, es)
  {
    if m[i].Some? {
      RowsMember(m, es, |es|, RowFor(es[i], m[i].value));
    }
    if HasId(TableOf(m, es), es[i].id) {
      var r :| r in TableOf(m, es) && r.id == es[i].id;
      RowsMember(m, es, |es|, r);
      var j: nat :| j < |es| && m[j].Some? && r == RowFor(es[j], m[j].value);
      SameEvent(es, i, j);
    }
  }

  lemma {:induction false} TableRow(m: Balances, es: seq<Event>, r: Row) returns (i: nat)
    requires |es| == |m| && r in TableOf(m, es)
    ensures i < |es| && m[i].Some? && r == RowFor(es[i], m[i].value)
  {
    RowsMember(m, es, |es|, r);
    i :| i < |es| && m[i].Some? && r == RowFor(es[i], m[i].value);
  }

  /** Overlaying planned balances on stored ones, row by row. */
  lemma {:induction false} OverlaidIff(planned: Balances, now: Balances, es: seq<Event>, r: Row)
    requires |planned| == |now| == |es| && DistinctBy(EventId, es)
    ensures var over := seq(|es|, i requires 0 <= i < |es| => if planned[i].Some? then planned[i] else now[i]);
            r in TableOf(over, es) <==>
            r in TableOf(planned, es) || (r in TableOf(now, es) && !HasId(TableOf(planned, es), r.id))
  {
    var over := seq(|es|, i requires 0 <= i < |es| => if planned[i].Some? then planned[i] else now[i]);
    if r in TableOf(over, es) {
      var i := TableRow(over, es, r);
      TableIds(planned, es, i);
      TableIds(now, es, i);
    }
    if r in TableOf(planned, es) {
      var i := TableRow(planned, es, r);
      TableIds(over, es, i);
    }
    if r in TableOf(now, es) && !HasId(TableOf(planned, es), r.id) {
      var i := TableRow(now, es, r);
      TableIds(planned, es, i);
      TableIds(over, es, i);
    }
  }

  lemma {:induction false} PlannedReplaces(planned: Balances, es: seq<Event>, k: Key, rows: seq<Row>, now: Balances)
    requires |planned| == |es| && Timeline(es, k) && Heap(rows, es, k, now)
    ensures OneRowPerId(TableOf(planned, es))
    ensures forall s | s in TableOf(planned, es) :: s.key == k && Replaces(rows, s)
  {
    forall s | s in TableOf(planned, es) ensures s.key == k && Replaces(rows, s) {
      var i := TableRow(planned, es, s);
      assert es[i] in es;
    }
    forall a, b | a in TableOf(planned, es) && b in TableOf(planned, es) && a.id == b.id ensures a == b {
      var i := TableRow(planned, es, a);
      var j := TableRow(planned, es, b);
      SameEvent(es, i, j);
    }
  }

  lemma {:induction false} Overlay(planned: Balances, now: Balances, es: seq<Event>, k: Key, rows: seq<Row>)
    requires |planned| == |es| && Timeline(es, k) && Heap(rows, es, k, now)
    ensures var over := seq(|es|, i requires 0 <= i < |es| => if planned[i].Some? then planned[i] else now[i]);
            Heap(UpsertAll(rows, TableOf(planned, es)), es, k, over)
  {
    var over := seq(|es|, i requires 0 <= i < |es| => if planned[i].Some? then planned[i] else now[i]);
    var snaps := TableOf(planned, es);
    PlannedReplaces(planned, es, k, rows, now);
    UpsertAllContents(rows, snaps);
    RowsOrdered(over, es, |es|);
    TableFacts(rows, k);
    forall r ensures r in TableOf(over, es) <==> r in UpsertAll(rows, snaps) && r.key == k {
      OverlaidIff(planned, now, es, r);
    }
    TableIs(UpsertAll(rows, snaps), k, TableOf(over, es));
    forall r, e | r in UpsertAll(rows, snaps) && e in es && r.id == e.id ensures r.key == e.key &&
      r.timestamp == e.timestamp {
      if r in snaps {
        var i := TableRow(planned, es, r);
        var j: nat :| j < |es| && es[j] == e;
        SameEvent(es, i, j);
      }
    }
  }

  /** A save that comes after others leaves every row as its last writer computed it. */
  lemma {:induction false} LateSave(es: seq<Event>, k: Key, read: Balances, now: Balances, batch: Mask, p: nat,
                                    before: seq<Row>, rows: seq<Row>)
    requires Overlap(es, k, read, batch, p) && Heap(before, es, k, read) && Heap(rows, es, k, now)
    ensures Heap(UpsertAll(rows, KeySnapshots(before, Batch(batch, es), {}, k)), es, k, Saved(read, now, batch, p, es))
  {
    PlannedIs(es, k, read, batch, p, before);
    Overlay(Planned(read, batch, p, es), now, es, k, rows);
  }

  // ---------------------------------------------------------------------------
  // By how much it is off
  // ---------------------------------------------------------------------------

  function OnlyTheirs(read: Balances, now: Balances, batch: Mask): Mask
    requires |read| == |now| == |batch|
  {
    seq(|now|, i requires 0 <= i < |now| => now[i].Some? && read[i].None? && !batch[i])
  }

  function OnlyMine(now: Balances, batch: Mask): Mask
    requires |now| == |batch|
  {
    seq(|now|, i requires 0 <= i < |now| => now[i].None? && batch[i])
  }

  /** Rows are never deleted: what was read is still stored. */
  ghost predicate Grown(read: Balances, now: Balances) {
    |read| == |now| && forall i: nat | i < |read| && read[i].Some? :: now[i].Some?
  }

  lemma {:induction false} TotalOfRewritten(es: seq<Event>, read: Balances, now: Balances, batch: Mask, p: nat, n: nat)
    requires |read| == |now| == |batch| == |es| && IsFirst(batch, p) && n <= |es| && Grown(read, now)
    ensures Total(Known(Saved(read, now, batch, p, es)), es, n) ==
            Total(Known(read), es, if n < p then n else p) + Total(Rewritten(read, batch, p), es, n)
            + Total(OnlyTheirs(read, now, batch), es, n)
  {
    if n > 0 { TotalOfRewritten(es, read, now, batch, p, n - 1); }
  }

  lemma {:induction false} TotalOfKept(es: seq<Event>, read: Balances, now: Balances, batch: Mask, p: nat, n: nat)
    requires |read| == |now| == |batch| == |es| && IsFirst(batch, p) && n <= |es| && Grown(read, now)
    ensures Total(Known(Saved(read, now, batch, p, es)), es, n) ==
            Total(Known(now), es, n) + Total(OnlyMine(now, batch), es, n)
  {
    if n > 0 { TotalOfKept(es, read, now, batch, p, n - 1); }
  }

  /**
   How a save moves the error of each balance: a rewritten one inherits that of the seed it started from,
   less the deltas of the others that it did not see; a kept one its own, less the deltas of the batch.
   */
  lemma {:induction false} OffAfterSave(es: seq<Event>, read: Balances, now: Balances, batch: Mask, p: nat, i: nat)
    requires |read| == |now| == |batch| == |es| && IsFirst(batch, p) && i < |es| && Grown(read, now)
    requires Saved(read, now, batch, p, es)[i].Some?
    ensures Off(Saved(read, now, batch, p, es), es, i) ==
            if Rewritten(read, batch, p)[i]
            then LastOff(read, es, p) - Total(OnlyTheirs(read, now, batch), es, i + 1)
            else Off(now, es, i) - Total(OnlyMine(now, batch), es, i + 1)
  {
    if Rewritten(read, batch, p)[i] {
      LastStoredIs(read, es, p);
      TotalOfRewritten(es, read, now, batch, p, i + 1);
    } else {
      TotalOfKept(es, read, now, batch, p, i + 1);
    }
  }

  /**
   The i-th balance is right after the save: rewritten from a seed whose error is what was missed of the
   others, or kept, and off before by what it misses of the batch.
   */
  ghost predicate Right(es: seq<Event>, read: Balances, now: Balances, batch: Mask, p: nat, i: nat)
    requires |read| == |now| == |batch| == |es| && p < |es| && i < |es|
    requires Rewritten(read, batch, p)[i] || now[i].Some?
  {
    if Rewritten(read, batch, p)[i] then LastOff(read, es, p) == Total(OnlyTheirs(read, now, batch), es, i + 1)
    else Off(now, es, i) == Total(OnlyMine(now, batch), es, i + 1)
  }

  /** One late save: the chain holds afterwards if and only if every balance is right by what its writer knew. */
  lemma {:induction false} ChainSurvivesIff(es: seq<Event>, k: Key, read: Balances, now: Balances, batch: Mask, p: nat,
                                            before: seq<Row>, rows: seq<Row>)
    requires Overlap(es, k, read, batch, p) && Heap(before, es, k, read) && Heap(rows, es, k, now) && Grown(read, now)
    ensures Chained(Table(UpsertAll(rows, KeySnapshots(before, Batch(batch, es), {}, k)), k), 0.0) <==>
            forall i: nat | i < |es| && (Rewritten(read, batch, p)[i] || now[i].Some?) ::
              Right(es, read, now, batch, p, i)
  {
    var after := Saved(read, now, batch, p, es);
    LateSave(es, k, read, now, batch, p, before, rows);
    ChainedIffNoneOff(after, es);
    forall i: nat | i < |es|
      ensures after[i].Some? <==> Rewritten(read, batch, p)[i] || now[i].Some?
      ensures after[i].Some? ==> (Off(after, es, i) == 0.0 <==> Right(es, read, now, batch, p, i))
    {
      if after[i].Some? { OffAfterSave(es, read, now, batch, p, i); }
    }
  }

  /** A materialization that nothing interrupts repairs every balance from its first event on, and no other. */
  lemma {:induction false} RepairsIff(es: seq<Event>, k: Key, now: Balances, batch: Mask, p: nat, rows: seq<Row>)
    requires Overlap(es, k, now, batch, p) && Heap(rows, es, k, now)
    ensures Chained(Table(UpsertAll(rows, KeySnapshots(rows, Batch(batch, es), {}, k)), k), 0.0) <==>
            forall i: nat | i < p && now[i].Some? :: Off(now, es, i) == 0.0
  {
    ChainSurvivesIff(es, k, now, now, batch, p, rows, rows);
    AllRightAlone(es, now, batch, p);
  }

  lemma {:induction false} AllRightAlone(es: seq<Event>, now: Balances, batch: Mask, p: nat)
    requires |now| == |batch| == |es| && IsFirst(batch, p)
    ensures (forall i: nat | i < |es| && (Rewritten(now, batch, p)[i] || now[i].Some?) ::
               Right(es, now, now, batch, p, i)) <==>
            forall i: nat | i < p && now[i].Some? :: Off(now, es, i) == 0.0
  {
    forall i: nat | i < |es| && (Rewritten(now, batch, p)[i] || now[i].Some?)
      ensures i < p ==> now[i].Some?
      ensures Right(es, now, now, batch, p, i) <==> if i < p then Off(now, es, i) == 0.0 else LastOff(now, es, p) == 0.0
    {
      RightAlone(es, now, batch, p, i);
    }
    if forall i: nat | i < p && now[i].Some? :: Off(now, es, i) == 0.0 { NoneOff(now, es, p); }
  }

  lemma {:induction false} RightAlone(es: seq<Event>, now: Balances, batch: Mask, p: nat, i: nat)
    requires |now| == |batch| == |es| && IsFirst(batch, p) && i < |es| && (Rewritten(now, batch, p)[i] || now[i].Some?)
    ensures i < p ==> now[i].Some?
    ensures Right(es, now, now, batch, p, i) <==> if i < p then Off(now, es, i) == 0.0 else LastOff(now, es, p) == 0.0
  {
    NoneTheirs(es, now, batch, i + 1);
    if i < p { NoneMine(es, now, batch, p, i + 1); }
  }

  lemma {:induction false} NoneTheirs(es: seq<Event>, now: Balances, batch: Mask, n: nat)
    requires n <= |es| == |now| == |batch|
    ensures Total(OnlyTheirs(now, now, batch), es, n) == 0.0
  {
    if n > 0 { NoneTheirs(es, now, batch, n - 1); }
  }

  lemma {:induction false} NoneMine(es: seq<Event>, now: Balances, batch: Mask, p: nat, n: nat)
    requires n <= p && |es| == |now| == |batch| && IsFirst(batch, p)
    ensures Total(OnlyMine(now, batch), es, n) == 0.0
  {
    if n > 0 { NoneMine(es, now, batch, p, n - 1); }
  }

  // ---------------------------------------------------------------------------
  // Any number of overlapping materializations
  // ---------------------------------------------------------------------------

  /** A save: after how many earlier saves its reads took place, its batch, and the batch's first event. */
  datatype Save = Save(read: nat, batch: Mask, first: nat)

  ghost predicate ValidSaves(saves: seq<Save>, es: seq<Event>) {
    forall j: nat | j < |saves| ::
      saves[j].read <= j && |saves[j].batch| == |es| && IsFirst(saves[j].batch, saves[j].first)
  }

  function Nothing(n: nat): Balances { seq(n, i => None) }

  /** The heap before the first save and after each: every save upserts what was planned from its reads. */
  ghost predicate Trace(saves: seq<Save>, es: seq<Event>, k: Key, heaps: seq<seq<Row>>)
    requires ValidSaves(saves, es)
  {
    && |heaps| == |saves| + 1 && heaps[0] == []
    && forall j: nat | j < |saves| ::
         heaps[j + 1] == UpsertAll(heaps[j], KeySnapshots(heaps[saves[j].read], Batch(saves[j].batch, es), {}, k))
  }

  ghost function After(saves: seq<Save>, es: seq<Event>, n: nat): (m: Balances)
    requires n <= |saves| && ValidSaves(saves, es)
    ensures |m| == |es|
    decreases n
  {
    if n == 0 then Nothing(|es|)
    else
      var s := saves[n - 1];
      Saved(After(saves, es, s.read), After(saves, es, n - 1), s.batch, s.first, es)
  }

  lemma {:induction false} HeapIsAfter(saves: seq<Save>, es: seq<Event>, k: Key, heaps: seq<seq<Row>>, n: nat)
    requires n <= |saves| && ValidSaves(saves, es) && Timeline(es, k) && Trace(saves, es, k, heaps)
    ensures Heap(heaps[n], es, k, After(saves, es, n))
    decreases n
  {
    if n == 0 {
      EmptyHeap(es, k);
    } else {
      var s := saves[n - 1];
      HeapIsAfter(saves, es, k, heaps, n - 1);
      HeapIsAfter(saves, es, k, heaps, s.read);
      assert heaps[(n - 1) + 1] == UpsertAll(heaps[n - 1], KeySnapshots(heaps[s.read], Batch(s.batch, es), {}, k));
      LateSave(es, k, After(saves, es, s.read), After(saves, es, n - 1), s.batch, s.first, heaps[s.read], heaps[n - 1]);
    }
  }

  lemma {:induction false} EmptyHeap(es: seq<Event>, k: Key)
    ensures Heap([], es, k, Nothing(|es|))
  {
    NoRows(Nothing(|es|), es, |es|);
    TableIs([], k, []);
  }

  lemma {:induction false} NoRows(m: Balances, es: seq<Event>, n: nat)
    requires n <= |es| == |m| && forall i: nat | i < |m| :: m[i].None?
    ensures Rows(m, es, n) == []
  {
    if n > 0 { NoRows(m, es, n - 1); }
  }

  lemma {:induction false} RunGrows(saves: seq<Save>, es: seq<Event>, m: nat, n: nat)
    requires m <= n <= |saves| && ValidSaves(saves, es)
    ensures Grown(After(saves, es, m), After(saves, es, n))
    decreases n
  {
    if m < n {
      var s := saves[n - 1];
      RunGrows(saves, es, m, n - 1);
      SaveGrows(After(saves, es, s.read), After(saves, es, n - 1), s.batch, s.first, es);
    }
  }

  lemma {:induction false} SaveGrows(read: Balances, now: Balances, batch: Mask, p: nat, es: seq<Event>)
    requires |read| == |now| == |batch| == |es| && p <= |es|
    ensures Grown(now, Saved(read, now, batch, p, es))
  {
    var planned := Planned(read, batch, p, es);
    assert forall i: nat | i < |es| ::
        Saved(read, now, batch, p, es)[i] == if planned[i].Some? then planned[i] else now[i];
  }

  /** Which events the first `n` saves bring. */
  ghost function Delivered(saves: seq<Save>, es: seq<Event>, n: nat): (mask: Mask)
    requires n <= |saves| && ValidSaves(saves, es)
    ensures |mask| == |es|
  {
    seq(|es|, i requires 0 <= i < |es| => exists j: nat | j < n :: saves[j].batch[i])
  }

  lemma {:induction false} KnownIsDelivered(saves: seq<Save>, es: seq<Event>, n: nat)
    requires n <= |saves| && ValidSaves(saves, es)
    ensures Known(After(saves, es, n)) == Delivered(saves, es, n)
    decreases n
  {
    if n > 0 {
      var s := saves[n - 1];
      KnownIsDelivered(saves, es, n - 1);
      RunGrows(saves, es, s.read, n - 1);
      KnownAfterSave(After(saves, es, s.read), After(saves, es, n - 1), s.batch, s.first, es);
      DeliveredNext(saves, es, n - 1);
    }
  }

  lemma {:induction false} KnownAfterSave(read: Balances, now: Balances, batch: Mask, p: nat, es: seq<Event>)
    requires |read| == |now| == |batch| == |es| && IsFirst(batch, p) && Grown(read, now)
    ensures Known(Saved(read, now, batch, p, es)) == Either(Known(now), batch)
  {
    forall i: nat | i < |es| ensures Known(Saved(read, now, batch, p, es))[i] == Either(Known(now), batch)[i] {
      assert Planned(read, batch, p, es)[i].Some? <==> p <= i && (read[i].Some? || batch[i]);
    }
  }

  lemma {:induction false} DeliveredNext(saves: seq<Save>, es: seq<Event>, n: nat)
    requires n < |saves| && ValidSaves(saves, es)
    ensures Delivered(saves, es, n + 1) == Either(Delivered(saves, es, n), saves[n].batch)
  {
    forall i: nat | i < |es| && Delivered(saves, es, n)[i] ensures Delivered(saves, es, n + 1)[i] {
      var j: nat :| j < n && saves[j].batch[i];
      assert j < n + 1;
    }
  }

  function Without(mask: Mask, other: Mask): Mask
    requires |mask| == |other|
  {
    seq(|mask|, i requires 0 <= i < |mask| => mask[i] && !other[i])
  }

  function Either(mask: Mask, other: Mask): Mask
    requires |mask| == |other|
  {
    seq(|mask|, i requires 0 <= i < |mask| => mask[i] || other[i])
  }

  /**
   The error of the i-th balance after `n` saves, from the deltas alone: who wrote it last, from which
   read, and which deltas that writer had not seen.
   */
  ghost function Drift(saves: seq<Save>, es: seq<Event>, n: nat, i: nat): real
    requires n <= |saves| && i < |es| && ValidSaves(saves, es)
    decreases n, 0
  {
    if n == 0 then 0.0
    else
      var s := saves[n - 1];
      var read, now := Delivered(saves, es, s.read), Delivered(saves, es, n - 1);
      if s.first <= i && (read[i] || s.batch[i])
      then SeedDrift(saves, es, s.read, s.first) - Total(Without(now, Either(read, s.batch)), es, i + 1)
      else Drift(saves, es, n - 1, i) - Total(Without(s.batch, now), es, i + 1)
  }

  ghost function SeedDrift(saves: seq<Save>, es: seq<Event>, n: nat, p: nat): real
    requires n <= |saves| && p <= |es| && ValidSaves(saves, es)
    decreases n, 1 + p
  {
    if p == 0 then 0.0
    else if Delivered(saves, es, n)[p - 1] then Drift(saves, es, n, p - 1)
    else SeedDrift(saves, es, n, p - 1)
  }

  lemma {:induction false} DriftIsOff(saves: seq<Save>, es: seq<Event>, n: nat, i: nat)
    requires n <= |saves| && i < |es| && ValidSaves(saves, es) && After(saves, es, n)[i].Some?
    ensures Off(After(saves, es, n), es, i) == Drift(saves, es, n, i)
    decreases n, 0
  {
    if n > 0 {
      var s := saves[n - 1];
      DriftOfLast(saves, es, n, i);
      if Rewritten(After(saves, es, s.read), s.batch, s.first)[i] {
        SeedDriftIsOff(saves, es, s.read, s.first);
      } else {
        DriftIsOff(saves, es, n - 1, i);
      }
    }
  }

  /** The error after the last save, in terms of the errors before it. */
  lemma {:induction false} DriftOfLast(saves: seq<Save>, es: seq<Event>, n: nat, i: nat)
    requires 0 < n <= |saves| && i < |es| && ValidSaves(saves, es) && After(saves, es, n)[i].Some?
    ensures var s := saves[n - 1];
            var read, now := Delivered(saves, es, s.read), Delivered(saves, es, n - 1);
            var mask := Rewritten(After(saves, es, s.read), s.batch, s.first);
            && (mask[i] <==> s.first <= i && (read[i] || s.batch[i]))
            && (!mask[i] ==> After(saves, es, n - 1)[i].Some?)
            && Off(After(saves, es, n), es, i) ==
               (if mask[i]
                then LastOff(After(saves, es, s.read), es, s.first) - Total(Without(now, Either(read, s.batch)), es,
                    i + 1)
                else Off(After(saves, es, n - 1), es, i) - Total(Without(s.batch, now), es, i + 1))
  {
    var s := saves[n - 1];
    RunGrows(saves, es, s.read, n - 1);
    OffAfterSave(es, After(saves, es, s.read), After(saves, es, n - 1), s.batch, s.first, i);
    MasksAre(saves, es, n);
    KnownIsDelivered(saves, es, s.read);
    assert Known(After(saves, es, s.read))[i] == Delivered(saves, es, s.read)[i];
  }

  lemma {:induction false} MasksAre(saves: seq<Save>, es: seq<Event>, n: nat)
    requires 0 < n <= |saves| && ValidSaves(saves, es)
    ensures var s := saves[n - 1];
            var read, now := Delivered(saves, es, s.read), Delivered(saves, es, n - 1);
            && OnlyTheirs(After(saves, es, s.read), After(saves, es, n - 1), s.batch) ==
              Without(now, Either(read, s.batch))
            && OnlyMine(After(saves, es, n - 1), s.batch) == Without(s.batch, now)
  {
    var s := saves[n - 1];
    KnownIsDelivered(saves, es, s.read);
    KnownIsDelivered(saves, es, n - 1);
    var read, now := After(saves, es, s.read), After(saves, es, n - 1);
    forall i: nat | i < |es|
      ensures read[i].Some? <==> Delivered(saves, es, s.read)[i]
      ensures now[i].Some? <==> Delivered(saves, es, n - 1)[i]
    {
      assert Known(read)[i] == Delivered(saves, es, s.read)[i] && Known(now)[i] == Delivered(saves, es, n - 1)[i];
    }
  }

  lemma {:induction false} SeedDriftIsOff(saves: seq<Save>, es: seq<Event>, n: nat, p: nat)
    requires n <= |saves| && p <= |es| && ValidSaves(saves, es)
    ensures LastOff(After(saves, es, n), es, p) == SeedDrift(saves, es, n, p)
    decreases n, 1 + p
  {
    if p > 0 {
      var m := After(saves, es, n);
      KnownIsDelivered(saves, es, n);
      assert Known(m)[p - 1] == Delivered(saves, es, n)[p - 1];
      if m[p - 1].Some? { DriftIsOff(saves, es, n, p - 1); } else { SeedDriftIsOff(saves, es, n, p - 1); }
    }
  }

  /**
   Any number of materializations of a key, from an empty table, each reading after some of the saves and
   saving after others: the chain of balances holds if and only if no delivered event has drifted.
   */
  lemma {:induction false} ChainSurvivesRunIff(saves: seq<Save>, es: seq<Event>, k: Key, heaps: seq<seq<Row>>)
    requires ValidSaves(saves, es) && Timeline(es, k) && Trace(saves, es, k, heaps)
    ensures Chained(Table(heaps[|saves|], k), 0.0) <==>
            forall i: nat | i < |es| && Delivered(saves, es, |saves|)[i] :: Drift(saves, es, |saves|, i) == 0.0
  {
    var n, m := |saves|, After(saves, es, |saves|);
    HeapIsAfter(saves, es, k, heaps, n);
    ChainedIffNoneOff(m, es);
    KnownIsDelivered(saves, es, n);
    forall i: nat | i < |es|
      ensures m[i].Some? <==> Delivered(saves, es, n)[i]
      ensures m[i].Some? ==> Off(m, es, i) == Drift(saves, es, n, i)
    {
      assert Known(m)[i] == Delivered(saves, es, n)[i];
      if m[i].Some? { DriftIsOff(saves, es, n, i); }
    }
  }

  /**
   Two materializations of an empty key, five and then three at a later time. Both read the empty table;
   the second save stores a balance of three after five.
   */
  lemma {:induction false} OverlapBreaksChain(k: Key, heaps: seq<seq<Row>>)
    ensures var es := [Event(k, 1, 1, 5.0), Event(k, 2, 2, 3.0)];
            var saves := [Save(0, [true, false], 0), Save(0, [false, true], 1)];
            && Timeline(es, k) && ValidSaves(saves, es)
            && After(saves, es, 2) == [Some(5.0), Some(3.0)]
            && (Trace(saves, es, k, heaps) ==> !Chained(Table(heaps[2], k), 0.0))
  {
    var es := [Event(k, 1, 1, 5.0), Event(k, 2, 2, 3.0)];
    var saves := [Save(0, [true, false], 0), Save(0, [false, true], 1)];
    OrderIsLexicographic(1, 1, 2, 2);
    assert Timeline(es, k);
    assert IsFirst([true, false], 0) && IsFirst([false, true], 1);
    FirstSave(es, 5.0, 3.0);
    if Trace(saves, es, k, heaps) { HeapIsAfter(saves, es, k, heaps, 2); }
    var m: Balances := [Some(5.0), Some(3.0)];
    ChainedIffNoneOff(m, es);
    assert Total(Known(m), es, 2) == 8.0 by { assert Total(Known(m), es, 1) == 5.0; }
    assert Off(m, es, 1) == -5.0;
  }

  lemma {:induction false} FirstSave(es: seq<Event>, a: real, b: real)
    requires |es| == 2 && es[0].delta == a && es[1].delta == b
    requires ValidSaves([Save(0, [true, false], 0), Save(0, [false, true], 1)], es)
    ensures After([Save(0, [true, false], 0), Save(0, [false, true], 1)], es, 2) == [Some(a), Some(b)]
  {
    var saves := [Save(0, [true, false], 0), Save(0, [false, true], 1)];
    var none := Nothing(|es|);
    assert After(saves, es, 0) == none;
    var one := Saved(none, none, [true, false], 0, es);
    assert Rewritten(none, [true, false], 0) == [true, false];
    assert Total([true, false], es, 1) == a by { assert Total([true, false], es, 0) == 0.0; }
    assert one == [Some(a), None];
    assert Rewritten(none, [false, true], 1) == [false, true];
    assert Total([false, true], es, 2) == b by { assert Total([false, true], es, 1) == 0.0; }
    assert LastStored(none, 1) == 0.0;
  }
}
