/** One materialization of the two Gold tables of a wallet. */
module GoldMaterializer {
  import opened Common
  import opened GoldLedger
  import opened LedgerTable
  import opened BalanceHistory
  import opened BalanceStore
  import opened GoldRuns
  import opened GoldTimes
  import BalanceMaterializer

  lemma {:induction false} TablesTimed(rows: seq<Row>, c: Context, hash: Hash, world: set<Raw>, done: seq<seq<Raw>>,
                                       raws: seq<Raw>)
    requires ValidWorld(c, hash, world) && BatchesFrom(world, done) && BatchFrom(world, raws)
    requires HistoryHolds(rows, c, hash, done + [raws])
    ensures forall k :: Timed(Table(rows, k), c, hash, done + [raws], k)
  {
    BatchesGrow(world, done, raws);
    forall k ensures Timed(Table(rows, k), c, hash, done + [raws], k) {
      RunIsTimed(c, hash, world, done + [raws], k);
    }
  }

  method Derive(c: Context, raws: seq<Raw>) returns (rows: seq<LedgerRow>, events: seq<BalanceEvent>)
    requires c.wallet != ""
    ensures rows == LedgerOf(c, raws) && events == EventsOf(c, raws)
  {
    rows, events := Materialize(c, raws);
  }

  class GoldTables {
    /** The wallet_ledger and balance_history tables of one wallet. */
    var ledger: seq<LedgerRow>
    const history: BalanceMaterializer.BalanceHistoryTable

    constructor ()
      ensures ledger == [] && history.rows == [] && fresh(history)
    {
      ledger := [];
      history := new BalanceMaterializer.BalanceHistoryTable();
    }

    ghost predicate After(c: Context, hash: Hash, done: seq<seq<Raw>>)
      reads this, history
    {
      ledger == StoredLedger(c, done) && HistoryHolds(history.rows, c, hash, done)
    }

    /** The ledger's transaction: all of it, or nothing. */
    method ReplaceLedger(inputs: set<nat>, rows: seq<LedgerRow>) returns (ok: bool)
      modifies this
      ensures ok == Replace(old(ledger), inputs, rows).Ok?
      ensures ledger == if ok then Replace(old(ledger), inputs, rows).value else old(ledger)
    {
      var written := WriteChunks(Filter(NotFrom(inputs), ledger), rows);
      if written.Ok? { ledger := written.value; }
      return written.Ok?;
    }

    /** The wallet_ledger part of a materialization. */
    method BookRows(c: Context, raws: seq<Raw>, rows: seq<LedgerRow>, ghost done: seq<seq<Raw>>) returns (ok: bool)
      requires rows == LedgerOf(c, raws) && ledger == StoredLedger(c, done)
      modifies this
      ensures ledger == StoredLedger(c, done + [raws]) && (ok <==> !RepeatsInChunk(rows))
    {
      WriteFailsIff(Filter(NotFrom(RawIds(raws)), ledger), rows);
      OneMoreWrite(c, done, raws);
      ok := ReplaceLedger(RawIds(raws), rows);
    }

    /** The balance_history part of a materialization. */
    method MergeEvents(c: Context, hash: Hash, ghost raws: seq<Raw>, events: seq<BalanceEvent>, keys: seq<Key>,
                       ghost world: set<Raw>, ghost done: seq<seq<Raw>>)
      requires ValidWorld(c, hash, world) && BatchesFrom(world, done) && BatchFrom(world, raws)
      requires events == EventsOf(c, raws) && HistoryHolds(history.rows, c, hash, done)
      requires ListsKeys(keys, BatchEvents(c, hash, raws))
      modifies history
      ensures HistoryHolds(history.rows, c, hash, done + [raws])
    {
      ghost var before := history.rows;
      BatchIsReady(history.rows, c, hash, world, done, raws);
      var _ := history.Materialize(ToEvents(hash, events), keys, {}, false);
      HistoryAfter(before, history.rows, c, hash, done, raws);
    }

    /**
     One materialization of raw rows: both datasets are derived, the ledger rows of the inputs are
     replaced, and the balance events merged even if the ledger refused its rows. `done` are the batches
     materialized before.
     */
    method MaterializeGold(c: Context, hash: Hash, raws: seq<Raw>, keys: seq<Key>, ghost world: set<Raw>,
                           ghost done: seq<seq<Raw>>)
      returns (ledgerOk: bool)
      requires c.wallet != "" && ValidWorld(c, hash, world)
      requires BatchesFrom(world, done) && BatchFrom(world, raws) && After(c, hash, done)
      requires ListsKeys(keys, BatchEvents(c, hash, raws))
      modifies this, history
      ensures After(c, hash, done + [raws])
      ensures ledgerOk <==> !RepeatsInChunk(LedgerOf(c, raws))
      ensures Bookable(c, world) ==> Agree(history.rows, ledger, c, hash, done + [raws])
      ensures forall k :: Timed(Table(history.rows, k), c, hash, done + [raws], k)
    {
      var rows, events := Derive(c, raws);
      ledgerOk := BookRows(c, raws, rows, done);
      MergeEvents(c, hash, raws, events, keys, world, done);
      LawAfterNext(history.rows, ledger, c, hash, world, done, raws);
      TablesTimed(history.rows, c, hash, world, done, raws);
    }
  }
}
