/** The database as an object: the repositories read and write its tables, and a unit of work can roll back. */
module Database {
  import opened Results
  import opened Tables
  import opened Events
  import T = Transactions
  import R = Receivables
  import S = Settlements
  import A = Anticipations
  import L = Ledger
  import opened Acquirer
  import opened DuePicks

  // Objects restored from rows, one each.
  ghost predicate Holds(list: seq<R.Receivable>, rows: seq<R.Rcv>)
    reads list
  {
    && |list| == |rows|
    && (forall i :: 0 <= i < |list| ==> list[i].View() == rows[i])
    && (forall i, j :: 0 <= i < j < |list| ==> list[i] != list[j])
  }

  method Restore(rows: seq<R.Rcv>) returns (list: seq<R.Receivable>)
    ensures fresh(list) && Holds(list, rows)
  {
    list := [];
    for i := 0 to |rows|
      invariant fresh(list) && Holds(list, rows[..i])
    {
      var r := new R.Receivable.Restore(rows[i]);
      list := list + [r];
    }
    assert rows[..|rows|] == rows;
  }

  // The statements of a unit of work computed what the step says, or failed with it.
  twostate predicate Ran(db: Database, step: Result<State>, ok: bool)
    reads db
  {
    (ok <==> step.Ok?) && (ok ==> db.tables == step.value)
  }

  // The first error of a batch of guarded updates is the error of the batch.
  lemma {:induction false} UpdateStops<D>(t: seq<Row<D>>, rows: seq<Row<D>>, i: nat)
    requires i <= |rows| && UpdateAll(t, rows[..i]).Err?
    ensures UpdateAll(t, rows) == UpdateAll(t, rows[..i])
    decreases |rows| - i
  {
    if i < |rows| {
      assert rows[..i+1][..i] == rows[..i];
      UpdateStops(t, rows, i + 1);
    } else {
      assert rows[..i] == rows;
    }
  }

  lemma {:induction false} InsertStops<D>(t: seq<Row<D>>, rows: seq<Row<D>>, i: nat)
    requires i <= |rows| && InsertAll(t, rows[..i]).Err?
    ensures InsertAll(t, rows) == InsertAll(t, rows[..i])
    decreases |rows| - i
  {
    if i < |rows| {
      assert rows[..i+1][..i] == rows[..i];
      InsertStops(t, rows, i + 1);
    } else {
      assert rows[..i] == rows;
    }
  }

  class Database {
    var tables: State

    constructor ()
      ensures tables == Init()
    {
      tables := Init();
    }

    // Undoes everything a unit of work wrote.
    method Rollback(saved: State)
      modifies this
      ensures tables == saved
    {
      tables := saved;
    }

    method MarkIfNew(id: Id) returns (isNew: bool)
      modifies this
      ensures isNew <==> id !in old(tables).processed
      ensures tables == old(tables).(processed := old(tables).processed + {id})
    {
      isNew := id !in tables.processed;
      tables := tables.(processed := tables.processed + {id});
    }

    method FindTransaction(merchant: Id, id: Id) returns (r: Result<T.Transaction>)
      ensures r.Err? ==> FindTx(tables, merchant, id) == Err(r.error)
      ensures r.Ok? ==> fresh(r.value) && FindTx(tables, merchant, id) == Ok(r.value.View()) && r.value.events == []
    {
      var found := FindTx(tables, merchant, id);
      if found.Err? {
        return Err(found.error);
      }
      var t := new T.Transaction.Restore(found.value);
      return Ok(t);
    }

    method CreateTransaction(t: T.Transaction) returns (r: Result<()>)
      modifies this
      ensures r.Err? ==> Insert(old(tables).txs, t.View()) == Err(r.error)
      ensures r.Ok? ==> Insert(old(tables).txs, t.View()).Ok? && tables == old(tables).(txs := Insert(old(tables).txs, t.View()).value)
    {
      var txs := Insert(tables.txs, t.View());
      if txs.Err? {
        return Err(txs.error);
      }
      tables := tables.(txs := txs.value);
      return Ok(());
    }

    method UpdateTransaction(t: T.Transaction) returns (r: Result<()>)
      modifies this
      ensures r.Err? ==> Update(old(tables).txs, t.View()) == Err(r.error)
      ensures r.Ok? ==> Update(old(tables).txs, t.View()).Ok? && tables == old(tables).(txs := Update(old(tables).txs, t.View()).value)
    {
      var txs := Update(tables.txs, t.View());
      if txs.Err? {
        return Err(txs.error);
      }
      tables := tables.(txs := txs.value);
      return Ok(());
    }

    method SaveAll(list: seq<R.Receivable>, ghost rows: seq<R.Rcv>) returns (r: Result<()>)
      requires Holds(list, rows)
      modifies this
      ensures r.Err? ==> InsertAll(old(tables).rcvs, rows) == Err(r.error)
      ensures r.Ok? ==> InsertAll(old(tables).rcvs, rows).Ok? && tables == old(tables).(rcvs := InsertAll(old(tables).rcvs, rows).value)
    {
      for i := 0 to |list|
        invariant InsertAll(old(tables).rcvs, rows[..i]) == Ok(tables.rcvs)
        invariant tables == old(tables).(rcvs := tables.rcvs)
      {
        assert rows[..i+1][..i] == rows[..i];
        var rcvs := Insert(tables.rcvs, list[i].View());
        if rcvs.Err? {
          InsertStops(old(tables).rcvs, rows, i + 1);
          return Err(rcvs.error);
        }
        tables := tables.(rcvs := rcvs.value);
      }
      assert rows[..|rows|] == rows;
      return Ok(());
    }

    method UpdateReceivables(list: seq<R.Receivable>, ghost rows: seq<R.Rcv>) returns (r: Result<()>)
      requires Holds(list, rows)
      modifies this
      ensures r.Err? ==> UpdateAll(old(tables).rcvs, rows) == Err(r.error)
      ensures r.Ok? ==> UpdateAll(old(tables).rcvs, rows).Ok? && tables == old(tables).(rcvs := UpdateAll(old(tables).rcvs, rows).value)
    {
      for i := 0 to |list|
        invariant UpdateAll(old(tables).rcvs, rows[..i]) == Ok(tables.rcvs)
        invariant tables == old(tables).(rcvs := tables.rcvs)
      {
        assert rows[..i+1][..i] == rows[..i];
        var rcvs := Update(tables.rcvs, list[i].View());
        if rcvs.Err? {
          UpdateStops(old(tables).rcvs, rows, i + 1);
          return Err(rcvs.error);
        }
        tables := tables.(rcvs := rcvs.value);
      }
      assert rows[..|rows|] == rows;
      return Ok(());
    }

    // Rows a WHERE clause selects, as objects.
    method Query(q: R.Rcv -> bool) returns (list: seq<R.Receivable>, ghost rows: seq<R.Rcv>)
      ensures rows == Where(tables.rcvs, q) && fresh(list) && Holds(list, rows)
    {
      list := [];
      rows := [];
      for i := 0 to |tables.rcvs|
        invariant rows == Where(tables.rcvs[..i], q) && fresh(list) && Holds(list, rows)
      {
        assert tables.rcvs[..i+1][..i] == tables.rcvs[..i];
        if q(tables.rcvs[i]) {
          var r := new R.Receivable.Restore(tables.rcvs[i]);
          list := list + [r];
          rows := rows + [tables.rcvs[i]];
        }
      }
      assert tables.rcvs[..|tables.rcvs|] == tables.rcvs;
    }

    // The batch query, in the order and up to the limit of its SQL, passing over locked rows.
    method ListDueOnForUpdate(day: nat, limit: nat, locked: set<Id>) returns (list: seq<R.Receivable>, ghost rows: seq<R.Rcv>)
      requires DistinctIds(tables.rcvs)
      ensures rows == DuePick(Where(tables.rcvs, Unlocked(locked)), day, limit) && IsPick(tables.rcvs, day, limit, rows)
      ensures forall r :: r in rows ==> r.id !in locked
      ensures fresh(list) && Holds(list, rows)
    {
      UnlockedPick(tables.rcvs, day, limit, locked);
      rows := DuePick(Where(tables.rcvs, Unlocked(locked)), day, limit);
      list := Restore(DuePick(Where(tables.rcvs, Unlocked(locked)), day, limit));
    }

    method CreateSettlement(x: S.Settlement) returns (r: Result<()>)
      modifies this
      ensures r.Err? ==> Insert(old(tables).stls, x.View()) == Err(r.error) && tables == old(tables)
      ensures r.Ok? ==> Insert(old(tables).stls, x.View()).Ok? && tables == old(tables).(stls := Insert(old(tables).stls, x.View()).value)
    {
      var stls := Insert(tables.stls, x.View());
      if stls.Err? {
        return Err(stls.error);
      }
      tables := tables.(stls := stls.value);
      return Ok(());
    }

    method UpdateSettlement(x: S.Settlement) returns (r: Result<()>)
      modifies this
      ensures r.Err? ==> Update(old(tables).stls, x.View()) == Err(r.error)
      ensures r.Ok? ==> Update(old(tables).stls, x.View()).Ok? && tables == old(tables).(stls := Update(old(tables).stls, x.View()).value)
    {
      var stls := Update(tables.stls, x.View());
      if stls.Err? {
        return Err(stls.error);
      }
      tables := tables.(stls := stls.value);
      return Ok(());
    }

    method CreateAnticipation(a: A.Anticipation) returns (r: Result<()>)
      modifies this
      ensures r.Err? ==> Insert(old(tables).ants, a.View()) == Err(r.error)
      ensures r.Ok? ==> Insert(old(tables).ants, a.View()).Ok? && tables == old(tables).(ants := Insert(old(tables).ants, a.View()).value)
    {
      var ants := Insert(tables.ants, a.View());
      if ants.Err? {
        return Err(ants.error);
      }
      tables := tables.(ants := ants.value);
      return Ok(());
    }

    method CreateChargeback(cb: Cb) returns (r: Result<()>)
      modifies this
      ensures r.Err? ==> Insert(old(tables).cbs, cb) == Err(r.error)
      ensures r.Ok? ==> Insert(old(tables).cbs, cb).Ok? && tables == old(tables).(cbs := Insert(old(tables).cbs, cb).value)
    {
      var cbs := Insert(tables.cbs, cb);
      if cbs.Err? {
        return Err(cbs.error);
      }
      tables := tables.(cbs := cbs.value);
      return Ok(());
    }

    // Checks the balance of the whole batch, then inserts entry by entry under the table's CHECKs.
    method AppendEntries(entries: seq<L.Entry>) returns (r: Result<()>)
      modifies this
      ensures r.Err? ==> L.Append(old(tables).ledger, entries) == Err(r.error)
      ensures r.Ok? ==> L.Append(old(tables).ledger, entries).Ok? && tables == old(tables).(ledger := L.Append(old(tables).ledger, entries).value)
    {
      var balanced := L.IsBalanced(entries);
      if !balanced {
        return Err(Unbalanced);
      }
      for i := 0 to |entries|
        invariant tables == old(tables).(ledger := old(tables).ledger + entries[..i])
        invariant forall k :: 0 <= k < i ==> L.Storable(entries[k])
      {
        if !L.Storable(entries[i]) {
          return Err(CheckViolation);
        }
        tables := tables.(ledger := tables.ledger + [entries[i]]);
        assert old(tables).ledger + entries[..i] + [entries[i]] == old(tables).ledger + entries[..i+1];
      }
      assert entries[..|entries|] == entries;
      return Ok(());
    }

    method AppendEvents(events: seq<Event>) returns (r: Result<()>)
      modifies this
      ensures r.Err? ==> InsertAll(old(tables).outbox, events) == Err(r.error)
      ensures r.Ok? ==> InsertAll(old(tables).outbox, events).Ok? && tables == old(tables).(outbox := InsertAll(old(tables).outbox, events).value)
    {
      for i := 0 to |events|
        invariant InsertAll(old(tables).outbox, events[..i]) == Ok(tables.outbox)
        invariant tables == old(tables).(outbox := tables.outbox)
      {
        assert events[..i+1][..i] == events[..i];
        var outbox := Insert(tables.outbox, events[i]);
        if outbox.Err? {
          InsertStops(old(tables).outbox, events, i + 1);
          return Err(outbox.error);
        }
        tables := tables.(outbox := outbox.value);
      }
      assert events[..|events|] == events;
      return Ok(());
    }
  }
}
