/** The use cases as they run: each is one unit of work over the database, committed whole or rolled back. */
module UseCases {
  import opened Results
  import opened Civil
  import opened Calendar
  import opened Tables
  import opened Events
  import T = Transactions
  import R = Receivables
  import A = Anticipations
  import opened Schedules
  import L = Ledger
  import opened Acquirer
  import opened Database

  // Every use case runs in one unit of work: all of the step or, after an error or a COMMIT
  // that fails, nothing.
  method Do(db: Database, op: Op, commits: bool) returns (r: Result<()>)
    requires Enabled(db.tables, op) && !op.SettleBatch?
    modifies db
    ensures r.Ok? <==> Step(old(db.tables), op).Ok? && commits
    ensures db.tables == if commits then Apply(old(db.tables), op) else old(db.tables)
  {
    hide AuthorizeTx, CaptureTx, CancelTx, CapturedHandler, CanceledHandler, AnticipateRows, OpenCb;
    var saved := db.tables;
    match op {
      case Authorize(_, _, _, _, _, _, _, _, _, _) => r := AuthorizeSale(db, op);
      case Capture(_, _, _, _) => r := CaptureSale(db, op);
      case Cancel(_, _, _, _) => r := CancelSale(db, op);
      case OnCaptured(_, _, _, _) => r := OnCapturedEvent(db, op);
      case OnCanceled(_) => r := OnCanceledEvent(db, op);
      case Anticipate(_, _, _, _, _, _, _, _) => r := RequestAnticipation(db, op);
      case OpenChargeback(_, _, _, _, _, _) => r := OpenCase(db, op);
    }
    if r.Ok? && !commits {
      r := Err(CommitFailed);
    }
    if r.Err? {
      db.Rollback(saved);
    }
  }

  method AuthorizeSale(db: Database, op: Op) returns (r: Result<()>)
    requires op.Authorize?
    modifies db
    ensures Ran(db, AuthorizeTx(old(db.tables), op), r.Ok?)
  {
    var created :- T.New(op.id, op.merchant, op.active, op.plan, op.amount, op.product, op.installments, op.brand);
    var tx := new T.Transaction.Restore(created);
    if op.approved {
      r := tx.Authorize(op.eid);
    } else {
      r := tx.Deny(op.eid);
    }
    assert r.Ok?;
    var _ :- db.CreateTransaction(tx);
    var evs := tx.PullEvents();
    r := db.AppendEvents(evs);
  }

  method CaptureSale(db: Database, op: Op) returns (r: Result<()>)
    requires op.Capture?
    modifies db
    ensures Ran(db, CaptureTx(old(db.tables), op), r.Ok?)
  {
    var tx :- db.FindTransaction(op.merchant, op.id);
    var _ :- tx.CaptureNow(op.now, op.eid);
    r := StoreChange(db, tx);
  }

  method CancelSale(db: Database, op: Op) returns (r: Result<()>)
    requires op.Cancel?
    modifies db
    ensures Ran(db, CancelTx(old(db.tables), op), r.Ok?)
  {
    var tx :- db.FindTransaction(op.merchant, op.id);
    var _ :- tx.CancelNow(op.now, op.eid);
    r := StoreChange(db, tx);
  }

  // Writes the changed sale and its one event together.
  method StoreChange(db: Database, tx: T.Transaction) returns (r: Result<()>)
    requires |tx.events| == 1
    requires tx.events[0] == NewEvent(tx.events[0].id, tx.events[0].data.kind, tx.id, tx.merchant)
    modifies db, tx`events
    ensures Ran(db, ChangeTx(old(db.tables), Ok(old(tx.View())), old(tx.events)[0].data.kind, old(tx.events)[0].id), r.Ok?)
  {
    var _ :- db.UpdateTransaction(tx);
    var evs := tx.PullEvents();
    assert evs == [NewEvent(evs[0].id, evs[0].data.kind, tx.id, tx.merchant)];
    r := db.AppendEvents(evs);
  }

  method OnCapturedEvent(db: Database, op: Op) returns (r: Result<()>)
    requires op.OnCaptured? && Enabled(db.tables, op)
    modifies db
    ensures Ran(db, CapturedHandler(old(db.tables), op), r.Ok?)
  {
    hide StoreAgenda, BRAZIL;
    var ev := db.tables.outbox[op.k];
    var isNew := db.MarkIfNew(ev.id);
    if !isNew {
      assert db.tables == old(db.tables);
      return Ok(());
    }
    var tx :- db.FindTransaction(ev.data.merchant, ev.data.aggregate);
    if op.merchantPlan.None? {
      return Err(NotFound);
    }
    BrazilNeverClosedFiveDays();
    var list :- ScheduleReceivables(tx, op.merchantPlan.value, BRAZIL, op.ids);
    r := WriteAgenda(db, list, Views(list), NewEvent(op.eid, ReceivablesScheduled, tx.id, tx.merchant));
  }

  method WriteAgenda(db: Database, list: seq<R.Receivable>, ghost rows: seq<R.Rcv>, event: Event) returns (r: Result<()>)
    requires Holds(list, rows)
    modifies db
    ensures Ran(db, StoreAgenda(old(db.tables), rows, event), r.Ok?)
  {
    var _ :- db.SaveAll(list, rows);
    var _ :- PostAgenda(db, list, rows);
    r := db.AppendEvents([event]);
  }

  method PostAgenda(db: Database, list: seq<R.Receivable>, ghost rows: seq<R.Rcv>) returns (r: Result<()>)
    requires Holds(list, rows)
    modifies db
    ensures r.Err? ==> L.Append(old(db.tables).ledger, L.ForScheduled(rows)).Err?
    ensures r.Ok? ==> L.Append(old(db.tables).ledger, L.ForScheduled(rows)).Ok? &&
                      db.tables == old(db.tables).(ledger := L.Append(old(db.tables).ledger, L.ForScheduled(rows)).value)
  {
    var views := [];
    for i := 0 to |list|
      invariant views == rows[..i]
    {
      views := views + [list[i].View()];
    }
    assert rows[..|rows|] == rows;
    var entries := L.EntriesForScheduled(views);
    r := db.AppendEntries(entries);
  }

  // Closes, in order, the receivables of a list that a cancellation or a chargeback
  // reaches; the others are left as they are.
  method CloseReceivables(list: seq<R.Receivable>, ghost rows: seq<R.Rcv>, to: R.Status)
      returns (changed: seq<R.Receivable>, entries: seq<L.Entry>)
    requires Holds(list, rows) && (to == R.Canceled || to == R.Chargebacked)
    modifies list
    ensures entries == CloseAll(rows, to).entries && Holds(changed, CloseAll(rows, to).news)
  {
    hide CloseAll, Reversal, R.Moved;
    changed, entries := [], [];
    ghost var news := [];
    CloseNone(to);
    assert rows[..0] == [];
    for i := 0 to |list|
      invariant entries == CloseAll(rows[..i], to).entries && news == CloseAll(rows[..i], to).news
      invariant |changed| == |news| && forall k :: 0 <= k < |changed| ==> changed[k].View() == news[k]
      invariant forall k, l :: 0 <= k < l < |changed| ==> changed[k] != changed[l]
      invariant forall k :: 0 <= k < |changed| ==> changed[k] in list[..i]
      invariant forall k :: i <= k < |list| ==> list[k].View() == rows[k]
    {
      assert list[..i+1] == list[..i] + [list[i]];
      ClosePush(rows, to, i);
      R.ChangesExactly(rows[i], to, 0);
      var x := list[i];
      if x.status.Scheduled? || (x.status.Anticipated? && to == R.Chargebacked) {
        entries := entries + ReversalOf(x);
        var moved := x.Transition(to);
        assert moved.Ok?;
        changed := changed + [x];
        news := news + [x.View()];
      }
    }
    assert rows[..|rows|] == rows;
  }

  function ReversalOf(x: R.Receivable): seq<L.Entry>
    reads x
    ensures ReversalOf(x) == Reversal(x.View())
  {
    if x.status.Scheduled? then L.ForChargeback(x.View()) else L.ForChargebackAnticipated(x.View())
  }

  lemma CloseNone(to: R.Status)
    requires to == R.Canceled || to == R.Chargebacked
    ensures CloseAll([], to) == Closing([], [], [])
  {
  }

  // What closing one row more adds.
  lemma ClosePush(rows: seq<R.Rcv>, to: R.Status, i: nat)
    requires i < |rows| && (to == R.Canceled || to == R.Chargebacked)
    ensures Closes(rows[i], to) ==> R.Moved(rows[i], to).Ok?
    ensures var c, c' := CloseAll(rows[..i], to), CloseAll(rows[..i+1], to);
            if Closes(rows[i], to) then c'.news == c.news + [R.Moved(rows[i], to).value] && c'.entries == c.entries + Reversal(rows[i])
            else c' == c
  {
    assert rows[..i+1][..i] == rows[..i];
  }

  method StoreClosing(db: Database, changed: seq<R.Receivable>, entries: seq<L.Entry>, ghost c: Closing) returns (r: Result<()>)
    requires Holds(changed, c.news) && entries == c.entries
    modifies db
    ensures Ran(db, ApplyClosing(old(db.tables), c), r.Ok?)
    ensures r.Ok? ==> db.tables.outbox == old(db.tables).outbox
  {
    if changed == [] {
      return Ok(());
    }
    var _ :- db.UpdateReceivables(changed, c.news);
    r := db.AppendEntries(entries);
  }

  method OnCanceledEvent(db: Database, op: Op) returns (r: Result<()>)
    requires op.OnCanceled? && Enabled(db.tables, op)
    modifies db
    ensures Ran(db, CanceledHandler(old(db.tables), op), r.Ok?)
  {
    hide CloseAll, ApplyClosing, Where;
    var ev := db.tables.outbox[op.k];
    var isNew := db.MarkIfNew(ev.id);
    if !isNew {
      assert db.tables == old(db.tables);
      return Ok(());
    }
    var list, rows := db.Query(R.OfTransaction(ev.data.aggregate));
    var changed, entries := CloseReceivables(list, rows, R.Canceled);
    r := StoreClosing(db, changed, entries, CloseAll(rows, R.Canceled));
  }

  method OpenCase(db: Database, op: Op) returns (r: Result<()>)
    requires op.OpenChargeback?
    modifies db
    ensures Ran(db, OpenCb(old(db.tables), op), r.Ok?)
  {
    hide CloseAll, ApplyClosing, Where, Update, Insert, InsertAll;
    var tx :- db.FindTransaction(op.merchant, op.id);
    if !tx.status.Captured? && !tx.status.Settled? {
      return Err(TransactionStatus);
    }
    if op.amount <= 0 || op.amount > tx.amount {
      return Err(InvalidAmount);
    }
    var marked := tx.Chargeback(op.eid);
    assert marked.Ok?;
    var _ :- db.UpdateTransaction(tx);
    var _ :- db.CreateChargeback(Row(op.cbId, 1, CbData(tx.id, tx.merchant, op.amount)));
    var list, rows := db.Query(R.OfTransaction(tx.id));
    var changed, entries := CloseReceivables(list, rows, R.Chargebacked);
    var _ :- StoreClosing(db, changed, entries, CloseAll(rows, R.Chargebacked));
    var evs := tx.PullEvents();
    assert evs == [NewEvent(op.eid, TransactionChargebacked, tx.id, tx.merchant)];
    assert evs + [NewEvent(op.eid2, ChargebackOpened, op.cbId, tx.merchant)] ==
           [NewEvent(op.eid, TransactionChargebacked, tx.id, tx.merchant), NewEvent(op.eid2, ChargebackOpened, op.cbId, tx.merchant)];
    r := db.AppendEvents(evs + [NewEvent(op.eid2, ChargebackOpened, op.cbId, tx.merchant)]);
  }

  // Asks the registry once per due date, keeping the dates already seen; the first lien or
  // failure decides, as if every receivable had been asked for in order.
  method EnsureNoLiens(list: seq<R.Receivable>, ghost rows: seq<R.Rcv>, liened: nat -> Option<bool>)
      returns (r: Result<()>, ghost asked: seq<nat>)
    requires Holds(list, rows)
    ensures r == LienCheck(rows, liened)
    ensures forall i, j :: 0 <= i < j < |asked| ==> asked[i] != asked[j]
    ensures forall d :: d in asked ==> d in DueDates(rows)
    ensures r.Ok? ==> forall d :: d in DueDates(rows) ==> d in asked
  {
    LienNone(liened);
    hide LienCheck, DueDates;
    var seen: set<nat> := {};
    asked := [];
    assert rows[..0] == [];
    for i := 0 to |list|
      invariant LienCheck(rows[..i], liened) == Ok(())
      invariant forall d :: d in seen ==> liened(d) == Some(false)
      invariant seen == DueDates(rows[..i]) && forall d :: d in seen <==> d in asked
      invariant forall j, k :: 0 <= j < k < |asked| ==> asked[j] != asked[k]
    {
      assert rows[i] == list[i].View();
      DueDatesPush(rows, i);
      LienPush(rows, liened, i);
      var due := list[i].due;
      if due !in seen {
        seen := seen + {due};
        asked := asked + [due];
        match liened(due) {
          case None =>
            LienStops(rows, liened, i + 1);
            return Err(RegistryDown), asked;
          case Some(b) =>
            if b {
              LienStops(rows, liened, i + 1);
              return Err(ReceivableLiened), asked;
            }
        }
      }
    }
    assert rows[..|rows|] == rows;
    return Ok(()), asked;
  }

  lemma LienNone(liened: nat -> Option<bool>)
    ensures LienCheck([], liened) == Ok(()) && DueDates([]) == {}
  {
  }

  lemma LienPush(rows: seq<R.Rcv>, liened: nat -> Option<bool>, i: nat)
    requires i < |rows| && LienCheck(rows[..i], liened) == Ok(())
    ensures LienCheck(rows[..i+1], liened) ==
            match liened(rows[i].data.due)
            case None => Err(RegistryDown)
            case Some(b) => if b then Err(ReceivableLiened) else Ok(())
  {
    assert rows[..i+1][..i] == rows[..i];
  }

  ghost function DueDates(rows: seq<R.Rcv>): set<nat> {
    set i | 0 <= i < |rows| :: rows[i].data.due
  }

  lemma DueDatesPush(rows: seq<R.Rcv>, i: nat)
    requires i < |rows|
    ensures DueDates(rows[..i+1]) == DueDates(rows[..i]) + {rows[i].data.due}
    ensures DueDates(rows[..i+1]) <= DueDates(rows)
  {
    assert forall j :: 0 <= j < i ==> rows[..i+1][j] == rows[..i][j] == rows[j];
    assert rows[..i+1][i] == rows[i];
    forall d
      ensures d in DueDates(rows[..i+1]) <==> d in DueDates(rows[..i]) || d == rows[i].data.due
    {
      if d in DueDates(rows[..i]) {
        var j :| 0 <= j < i && rows[..i][j].data.due == d;
        assert rows[..i+1][j].data.due == d;
      }
    }
  }

  lemma {:induction false} LienStops(rows: seq<R.Rcv>, liened: nat -> Option<bool>, i: nat)
    requires i <= |rows| && LienCheck(rows[..i], liened).Err?
    ensures LienCheck(rows, liened) == LienCheck(rows[..i], liened)
    decreases |rows| - i
  {
    if i < |rows| {
      assert rows[..i+1][..i] == rows[..i];
      LienStops(rows, liened, i + 1);
    } else {
      assert rows[..i] == rows;
    }
  }

  method RequestAnticipation(db: Database, op: Op) returns (r: Result<()>)
    requires op.Anticipate?
    modifies db
    ensures Ran(db, AnticipateRows(old(db.tables), op), r.Ok?)
  {
    hide Where, StoreAnticipation, A.Simulate, A.AnticipateAll, LienCheck;
    var list, rows := db.Query(ByIds(op.merchant, op.rcvIds));
    if |list| != |op.rcvIds| {
      return Err(NotFound);
    }
    var a :- A.SimulateAnticipation(op.aid, op.merchant, list, op.now, op.rate, op.pricer, rows);
    var checked, _ := EnsureNoLiens(list, rows, op.liened);
    if checked.Err? {
      return checked;
    }
    SimulatedShape(op.aid, op.merchant, rows, op.now, op.rate, op.pricer);
    var _ :- a.Confirm(list, rows, op.eid);
    r := WriteAnticipation(db, a, list, Views(list));
  }

  // The confirmed anticipation, its receivables, its entries and its event, in one unit of work.
  method WriteAnticipation(db: Database, a: A.Anticipation, list: seq<R.Receivable>, ghost news: seq<R.Rcv>) returns (r: Result<()>)
    requires Holds(list, news) && |a.events| == 1
    modifies db, a`events
    ensures Ran(db, StoreAnticipation(old(db.tables), old(a.View()), news, old(a.events)[0]), r.Ok?)
  {
    hide Insert, InsertAll, UpdateAll, L.Append, L.ForAnticipation;
    var _ :- db.CreateAnticipation(a);
    var _ :- db.UpdateReceivables(list, news);
    var _ :- db.AppendEntries(L.ForAnticipation(a.View()));
    var evs := a.PullEvents();
    assert evs == [evs[0]];
    r := db.AppendEvents(evs);
  }

  lemma SimulatedShape(id: Id, merchant: Id, rows: seq<R.Rcv>, now: nat, rate: int, pricer: A.Pricer)
    requires A.Simulate(id, merchant, rows, now, rate, pricer).Ok?
    ensures var a := A.Simulate(id, merchant, rows, now, rate, pricer).value;
            a.id == id && a.data.merchant == merchant && |a.data.items| == |rows| && a.data.status == A.Simulated
  {
    A.ItemsOfRows(merchant, rows, DateOnly(now), rate, pricer);
  }
}
