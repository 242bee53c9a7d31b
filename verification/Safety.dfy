/** Every step keeps every invariant, so every state of every run satisfies them all. */
module Safety {
  import opened Results
  import opened Sums
  import opened Money
  import opened Civil
  import opened Calendar
  import opened Tables
  import opened Events
  import opened FeePlans
  import T = Transactions
  import R = Receivables
  import S = Settlements
  import A = Anticipations
  import Schedules
  import L = Ledger
  import opened Acquirer
  import opened Reconciliation
  import opened Agendas
  import opened Payouts

  ghost predicate Keyed(s: State) {
    && DistinctIds(s.txs) && DistinctIds(s.rcvs) && DistinctIds(s.ants) && DistinctIds(s.stls) && DistinctIds(s.outbox)
  }

  // What every step keeps, whatever else happens to closed sales.
  ghost predicate Sound(s: State) {
    && Keyed(s) && RowsOk(s.rcvs)
    && Reconciled(s)
    && Consistent(s)
    && PaidOnce(s.rcvs, s.ants, s.stls)
    && Sum(s.ledger, L.NetWeight()) == 0
  }

  ghost predicate Inv(s: State) {
    Sound(s) && Closed(s)
  }

  // What a step makes of a sound state: it stays sound, and closed sales stay closed.
  ghost predicate Kept(s: State, s': State) {
    Sound(s') && (Closed(s) ==> Closed(s'))
  }

  // What Append lets through is balanced, so the whole ledger stays balanced.
  lemma AppendBalanced(ledger: seq<L.Entry>, entries: seq<L.Entry>)
    requires Sum(ledger, L.NetWeight()) == 0 && L.Append(ledger, entries).Ok?
    ensures L.Append(ledger, entries).value == ledger + entries
    ensures Sum(ledger + entries, L.NetWeight()) == 0
    ensures forall i :: 0 <= i < |entries| ==> L.Storable(entries[i])
  {
    SumAppend(ledger, entries, L.NetWeight());
    L.NetWeightSum(entries);
  }

  // Updating the row that was found replaces that row.
  lemma UpdateFound<D>(t: seq<Row<D>>, i: nat, row: Row<D>)
    requires DistinctIds(t) && i < |t| && row.id == t[i].id && t[i].version < row.version
    ensures Update(t, row) == Ok(t[i := row]) && DistinctIds(t[i := row])
  {
    FindAt(t, i);
  }

  lemma InitReconciled()
    ensures Reconciled(Init())
  {
  }

  lemma InitConsistent()
    ensures Consistent(Init()) && Closed(Init())
  {
  }

  lemma InitSafe()
    ensures Inv(Init())
  {
    InitReconciled();
    InitConsistent();
    hide Reconciled, Consistent, Closed;
  }

  // ---- sales

  lemma AuthorizeSafe(s: State, op: Op)
    requires Sound(s) && op.Authorize? && AuthorizeTx(s, op).Ok?
    ensures Kept(s, AuthorizeTx(s, op).value)
  {
    var s' := AuthorizeTx(s, op).value;
    var tx := T.New(op.id, op.merchant, op.active, op.plan, op.amount, op.product, op.installments, op.brand).value;
    var decided := T.Moved(tx, if op.approved then T.Authorized else T.Denied).value;
    var e := NewEvent(op.eid, if op.approved then TransactionAuthorized else TransactionDenied, op.id, op.merchant);
    InsertAppends(s.txs, decided);
    InsertAllAppends(s.outbox, [e]);
    NewTxKeeps(s, s', decided, e);
    SameTables(s, s');
  }

  // Balances do not see transactions, events or marks.
  lemma SameTables(s: State, s': State)
    requires Reconciled(s) && s'.rcvs == s.rcvs && s'.ants == s.ants && s'.stls == s.stls && s'.ledger == s.ledger
    ensures Reconciled(s')
  {
    forall account, who
      ensures L.Balance(s'.ledger, account, who) == Expected(s', account, who)
    {
      assert Expected(s', account, who) == Expected(s, account, who);
    }
  }

  lemma ChangeSafe(s: State, merchant: Id, id: Id, changed: Result<T.Tx>, kind: Kind, eid: Id)
    requires Sound(s) && FindTx(s, merchant, id).Ok? && changed.Ok? && ChangeTx(s, changed, kind, eid).Ok?
    requires RecordsMove(FindTx(s, merchant, id).value, changed.value, NewEvent(eid, kind, id, merchant))
    requires changed.value.version == FindTx(s, merchant, id).value.version + 1 && changed.value.data.status != T.Chargebacked
    requires changed.value.data.merchant == merchant
    requires changed.value.data.amount == FindTx(s, merchant, id).value.data.amount
    requires changed.value.data.installments == FindTx(s, merchant, id).value.data.installments
    ensures Kept(s, ChangeTx(s, changed, kind, eid).value)
  {
    var s' := ChangeTx(s, changed, kind, eid).value;
    var i := Find(s.txs, id);
    var e := NewEvent(eid, kind, id, merchant);
    UpdateFound(s.txs, i, changed.value);
    InsertAllAppends(s.outbox, [e]);
    assert [e][..0] == [];
    assert s'.outbox == s.outbox + [e] + [];
    MoveTxKeeps(s, s', i, changed.value, e, []);
    SameTables(s, s');
  }

  lemma CaptureSafe(s: State, op: Op)
    requires Sound(s) && op.Capture? && CaptureTx(s, op).Ok?
    ensures Kept(s, CaptureTx(s, op).value)
  {
    var tx := FindTx(s, op.merchant, op.id).value;
    ChangeSafe(s, op.merchant, op.id, T.Capture(tx, op.now), TransactionCaptured, op.eid);
  }

  lemma CancelSafe(s: State, op: Op)
    requires Sound(s) && op.Cancel? && CancelTx(s, op).Ok?
    ensures Kept(s, CancelTx(s, op).value)
  {
    var tx := FindTx(s, op.merchant, op.id).value;
    ChangeSafe(s, op.merchant, op.id, T.Cancel(tx, op.now), TransactionCanceled, op.eid);
  }

  // ---- the captured event

  // An agenda that the ledger accepted is complete and has no negative amount.
  lemma AgendaPosted(tx: T.Tx, plan: FeePlan, ids: nat -> Id)
    requires Agenda(tx, plan, ids).Ok? && plan.Valid()
    requires forall i :: 0 <= i < |L.ForScheduled(Agenda(tx, plan, ids).value)| ==> L.Storable(L.ForScheduled(Agenda(tx, plan, ids).value)[i])
    ensures var list := Agenda(tx, plan, ids).value;
            && list != [] && Complete(list, tx) && RowsOk(list)
            && forall j :: 0 <= j < |list| ==> list[j].data.txId == tx.id && list[j].data.status == R.Scheduled
                                               && list[j].data.settlement.None? && list[j].data.anticipation.None?
  {
    BrazilNeverClosedFiveDays();
    Schedules.ScheduleConserves(tx, plan, BRAZIL, ids);
    var list := Agenda(tx, plan, ids).value;
    var mdr := plan.MDR(tx.data.product, tx.data.installments).value;
    assert Sum(list, R.Fee()) == ApplyBps(tx.data.amount, mdr);
    forall j | 0 <= j < |list|
      ensures RowOk(list[j]) && list[j].data.status == R.Scheduled && list[j].data.settlement.None? && list[j].data.anticipation.None?
    {
      StorableAmounts(list, j);
    }
  }

  lemma {:induction false} StorableAmounts(list: seq<R.Rcv>, j: nat)
    requires j < |list| && forall i :: 0 <= i < |L.ForScheduled(list)| ==> L.Storable(L.ForScheduled(list)[i])
    ensures list[j].data.gross >= 0 && list[j].data.net >= 0 && list[j].data.fee >= 0
  {
    var n := |list| - 1;
    var before := L.ForScheduled(list[..n]);
    assert L.ForScheduled(list) == before + L.ForScheduledOne(list[n]);
    if j < n {
      forall i | 0 <= i < |before|
        ensures L.Storable(before[i])
      {
        assert L.ForScheduled(list)[i] == before[i];
      }
      StorableAmounts(list[..n], j);
    } else {
      assert L.ForScheduled(list)[|before|] == L.ForScheduledOne(list[n])[0];
      assert L.ForScheduled(list)[|before| + 1] == L.ForScheduledOne(list[n])[1];
      assert L.ForScheduled(list)[|before| + 2] == L.ForScheduledOne(list[n])[2];
    }
  }

  // A captured event handled for the first time: the sale it is about and the agenda it posts.
  lemma CapturedShape(s: State, op: Op) returns (i: nat, list: seq<R.Rcv>, e: Event)
    requires Sound(s) && op.OnCaptured? && Enabled(s, op) && CapturedHandler(s, op).Ok? && s.outbox[op.k].id !in s.processed
    ensures i < |s.txs| && s.txs[i].id == s.outbox[op.k].data.aggregate && s.txs[i].data.status == T.Captured
    ensures list != [] && Complete(list, s.txs[i]) && RowsOk(list)
    ensures forall j :: 0 <= j < |list| ==> list[j].data.txId == s.txs[i].id && list[j].data.status == R.Scheduled
                                            && list[j].data.settlement.None? && list[j].data.anticipation.None?
    ensures e.data.kind == ReceivablesScheduled && InsertAll(s.rcvs, list).Ok? && InsertAll(s.outbox, [e]).Ok?
    ensures L.Append(s.ledger, L.ForScheduled(list)).Ok?
    ensures CapturedHandler(s, op).value ==
            s.(rcvs := InsertAll(s.rcvs, list).value, ledger := L.Append(s.ledger, L.ForScheduled(list)).value,
               outbox := InsertAll(s.outbox, [e]).value, processed := s.processed + {s.outbox[op.k].id})
  {
    hide Reconciled, Consistent, Closed, PaidOnce, RowsOk;
    var ev := s.outbox[op.k];
    var tx := FindTx(s, ev.data.merchant, ev.data.aggregate).value;
    i := Find(s.txs, ev.data.aggregate);
    list := Agenda(tx, op.merchantPlan.value, op.ids).value;
    e := NewEvent(op.eid, ReceivablesScheduled, tx.id, tx.data.merchant);
    AppendBalanced(s.ledger, L.ForScheduled(list));
    AgendaPosted(tx, op.merchantPlan.value, op.ids);
  }

  // The state after posting an agenda.
  ghost function Posted(s: State, list: seq<R.Rcv>, e: Event, eventId: Id): State {
    s.(rcvs := s.rcvs + list, ledger := s.ledger + L.ForScheduled(list), outbox := s.outbox + [e], processed := s.processed + {eventId})
  }

  // Posting the agenda of a captured event for the first time keeps the state sound, and
  // closed sales closed exactly when the sale is still open for it.
  lemma PostingKeeps(s: State, k: nat, i: nat, list: seq<R.Rcv>, e: Event)
    requires Sound(s) && IsDelivery(s, k, TransactionCaptured) && s.outbox[k].id !in s.processed
    requires i < |s.txs| && s.txs[i].id == s.outbox[k].data.aggregate && !T.BeforeCapture(s.txs[i].data.status)
    requires list != [] && Complete(list, s.txs[i]) && RowsOk(list)
    requires forall j :: 0 <= j < |list| ==>
               && list[j].data.txId == s.txs[i].id && list[j].data.status == R.Scheduled
               && list[j].data.settlement.None? && list[j].data.anticipation.None?
    requires e.data.kind == ReceivablesScheduled && InsertAll(s.rcvs, list).Ok? && InsertAll(s.outbox, [e]).Ok?
    requires L.Append(s.ledger, L.ForScheduled(list)).Ok?
    ensures Sound(Posted(s, list, e, s.outbox[k].id))
    ensures Closed(Posted(s, list, e, s.outbox[k].id)) <==> Closed(s) && OpenForAgenda(s, i)
  {
    hide Reconciled, Consistent, Closed, PaidOnce, Complete, L.Append, RowsOk, OpenForAgenda, InsertAll, L.ForScheduled;
    var s' := Posted(s, list, e, s.outbox[k].id);
    InsertAllAppends(s.rcvs, list);
    InsertAllAppends(s.outbox, [e]);
    AppendBalanced(s.ledger, L.ForScheduled(list));
    CaptureDeliveryKeeps(s, s', k, i, list, [e]);
    AppendKeeps(s, s', list);
    AppendKeepsPaid(s.rcvs, list, s.ants, s.stls);
    RowsOkBoth(s.rcvs, list);
  }

  lemma RowsOkBoth(a: seq<R.Rcv>, b: seq<R.Rcv>)
    requires RowsOk(a) && RowsOk(b)
    ensures RowsOk(a + b)
  {
  }

  lemma CapturedIsOpen(s: State, i: nat)
    requires Consistent(s) && i < |s.txs| && s.txs[i].data.status == T.Captured
    ensures OpenForAgenda(s, i)
  {
    hide AllOrNothing, Grounded;
  }

  lemma CapturedSafe(s: State, op: Op)
    requires Sound(s) && op.OnCaptured? && Enabled(s, op) && CapturedHandler(s, op).Ok?
    ensures Kept(s, CapturedHandler(s, op).value)
  {
    if s.outbox[op.k].id !in s.processed {
      var i, list, e := CapturedShape(s, op);
      hide CapturedHandler, Reconciled, Consistent, Closed, PaidOnce, Complete, L.Append, OpenForAgenda, RowsOk, InsertAll;
      InsertAllAppends(s.rcvs, list);
      InsertAllAppends(s.outbox, [e]);
      AppendBalanced(s.ledger, L.ForScheduled(list));
      CapturedIsOpen(s, i);
      PostingKeeps(s, op.k, i, list, e);
    }
  }

  // ---- closing

  // The rows a closing reads are replaced by their next version, with the same
  // links and amounts, in a state that is not live.
  lemma {:induction false} ClosingShape(list: seq<R.Rcv>, to: R.Status)
    requires DistinctIds(list) && (to == R.Canceled || to == R.Chargebacked)
    ensures var c := CloseAll(list, to);
            && |c.olds| == |c.news| && DistinctIds(c.olds)
            && (forall i :: 0 <= i < |c.olds| ==> c.olds[i] in list && Closes(c.olds[i], to) && R.Moved(c.olds[i], to) == Ok(c.news[i]))
            && (forall r :: r in list && Closes(r, to) ==> r in c.olds)
  {
    if list != [] {
      var n := |list| - 1;
      ClosingShape(list[..n], to);
      var before := CloseAll(list[..n], to);
      DistinctPrefix(list, n);
      forall i | 0 <= i < |before.olds|
        ensures before.olds[i].id != list[n].id
      {
        assert before.olds[i] in list[..n];
      }
      assert list == list[..n] + [list[n]];
    }
  }

  // Closing the rows of one sale replaces rows of the table by their next version.
  lemma ClosingReplaces(rcvs: seq<R.Rcv>, txId: Id, to: R.Status)
    requires DistinctIds(rcvs) && RowsOk(rcvs) && (to == R.Canceled || to == R.Chargebacked)
    ensures var c := CloseAll(AgendaOf(rcvs, txId), to);
            && Replaces(rcvs, c.olds, c.news) && RowsOk(AgendaOf(rcvs, txId))
            && (forall i :: 0 <= i < |c.olds| ==> Closes(c.olds[i], to) && R.Moved(c.olds[i], to) == Ok(c.news[i]))
  {
    var list := AgendaOf(rcvs, txId);
    Selected(rcvs, R.OfTransaction(txId));
    ClosingShape(list, to);
    forall i | 0 <= i < |list|
      ensures RowOk(list[i])
    {
      assert list[i] in rcvs;
    }
    var c := CloseAll(list, to);
    forall i | 0 <= i < |c.olds|
      ensures c.olds[i] in rcvs
    {
      var j :| 0 <= j < |list| && list[j] == c.olds[i];
      assert list[j] in rcvs;
    }
  }

  // One row of the table, before and after a closing: its links and amounts stay, and a row
  // of the sale cannot be closed again.
  ghost predicate ClosedRow(r: R.Rcv, r': R.Rcv, txId: Id, to: R.Status) {
    && R.Frozen(r') == R.Frozen(r) && RowOk(r')
    && r'.data.settlement == r.data.settlement && r'.data.anticipation == r.data.anticipation
    && (r' == r || (!r'.data.status.Scheduled? && !r'.data.status.Anticipated?))
    && (r.data.txId == txId ==> !Closes(r', to))
  }

  lemma RowIsOk(rcvs: seq<R.Rcv>, j: nat)
    requires RowsOk(rcvs) && j < |rcvs|
    ensures RowOk(rcvs[j])
  {
  }

  lemma ClosingRow(rcvs: seq<R.Rcv>, txId: Id, to: R.Status, j: nat)
    requires DistinctIds(rcvs) && RowsOk(rcvs) && (to == R.Canceled || to == R.Chargebacked) && j < |rcvs|
    ensures ClosedRow(rcvs[j], Patch(rcvs, CloseAll(AgendaOf(rcvs, txId), to).news)[j], txId, to)
  {
    hide CloseAll, RowsOk, Find;
    var list := AgendaOf(rcvs, txId);
    var c := CloseAll(list, to);
    RowIsOk(rcvs, j);
    ClosingReplaces(rcvs, txId, to);
    PatchHit(rcvs, c.olds, c.news, j);
    WhereMember(rcvs, R.OfTransaction(txId), rcvs[j]);
    if rcvs[j] !in c.olds && rcvs[j] in list {
      WhereDistinct(rcvs, R.OfTransaction(txId));
      ClosingShape(list, to);
    }
  }

  // The whole table after a closing.
  lemma ClosingPatch(rcvs: seq<R.Rcv>, txId: Id, to: R.Status)
    requires DistinctIds(rcvs) && RowsOk(rcvs) && (to == R.Canceled || to == R.Chargebacked)
    ensures var after := Patch(rcvs, CloseAll(AgendaOf(rcvs, txId), to).news);
            && OnlyMoved(rcvs, after) && RowsOk(after) && DistinctIds(after)
            && forall j :: 0 <= j < |rcvs| ==> ClosedRow(rcvs[j], after[j], txId, to)
  {
    var c := CloseAll(AgendaOf(rcvs, txId), to);
    ClosingReplaces(rcvs, txId, to);
    PatchKeepsIds(rcvs, c.olds, c.news);
    forall j | 0 <= j < |rcvs|
      ensures ClosedRow(rcvs[j], Patch(rcvs, c.news)[j], txId, to)
    {
      ClosingRow(rcvs, txId, to, j);
    }
  }

  lemma ClosingApplied(s: State, txId: Id, to: R.Status)
    requires DistinctIds(s.rcvs) && RowsOk(s.rcvs) && (to == R.Canceled || to == R.Chargebacked)
    requires Sum(s.ledger, L.NetWeight()) == 0
    requires ApplyClosing(s, CloseAll(AgendaOf(s.rcvs, txId), to)).Ok?
    ensures var c := CloseAll(AgendaOf(s.rcvs, txId), to);
            var s' := ApplyClosing(s, c).value;
            s' == s.(rcvs := Patch(s.rcvs, c.news), ledger := s.ledger + c.entries) && Sum(s'.ledger, L.NetWeight()) == 0
  {
    var c := CloseAll(AgendaOf(s.rcvs, txId), to);
    ClosingReplaces(s.rcvs, txId, to);
    if c.news == [] {
      PatchNothing(s.rcvs);
      NothingClosed(AgendaOf(s.rcvs, txId), to);
    } else {
      UpdateAllIsPatch(s.rcvs, c.olds, c.news);
      AppendBalanced(s.ledger, c.entries);
    }
  }

  lemma {:induction false} NothingClosed(list: seq<R.Rcv>, to: R.Status)
    requires (to == R.Canceled || to == R.Chargebacked) && CloseAll(list, to).news == []
    ensures CloseAll(list, to).entries == []
  {
    if list != [] {
      NothingClosed(list[..|list|-1], to);
    }
  }

  lemma CanceledSafe(s: State, op: Op)
    requires Sound(s) && op.OnCanceled? && Enabled(s, op) && CanceledHandler(s, op).Ok?
    ensures Kept(s, CanceledHandler(s, op).value)
  {
    hide Reconciled, Consistent, Closed, PaidOnce, RowsOk;
    var ev := s.outbox[op.k];
    var s' := CanceledHandler(s, op).value;
    if ev.id !in s.processed {
      var marked := s.(processed := s.processed + {ev.id});
      var txId := ev.data.aggregate;
      ClosingApplied(marked, txId, R.Canceled);
      ClosingReplaces(s.rcvs, txId, R.Canceled);
      ClosingPatch(s.rcvs, txId, R.Canceled);
      ClosingKeeps(s, s', AgendaOf(s.rcvs, txId), R.Canceled);
      ClosedLinks(s, s', txId, R.Canceled);
      CancellationKeeps(s, s', op.k);
    }
  }

  lemma ClosedLinks(s: State, s': State, txId: Id, to: R.Status)
    requires DistinctIds(s.rcvs) && RowsOk(s.rcvs) && PaidOnce(s.rcvs, s.ants, s.stls) && (to == R.Canceled || to == R.Chargebacked)
    requires s'.rcvs == Patch(s.rcvs, CloseAll(AgendaOf(s.rcvs, txId), to).news) && s'.ants == s.ants && s'.stls == s.stls
    ensures PaidOnce(s'.rcvs, s'.ants, s'.stls)
  {
    ClosingPatch(s.rcvs, txId, to);
    forall j | 0 <= j < |s.rcvs|
      ensures s'.rcvs[j].id == s.rcvs[j].id && s'.rcvs[j].data.net == s.rcvs[j].data.net
    {
      assert R.Frozen(s'.rcvs[j]) == R.Frozen(s.rcvs[j]);
    }
    LinksKeptKeepPaid(s.rcvs, s'.rcvs, s.ants, s.stls);
  }

  lemma OpenCbSafe(s: State, op: Op)
    requires Sound(s) && op.OpenChargeback? && OpenCb(s, op).Ok?
    ensures Kept(s, OpenCb(s, op).value)
  {
    hide Reconciled, Consistent, Closed, PaidOnce, RowsOk;
    var tx := FindTx(s, op.merchant, op.id).value;
    var i := Find(s.txs, op.id);
    var moved := T.Moved(tx, T.Chargebacked).value;
    var s' := OpenCb(s, op).value;
    var e := NewEvent(op.eid, TransactionChargebacked, tx.id, tx.data.merchant);
    var e2 := NewEvent(op.eid2, ChargebackOpened, op.cbId, tx.data.merchant);
    UpdateFound(s.txs, i, moved);
    var mid := s.(txs := s.txs[i := moved], cbs := Insert(s.cbs, Row(op.cbId, 1, CbData(tx.id, tx.data.merchant, op.amount))).value);
    ClosingApplied(mid, tx.id, R.Chargebacked);
    ClosingReplaces(s.rcvs, tx.id, R.Chargebacked);
    ClosingPatch(s.rcvs, tx.id, R.Chargebacked);
    ClosingKeeps(s, s', AgendaOf(s.rcvs, tx.id), R.Chargebacked);
    ClosedLinks(s, s', tx.id, R.Chargebacked);
    TwoEvents(s.outbox, e, e2);
    MoveTxKeeps(s, s', i, moved, e, [e2]);
  }

  lemma TwoEvents(outbox: seq<Event>, e: Event, e2: Event)
    requires DistinctIds(outbox) && InsertAll(outbox, [e, e2]).Ok?
    ensures InsertAll(outbox, [e, e2]).value == outbox + [e] + [e2]
    ensures DistinctIds(outbox + [e] + [e2]) && !HasId(outbox, e.id)
  {
    InsertAllAppends(outbox, [e, e2]);
    assert outbox + [e, e2] == outbox + [e] + [e2];
    forall k | 0 <= k < |outbox|
      ensures outbox[k].id != e.id
    {
      assert (outbox + [e, e2])[k] == outbox[k] && (outbox + [e, e2])[|outbox|] == e;
    }
  }

  // ---- anticipation

  lemma RowsPatched(rcvs: seq<R.Rcv>, rows: seq<R.Rcv>, news: seq<R.Rcv>)
    requires Replaces(rcvs, rows, news) && RowsOk(rcvs)
    requires forall i :: 0 <= i < |rows| ==>
               R.Frozen(news[i]) == R.Frozen(rows[i]) && (RowOk(rows[i]) ==> RowOk(news[i])) && !news[i].data.status.Scheduled?
               && (news[i].data.status.Anticipated? ==> rows[i].data.status.Scheduled?)
    ensures OnlyMoved(rcvs, Patch(rcvs, news)) && RowsOk(Patch(rcvs, news)) && DistinctIds(Patch(rcvs, news))
  {
    PatchKeepsIds(rcvs, rows, news);
    forall j | 0 <= j < |rcvs|
      ensures RowOk(Patch(rcvs, news)[j]) && R.Frozen(Patch(rcvs, news)[j]) == R.Frozen(rcvs[j])
      ensures Patch(rcvs, news)[j].data.status.Scheduled? ==> rcvs[j].data.status.Scheduled?
      ensures Patch(rcvs, news)[j].data.status.Anticipated? ==> rcvs[j].data.status.Anticipated? || rcvs[j].data.status.Scheduled?
    {
      PatchHit(rcvs, rows, news, j);
    }
  }

  // Rows a query returned are in the table, with distinct ids.
  lemma Selected(rcvs: seq<R.Rcv>, q: R.Rcv -> bool)
    requires DistinctIds(rcvs)
    ensures DistinctIds(Where(rcvs, q))
    ensures forall i :: 0 <= i < |Where(rcvs, q)| ==> Where(rcvs, q)[i] in rcvs && q(Where(rcvs, q)[i])
  {
    WhereDistinct(rcvs, q);
    forall i | 0 <= i < |Where(rcvs, q)|
      ensures Where(rcvs, q)[i] in rcvs && q(Where(rcvs, q)[i])
    {
      WhereMember(rcvs, q, Where(rcvs, q)[i]);
    }
  }

  // The rows an anticipation request takes, and what it records about them.
  lemma AnticipateTakes(s: State, op: Op) returns (a: A.Ant, rows: seq<R.Rcv>, news: seq<R.Rcv>)
    requires DistinctIds(s.rcvs) && RowsOk(s.rcvs) && op.Anticipate? && AnticipateRows(s, op).Ok?
    ensures rows == Where(s.rcvs, ByIds(op.merchant, op.rcvIds)) && A.AnticipateAll(rows, op.aid) == Ok(news)
    ensures A.Simulate(op.aid, op.merchant, rows, op.now, op.rate, op.pricer).Ok?
    ensures a == A.Confirmed1(A.Simulate(op.aid, op.merchant, rows, op.now, op.rate, op.pricer).value)
    ensures AnticipatesRows(s.rcvs, rows, news, a)
    ensures forall i :: 0 <= i < |rows| ==> rows[i].data.merchant == a.data.merchant
  {
    rows := Where(s.rcvs, ByIds(op.merchant, op.rcvIds));
    Selected(s.rcvs, ByIds(op.merchant, op.rcvIds));
    a := A.Confirmed1(A.Simulate(op.aid, op.merchant, rows, op.now, op.rate, op.pricer).value);
    news := AnticipatedList(s.rcvs, rows, op, a);
  }

  // The rows a simulation accepted move to ANTICIPATED and are what the anticipation lists.
  lemma AnticipatedList(rcvs: seq<R.Rcv>, rows: seq<R.Rcv>, op: Op, a: A.Ant) returns (news: seq<R.Rcv>)
    requires DistinctIds(rcvs) && RowsOk(rcvs) && DistinctIds(rows) && (forall i :: 0 <= i < |rows| ==> rows[i] in rcvs)
    requires op.Anticipate? && A.Simulate(op.aid, op.merchant, rows, op.now, op.rate, op.pricer).Ok?
    requires a == A.Confirmed1(A.Simulate(op.aid, op.merchant, rows, op.now, op.rate, op.pricer).value)
    ensures A.AnticipateAll(rows, op.aid) == Ok(news) && AnticipatesRows(rcvs, rows, news, a)
    ensures forall i :: 0 <= i < |rows| ==> rows[i].data.merchant == a.data.merchant
  {
    hide RowsOk, Sum, A.Items, A.AnticipateAll;
    var today := DateOnly(op.now);
    A.ItemsExact(op.merchant, rows, today, op.rate, op.pricer);
    A.ItemsOfRows(op.merchant, rows, today, op.rate, op.pricer);
    A.ItemsConserve(op.merchant, rows, today, op.rate, op.pricer);
    A.AnticipateAllMoves(rows, op.aid);
    news := A.AnticipateAll(rows, op.aid).value;
  }

  lemma AnticipateShape(s: State, op: Op) returns (a: A.Ant, rows: seq<R.Rcv>, news: seq<R.Rcv>, e: Event)
    requires Sound(s) && op.Anticipate? && AnticipateRows(s, op).Ok?
    ensures AnticipatesRows(s.rcvs, rows, news, a) && !HasId(s.ants, a.id)
    ensures forall i :: 0 <= i < |rows| ==> rows[i].data.merchant == a.data.merchant
    ensures e.data.kind == AnticipationConfirmed && !HasId(s.outbox, e.id)
    ensures L.Append(s.ledger, L.ForAnticipation(a)).Ok?
    ensures AnticipateRows(s, op).value == s.(rcvs := Patch(s.rcvs, news), ants := s.ants + [a], ledger := s.ledger + L.ForAnticipation(a),
                                              outbox := s.outbox + [e])
  {
    a, rows, news := AnticipateTakes(s, op);
    hide Reconciled, Consistent, Closed, PaidOnce, RowsOk, A.Simulate, A.AnticipateAll, Where, LienCheck;
    e := NewEvent(op.eid, AnticipationConfirmed, op.aid, op.merchant);
    UpdateAllIsPatch(s.rcvs, rows, news);
    InsertAppends(s.ants, a);
    OneEvent(s.outbox, e);
    AppendBalanced(s.ledger, L.ForAnticipation(a));
  }

  lemma AnticipatedRows(rcvs: seq<R.Rcv>, rows: seq<R.Rcv>, news: seq<R.Rcv>, a: A.Ant)
    requires AnticipatesRows(rcvs, rows, news, a)
    ensures OnlyMoved(rcvs, Patch(rcvs, news)) && RowsOk(Patch(rcvs, news)) && DistinctIds(Patch(rcvs, news))
  {
    RowsPatched(rcvs, rows, news);
  }

  lemma AnticipateSafe(s: State, op: Op)
    requires Sound(s) && op.Anticipate? && AnticipateRows(s, op).Ok?
    ensures Kept(s, AnticipateRows(s, op).value)
  {
    var a, rows, news, e := AnticipateShape(s, op);
    hide AnticipateRows, Reconciled, Consistent, Closed, PaidOnce, L.Append, L.ForAnticipation, RowsOk, OnlyMoved;
    var s' := AnticipateRows(s, op).value;
    AnticipatedRows(s.rcvs, rows, news, a);
    AppendBalanced(s.ledger, L.ForAnticipation(a));
    AnticipationKeeps(s, s', a, rows, news);
    hide AnticipatesRows, Replaces;
    AnticipationKeepsPaid(s.rcvs, rows, news, s.ants, s.stls, a);
    RowsMovedKeep(s, s', [e]);
    InsertAppends(s.ants, a);
    InsertAppends(s.outbox, e);
  }

  // ---- settlement

  // Creating a row and updating it in the same unit of work stores its last version.
  lemma CreateThenUpdate<D>(t: seq<Row<D>>, first: Row<D>, last: Row<D>)
    requires Insert(t, first).Ok? && last.id == first.id && first.version < last.version
    ensures Update(Insert(t, first).value, last) == Ok(t + [last])
  {
    var created := t + [first];
    forall k | 0 <= k < |t|
      ensures created[k].id != first.id
    {
      assert t[k].id != first.id;
    }
    var i := Find(created, last.id);
    assert created[|t|].id == last.id;
    assert i == |t|;
    assert created[|t| := last] == t + [last];
  }

  lemma {:induction false} SettleAllMoves(rows: seq<R.Rcv>, id: Id)
    requires forall i :: 0 <= i < |rows| ==> rows[i].data.status.Scheduled? || rows[i].data.status.Anticipated?
    ensures SettleAll(rows, id).Ok?
    ensures var news := SettleAll(rows, id).value;
            |news| == |rows| && forall i :: 0 <= i < |rows| ==> R.Settle(rows[i], id) == Ok(news[i])
  {
    if rows != [] {
      SettleAllMoves(rows[..|rows|-1], id);
    }
  }

  // A lot of one merchant: its rows are in the table and due, as a batch reads them.
  ghost predicate LotRows(s: State, day: nat, rows: seq<R.Rcv>, merchant: Id) {
    && rows != [] && DistinctIds(rows)
    && forall i :: 0 <= i < |rows| ==> rows[i] in s.rcvs && S.CanSettle(rows[i], day, merchant)
  }

  lemma RowsNotNegative(s: State, day: nat, rows: seq<R.Rcv>, merchant: Id)
    requires RowsOk(s.rcvs) && LotRows(s, day, rows, merchant)
    ensures forall r :: r in rows ==> r.data.net >= 0
  {
    forall r | r in rows
      ensures r.data.net >= 0
    {
      var i :| 0 <= i < |rows| && rows[i] == r;
      var j :| 0 <= j < |s.rcvs| && s.rcvs[j] == rows[i];
      assert RowOk(s.rcvs[j]);
    }
  }

  // What the bank's acceptance makes of a lot: the confirmed settlement and the settled rows.
  lemma AcceptedTakes(s: State, day: nat, rows: seq<R.Rcv>, lot: Lot) returns (built: S.Stl, x: S.Stl, news: seq<R.Rcv>)
    requires DistinctIds(s.rcvs) && RowsOk(s.rcvs) && LotRows(s, day, rows, lot.merchant) && lot.liens.Some?
    ensures S.Build(lot.stlId, day, lot.merchant, rows, lot.liens.value) == Ok(built)
    ensures S.MarkSent(built).Ok? && S.MarkConfirmed(S.MarkSent(built).value) == Ok(x) && x == S.Confirmation(built)
    ensures SettleAll(rows, built.id) == Ok(news) && SettlesRows(s.rcvs, rows, news, x)
    ensures x.id == built.id == lot.stlId && x.data.merchant == lot.merchant && x.data.day == day && x.data.toMerchant + x.data.toCreditors >= 0
  {
    RowsNotNegative(s, day, rows, lot.merchant);
    S.BuildConserves(lot.stlId, day, lot.merchant, rows, lot.liens.value);
    S.BuildFields(lot.stlId, day, lot.merchant, rows, lot.liens.value);
    hide S.Build, RowsOk;
    built := S.Build(lot.stlId, day, lot.merchant, rows, lot.liens.value).value;
    x := S.MarkConfirmed(S.MarkSent(built).value).value;
    news := RowsSettled(s, day, rows, lot.merchant, built.id);
    hide SettleAll, LotRows, R.Settle, Replaces, DistinctIds;
  }

  lemma RowsSettled(s: State, day: nat, rows: seq<R.Rcv>, merchant: Id, id: Id) returns (news: seq<R.Rcv>)
    requires DistinctIds(s.rcvs) && LotRows(s, day, rows, merchant)
    ensures SettleAll(rows, id) == Ok(news) && Replaces(s.rcvs, rows, news)
    ensures forall i :: 0 <= i < |rows| ==>
              R.Settle(rows[i], id) == Ok(news[i]) && (rows[i].data.status.Scheduled? || rows[i].data.status.Anticipated?)
  {
    SettleAllMoves(rows, id);
    hide SettleAll;
    news := SettleAll(rows, id).value;
  }

  // An accepted lot, as the step stores it.
  lemma AcceptedShape(s: State, day: nat, rows: seq<R.Rcv>, lot: Lot) returns (x: S.Stl, news: seq<R.Rcv>, e: Event)
    requires Sound(s) && LotRows(s, day, rows, lot.merchant) && lot.accepted
    requires lot.known && lot.liens.Some? && !HasId(s.stls, lot.stlId) && !HasId(s.outbox, lot.eid) && lot.posts && lot.stored
    ensures SettlesRows(s.rcvs, rows, news, x) && Confirmed(x) && x.id == lot.stlId && x.data.merchant == lot.merchant && x.data.day == day
    ensures SettleAll(rows, x.id) == Ok(news)
    ensures S.Build(lot.stlId, day, lot.merchant, rows, lot.liens.value).Ok?
    ensures x == S.Confirmation(S.Build(lot.stlId, day, lot.merchant, rows, lot.liens.value).value)
    ensures e == NewEvent(lot.eid, SettlementCompleted, x.id, lot.merchant)
    ensures L.ForSettlement(x) == [] || L.Append(s.ledger, L.ForSettlement(x)).Ok?
    ensures SettleLot(s, day, rows, lot) ==
            Ok(s.(rcvs := Patch(s.rcvs, news), stls := s.stls + [x], ledger := s.ledger + L.ForSettlement(x), outbox := s.outbox + [e]))
  {
    var built;
    built, x, news := AcceptedTakes(s, day, rows, lot);
    assert Replaces(s.rcvs, rows, news);
    hide Reconciled, Consistent, Closed, PaidOnce, RowsOk, S.Build, SettleAll, LotRows, L.Append, InsertAll, SettlesRows, Replaces, DistinctIds, Update,
         S.MarkSent, S.MarkConfirmed, S.MarkFailed, L.ForSettlement, PostSettled, UpdateAll;
    e := NewEvent(lot.eid, SettlementCompleted, built.id, lot.merchant);
    UpdateAllIsPatch(s.rcvs, rows, news);
    CreateThenUpdate(s.stls, built, x);
    PostsShape(s.(stls := s.stls + [built]), built, x, rows, news, s.stls + [x]);
    hide SettleLot;
    AcceptedStep(s, day, rows, lot, built, s.(rcvs := Patch(s.rcvs, news), stls := s.stls + [x], ledger := s.ledger + L.ForSettlement(x)));
  }

  lemma AcceptedStep(s: State, day: nat, rows: seq<R.Rcv>, lot: Lot, built: S.Stl, posted: State)
    requires lot.known && lot.liens.Some? && lot.accepted && lot.posts && lot.stored
    requires S.Build(lot.stlId, day, lot.merchant, rows, lot.liens.value) == Ok(built) && Insert(s.stls, built) == Ok(s.stls + [built])
    requires PostSettled(s.(stls := s.stls + [built]), built, rows) == Ok(posted) && posted.outbox == s.outbox && !HasId(s.outbox, lot.eid)
    ensures SettleLot(s, day, rows, lot) == Ok(posted.(outbox := posted.outbox + [NewEvent(lot.eid, SettlementCompleted, built.id, lot.merchant)]))
  {
    hide S.Build, PostSettled, HasId, InsertAll;
    OneEvent(posted.outbox, NewEvent(lot.eid, SettlementCompleted, built.id, lot.merchant));
  }

  lemma PostsShape(s: State, built: S.Stl, x: S.Stl, rows: seq<R.Rcv>, news: seq<R.Rcv>, stls: seq<S.Stl>)
    requires S.MarkSent(built).Ok? && S.MarkConfirmed(S.MarkSent(built).value) == Ok(x) && x.data.toMerchant + x.data.toCreditors >= 0
    requires SettleAll(rows, built.id) == Ok(news) && UpdateAll(s.rcvs, news) == Ok(Patch(s.rcvs, news)) && Update(s.stls, x) == Ok(stls)
    ensures PostSettled(s, built, rows) == Ok(s.(rcvs := Patch(s.rcvs, news), stls := stls, ledger := s.ledger + L.ForSettlement(x)))
    ensures L.ForSettlement(x) == [] || L.Append(s.ledger, L.ForSettlement(x)).Ok?
  {
    hide SettleAll, UpdateAll, Update, S.MarkSent, S.MarkConfirmed, L.Append, L.ForSettlement;
    SettlementAppends(s.ledger, x);
  }

  lemma OneEvent(outbox: seq<Event>, e: Event)
    ensures InsertAll(outbox, [e]) == if HasId(outbox, e.id) then Err(DuplicateKey) else Ok(outbox + [e])
  {
    assert [e][..0] == [];
    assert InsertAll(outbox, []) == Ok(outbox);
  }

  // The ledger takes the entries of any settlement that pays a non-negative amount.
  lemma SettlementAppends(ledger: seq<L.Entry>, x: S.Stl)
    requires x.data.toMerchant + x.data.toCreditors >= 0
    ensures L.ForSettlement(x) == [] ==> ledger + L.ForSettlement(x) == ledger
    ensures L.ForSettlement(x) != [] ==> L.Append(ledger, L.ForSettlement(x)) == Ok(ledger + L.ForSettlement(x))
  {
    var es := L.ForSettlement(x);
    if es != [] {
      L.SumThree(es[0], es[1], es[0], L.DebitOf());
      L.SumThree(es[0], es[1], es[0], L.CreditOf());
    }
  }

  // A rejected lot: only the failed settlement and its event are stored.
  lemma RejectedShape(s: State, day: nat, rows: seq<R.Rcv>, lot: Lot) returns (x: S.Stl, e: Event)
    requires Sound(s) && LotRows(s, day, rows, lot.merchant) && !lot.accepted
    requires lot.known && lot.liens.Some? && !HasId(s.stls, lot.stlId) && !HasId(s.outbox, lot.eid) && lot.posts && lot.stored
    ensures x.data.status == S.Failed && x.id == lot.stlId && e == NewEvent(lot.eid, SettlementFailed, x.id, lot.merchant)
    ensures SettleLot(s, day, rows, lot) == Ok(s.(stls := s.stls + [x], outbox := s.outbox + [e]))
  {
    hide Reconciled, Consistent, Closed, PaidOnce;
    RowsNotNegative(s, day, rows, lot.merchant);
    S.BuildConserves(lot.stlId, day, lot.merchant, rows, lot.liens.value);
    var built := S.Build(lot.stlId, day, lot.merchant, rows, lot.liens.value).value;
    x := S.MarkFailed(built).value;
    e := NewEvent(lot.eid, SettlementFailed, built.id, lot.merchant);
    CreateThenUpdate(s.stls, built, x);
    OneEvent(s.outbox, e);
  }

  lemma LotOkOnly(s: State, day: nat, rows: seq<R.Rcv>, lot: Lot)
    requires SettleLot(s, day, rows, lot).Ok?
    ensures lot.posts && lot.stored && lot.known && lot.liens.Some? && !HasId(s.stls, lot.stlId) && !HasId(s.outbox, lot.eid)
  {
    var built := S.Build(lot.stlId, day, lot.merchant, rows, lot.liens.value).value;
    OneEvent(s.outbox, NewEvent(lot.eid, if lot.accepted then SettlementCompleted else SettlementFailed, built.id, lot.merchant));
  }

  lemma SettledRows(rcvs: seq<R.Rcv>, rows: seq<R.Rcv>, news: seq<R.Rcv>, x: S.Stl)
    requires SettlesRows(rcvs, rows, news, x) && forall i :: 0 <= i < |rows| ==> rows[i].data.merchant == x.data.merchant
    ensures OnlyMoved(rcvs, Patch(rcvs, news)) && RowsOk(Patch(rcvs, news)) && DistinctIds(Patch(rcvs, news))
    ensures OthersKept(rcvs, Patch(rcvs, news), x.data.merchant)
  {
    RowsPatched(rcvs, rows, news);
    PatchKeepsOthers(rcvs, rows, news, x.data.merchant);
  }

  lemma LedgerStaysBalanced(ledger: seq<L.Entry>, x: S.Stl)
    requires Sum(ledger, L.NetWeight()) == 0 && (L.ForSettlement(x) == [] || L.Append(ledger, L.ForSettlement(x)).Ok?)
    ensures Sum(ledger + L.ForSettlement(x), L.NetWeight()) == 0
  {
    if L.ForSettlement(x) != [] {
      AppendBalanced(ledger, L.ForSettlement(x));
    } else {
      assert ledger + [] == ledger;
    }
  }

  lemma RowsOfMerchant(s: State, day: nat, rows: seq<R.Rcv>, merchant: Id)
    requires LotRows(s, day, rows, merchant)
    ensures forall i :: 0 <= i < |rows| ==> rows[i].data.merchant == merchant
  {
  }

  // The state after an accepted lot.
  function WithSettled(s: State, news: seq<R.Rcv>, x: S.Stl, e: Event): State {
    s.(rcvs := Patch(s.rcvs, news), stls := s.stls + [x], ledger := s.ledger + L.ForSettlement(x), outbox := s.outbox + [e])
  }

  lemma SettledKept(s: State, rows: seq<R.Rcv>, news: seq<R.Rcv>, x: S.Stl, e: Event)
    requires Sound(s) && SettlesRows(s.rcvs, rows, news, x) && Confirmed(x) && !HasId(s.stls, x.id) && !HasId(s.outbox, e.id)
    requires e.data.kind == SettlementCompleted && SettleAll(rows, x.id) == Ok(news)
    requires forall i :: 0 <= i < |rows| ==> rows[i].data.merchant == x.data.merchant
    requires L.ForSettlement(x) == [] || L.Append(s.ledger, L.ForSettlement(x)).Ok?
    ensures Kept(s, WithSettled(s, news, x, e))
    ensures OthersKept(s.rcvs, Patch(s.rcvs, news), x.data.merchant) && OnlyMoved(s.rcvs, Patch(s.rcvs, news))
  {
    hide SettleAll, Reconciled, Consistent, Closed, PaidOnce, L.Append, L.ForSettlement, RowsOk, OnlyMoved, OthersKept, Patch;
    var s' := WithSettled(s, news, x, e);
    LedgerStaysBalanced(s.ledger, x);
    SettledRows(s.rcvs, rows, news, x);
    SettlementKeeps(s, s', x, rows, news);
    hide SettlesRows, Replaces;
    SettlementKeepsPaid(s.rcvs, rows, news, s.ants, s.stls, x);
    RowsMovedKeep(s, s', [e]);
    InsertAppends(s.stls, x);
    InsertAppends(s.outbox, e);
  }

  lemma AcceptedSafe(s: State, day: nat, rows: seq<R.Rcv>, lot: Lot)
    requires Sound(s) && LotRows(s, day, rows, lot.merchant) && SettleLot(s, day, rows, lot).Ok? && lot.accepted
    ensures Kept(s, SettleLot(s, day, rows, lot).value)
    ensures OthersKept(s.rcvs, SettleLot(s, day, rows, lot).value.rcvs, lot.merchant)
    ensures OnlyMoved(s.rcvs, SettleLot(s, day, rows, lot).value.rcvs)
  {
    LotOkOnly(s, day, rows, lot);
    var x, news, e := AcceptedShape(s, day, rows, lot);
    RowsOfMerchant(s, day, rows, lot.merchant);
    hide Sound, SettleLot, SettleAll, Kept, SettlesRows, L.Append, L.ForSettlement, OnlyMoved, OthersKept, LotRows, S.Build, Patch;
    SettledKept(s, rows, news, x, e);
  }

  lemma RejectedSafe(s: State, day: nat, rows: seq<R.Rcv>, lot: Lot)
    requires Sound(s) && LotRows(s, day, rows, lot.merchant) && SettleLot(s, day, rows, lot).Ok? && !lot.accepted
    ensures Kept(s, SettleLot(s, day, rows, lot).value)
    ensures SettleLot(s, day, rows, lot).value.rcvs == s.rcvs
  {
    LotOkOnly(s, day, rows, lot);
    var x, e := RejectedShape(s, day, rows, lot);
    hide SettleLot, Reconciled, Consistent, Closed, PaidOnce;
    var s' := SettleLot(s, day, rows, lot).value;
    InsertAppends(s.stls, x);
    InsertAppends(s.outbox, e);
    FailureKeeps(s, s', x);
    FailedKeepsPaid(s.rcvs, s.ants, s.stls, x);
    RowsMovedKeep(s, s', [e]);
  }

  lemma LotSafe(s: State, day: nat, rows: seq<R.Rcv>, lot: Lot)
    requires Sound(s) && LotRows(s, day, rows, lot.merchant) && SettleLot(s, day, rows, lot).Ok?
    ensures Kept(s, SettleLot(s, day, rows, lot).value)
    ensures OthersKept(s.rcvs, SettleLot(s, day, rows, lot).value.rcvs, lot.merchant)
    ensures OnlyMoved(s.rcvs, SettleLot(s, day, rows, lot).value.rcvs)
  {
    hide SettleLot, Sound;
    if lot.accepted {
      AcceptedSafe(s, day, rows, lot);
    } else {
      RejectedSafe(s, day, rows, lot);
    }
  }

  // Rows of other merchants are not touched.
  ghost predicate OthersKept(rcvs: seq<R.Rcv>, rcvs': seq<R.Rcv>, merchant: Id) {
    |rcvs'| == |rcvs| && forall j :: 0 <= j < |rcvs| && rcvs[j].data.merchant != merchant ==> rcvs'[j] == rcvs[j]
  }

  lemma PatchKeepsOthers(rcvs: seq<R.Rcv>, rows: seq<R.Rcv>, news: seq<R.Rcv>, merchant: Id)
    requires Replaces(rcvs, rows, news) && forall i :: 0 <= i < |rows| ==> rows[i].data.merchant == merchant
    ensures OthersKept(rcvs, Patch(rcvs, news), merchant)
  {
    forall j | 0 <= j < |rcvs| && rcvs[j].data.merchant != merchant
      ensures Patch(rcvs, news)[j] == rcvs[j]
    {
      PatchHit(rcvs, rows, news, j);
    }
  }

  // The lots of a batch, each settled on its own: rows not yet visited are still as they were read.
  lemma {:induction false} LotsSafe(s: State, day: nat, picked: seq<R.Rcv>, lots: seq<Lot>)
    requires Sound(s) && DistinctIds(picked) && forall r :: r in picked ==> r in s.rcvs && IsDue(day)(r)
    requires forall i, j :: 0 <= i < j < |lots| ==> lots[i].merchant != lots[j].merchant
    requires forall i :: 0 <= i < |lots| ==> lots[i].merchant in Merchants(picked)
    requires SettleLots(s, day, picked, lots).Ok?
    ensures Kept(s, SettleLots(s, day, picked, lots).value)
    ensures OnlyMoved(s.rcvs, SettleLots(s, day, picked, lots).value.rcvs)
    ensures forall r :: r in picked && (forall i :: 0 <= i < |lots| ==> lots[i].merchant != r.data.merchant)
                        ==> r in SettleLots(s, day, picked, lots).value.rcvs
  {
    hide Sound, SettleLot;
    if lots != [] {
      var n := |lots| - 1;
      LotsSafe(s, day, picked, lots[..n]);
      var before := SettleLots(s, day, picked, lots[..n]).value;
      var rows := Where(picked, OfMerchant(lots[n].merchant));
      LotOfBatch(before, day, picked, lots, n);
      LotSafe(before, day, rows, lots[n]);
      var after := SettleLot(before, day, rows, lots[n]).value;
      forall r | r in picked && forall i :: 0 <= i < |lots| ==> lots[i].merchant != r.data.merchant
        ensures r in after.rcvs
      {
        assert forall i :: 0 <= i < n ==> lots[..n][i].merchant != r.data.merchant;
        var j :| 0 <= j < |before.rcvs| && before.rcvs[j] == r;
        assert lots[n].merchant != r.data.merchant;
        assert after.rcvs[j] == r;
      }
    }
  }

  lemma LotOfBatch(before: State, day: nat, picked: seq<R.Rcv>, lots: seq<Lot>, n: nat)
    requires n < |lots| && DistinctIds(picked) && forall r :: r in picked ==> IsDue(day)(r)
    requires forall i, j :: 0 <= i < j < |lots| ==> lots[i].merchant != lots[j].merchant
    requires lots[n].merchant in Merchants(picked)
    requires forall r :: r in picked && (forall i :: 0 <= i < |lots[..n]| ==> lots[..n][i].merchant != r.data.merchant) ==> r in before.rcvs
    ensures LotRows(before, day, Where(picked, OfMerchant(lots[n].merchant)), lots[n].merchant)
  {
    var q := OfMerchant(lots[n].merchant);
    var rows := Where(picked, q);
    Selected(picked, q);
    var k :| 0 <= k < |picked| && picked[k].data.merchant == lots[n].merchant;
    WhereMember(picked, q, picked[k]);
    forall i | 0 <= i < |rows|
      ensures rows[i] in before.rcvs && S.CanSettle(rows[i], day, lots[n].merchant)
    {
      assert rows[i] in picked && q(rows[i]);
    }
  }

  // ---- every step, every run

  lemma StepSafe(s: State, op: Op)
    requires Sound(s)
    ensures Kept(s, Apply(s, op))
  {
    if Enabled(s, op) && Step(s, op).Ok? {
      match op {
        case Authorize(_, _, _, _, _, _, _, _, _, _) => AuthorizeSafe(s, op);
        case Capture(_, _, _, _) => CaptureSafe(s, op);
        case Cancel(_, _, _, _) => CancelSafe(s, op);
        case OnCaptured(_, _, _, _) => CapturedSafe(s, op);
        case OnCanceled(_) => CanceledSafe(s, op);
        case Anticipate(_, _, _, _, _, _, _, _) => AnticipateSafe(s, op);
        case OpenChargeback(_, _, _, _, _, _) => OpenCbSafe(s, op);
        case SettleBatch(day, _, picked, lots, _) =>
          assert forall i :: 0 <= i < |lots| ==> lots[i].merchant in Visited(lots);
          LotsSafe(s, day, picked, lots);
      }
    }
  }

  lemma {:induction false} RunSafe(ops: seq<Op>)
    ensures Inv(Exec(ops))
  {
    if ops == [] {
      InitSafe();
    } else {
      RunSafe(ops[..|ops|-1]);
      StepSafe(Exec(ops[..|ops|-1]), ops[|ops|-1]);
    }
  }
}
