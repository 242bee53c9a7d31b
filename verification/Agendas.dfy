/** Exactly one agenda per captured sale, and closed sales stay closed: the invariant and what keeps it. */
module Agendas {
  import opened Results
  import opened Sums
  import opened Money
  import opened Tables
  import opened Events
  import T = Transactions
  import R = Receivables
  import opened Acquirer

  // Event k of the outbox is of a kind and about an aggregate.
  predicate Says(outbox: seq<Event>, k: int, kind: Kind, aggregate: Id) {
    0 <= k < |outbox| && outbox[k].data.kind == kind && outbox[k].data.aggregate == aggregate
  }

  // ---- transactions against the events they recorded

  ghost predicate Journal(txs: seq<T.Tx>, outbox: seq<Event>) {
    && (forall k :: 0 <= k < |outbox| && (outbox[k].data.kind == TransactionCaptured || outbox[k].data.kind == TransactionCanceled)
          ==> HasId(txs, outbox[k].data.aggregate))
    && (forall i, k :: 0 <= i < |txs| && Says(outbox, k, TransactionCaptured, txs[i].id)
          ==> txs[i].data.capturedAt.Some? && !T.BeforeCapture(txs[i].data.status))
    && (forall i, k :: 0 <= i < |txs| && Says(outbox, k, TransactionCanceled, txs[i].id) ==> txs[i].data.status == T.Canceled)
    && (forall k, l, a :: Says(outbox, k, TransactionCaptured, a) && Says(outbox, l, TransactionCaptured, a) ==> k == l)
  }

  predicate Neutral(kind: Kind) {
    kind != TransactionCaptured && kind != TransactionCanceled
  }

  lemma JournalGrows(txs: seq<T.Tx>, outbox: seq<Event>, more: seq<Event>)
    requires Journal(txs, outbox) && forall k :: 0 <= k < |more| ==> Neutral(more[k].data.kind)
    ensures Journal(txs, outbox + more)
  {
    NeutralSays(outbox, more);
  }

  // Neutral events say nothing new about captures and cancellations.
  lemma NeutralSays(outbox: seq<Event>, more: seq<Event>)
    requires forall k :: 0 <= k < |more| ==> Neutral(more[k].data.kind)
    ensures forall k, kind, a :: !Neutral(kind) ==> (Says(outbox + more, k, kind, a) <==> Says(outbox, k, kind, a))
  {
  }

  lemma JournalNewTx(txs: seq<T.Tx>, outbox: seq<Event>, tx: T.Tx, e: Event)
    requires Journal(txs, outbox) && !HasId(txs, tx.id) && Neutral(e.data.kind)
    ensures Journal(txs + [tx], outbox + [e])
  {
    JournalGrows(txs, outbox, [e]);
    forall k | 0 <= k < |outbox + [e]| && !Neutral((outbox + [e])[k].data.kind)
      ensures HasId(txs + [tx], (outbox + [e])[k].data.aggregate) && (outbox + [e])[k].data.aggregate != tx.id
    {
      var i :| 0 <= i < |txs| && txs[i].id == (outbox + [e])[k].data.aggregate;
      assert (txs + [tx])[i].id == (outbox + [e])[k].data.aggregate;
    }
  }

  lemma HasIdUpdate<D>(t: seq<Row<D>>, i: nat, row: Row<D>)
    requires i < |t| && row.id == t[i].id
    ensures forall id :: HasId(t[i := row], id) <==> HasId(t, id)
  {
    forall id
      ensures HasId(t[i := row], id) <==> HasId(t, id)
    {
      if HasId(t, id) {
        var k :| 0 <= k < |t| && t[k].id == id;
        assert t[i := row][k].id == id;
      }
      if HasId(t[i := row], id) {
        var k :| 0 <= k < |t| && t[i := row][k].id == id;
        assert t[k].id == id;
      }
    }
  }

  // The event a status change records: a capture only out of an authorized sale,
  // a cancellation only into CANCELED.
  predicate RecordsMove(from: T.Tx, to: T.Tx, e: Event) {
    && from.id == to.id && to.data.status in T.Transitions(from.data.status)
    && (e.data.kind == TransactionCaptured ==>
          && e.data.aggregate == from.id && T.BeforeCapture(from.data.status)
          && to.data.capturedAt.Some? && !T.BeforeCapture(to.data.status))
    && (e.data.kind == TransactionCanceled ==> to.data.status == T.Canceled && e.data.aggregate == from.id)
    && (!T.BeforeCapture(from.data.status) ==> to.data.capturedAt == from.data.capturedAt)
  }

  lemma JournalMove(txs: seq<T.Tx>, outbox: seq<Event>, i: nat, tx: T.Tx, e: Event)
    requires Journal(txs, outbox) && DistinctIds(txs) && i < |txs| && RecordsMove(txs[i], tx, e)
    ensures Journal(txs[i := tx], outbox + [e])
  {
    var txs', outbox' := txs[i := tx], outbox + [e];
    HasIdUpdate(txs, i, tx);
    T.TransitionsAreOneWay(txs[i].data.status, tx.data.status);
    assert HasId(txs, txs[i].id);
    forall j, k | 0 <= j < |txs'| && Says(outbox', k, TransactionCaptured, txs'[j].id)
      ensures txs'[j].data.capturedAt.Some? && !T.BeforeCapture(txs'[j].data.status)
    {
      assert k < |outbox| ==> Says(outbox, k, TransactionCaptured, txs[j].id);
    }
    forall j, k | 0 <= j < |txs'| && Says(outbox', k, TransactionCanceled, txs'[j].id)
      ensures txs'[j].data.status == T.Canceled
    {
      assert k < |outbox| ==> Says(outbox, k, TransactionCanceled, txs[j].id);
    }
    forall k, l, a | Says(outbox', k, TransactionCaptured, a) && Says(outbox', l, TransactionCaptured, a)
      ensures k == l
    {
      if k < |outbox| { assert Says(outbox, k, TransactionCaptured, a); }
      if l < |outbox| { assert Says(outbox, l, TransactionCaptured, a); }
    }
  }

  // ---- agendas against transactions

  // A complete agenda: instalments 1 to n carrying the whole amount and the whole fee.
  ghost predicate Complete(list: seq<R.Rcv>, tx: T.Tx) {
    && |list| == tx.data.installments
    && (forall i :: 0 <= i < |list| ==> list[i].data.no == i + 1)
    && Sum(list, R.Gross()) == tx.data.amount
    && exists mdr :: 0 <= mdr <= 10000 && Sum(list, R.Fee()) == ApplyBps(tx.data.amount, mdr)
  }

  function AgendaOf(rcvs: seq<R.Rcv>, txId: Id): seq<R.Rcv> {
    Where(rcvs, R.OfTransaction(txId))
  }

  // No agenda yet, or the complete one; never part of one and never two.
  ghost predicate AllOrNothing(txs: seq<T.Tx>, rcvs: seq<R.Rcv>) {
    forall i :: 0 <= i < |txs| ==> AgendaOf(rcvs, txs[i].id) == [] || Complete(AgendaOf(rcvs, txs[i].id), txs[i])
  }

  // Every receivable belongs to a sale that was captured and whose captured event
  // is marked processed.
  ghost predicate Grounded(txs: seq<T.Tx>, rcvs: seq<R.Rcv>, outbox: seq<Event>, processed: set<Id>) {
    && (forall j :: 0 <= j < |rcvs| ==> HasId(txs, rcvs[j].data.txId))
    && (forall i, j :: 0 <= i < |txs| && 0 <= j < |rcvs| && rcvs[j].data.txId == txs[i].id ==> !T.BeforeCapture(txs[i].data.status))
    && (forall j, k :: 0 <= j < |rcvs| && Says(outbox, k, TransactionCaptured, rcvs[j].data.txId) ==> outbox[k].id in processed)
    && (forall id :: id in processed ==> HasId(outbox, id))
  }

  // A charged-back sale has nothing left to pay; a cancellation that was processed
  // leaves nothing scheduled.
  ghost predicate ClosedForGood(txs: seq<T.Tx>, rcvs: seq<R.Rcv>, outbox: seq<Event>, processed: set<Id>) {
    && (forall i, j :: 0 <= i < |txs| && 0 <= j < |rcvs| && rcvs[j].data.txId == txs[i].id && txs[i].data.status == T.Chargebacked
          ==> !rcvs[j].data.status.Scheduled? && !rcvs[j].data.status.Anticipated?)
    && (forall j, k :: 0 <= j < |rcvs| && Says(outbox, k, TransactionCanceled, rcvs[j].data.txId) && outbox[k].id in processed
          ==> !rcvs[j].data.status.Scheduled?)
  }

  ghost predicate Consistent(s: State) {
    && Journal(s.txs, s.outbox)
    && AllOrNothing(s.txs, s.rcvs)
    && Grounded(s.txs, s.rcvs, s.outbox, s.processed)
  }

  ghost predicate Closed(s: State) {
    ClosedForGood(s.txs, s.rcvs, s.outbox, s.processed)
  }

  // What a step makes of both.
  ghost predicate StaysAgreed(s: State, s': State) {
    Consistent(s') && (Closed(s) ==> Closed(s'))
  }

  // ---- row changes: the frozen part of every row stays, statuses only move forward

  ghost predicate OnlyMoved(rcvs: seq<R.Rcv>, rcvs': seq<R.Rcv>) {
    && |rcvs'| == |rcvs|
    && forall j :: 0 <= j < |rcvs| ==>
         && R.Frozen(rcvs'[j]) == R.Frozen(rcvs[j])
         && (rcvs'[j].data.status.Scheduled? ==> rcvs[j].data.status.Scheduled?)
         && (rcvs'[j].data.status.Anticipated? ==> rcvs[j].data.status.Anticipated? || rcvs[j].data.status.Scheduled?)
  }

  lemma {:induction false} AgendaMoved(rcvs: seq<R.Rcv>, rcvs': seq<R.Rcv>, txId: Id)
    requires OnlyMoved(rcvs, rcvs')
    ensures OnlyMoved(AgendaOf(rcvs, txId), AgendaOf(rcvs', txId))
  {
    if rcvs != [] {
      var n := |rcvs| - 1;
      AgendaMoved(rcvs[..n], rcvs'[..n], txId);
      assert R.Frozen(rcvs'[n]) == R.Frozen(rcvs[n]);
    }
  }

  lemma CompleteMoved(list: seq<R.Rcv>, list': seq<R.Rcv>, tx: T.Tx)
    requires Complete(list, tx) && OnlyMoved(list, list')
    ensures Complete(list', tx)
  {
    forall j | 0 <= j < |list|
      ensures list'[j].data.no == list[j].data.no && list'[j].data.gross == list[j].data.gross && list'[j].data.fee == list[j].data.fee
    {
      assert R.Frozen(list'[j]) == R.Frozen(list[j]);
    }
    SumPointwise(list', list, R.Gross(), R.Gross());
    SumPointwise(list', list, R.Fee(), R.Fee());
  }

  lemma AllOrNothingMoved(txs: seq<T.Tx>, rcvs: seq<R.Rcv>, rcvs': seq<R.Rcv>)
    requires AllOrNothing(txs, rcvs) && OnlyMoved(rcvs, rcvs')
    ensures AllOrNothing(txs, rcvs')
  {
    forall i | 0 <= i < |txs|
      ensures AgendaOf(rcvs', txs[i].id) == [] || Complete(AgendaOf(rcvs', txs[i].id), txs[i])
    {
      AgendaMoved(rcvs, rcvs', txs[i].id);
      if AgendaOf(rcvs, txs[i].id) != [] {
        CompleteMoved(AgendaOf(rcvs, txs[i].id), AgendaOf(rcvs', txs[i].id), txs[i]);
      }
    }
  }

  lemma SameTransaction(rcvs: seq<R.Rcv>, rcvs': seq<R.Rcv>, j: nat)
    requires OnlyMoved(rcvs, rcvs') && j < |rcvs|
    ensures rcvs'[j].data.txId == rcvs[j].data.txId && rcvs'[j].id == rcvs[j].id
  {
    assert R.Frozen(rcvs'[j]) == R.Frozen(rcvs[j]);
  }

  // Rows that only move keep every agenda, whatever neutral events are written.
  // Unless a row is closed by the step, its anticipation needs an open sale.
  lemma RowsMovedKeep(s: State, s': State, more: seq<Event>)
    requires Consistent(s) && s'.txs == s.txs && OnlyMoved(s.rcvs, s'.rcvs) && s'.outbox == s.outbox + more && s'.processed == s.processed
    requires forall k :: 0 <= k < |more| ==> Neutral(more[k].data.kind)
    ensures StaysAgreed(s, s')
  {
    JournalGrows(s.txs, s.outbox, more);
    AllOrNothingMoved(s.txs, s.rcvs, s'.rcvs);
    NeutralSays(s.outbox, more);
    forall j | 0 <= j < |s.rcvs|
      ensures s'.rcvs[j].data.txId == s.rcvs[j].data.txId
    {
      SameTransaction(s.rcvs, s'.rcvs, j);
    }
    HasIdGrows(s.outbox, more);
  }

  lemma HasIdGrows<D>(t: seq<Row<D>>, more: seq<Row<D>>)
    ensures forall id :: HasId(t, id) ==> HasId(t + more, id)
  {
    forall id | HasId(t, id)
      ensures HasId(t + more, id)
    {
      var i :| 0 <= i < |t| && t[i].id == id;
      assert (t + more)[i].id == id;
    }
  }

  // A cancellation event that is processed now: its scheduled rows are closed in the same step.
  lemma CancellationKeeps(s: State, s': State, k: nat)
    requires Consistent(s) && DistinctIds(s.outbox) && s'.txs == s.txs && OnlyMoved(s.rcvs, s'.rcvs) && s'.outbox == s.outbox
    requires IsDelivery(s, k, TransactionCanceled) && s'.processed == s.processed + {s.outbox[k].id}
    requires forall j :: 0 <= j < |s.rcvs| && s.rcvs[j].data.txId == s.outbox[k].data.aggregate ==> !s'.rcvs[j].data.status.Scheduled?
    ensures StaysAgreed(s, s')
  {
    AllOrNothingMoved(s.txs, s.rcvs, s'.rcvs);
    assert HasId(s.outbox, s.outbox[k].id);
    forall j | 0 <= j < |s.rcvs|
      ensures s'.rcvs[j].data.txId == s.rcvs[j].data.txId
    {
      SameTransaction(s.rcvs, s'.rcvs, j);
    }
  }

  // Nothing forbids the sale an agenda: it is not charged back, and no cancellation of it is processed.
  ghost predicate OpenForAgenda(s: State, i: nat)
    requires i < |s.txs|
  {
    && s.txs[i].data.status != T.Chargebacked
    && forall m :: Says(s.outbox, m, TransactionCanceled, s.txs[i].id) ==> s.outbox[m].id !in s.processed
  }

  // A captured event that is processed now posts the whole agenda of a sale that had none.
  // It keeps closed sales closed exactly when the sale is still open for it.
  lemma CaptureDeliveryKeeps(s: State, s': State, k: nat, i: nat, list: seq<R.Rcv>, more: seq<Event>)
    requires Consistent(s) && DistinctIds(s.outbox) && DistinctIds(s.txs)
    requires IsDelivery(s, k, TransactionCaptured) && s.outbox[k].id !in s.processed
    requires i < |s.txs| && s.txs[i].id == s.outbox[k].data.aggregate && !T.BeforeCapture(s.txs[i].data.status)
    requires list != [] && Complete(list, s.txs[i]) && forall j :: 0 <= j < |list| ==> list[j].data.txId == s.txs[i].id && list[j].data.status == R.Scheduled
    requires s'.txs == s.txs && s'.rcvs == s.rcvs + list && s'.processed == s.processed + {s.outbox[k].id}
    requires s'.outbox == s.outbox + more && forall m :: 0 <= m < |more| ==> Neutral(more[m].data.kind)
    ensures Consistent(s')
    ensures Closed(s') <==> Closed(s) && OpenForAgenda(s, i)
  {
    JournalGrows(s.txs, s.outbox, more);
    NeutralSays(s.outbox, more);
    HasIdGrows(s.outbox, more);
    assert HasId(s'.outbox, s.outbox[k].id) by {
      assert HasId(s.outbox, s.outbox[k].id);
    }
    assert Says(s.outbox, k, TransactionCaptured, s.txs[i].id);
    assert HasId(s.txs, s.txs[i].id);
    FirstAgenda(s.txs, s.rcvs, i, list, s.outbox, s.processed, k);
    GroundedPosted(s, s', k, i, list, more);
    ClosedPosted(s, s', k, i, list, more);
  }

  lemma FirstAgenda(txs: seq<T.Tx>, rcvs: seq<R.Rcv>, i: nat, list: seq<R.Rcv>, outbox: seq<Event>, processed: set<Id>, k: nat)
    requires AllOrNothing(txs, rcvs) && Grounded(txs, rcvs, outbox, processed) && DistinctIds(txs) && i < |txs|
    requires Says(outbox, k, TransactionCaptured, txs[i].id) && outbox[k].id !in processed
    requires Complete(list, txs[i]) && forall j :: 0 <= j < |list| ==> list[j].data.txId == txs[i].id
    ensures AllOrNothing(txs, rcvs + list)
  {
    forall m | 0 <= m < |txs|
      ensures AgendaOf(rcvs + list, txs[m].id) == [] || Complete(AgendaOf(rcvs + list, txs[m].id), txs[m])
    {
      WhereAppend(rcvs, list, R.OfTransaction(txs[m].id));
      if m == i {
        assert forall j :: 0 <= j < |rcvs| ==> rcvs[j].data.txId != txs[i].id;
        WhereNone(rcvs, R.OfTransaction(txs[i].id));
        WhereAll(list, R.OfTransaction(txs[i].id));
        assert [] + list == list;
      } else {
        assert txs[m].id != txs[i].id;
        WhereNone(list, R.OfTransaction(txs[m].id));
        assert AgendaOf(rcvs, txs[m].id) + [] == AgendaOf(rcvs, txs[m].id);
      }
    }
  }

  lemma GroundedPosted(s: State, s': State, k: nat, i: nat, list: seq<R.Rcv>, more: seq<Event>)
    requires Consistent(s) && DistinctIds(s.txs) && i < |s.txs|
    requires Says(s.outbox, k, TransactionCaptured, s.txs[i].id) && !T.BeforeCapture(s.txs[i].data.status) && HasId(s.txs, s.txs[i].id)
    requires forall j :: 0 <= j < |list| ==> list[j].data.txId == s.txs[i].id
    requires s'.txs == s.txs && s'.rcvs == s.rcvs + list && s'.processed == s.processed + {s.outbox[k].id}
    requires s'.outbox == s.outbox + more && HasId(s'.outbox, s.outbox[k].id)
    requires forall m, kind, a :: !Neutral(kind) ==> (Says(s'.outbox, m, kind, a) <==> Says(s.outbox, m, kind, a))
    requires forall id :: HasId(s.outbox, id) ==> HasId(s'.outbox, id)
    ensures Grounded(s'.txs, s'.rcvs, s'.outbox, s'.processed)
  {
    forall j, m | 0 <= j < |s'.rcvs| && Says(s'.outbox, m, TransactionCaptured, s'.rcvs[j].data.txId)
      ensures s'.outbox[m].id in s'.processed
    {
      assert Says(s.outbox, m, TransactionCaptured, s'.rcvs[j].data.txId);
      if j >= |s.rcvs| {
        assert m == k;
      } else {
        assert s'.rcvs[j] == s.rcvs[j];
      }
    }
  }

  lemma ClosedPosted(s: State, s': State, k: nat, i: nat, list: seq<R.Rcv>, more: seq<Event>)
    requires DistinctIds(s.txs) && DistinctIds(s.outbox) && i < |s.txs| && IsDelivery(s, k, TransactionCaptured) && list != []
    requires forall j :: 0 <= j < |list| ==> list[j].data.txId == s.txs[i].id && list[j].data.status == R.Scheduled
    requires s'.txs == s.txs && s'.rcvs == s.rcvs + list && s'.processed == s.processed + {s.outbox[k].id} && s'.outbox == s.outbox + more
    requires forall m, kind, a :: !Neutral(kind) ==> (Says(s'.outbox, m, kind, a) <==> Says(s.outbox, m, kind, a))
    ensures Closed(s') <==> Closed(s) && OpenForAgenda(s, i)
  {
    forall m, a | Says(s.outbox, m, TransactionCanceled, a)
      ensures s'.outbox[m] == s.outbox[m] && (s'.outbox[m].id in s'.processed <==> s.outbox[m].id in s.processed)
    {
      assert m != k;
    }
    assert s'.rcvs[|s.rcvs|] == list[0];
    if Closed(s') {
      ClosedBefore(s, s', i, list);
    }
    if Closed(s) && OpenForAgenda(s, i) {
      ClosedAfter(s, s', i, list);
    }
  }

  lemma ClosedBefore(s: State, s': State, i: nat, list: seq<R.Rcv>)
    requires i < |s.txs| && Closed(s') && s'.txs == s.txs && s'.rcvs == s.rcvs + list
    requires list != [] && list[0].data.txId == s.txs[i].id && list[0].data.status == R.Scheduled
    requires forall m, a :: Says(s.outbox, m, TransactionCanceled, a) ==>
               Says(s'.outbox, m, TransactionCanceled, a) && (s'.outbox[m].id in s'.processed <==> s.outbox[m].id in s.processed)
    ensures Closed(s) && OpenForAgenda(s, i)
  {
    assert s'.rcvs[|s.rcvs|] == list[0];
    assert forall j :: 0 <= j < |s.rcvs| ==> s'.rcvs[j] == s.rcvs[j];
    forall j, m | 0 <= j < |s.rcvs| && Says(s.outbox, m, TransactionCanceled, s.rcvs[j].data.txId) && s.outbox[m].id in s.processed
      ensures !s.rcvs[j].data.status.Scheduled?
    {
      assert Says(s'.outbox, m, TransactionCanceled, s'.rcvs[j].data.txId);
    }
    forall m | Says(s.outbox, m, TransactionCanceled, s.txs[i].id)
      ensures s.outbox[m].id !in s.processed
    {
      assert Says(s'.outbox, m, TransactionCanceled, s'.rcvs[|s.rcvs|].data.txId);
    }
  }

  lemma ClosedAfter(s: State, s': State, i: nat, list: seq<R.Rcv>)
    requires i < |s.txs| && DistinctIds(s.txs) && Closed(s) && OpenForAgenda(s, i) && s'.txs == s.txs && s'.rcvs == s.rcvs + list
    requires forall j :: 0 <= j < |list| ==> list[j].data.txId == s.txs[i].id
    requires forall m, a :: Says(s'.outbox, m, TransactionCanceled, a) ==>
               Says(s.outbox, m, TransactionCanceled, a) && (s'.outbox[m].id in s'.processed <==> s.outbox[m].id in s.processed)
    ensures Closed(s')
  {
    forall j, m | 0 <= j < |s'.rcvs| && Says(s'.outbox, m, TransactionCanceled, s'.rcvs[j].data.txId) && s'.outbox[m].id in s'.processed
      ensures !s'.rcvs[j].data.status.Scheduled?
    {
      assert Says(s.outbox, m, TransactionCanceled, s'.rcvs[j].data.txId);
      assert j < |s.rcvs| && s'.rcvs[j] == s.rcvs[j];
    }
  }

  // A new sale has no agenda yet.
  lemma NewTxKeeps(s: State, s': State, tx: T.Tx, e: Event)
    requires Consistent(s) && !HasId(s.txs, tx.id) && Neutral(e.data.kind) && T.BeforeCapture(tx.data.status)
    requires s'.txs == s.txs + [tx] && s'.rcvs == s.rcvs && s'.outbox == s.outbox + [e] && s'.processed == s.processed
    ensures StaysAgreed(s, s')
  {
    JournalNewTx(s.txs, s.outbox, tx, e);
    NeutralSays(s.outbox, [e]);
    HasIdGrows(s.outbox, [e]);
    HasIdGrows(s.txs, [tx]);
    forall j | 0 <= j < |s.rcvs|
      ensures s.rcvs[j].data.txId != tx.id
    {
      assert HasId(s.txs, s.rcvs[j].data.txId);
    }
    WhereNone(s.rcvs, R.OfTransaction(tx.id));
  }

  // A change of one sale: its rows are untouched, or closed when it is charged back.
  lemma MoveTxKeeps(s: State, s': State, i: nat, tx: T.Tx, e: Event, more: seq<Event>)
    requires Consistent(s) && DistinctIds(s.txs) && i < |s.txs| && RecordsMove(s.txs[i], tx, e)
    requires tx.data.amount == s.txs[i].data.amount && tx.data.installments == s.txs[i].data.installments
    requires s'.txs == s.txs[i := tx] && OnlyMoved(s.rcvs, s'.rcvs) && s'.outbox == s.outbox + [e] + more && s'.processed == s.processed
    requires !HasId(s.outbox, e.id) && forall m :: 0 <= m < |more| ==> Neutral(more[m].data.kind)
    requires tx.data.status == T.Chargebacked ==>
               forall j :: 0 <= j < |s.rcvs| && s.rcvs[j].data.txId == tx.id ==> !s'.rcvs[j].data.status.Scheduled? && !s'.rcvs[j].data.status.Anticipated?
    ensures StaysAgreed(s, s')
  {
    JournalMove(s.txs, s.outbox, i, tx, e);
    JournalGrows(s'.txs, s.outbox + [e], more);
    HasIdUpdate(s.txs, i, tx);
    T.TransitionsAreOneWay(s.txs[i].data.status, tx.data.status);
    AllOrNothingMoved(s.txs, s.rcvs, s'.rcvs);
    forall m | 0 <= m < |s'.txs|
      ensures AgendaOf(s'.rcvs, s'.txs[m].id) == [] || Complete(AgendaOf(s'.rcvs, s'.txs[m].id), s'.txs[m])
    {
      assert AgendaOf(s'.rcvs, s.txs[m].id) == [] || Complete(AgendaOf(s'.rcvs, s.txs[m].id), s.txs[m]);
    }
    MoveTxGrounded(s, s', i, tx, e, more);
  }

  lemma MoveTxGrounded(s: State, s': State, i: nat, tx: T.Tx, e: Event, more: seq<Event>)
    requires Consistent(s) && DistinctIds(s.txs) && i < |s.txs| && RecordsMove(s.txs[i], tx, e)
    requires !T.BeforeCapture(s.txs[i].data.status) ==> !T.BeforeCapture(tx.data.status)
    requires forall id :: HasId(s'.txs, id) <==> HasId(s.txs, id)
    requires s'.txs == s.txs[i := tx] && OnlyMoved(s.rcvs, s'.rcvs) && s'.outbox == s.outbox + [e] + more && s'.processed == s.processed
    requires !HasId(s.outbox, e.id) && forall m :: 0 <= m < |more| ==> Neutral(more[m].data.kind)
    requires tx.data.status == T.Chargebacked ==>
               forall j :: 0 <= j < |s.rcvs| && s.rcvs[j].data.txId == tx.id ==> !s'.rcvs[j].data.status.Scheduled? && !s'.rcvs[j].data.status.Anticipated?
    ensures Grounded(s'.txs, s'.rcvs, s'.outbox, s'.processed)
    ensures Closed(s) ==> Closed(s')
  {
    hide AllOrNothing, R.Frozen;
    forall j | 0 <= j < |s.rcvs|
      ensures s'.rcvs[j].data.txId == s.rcvs[j].data.txId
    {
      SameTransaction(s.rcvs, s'.rcvs, j);
    }
    HasIdGrows(s.outbox, [e]);
    HasIdGrows(s.outbox + [e], more);
    NeutralSays(s.outbox + [e], more);
    assert e.id !in s.processed;
    assert e.data.kind == TransactionCaptured ==> forall j :: 0 <= j < |s.rcvs| ==> s.rcvs[j].data.txId != s.txs[i].id;
    forall j, k, kind | 0 <= j < |s.rcvs| && !Neutral(kind) && Says(s'.outbox, k, kind, s'.rcvs[j].data.txId)
      ensures k == |s.outbox| || (Says(s.outbox, k, kind, s.rcvs[j].data.txId) && s'.outbox[k] == s.outbox[k])
      ensures kind == TransactionCaptured ==> k < |s.outbox|
    {
      assert Says(s.outbox + [e], k, kind, s'.rcvs[j].data.txId);
    }
  }
}
