/** What closing a sale does, exactly: the delivery of a canceled event, and a chargeback case. */
module ClosingSteps {
  import opened Results
  import opened Sums
  import opened Tables
  import opened Events
  import T = Transactions
  import R = Receivables
  import L = Ledger
  import opened Acquirer
  import opened Reconciliation
  import opened Agendas
  import opened Safety
  import opened SaleSteps

  // A cancellation takes back what is scheduled, a chargeback also what was anticipated.
  predicate IsClosed(r: R.Rcv, txId: Id, chargeback: bool) {
    r.data.txId == txId && (r.data.status == R.Scheduled || (chargeback && r.data.status == R.Anticipated))
  }

  // A row after the sale is closed.
  function AfterClosing(r: R.Rcv, txId: Id, chargeback: bool): R.Rcv {
    if IsClosed(r, txId, chargeback)
    then Row(r.id, r.version + 1, r.data.(status := if chargeback then R.Chargebacked else R.Canceled))
    else r
  }

  // The reversal of one row: the issuer's debt and the fee are taken back; the net is no longer owed to the
  // merchant or, once it was paid in advance, lost.
  function Reversing(r: R.Rcv): seq<L.Entry> {
    [L.Entry(L.ReceivableFromIssuer, r.data.merchant, 0, r.data.gross, L.OfChargeback, r.id),
     L.Entry(if r.data.status == R.Scheduled then L.PayableToMerchant else L.ChargebackLoss, r.data.merchant, r.data.net, 0, L.OfChargeback, r.id),
     L.Entry(L.RevenueFees, r.data.merchant, r.data.fee, 0, L.OfChargeback, r.id)]
  }

  // The reversals of all rows that are closed, in the order of the table.
  function Reversals(rcvs: seq<R.Rcv>, txId: Id, chargeback: bool): seq<L.Entry> {
    if rcvs == [] then []
    else
      var r := rcvs[|rcvs|-1];
      Reversals(rcvs[..|rcvs|-1], txId, chargeback) + if IsClosed(r, txId, chargeback) then Reversing(r) else []
  }

  function ToStatus(chargeback: bool): R.Status {
    if chargeback then R.Chargebacked else R.Canceled
  }

  lemma {:induction false} ReversalsOfClosing(rcvs: seq<R.Rcv>, txId: Id, chargeback: bool)
    ensures CloseAll(AgendaOf(rcvs, txId), ToStatus(chargeback)).entries == Reversals(rcvs, txId, chargeback)
  {
    if rcvs != [] {
      var n := |rcvs| - 1;
      ReversalsOfClosing(rcvs[..n], txId, chargeback);
      var before := AgendaOf(rcvs[..n], txId);
      assert (before + [rcvs[n]])[..|before|] == before;
    }
  }

  lemma RowAfterClosing(rcvs: seq<R.Rcv>, txId: Id, chargeback: bool, j: nat)
    requires DistinctIds(rcvs) && RowsOk(rcvs) && j < |rcvs|
    ensures Patch(rcvs, CloseAll(AgendaOf(rcvs, txId), ToStatus(chargeback)).news)[j] == AfterClosing(rcvs[j], txId, chargeback)
  {
    var to := ToStatus(chargeback);
    var list := AgendaOf(rcvs, txId);
    var c := CloseAll(list, to);
    hide CloseAll, RowsOk, Find;
    ClosingReplaces(rcvs, txId, to);
    PatchHit(rcvs, c.olds, c.news, j);
    WhereMember(rcvs, R.OfTransaction(txId), rcvs[j]);
    WhereDistinct(rcvs, R.OfTransaction(txId));
    ClosingShape(list, to);
    R.ChangesExactly(rcvs[j], to, 0);
    R.TransitionTable(rcvs[j].data.status, to);
    hide R.Transitions, R.Moved, Patch, Where;
    if rcvs[j] in c.olds {
      InAgenda(rcvs, txId, c.olds, rcvs[j]);
    }
  }

  lemma InAgenda(rcvs: seq<R.Rcv>, txId: Id, olds: seq<R.Rcv>, r: R.Rcv)
    requires r in olds && forall i :: 0 <= i < |olds| ==> olds[i] in AgendaOf(rcvs, txId)
    ensures r.data.txId == txId && r in rcvs
  {
    WhereMember(rcvs, R.OfTransaction(txId), r);
  }

  // The reversals of stored rows are balanced and pass the ledger's CHECKs.
  lemma {:induction false} ReversalsAppend(rcvs: seq<R.Rcv>, txId: Id, chargeback: bool)
    requires RowsOk(rcvs)
    ensures L.Balanced(Reversals(rcvs, txId, chargeback))
    ensures forall i :: 0 <= i < |Reversals(rcvs, txId, chargeback)| ==> L.Storable(Reversals(rcvs, txId, chargeback)[i])
  {
    if rcvs != [] {
      var n := |rcvs| - 1;
      var r := rcvs[n];
      ReversalsAppend(rcvs[..n], txId, chargeback);
      assert RowOk(r);
      if IsClosed(r, txId, chargeback) {
        var before := Reversals(rcvs[..n], txId, chargeback);
        SumAppend(before, Reversing(r), L.DebitOf());
        SumAppend(before, Reversing(r), L.CreditOf());
        ReversingAppends(r);
        assert Reversals(rcvs, txId, chargeback) == before + Reversing(r);
        hide Reversing, Reversals, Sum;
      } else {
        assert Reversals(rcvs, txId, chargeback) == Reversals(rcvs[..n], txId, chargeback);
      }
    }
  }

  lemma ReversingAppends(r: R.Rcv)
    requires RowOk(r)
    ensures L.Balanced(Reversing(r)) && forall i :: 0 <= i < |Reversing(r)| ==> L.Storable(Reversing(r)[i])
  {
    var es := Reversing(r);
    L.SumThree(es[0], es[1], es[2], L.DebitOf());
    L.SumThree(es[0], es[1], es[2], L.CreditOf());
    assert es == [es[0], es[1], es[2]];
  }

  // The tables after a closing, whatever else has changed in them.
  function AllClosed(rcvs: seq<R.Rcv>, txId: Id, chargeback: bool): seq<R.Rcv> {
    seq(|rcvs|, j requires 0 <= j < |rcvs| => AfterClosing(rcvs[j], txId, chargeback))
  }

  lemma AppliedExactly(s: State, txId: Id, chargeback: bool)
    requires DistinctIds(s.rcvs) && RowsOk(s.rcvs)
    ensures ApplyClosing(s, CloseAll(AgendaOf(s.rcvs, txId), ToStatus(chargeback))) ==
            Ok(s.(rcvs := AllClosed(s.rcvs, txId, chargeback), ledger := s.ledger + Reversals(s.rcvs, txId, chargeback)))
  {
    var to := ToStatus(chargeback);
    var c := CloseAll(AgendaOf(s.rcvs, txId), to);
    ReversalsOfClosing(s.rcvs, txId, chargeback);
    ReversalsAppend(s.rcvs, txId, chargeback);
    ClosingReplaces(s.rcvs, txId, to);
    PatchIsClosed(s.rcvs, txId, chargeback);
    hide CloseAll, Patch, UpdateAll, L.Balanced, L.Storable, Reversals, AllClosed, Replaces, RowsOk, DistinctIds, AgendaOf, Closes, R.Moved;
    if c.news == [] {
      PatchNothing(s.rcvs);
      NothingClosed(AgendaOf(s.rcvs, txId), to);
      assert s.ledger + [] == s.ledger;
    } else {
      UpdateAllIsPatch(s.rcvs, c.olds, c.news);
    }
  }

  lemma PatchIsClosed(rcvs: seq<R.Rcv>, txId: Id, chargeback: bool)
    requires DistinctIds(rcvs) && RowsOk(rcvs)
    ensures Patch(rcvs, CloseAll(AgendaOf(rcvs, txId), ToStatus(chargeback)).news) == AllClosed(rcvs, txId, chargeback)
  {
    hide CloseAll, RowsOk, DistinctIds, AgendaOf, AfterClosing, Patched;
    var news := CloseAll(AgendaOf(rcvs, txId), ToStatus(chargeback)).news;
    forall j | 0 <= j < |rcvs|
      ensures Patch(rcvs, news)[j] == AllClosed(rcvs, txId, chargeback)[j]
    {
      RowAfterClosing(rcvs, txId, chargeback, j);
    }
  }

  // A delivery of a canceled event never fails: the first one marks the event, cancels exactly the
  // receivables of the sale that are scheduled, and reverses them; a later one changes nothing.
  lemma CancellationExactly(s: State, op: Op)
    requires Sound(s) && op.OnCanceled? && Enabled(s, op)
    ensures var ev := s.outbox[op.k];
            Step(s, op) ==
            if ev.id in s.processed then Ok(s)
            else Ok(s.(processed := s.processed + {ev.id}, rcvs := AllClosed(s.rcvs, ev.data.aggregate, false),
                       ledger := s.ledger + Reversals(s.rcvs, ev.data.aggregate, false)))
  {
    var ev := s.outbox[op.k];
    SoundRows(s);
    hide Sound, ApplyClosing, CloseAll, AllClosed, Reversals;
    AppliedExactly(s.(processed := s.processed + {ev.id}), ev.data.aggregate, false);
  }

  lemma SoundRows(s: State)
    requires Sound(s)
    ensures DistinctIds(s.rcvs) && RowsOk(s.rcvs) && DistinctIds(s.txs)
  {
  }

  // A chargeback case, exactly: of the merchant's own sale, captured or settled, for a positive amount up to the
  // sale's, with new ids. The sale is charged back, what is scheduled or anticipated of it is closed and
  // reversed, and the case and the two events are written.
  lemma CaseExactly(s: State, op: Op)
    requires Sound(s) && op.OpenChargeback?
    ensures (forall i :: !IsSale(s, i, op.merchant, op.id)) ==> Step(s, op) == Err(NotFound)
    ensures forall i :: IsSale(s, i, op.merchant, op.id) ==> Step(s, op) == CaseOf(s, op, i)
  {
    SoundRows(s);
    FoundExactly(s, op.merchant, op.id);
    hide Sound, FindTx, CaseOf;
    forall i | IsSale(s, i, op.merchant, op.id)
      ensures Step(s, op) == CaseOf(s, op, i)
    {
      CaseOfSale(s, op, i);
    }
    if forall i :: !IsSale(s, i, op.merchant, op.id) {
      NoCase(s, op);
    }
  }

  function CaseOf(s: State, op: Op, i: int): Result<State>
    requires op.OpenChargeback? && 0 <= i < |s.txs|
  {
    var tx := s.txs[i];
    if tx.data.status != T.Captured && tx.data.status != T.Settled then Err(TransactionStatus)
    else if op.amount <= 0 || op.amount > tx.data.amount then Err(InvalidAmount)
    else if HasId(s.cbs, op.cbId) || HasId(s.outbox, op.eid) || HasId(s.outbox, op.eid2) || op.eid == op.eid2 then Err(DuplicateKey)
    else Ok(s.(txs := s.txs[i := Row(op.id, tx.version + 1, tx.data.(status := T.Chargebacked))],
               cbs := s.cbs + [Row(op.cbId, 1, CbData(op.id, op.merchant, op.amount))],
               rcvs := AllClosed(s.rcvs, op.id, true), ledger := s.ledger + Reversals(s.rcvs, op.id, true),
               outbox := s.outbox + [Row(op.eid, 1, EventData(TransactionChargebacked, op.id, op.merchant)),
                                     Row(op.eid2, 1, EventData(ChargebackOpened, op.cbId, op.merchant))]))
  }

  lemma NoCase(s: State, op: Op)
    requires op.OpenChargeback? && FindTx(s, op.merchant, op.id) == Err(NotFound)
    ensures Step(s, op) == Err(NotFound)
  {
    hide FindTx;
  }

  lemma TwoEventsExactly(outbox: seq<Event>, e: Event, e2: Event)
    ensures InsertAll(outbox, [e, e2]) ==
            if HasId(outbox, e.id) || HasId(outbox, e2.id) || e.id == e2.id then Err(DuplicateKey) else Ok(outbox + [e, e2])
  {
    assert [e, e2][..1] == [e];
    OneEvent(outbox, e);
    if !HasId(outbox, e.id) {
      var t := outbox + [e];
      assert HasId(t, e2.id) <==> HasId(outbox, e2.id) || e2.id == e.id by {
        if HasId(outbox, e2.id) {
          var k :| 0 <= k < |outbox| && outbox[k].id == e2.id;
          assert t[k].id == e2.id;
        }
        assert t[|outbox|] == e;
      }
      assert t + [e2] == outbox + [e, e2];
    }
  }

  lemma CaseOfSale(s: State, op: Op, i: int)
    requires DistinctIds(s.rcvs) && RowsOk(s.rcvs) && DistinctIds(s.txs)
    requires op.OpenChargeback? && IsSale(s, i, op.merchant, op.id) && FindTx(s, op.merchant, op.id) == Ok(s.txs[i])
    ensures Step(s, op) == CaseOf(s, op, i)
  {
    var tx := s.txs[i];
    var moved := Row(op.id, tx.version + 1, tx.data.(status := T.Chargebacked));
    T.TransitionTable(tx.data.status, T.Chargebacked);
    hide T.Transitions;
    UpdateFound(s.txs, i, moved);
    AppliedExactly(s.(txs := s.txs[i := moved], cbs := s.cbs + [Row(op.cbId, 1, CbData(op.id, op.merchant, op.amount))]), op.id, true);
    TwoEventsExactly(s.outbox, Row(op.eid, 1, EventData(TransactionChargebacked, op.id, op.merchant)),
                     Row(op.eid2, 1, EventData(ChargebackOpened, op.cbId, op.merchant)));
    hide FindTx, Update, ApplyClosing, CloseAll, AllClosed, Reversals, InsertAll, HasId, RowsOk, DistinctIds;
  }
}
