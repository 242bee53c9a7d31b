/** What holds in every state of every run, stated from the outside. */
module Theorems {
  import opened Results
  import opened Sums
  import opened Tables
  import opened Events
  import opened FeePlans
  import opened Money
  import opened Calendar
  import opened Civil
  import T = Transactions
  import R = Receivables
  import S = Settlements
  import A = Anticipations
  import L = Ledger
  import opened Acquirer
  import opened Reconciliation
  import opened Agendas
  import opened Payouts
  import opened Safety

  // ---- the ledger

  // In every state of every run the six balances, of each merchant and overall, are
  // the sums over the tables that their shares describe.
  lemma LedgerReconciles(ops: seq<Op>, account: L.Account, who: Option<Id>)
    ensures var s := Exec(ops);
            L.Balance(s.ledger, account, who) ==
            Sum(s.rcvs, RowWeight(account, who)) + Sum(s.ants, AntWeight(account, who)) + Sum(s.stls, StlWeight(account, who))
  {
    RunSafe(ops);
  }

  // Money that has left the agenda for good: anticipated, settled, or lost after an anticipation.
  predicate Spent(r: R.Rcv) {
    r.data.status.Anticipated? || r.data.status.Settled? || (r.data.status.Chargebacked? && r.data.anticipation.Some?)
  }

  function SpentNet(): R.Rcv -> int { (r: R.Rcv) => if Spent(r) then r.data.net else 0 }

  function Balances(ledger: seq<L.Entry>): int {
    L.Balance(ledger, L.ReceivableFromIssuer, None) + L.Balance(ledger, L.PayableToMerchant, None) + L.Balance(ledger, L.RevenueFees, None)
    + L.Balance(ledger, L.RevenueAnticipation, None) + L.Balance(ledger, L.BankOutgoing, None) + L.Balance(ledger, L.ChargebackLoss, None)
  }

  lemma {:induction false} TrialBalance(ledger: seq<L.Entry>)
    ensures Balances(ledger) == Sum(ledger, L.NetWeight())
  {
    if ledger != [] {
      TrialBalance(ledger[..|ledger|-1]);
      var e := ledger[|ledger|-1];
      assert L.NetWeight()(e) == e.credit - e.debit;
    }
  }

  function RowShares(rcvs: seq<R.Rcv>): int {
    Sum(rcvs, RowWeight(L.ReceivableFromIssuer, None)) + Sum(rcvs, RowWeight(L.PayableToMerchant, None))
    + Sum(rcvs, RowWeight(L.RevenueFees, None)) + Sum(rcvs, RowWeight(L.ChargebackLoss, None))
  }

  lemma {:induction false} SharesOfRows(rcvs: seq<R.Rcv>)
    requires RowsOk(rcvs)
    ensures RowShares(rcvs) == -Sum(rcvs, SpentNet())
    ensures Sum(rcvs, RowWeight(L.RevenueAnticipation, None)) == 0 && Sum(rcvs, RowWeight(L.BankOutgoing, None)) == 0
  {
    if rcvs != [] {
      SharesOfRows(rcvs[..|rcvs|-1]);
      assert RowOk(rcvs[|rcvs|-1]);
    }
  }

  // Conservation: whatever went out of the bank or was earned by anticipating is
  // exactly the net of the receivables that left the agenda for it.
  lemma MoneyOutIsMoneySpent(ops: seq<Op>)
    ensures var s := Exec(ops);
            L.Balance(s.ledger, L.BankOutgoing, None) + L.Balance(s.ledger, L.RevenueAnticipation, None) == Sum(s.rcvs, SpentNet())
  {
    RunSafe(ops);
    var s := Exec(ops);
    TrialBalance(s.ledger);
    SharesOfRows(s.rcvs);
    OnlyRows(s, L.ReceivableFromIssuer);
    OnlyRows(s, L.PayableToMerchant);
    OnlyRows(s, L.RevenueFees);
    OnlyRows(s, L.ChargebackLoss);
  }

  lemma OnlyRows(s: State, account: L.Account)
    requires Reconciled(s) && !account.BankOutgoing? && !account.RevenueAnticipation?
    ensures L.Balance(s.ledger, account, None) == Sum(s.rcvs, RowWeight(account, None))
  {
    SumZero(s.ants, AntWeight(account, None));
    SumZero(s.stls, StlWeight(account, None));
  }

  // ---- what only grows

  // A step never takes back a record: events, marks, settlements, anticipations
  // and ledger entries stay, in order.
  ghost predicate Grows(s: State, s': State) {
    && s.outbox <= s'.outbox && s.processed <= s'.processed && s.ledger <= s'.ledger && s.stls <= s'.stls && s.ants <= s'.ants
  }

  lemma LotGrows(s: State, day: nat, rows: seq<R.Rcv>, lot: Lot)
    requires SettleLot(s, day, rows, lot).Ok?
    ensures Grows(s, SettleLot(s, day, rows, lot).value) && SettleLot(s, day, rows, lot).value.txs == s.txs
  {
    var built := S.Build(lot.stlId, day, lot.merchant, rows, lot.liens.value).value;
    OneEvent(s.outbox, NewEvent(lot.eid, if lot.accepted then SettlementCompleted else SettlementFailed, built.id, lot.merchant));
    CreateThenUpdate(s.stls, built, if lot.accepted then S.MarkConfirmed(S.MarkSent(built).value).value else S.MarkFailed(built).value);
  }

  lemma {:induction false} LotsGrow(s: State, day: nat, picked: seq<R.Rcv>, lots: seq<Lot>)
    requires SettleLots(s, day, picked, lots).Ok?
    ensures Grows(s, SettleLots(s, day, picked, lots).value) && SettleLots(s, day, picked, lots).value.txs == s.txs
  {
    if lots != [] {
      var n := |lots| - 1;
      LotsGrow(s, day, picked, lots[..n]);
      LotGrows(SettleLots(s, day, picked, lots[..n]).value, day, Where(picked, OfMerchant(lots[n].merchant)), lots[n]);
    }
  }

  lemma ClosingGrows(s: State, c: Closing)
    requires ApplyClosing(s, c).Ok?
    ensures Grows(s, ApplyClosing(s, c).value) && ApplyClosing(s, c).value.txs == s.txs
  {
  }

  lemma AnticipateGrows(s: State, op: Op)
    requires op.Anticipate? && AnticipateRows(s, op).Ok?
    ensures Grows(s, AnticipateRows(s, op).value) && AnticipateRows(s, op).value.txs == s.txs
  {
    hide A.Simulate, A.AnticipateAll, LienCheck, Where, UpdateAll;
    OneEvent(s.outbox, NewEvent(op.eid, AnticipationConfirmed, op.aid, op.merchant));
  }

  lemma CapturedGrows(s: State, op: Op)
    requires op.OnCaptured? && IsDelivery(s, op.k, TransactionCaptured) && CapturedHandler(s, op).Ok?
    ensures Grows(s, CapturedHandler(s, op).value) && CapturedHandler(s, op).value.txs == s.txs
  {
    hide Agenda, InsertAll;
    var ev := s.outbox[op.k];
    if ev.id !in s.processed {
      var tx := FindTx(s, ev.data.merchant, ev.data.aggregate).value;
      OneEvent(s.outbox, NewEvent(op.eid, ReceivablesScheduled, tx.id, tx.data.merchant));
    }
  }

  lemma StepGrows(s: State, op: Op)
    ensures Grows(s, Apply(s, op))
  {
    if Enabled(s, op) && Step(s, op).Ok? {
      match op {
        case Authorize(_, _, _, _, _, _, _, _, _, _) =>
          OneEvent(s.outbox, NewEvent(op.eid, if op.approved then TransactionAuthorized else TransactionDenied, op.id, op.merchant));
        case Capture(_, _, _, _) =>
          var tx := T.Capture(FindTx(s, op.merchant, op.id).value, op.now).value;
          OneEvent(s.outbox, NewEvent(op.eid, TransactionCaptured, tx.id, tx.data.merchant));
        case Cancel(_, _, _, _) =>
          var tx := T.Cancel(FindTx(s, op.merchant, op.id).value, op.now).value;
          OneEvent(s.outbox, NewEvent(op.eid, TransactionCanceled, tx.id, tx.data.merchant));
        case OnCaptured(_, _, _, _) => CapturedGrows(s, op);
        case OnCanceled(k) =>
          var ev := s.outbox[k];
          if ev.id !in s.processed {
            ClosingGrows(s.(processed := s.processed + {ev.id}), CloseAll(Where(s.rcvs, R.OfTransaction(ev.data.aggregate)), R.Canceled));
          }
        case Anticipate(_, _, _, _, _, _, _, _) => AnticipateGrows(s, op);
        case OpenChargeback(_, _, _, _, _, _) => OpenGrows(s, op);
        case SettleBatch(day, _, picked, lots, _) => LotsGrow(s, day, picked, lots);
      }
    }
  }

  lemma OpenGrows(s: State, op: Op)
    requires op.OpenChargeback? && OpenCb(s, op).Ok?
    ensures Grows(s, OpenCb(s, op).value)
    ensures OpenCb(s, op).value.txs == Update(s.txs, T.Moved(FindTx(s, op.merchant, op.id).value, T.Chargebacked).value).value
  {
    var tx := FindTx(s, op.merchant, op.id).value;
    var mid := s.(txs := Update(s.txs, T.Moved(tx, T.Chargebacked).value).value,
                  cbs := Insert(s.cbs, Row(op.cbId, 1, CbData(tx.id, tx.data.merchant, op.amount))).value);
    ClosingGrows(mid, CloseAll(Where(s.rcvs, R.OfTransaction(tx.id)), R.Chargebacked));
    InsertAllAppends(s.outbox, [NewEvent(op.eid, TransactionChargebacked, tx.id, tx.data.merchant),
                                NewEvent(op.eid2, ChargebackOpened, op.cbId, tx.data.merchant)]);
  }

  lemma {:induction false} RunGrows(ops: seq<Op>, i: nat)
    requires i <= |ops|
    ensures Grows(Exec(ops[..i]), Exec(ops))
    decreases |ops|
  {
    var n := |ops| - 1;
    if i == |ops| {
      assert ops[..i] == ops;
    } else {
      RunGrows(ops[..n], i);
      assert ops[..n][..i] == ops[..i];
      StepGrows(Exec(ops[..n]), ops[n]);
    }
  }

  // ---- one agenda per sale, applied once

  // Under any order, repetition and failure of deliveries, a sale has no agenda or
  // the complete one.
  lemma OneAgendaPerSale(ops: seq<Op>, i: nat)
    requires i < |Exec(ops).txs|
    ensures var s := Exec(ops);
            AgendaOf(s.rcvs, s.txs[i].id) == [] || Complete(AgendaOf(s.rcvs, s.txs[i].id), s.txs[i])
  {
    RunSafe(ops);
  }

  // Step i of a run is a delivery that the scheduler applies (and marks) there.
  ghost predicate AppliesDelivery(ops: seq<Op>, i: nat, id: Id)
    requires i < |ops|
  {
    var s := Exec(ops[..i]);
    && (ops[i].OnCaptured? || ops[i].OnCanceled?)
    && Enabled(s, ops[i]) && Step(s, ops[i]).Ok?
    && s.outbox[ops[i].k].id == id && id !in s.processed
  }

  lemma CapturedMarks(s: State, op: Op)
    requires op.OnCaptured? && Enabled(s, op) && s.outbox[op.k].id !in s.processed && CapturedHandler(s, op).Ok?
    ensures s.outbox[op.k].id in CapturedHandler(s, op).value.processed
  {
    hide Agenda, InsertAll, L.Append, FindTx;
  }

  lemma CanceledMarks(s: State, op: Op)
    requires op.OnCanceled? && Enabled(s, op) && s.outbox[op.k].id !in s.processed && CanceledHandler(s, op).Ok?
    ensures s.outbox[op.k].id in CanceledHandler(s, op).value.processed
  {
    hide UpdateAll, CloseAll, L.Append;
  }

  lemma AppliedIsMarked(ops: seq<Op>, i: nat, id: Id)
    requires i < |ops| && AppliesDelivery(ops, i, id)
    ensures id in Exec(ops[..i+1]).processed
  {
    hide CapturedHandler, CanceledHandler, SettleDay, AuthorizeTx, CaptureTx, CancelTx, AnticipateRows, OpenCb;
    var s := Exec(ops[..i]);
    assert ops[..i+1][..i] == ops[..i];
    if ops[i].OnCaptured? {
      CapturedMarks(s, ops[i]);
    } else {
      CanceledMarks(s, ops[i]);
    }
  }

  // No event is applied twice, however often it is delivered.
  lemma EachEventAppliedOnce(ops: seq<Op>, i: nat, j: nat, id: Id)
    requires i < j < |ops| && AppliesDelivery(ops, i, id)
    ensures !AppliesDelivery(ops, j, id)
  {
    AppliedIsMarked(ops, i, id);
    RunGrows(ops[..j], i + 1);
    assert ops[..j][..i+1] == ops[..i+1];
  }

  // A delivery that is not applied changes nothing: it is a duplicate or it failed.
  lemma OtherDeliveriesStutter(ops: seq<Op>, i: nat)
    requires i < |ops| && (ops[i].OnCaptured? || ops[i].OnCanceled?)
    requires forall id :: !AppliesDelivery(ops, i, id)
    ensures Exec(ops[..i+1]) == Exec(ops[..i])
  {
    var s := Exec(ops[..i]);
    assert ops[..i+1][..i] == ops[..i];
    if Enabled(s, ops[i]) {
      assert !AppliesDelivery(ops, i, s.outbox[ops[i].k].id);
    }
  }

  // The run without its idle deliveries: every event is delivered at most once.
  ghost function Deduplicated(ops: seq<Op>): seq<Op> {
    if ops == [] then []
    else
      var n := |ops| - 1;
      if (ops[n].OnCaptured? || ops[n].OnCanceled?) && forall id :: !AppliesDelivery(ops, n, id)
      then Deduplicated(ops[..n])
      else Deduplicated(ops[..n]) + [ops[n]]
  }

  // At-least-once delivery refines exactly-once: dropping the idle deliveries gives the same state.
  lemma {:induction false} RunRefinesDeduplicated(ops: seq<Op>)
    ensures Exec(Deduplicated(ops)) == Exec(ops)
  {
    if ops != [] {
      var n := |ops| - 1;
      RunRefinesDeduplicated(ops[..n]);
      assert ops[..n+1] == ops;
      if (ops[n].OnCaptured? || ops[n].OnCanceled?) && forall id :: !AppliesDelivery(ops, n, id) {
        OtherDeliveriesStutter(ops, n);
      } else {
        var kept := Deduplicated(ops[..n]) + [ops[n]];
        assert kept[..|kept|-1] == Deduplicated(ops[..n]);
      }
    }
  }

  // Every delivery of the deduplicated run is applied there ...
  lemma {:induction false} KeptDeliveriesApply(ops: seq<Op>, i: nat)
    requires i < |Deduplicated(ops)| && (Deduplicated(ops)[i].OnCaptured? || Deduplicated(ops)[i].OnCanceled?)
    ensures exists id :: AppliesDelivery(Deduplicated(ops), i, id)
  {
    hide Exec, Enabled, Step;
    var n := |ops| - 1;
    var kept := Deduplicated(ops[..n]);
    if i < |kept| {
      KeptDeliveriesApply(ops[..n], i);
      var id :| AppliesDelivery(kept, i, id);
      assert Deduplicated(ops)[..i] == kept[..i];
      assert AppliesDelivery(Deduplicated(ops), i, id);
    } else {
      RunRefinesDeduplicated(ops[..n]);
      assert Deduplicated(ops)[..i] == kept;
      var id :| AppliesDelivery(ops, n, id);
      assert AppliesDelivery(Deduplicated(ops), i, id);
    }
  }

  // ... so it delivers no event twice.
  lemma DeduplicatedDeliversOnce(ops: seq<Op>, i: nat, j: nat)
    requires i < j < |Deduplicated(ops)|
    requires Deduplicated(ops)[i].OnCaptured? || Deduplicated(ops)[i].OnCanceled?
    requires Deduplicated(ops)[j].OnCaptured? || Deduplicated(ops)[j].OnCanceled?
    ensures var d := Deduplicated(ops);
            && d[i].k < |Exec(d[..i]).outbox| && d[j].k < |Exec(d[..j]).outbox|
            && Exec(d[..i]).outbox[d[i].k].id != Exec(d[..j]).outbox[d[j].k].id
  {
    hide Exec, Step, Deduplicated;
    var d := Deduplicated(ops);
    KeptDeliveriesApply(ops, i);
    KeptDeliveriesApply(ops, j);
    var id :| AppliesDelivery(d, i, id);
    var id' :| AppliesDelivery(d, j, id');
    EachEventAppliedOnce(d, i, j, id);
  }

  // ---- where an agenda comes from

  // A step moves receivables, or posts the agenda of the delivery it applies.
  ghost predicate Posts(s: State, op: Op, s': State) {
    && op.OnCaptured? && Enabled(s, op) && s.outbox[op.k].id !in s.processed && op.merchantPlan.Some?
    && FindTx(s, s.outbox[op.k].data.merchant, s.outbox[op.k].data.aggregate).Ok?
    && var tx := FindTx(s, s.outbox[op.k].data.merchant, s.outbox[op.k].data.aggregate).value;
    && Agenda(tx, op.merchantPlan.value, op.ids).Ok?
    && s'.rcvs == s.rcvs + Agenda(tx, op.merchantPlan.value, op.ids).value
  }

  lemma StepRows(s: State, op: Op)
    requires Sound(s)
    ensures OnlyMoved(s.rcvs, Apply(s, op).rcvs) || (Posts(s, op, Apply(s, op)) && Step(s, op).Ok?)
  {
    hide Sound, OnlyMoved, Posts, CapturedHandler, CanceledHandler, AnticipateRows, OpenCb, SettleLots, InsertAll;
    StaysMoved(s.rcvs);
    if Enabled(s, op) && Step(s, op).Ok? {
      match op {
        case Authorize(_, _, _, _, _, _, _, _, _, _) =>
        case Capture(_, _, _, _) =>
        case Cancel(_, _, _, _) =>
        case OnCaptured(_, _, _, _) => CapturedPosts(s, op);
        case OnCanceled(k) => CanceledMoves(s, op);
        case Anticipate(_, _, _, _, _, _, _, _) => AnticipateMoves(s, op);
        case OpenChargeback(_, _, _, _, _, _) => OpenMoves(s, op);
        case SettleBatch(day, _, picked, lots, _) =>
          BatchMoves(s, op);
      }
    }
  }

  lemma BatchMoves(s: State, op: Op)
    requires Sound(s) && op.SettleBatch? && Enabled(s, op) && SettleLots(s, op.day, op.picked, op.lots).Ok?
    ensures OnlyMoved(s.rcvs, SettleLots(s, op.day, op.picked, op.lots).value.rcvs)
  {
    hide Sound, OnlyMoved, SettleLots;
    assert forall i :: 0 <= i < |op.lots| ==> op.lots[i].merchant in Visited(op.lots);
    LotsSafe(s, op.day, op.picked, op.lots);
  }

  lemma CapturedPosts(s: State, op: Op)
    requires op.OnCaptured? && Enabled(s, op) && CapturedHandler(s, op).Ok?
    ensures CapturedHandler(s, op).value.rcvs == s.rcvs || Posts(s, op, CapturedHandler(s, op).value)
  {
    hide Agenda, L.Append, L.ForScheduled, InsertAll;
    var ev := s.outbox[op.k];
    if ev.id !in s.processed {
      var tx := FindTx(s, ev.data.merchant, ev.data.aggregate).value;
      InsertAllAppends(s.rcvs, Agenda(tx, op.merchantPlan.value, op.ids).value);
    }
  }

  lemma CanceledMoves(s: State, op: Op)
    requires Sound(s) && op.OnCanceled? && Enabled(s, op) && CanceledHandler(s, op).Ok?
    ensures OnlyMoved(s.rcvs, CanceledHandler(s, op).value.rcvs)
  {
    hide Reconciled, Consistent, PaidOnce, RowsOk, CloseAll, ApplyClosing, Patch, OnlyMoved;
    var ev := s.outbox[op.k];
    StaysMoved(s.rcvs);
    if ev.id !in s.processed {
      ClosingApplied(s.(processed := s.processed + {ev.id}), ev.data.aggregate, R.Canceled);
      ClosingPatch(s.rcvs, ev.data.aggregate, R.Canceled);
    }
  }

  lemma StaysMoved(rcvs: seq<R.Rcv>)
    ensures OnlyMoved(rcvs, rcvs)
  {
  }

  lemma AnticipateMoves(s: State, op: Op)
    requires Sound(s) && op.Anticipate? && AnticipateRows(s, op).Ok?
    ensures OnlyMoved(s.rcvs, AnticipateRows(s, op).value.rcvs)
  {
    var a, rows, news, e := AnticipateShape(s, op);
    hide AnticipateRows, AnticipatesRows, Patch, OnlyMoved, Sound;
    AnticipatedRows(s.rcvs, rows, news, a);
  }

  lemma OpenMoves(s: State, op: Op)
    requires Sound(s) && op.OpenChargeback? && OpenCb(s, op).Ok?
    ensures OnlyMoved(s.rcvs, OpenCb(s, op).value.rcvs)
  {
    hide Reconciled, Consistent, PaidOnce, RowsOk, CloseAll, ApplyClosing, Patch, OnlyMoved, InsertAll;
    var tx := FindTx(s, op.merchant, op.id).value;
    var mid := s.(txs := Update(s.txs, T.Moved(tx, T.Chargebacked).value).value,
                  cbs := Insert(s.cbs, Row(op.cbId, 1, CbData(tx.id, tx.data.merchant, op.amount))).value);
    ClosingApplied(mid, tx.id, R.Chargebacked);
    ClosingPatch(s.rcvs, tx.id, R.Chargebacked);
  }

  // The rows are, but for status and links, the agenda that this delivery posts.
  ghost predicate IsPosting(s: State, op: Op, txId: Id, rows: seq<R.Rcv>) {
    && op.OnCaptured? && Enabled(s, op) && CapturedHandler(s, op).Ok? && s.outbox[op.k].id !in s.processed && op.merchantPlan.Some?
    && FindTx(s, s.outbox[op.k].data.merchant, txId).Ok? && s.outbox[op.k].data.aggregate == txId
    && var tx := FindTx(s, s.outbox[op.k].data.merchant, txId).value;
    && Agenda(tx, op.merchantPlan.value, op.ids).Ok?
    && SameFrozen(rows, Agenda(tx, op.merchantPlan.value, op.ids).value)
  }

  ghost predicate SameFrozen(a: seq<R.Rcv>, b: seq<R.Rcv>) {
    |a| == |b| && forall j :: 0 <= j < |a| ==> R.Frozen(a[j]) == R.Frozen(b[j])
  }

  lemma PostingMoves(s: State, op: Op, txId: Id, rows: seq<R.Rcv>, rows': seq<R.Rcv>)
    requires IsPosting(s, op, txId, rows) && OnlyMoved(rows, rows')
    ensures IsPosting(s, op, txId, rows')
  {
    hide Agenda, CapturedHandler, R.Frozen;
  }

  // An agenda posted now is all there is of its sale, and leaves the others alone.
  lemma PostedAgenda(s: State, op: Op, s': State, txId: Id)
    requires Sound(s) && Posts(s, op, s') && CapturedHandler(s, op).Ok?
    ensures var ev := s.outbox[op.k];
            if ev.data.aggregate == txId then IsPosting(s, op, txId, AgendaOf(s'.rcvs, txId)) else AgendaOf(s'.rcvs, txId) == AgendaOf(s.rcvs, txId)
  {
    var ev := s.outbox[op.k];
    var tx := FindTx(s, ev.data.merchant, ev.data.aggregate).value;
    var list := Agenda(tx, op.merchantPlan.value, op.ids).value;
    BrazilNeverClosedFiveDays();
    Schedules.ScheduleConserves(tx, op.merchantPlan.value, BRAZIL, op.ids);
    hide Agenda, CapturedHandler;
    WhereAppend(s.rcvs, list, R.OfTransaction(txId));
    if ev.data.aggregate == txId {
      NoAgendaYet(s, op.k);
      WhereNone(s.rcvs, R.OfTransaction(txId));
      WhereAll(list, R.OfTransaction(txId));
      assert [] + list == list;
    } else {
      WhereNone(list, R.OfTransaction(txId));
      assert AgendaOf(s.rcvs, txId) + [] == AgendaOf(s.rcvs, txId);
    }
  }

  lemma NoAgendaYet(s: State, k: nat)
    requires Sound(s) && IsDelivery(s, k, TransactionCaptured) && s.outbox[k].id !in s.processed
    ensures forall r :: r in s.rcvs ==> r.data.txId != s.outbox[k].data.aggregate
  {
    hide Reconciled, PaidOnce, RowsOk, AllOrNothing, Journal;
    forall r | r in s.rcvs
      ensures r.data.txId != s.outbox[k].data.aggregate
    {
      var j :| 0 <= j < |s.rcvs| && s.rcvs[j] == r;
      assert Says(s.outbox, k, TransactionCaptured, s.outbox[k].data.aggregate);
    }
  }

  // Whatever happens to it later, an agenda is the schedule its one applied delivery
  // computed from the sale and the merchant's plan of that moment.
  lemma {:induction false} AgendaOfDelivery(ops: seq<Op>, txId: Id) returns (n: nat)
    requires AgendaOf(Exec(ops).rcvs, txId) != []
    ensures n < |ops| && IsPosting(Exec(ops[..n]), ops[n], txId, AgendaOf(Exec(ops).rcvs, txId))
  {
    hide Sound, Inv, Apply, Step, IsPosting, OnlyMoved, Posts, AgendaOf;
    n := 0;
    if ops == [] {
      NoRows(txId);
    } else {
      var m := |ops| - 1;
      var s, s' := Exec(ops[..m]), Exec(ops);
      RunSafe(ops[..m]);
      InvSound(s);
      StepRows(s, ops[m]);
      if OnlyMoved(s.rcvs, s'.rcvs) {
        AgendaMoved(s.rcvs, s'.rcvs, txId);
        SameLength(AgendaOf(s.rcvs, txId), AgendaOf(s'.rcvs, txId));
        n := AgendaOfDelivery(ops[..m], txId);
        assert ops[..m][..n] == ops[..n];
        PostingMoves(Exec(ops[..n]), ops[n], txId, AgendaOf(s.rcvs, txId), AgendaOf(s'.rcvs, txId));
      } else {
        PostsIsOk(s, ops[m]);
        PostedAgenda(s, ops[m], s', txId);
        if s.outbox[ops[m].k].data.aggregate == txId {
          n := m;
        } else {
          n := AgendaOfDelivery(ops[..m], txId);
          assert ops[..m][..n] == ops[..n];
        }
      }
    }
  }

  lemma NoRows(txId: Id)
    ensures AgendaOf(Exec([]).rcvs, txId) == []
  {
  }

  lemma InvSound(s: State)
    requires Inv(s)
    ensures Sound(s)
  {
  }

  lemma SameLength(a: seq<R.Rcv>, b: seq<R.Rcv>)
    requires OnlyMoved(a, b)
    ensures |a| == |b|
  {
  }

  lemma PostsIsOk(s: State, op: Op)
    requires Posts(s, op, Apply(s, op)) && Step(s, op).Ok?
    ensures op.OnCaptured? && Enabled(s, op) && CapturedHandler(s, op).Ok?
  {
    hide Agenda, CapturedHandler;
  }

  // So the fee a sale's agenda carries is the one of the plan it was posted under.
  lemma FeeOfAppliedPlan(ops: seq<Op>, txId: Id) returns (n: nat, tx: T.Tx, plan: FeePlan)
    requires AgendaOf(Exec(ops).rcvs, txId) != []
    ensures n < |ops| && IsPosting(Exec(ops[..n]), ops[n], txId, AgendaOf(Exec(ops).rcvs, txId))
    ensures ops[n].merchantPlan == Some(plan) && tx.id == txId && tx in Exec(ops[..n]).txs
    ensures plan.MDR(tx.data.product, tx.data.installments).Ok?
    ensures var agenda := AgendaOf(Exec(ops).rcvs, txId);
            && Sum(agenda, R.Gross()) == tx.data.amount
            && Sum(agenda, R.Fee()) == ApplyBps(tx.data.amount, plan.MDR(tx.data.product, tx.data.installments).value)
  {
    n := AgendaOfDelivery(ops, txId);
    var s, op, agenda := Exec(ops[..n]), ops[n], AgendaOf(Exec(ops).rcvs, txId);
    tx, plan := FindTx(s, s.outbox[op.k].data.merchant, txId).value, op.merchantPlan.value;
    hide Exec, AgendaOf, CapturedHandler;
    BrazilNeverClosedFiveDays();
    Schedules.ScheduleConserves(tx, plan, BRAZIL, op.ids);
    FrozenSums(agenda, Agenda(tx, plan, op.ids).value);
  }

  lemma FrozenSums(a: seq<R.Rcv>, b: seq<R.Rcv>)
    requires SameFrozen(a, b)
    ensures Sum(a, R.Gross()) == Sum(b, R.Gross()) && Sum(a, R.Fee()) == Sum(b, R.Fee())
  {
    forall j | 0 <= j < |a|
      ensures a[j].data.gross == b[j].data.gross && a[j].data.fee == b[j].data.fee
    {
      assert R.Frozen(a[j]) == R.Frozen(b[j]);
    }
    SumPointwise(a, b, R.Gross(), R.Gross());
    SumPointwise(a, b, R.Fee(), R.Fee());
  }

  // ---- closed for good

  ghost predicate HasStatus(s: State, id: Id, status: T.Status) {
    exists i :: 0 <= i < |s.txs| && s.txs[i].id == id && s.txs[i].data.status == status
  }

  // Sales are never removed; each stays as it is or takes a legal transition, which never
  // changes its amount or instalments. A new sale has a positive one.
  ghost predicate TxsMove(txs: seq<T.Tx>, txs': seq<T.Tx>) {
    && |txs| <= |txs'|
    && (forall i :: 0 <= i < |txs| ==>
        txs'[i].id == txs[i].id && (txs'[i] == txs[i] || txs'[i].data.status in T.Transitions(txs[i].data.status))
        && txs'[i].data.amount == txs[i].data.amount && txs'[i].data.installments == txs[i].data.installments)
    && forall i :: |txs| <= i < |txs'| ==> txs'[i].data.amount > 0
  }

  lemma UpdateMoves(txs: seq<T.Tx>, txs': seq<T.Tx>, from: T.Tx, to: T.Tx)
    requires DistinctIds(txs) && from in txs && to.id == from.id && to.data.status in T.Transitions(from.data.status)
    requires to.data.amount == from.data.amount && to.data.installments == from.data.installments && Update(txs, to) == Ok(txs')
    ensures TxsMove(txs, txs')
  {
    var j :| 0 <= j < |txs| && txs[j] == from;
    FindAt(txs, j);
  }

  lemma StepMovesTxs(s: State, op: Op)
    requires Sound(s)
    ensures TxsMove(s.txs, Apply(s, op).txs)
  {
    hide Sound, Reconciled, Consistent, Closed, PaidOnce, RowsOk, Grows;
    KeysOf(s);
    var s' := Apply(s, op);
    if Enabled(s, op) && Step(s, op).Ok? {
      match op {
        case Authorize(_, _, _, _, _, _, _, _, _, _) =>
        case Capture(_, _, _, _) =>
          var tx := FindTx(s, op.merchant, op.id).value;
          UpdateMoves(s.txs, s'.txs, tx, T.Capture(tx, op.now).value);
        case Cancel(_, _, _, _) =>
          var tx := FindTx(s, op.merchant, op.id).value;
          UpdateMoves(s.txs, s'.txs, tx, T.Cancel(tx, op.now).value);
        case OnCaptured(_, _, _, _) => CapturedGrows(s, op);
        case OnCanceled(k) =>
          var ev := s.outbox[k];
          if ev.id !in s.processed {
            ClosingGrows(s.(processed := s.processed + {ev.id}), CloseAll(Where(s.rcvs, R.OfTransaction(ev.data.aggregate)), R.Canceled));
          }
        case Anticipate(_, _, _, _, _, _, _, _) => AnticipateGrows(s, op);
        case OpenChargeback(_, _, _, _, _, _) =>
          OpenGrows(s, op);
          var tx := FindTx(s, op.merchant, op.id).value;
          UpdateMoves(s.txs, s'.txs, tx, T.Moved(tx, T.Chargebacked).value);
        case SettleBatch(day, _, picked, lots, _) => LotsGrow(s, day, picked, lots);
      }
    }
  }

  lemma StepKeepsClosed(s: State, op: Op, id: Id, status: T.Status)
    requires Sound(s) && HasStatus(s, id, status) && (status == T.Chargebacked || status == T.Canceled)
    ensures HasStatus(Apply(s, op), id, status)
  {
    StepMovesTxs(s, op);
    hide Sound, Apply;
    var i :| 0 <= i < |s.txs| && s.txs[i].id == id && s.txs[i].data.status == status;
    assert Apply(s, op).txs[i] == s.txs[i];
  }

  lemma KeysOf(s: State)
    requires Sound(s)
    ensures DistinctIds(s.txs)
  {
  }

  lemma ExecLast(ops: seq<Op>)
    requires ops != []
    ensures Exec(ops) == Apply(Exec(ops[..|ops|-1]), ops[|ops|-1])
  {
  }

  lemma {:induction false} ClosedStays(ops: seq<Op>, i: nat, id: Id, status: T.Status)
    requires i <= |ops| && HasStatus(Exec(ops[..i]), id, status) && (status == T.Chargebacked || status == T.Canceled)
    ensures HasStatus(Exec(ops), id, status)
    decreases |ops|
  {
    hide Exec, Sound, HasStatus;
    if i == |ops| {
      assert ops[..i] == ops;
    } else {
      var n := |ops| - 1;
      assert ops[..n][..i] == ops[..i];
      ClosedStays(ops[..n], i, id, status);
      RunSafe(ops[..n]);
      ExecLast(ops);
      StepKeepsClosed(Exec(ops[..n]), ops[n], id, status);
    }
  }

  // Once charged back, a sale never again has a scheduled or anticipated receivable,
  // whenever its captured event arrives.
  lemma ChargebackIsFinal(ops: seq<Op>, i: nat, id: Id)
    requires i <= |ops| && HasStatus(Exec(ops[..i]), id, T.Chargebacked)
    ensures forall r :: r in Exec(ops).rcvs && r.data.txId == id ==> !r.data.status.Scheduled? && !r.data.status.Anticipated?
  {
    ClosedStays(ops, i, id, T.Chargebacked);
    RunSafe(ops);
    var s := Exec(ops);
    var m :| 0 <= m < |s.txs| && s.txs[m].id == id && s.txs[m].data.status == T.Chargebacked;
    forall r | r in s.rcvs && r.data.txId == id
      ensures !r.data.status.Scheduled? && !r.data.status.Anticipated?
    {
      var j :| 0 <= j < |s.rcvs| && s.rcvs[j] == r;
      assert s.rcvs[j].data.txId == s.txs[m].id;
    }
  }

  // Once its canceled event is processed, a sale never again has a scheduled receivable.
  lemma CancellationIsFinal(ops: seq<Op>, i: nat, k: nat)
    requires i <= |ops| && IsDelivery(Exec(ops[..i]), k, TransactionCanceled)
    requires Exec(ops[..i]).outbox[k].id in Exec(ops[..i]).processed
    ensures forall r :: r in Exec(ops).rcvs && r.data.txId == Exec(ops[..i]).outbox[k].data.aggregate ==> !r.data.status.Scheduled?
  {
    RunGrows(ops, i);
    RunSafe(ops);
    var s := Exec(ops);
    assert s.outbox[k] == Exec(ops[..i]).outbox[k];
    forall r | r in s.rcvs && r.data.txId == s.outbox[k].data.aggregate
      ensures !r.data.status.Scheduled?
    {
      var j :| 0 <= j < |s.rcvs| && s.rcvs[j] == r;
      assert Says(s.outbox, k, TransactionCanceled, s.rcvs[j].data.txId);
    }
  }

  // ---- no double payment

  // Over a whole run a receivable is in at most one confirmed settlement and one anticipation:
  // records are never taken back, and the last state has at most one of each.
  lemma PaidAtMostOnce(ops: seq<Op>, i: nat, id: Id)
    requires i <= |ops|
    ensures Exec(ops[..i]).stls <= Exec(ops).stls && Exec(ops[..i]).ants <= Exec(ops).ants
    ensures var s := Exec(ops);
            && (forall m, n :: 0 <= m < |s.stls| && 0 <= n < |s.stls| && Lists(s.stls[m], id) && Lists(s.stls[n], id) ==> m == n)
            && (forall m, n :: 0 <= m < |s.ants| && 0 <= n < |s.ants| && Covers(s.ants[m], id) && Covers(s.ants[n], id) ==> m == n)
  {
    RunGrows(ops, i);
    RunSafe(ops);
    NeverPaidTwice(Exec(ops).rcvs, Exec(ops).ants, Exec(ops).stls, id);
  }

  // What a confirmed settlement pays out is the nets never anticipated; anticipated nets are only retained.
  lemma AnticipatedIsOnlyRetained(ops: seq<Op>, m: nat)
    requires m < |Exec(ops).stls| && Confirmed(Exec(ops).stls[m])
    ensures var s, x := Exec(ops), Exec(ops).stls[m];
            && x.data.toMerchant + x.data.toCreditors == Sum(s.rcvs, PaidOutBy(x.id))
            && x.data.retained == Sum(s.rcvs, RetainedBy(x.id))
            && forall j :: 0 <= j < |s.rcvs| ==> (s.rcvs[j].data.settlement == Some(x.id) <==> s.rcvs[j].id in x.data.receivableIds)
  {
    RunSafe(ops);
    assert Accounts(Exec(ops).rcvs, Exec(ops).stls[m]);
  }

  // ---- which agendas the ledger takes

  lemma {:induction false} AmountsArePositive(ops: seq<Op>)
    ensures forall tx :: tx in Exec(ops).txs ==> tx.data.amount > 0
  {
    hide Sound, Apply;
    if ops != [] {
      var before := ops[..|ops|-1];
      AmountsArePositive(before);
      RunSafe(before);
      StepMovesTxs(Exec(before), ops[|ops|-1]);
      var txs := Exec(before).txs;
      forall i | 0 <= i < |Exec(ops).txs|
        ensures Exec(ops).txs[i].data.amount > 0
      {
        assert i < |txs| ==> txs[i] in txs;
      }
    }
  }

  // Entries of receivables whose net is gross minus fee are balanced.
  lemma {:induction false} ScheduledIsBalanced(list: seq<R.Rcv>)
    requires forall i :: 0 <= i < |list| ==> list[i].data.net == list[i].data.gross - list[i].data.fee
    ensures L.Balanced(L.ForScheduled(list))
  {
    if list != [] {
      var n := |list| - 1;
      ScheduledIsBalanced(list[..n]);
      var before, es := L.ForScheduled(list[..n]), L.ForScheduledOne(list[n]);
      SumAppend(before, es, L.DebitOf());
      SumAppend(before, es, L.CreditOf());
      L.SumThree(es[0], es[1], es[2], L.DebitOf());
      L.SumThree(es[0], es[1], es[2], L.CreditOf());
    }
  }

  lemma {:induction false} ScheduledIsStorable(list: seq<R.Rcv>)
    requires forall i :: 0 <= i < |list| ==> list[i].data.gross >= 0 && list[i].data.fee >= 0 && list[i].data.net >= 0
    ensures forall i :: 0 <= i < |L.ForScheduled(list)| ==> L.Storable(L.ForScheduled(list)[i])
  {
    if list != [] {
      ScheduledIsStorable(list[..|list|-1]);
    }
  }

  // The first instalment carries the remainders of both splits; this is when it is not negative.
  predicate FirstNetFits(amount: int, fee: int, n: int)
    requires n >= 1
  {
    amount / n + amount % n >= fee / n + fee % n
  }

  lemma AgendaAmount(tx: T.Tx, plan: FeePlan, ids: nat -> Id, i: nat)
    requires Agenda(tx, plan, ids).Ok? && plan.Valid() && tx.data.amount > 0 && i < tx.data.installments
    ensures plan.MDR(tx.data.product, tx.data.installments).Ok? && |Agenda(tx, plan, ids).value| == tx.data.installments
    ensures var r := Agenda(tx, plan, ids).value[i].data;
            && r.gross >= 0 && r.fee >= 0 && r.net == r.gross - r.fee
            && (i > 0 ==> r.net >= 0)
            && (i == 0 ==> (r.net >= 0 <==>
                  FirstNetFits(tx.data.amount, ApplyBps(tx.data.amount, plan.MDR(tx.data.product, tx.data.installments).value), tx.data.installments)))
  {
    BrazilNeverClosedFiveDays();
    hide ApplyBps, BRAZIL, NeverClosedFiveDays;
    Schedules.ScheduleConserves(tx, plan, BRAZIL, ids);
    Schedules.ScheduleAmounts(tx, plan, BRAZIL, ids, i);
    hide Schedules.Schedule;
  }

  lemma AgendaAmounts(tx: T.Tx, plan: FeePlan, ids: nat -> Id)
    requires Agenda(tx, plan, ids).Ok? && plan.Valid() && tx.data.amount > 0
    ensures tx.data.installments >= 1 && plan.MDR(tx.data.product, tx.data.installments).Ok?
    ensures var list := Agenda(tx, plan, ids).value;
            && |list| == tx.data.installments
            && (forall i :: 0 <= i < |list| ==>
                  && list[i].data.gross >= 0 && list[i].data.fee >= 0 && list[i].data.net == list[i].data.gross - list[i].data.fee
                  && (i > 0 ==> list[i].data.net >= 0))
            && (list[0].data.net >= 0 <==>
                FirstNetFits(tx.data.amount, ApplyBps(tx.data.amount, plan.MDR(tx.data.product, tx.data.installments).value), tx.data.installments))
  {
    AgendaExists(tx, plan, ids);
    hide Agenda, ApplyBps, FirstNetFits;
    var list := Agenda(tx, plan, ids).value;
    forall i | 0 <= i < |list|
      ensures list[i].data.gross >= 0 && list[i].data.fee >= 0 && list[i].data.net == list[i].data.gross - list[i].data.fee
      ensures i > 0 ==> list[i].data.net >= 0
    {
      AgendaAmount(tx, plan, ids, i);
    }
    AgendaAmount(tx, plan, ids, 0);
  }

  // The ledger takes an agenda exactly when its first instalment is not negative.
  lemma LedgerTakesAgenda(ledger: seq<L.Entry>, tx: T.Tx, plan: FeePlan, ids: nat -> Id)
    requires Agenda(tx, plan, ids).Ok? && plan.Valid() && tx.data.amount > 0
    ensures tx.data.installments >= 1 && plan.MDR(tx.data.product, tx.data.installments).Ok?
    ensures L.Append(ledger, L.ForScheduled(Agenda(tx, plan, ids).value)).Ok? <==>
            FirstNetFits(tx.data.amount, ApplyBps(tx.data.amount, plan.MDR(tx.data.product, tx.data.installments).value), tx.data.installments)
  {
    var list := Agenda(tx, plan, ids).value;
    AgendaAmounts(tx, plan, ids);
    hide Agenda, FirstNetFits, ApplyBps, L.ForScheduled;
    ScheduledIsBalanced(list);
    if list[0].data.net >= 0 {
      ScheduledIsStorable(list);
    } else if L.Append(ledger, L.ForScheduled(list)).Ok? {
      StorableAmounts(list, 0);
    }
  }

  const TINY_PLAN := FeePlan(0, 0, map[12 := 9999], 0)

  function TinySale(merchant: Id): T.Tx {
    Row(1, 3, T.TxData(merchant, 12, Credit, 12, 0, T.Captured, Some(0), None))
  }

  lemma FirstInstalment(tx: T.Tx, plan: FeePlan, ids: nat -> Id)
    requires Agenda(tx, plan, ids).Ok?
    ensures tx.data.installments >= 1 && plan.MDR(tx.data.product, tx.data.installments).Ok?
    ensures |Agenda(tx, plan, ids).value| == tx.data.installments
    ensures var n, r := tx.data.installments, Agenda(tx, plan, ids).value[0].data;
            && r.gross == SplitParts(tx.data.amount, n)[0]
            && r.fee == SplitParts(ApplyBps(tx.data.amount, plan.MDR(tx.data.product, n).value), n)[0]
            && r.net == r.gross - r.fee && r.merchant == tx.data.merchant && r.status == R.Scheduled
    ensures tx.data.capturedAt.Some? && Agenda(tx, plan, ids).value[0].data.due == FirstDue(tx.data.product, tx.data.capturedAt.value)
  {
    BrazilNeverClosedFiveDays();
    hide ApplyBps, SplitParts;
  }

  ghost function FirstDue(product: Product, capturedAt: nat): nat {
    BrazilNeverClosedFiveDays();
    Schedules.DueDate(BRAZIL, product, DateOnly(capturedAt), 1)
  }

  lemma TinyAgenda(ids: nat -> Id, merchant: Id)
    ensures TINY_PLAN.Valid() && Agenda(TinySale(merchant), TINY_PLAN, ids).Ok?
    ensures |Agenda(TinySale(merchant), TINY_PLAN, ids).value| == 12
    ensures Agenda(TinySale(merchant), TINY_PLAN, ids).value[0].data.net == -10
  {
    hide ApplyBps, SplitParts, Agenda;
    SplitNetCanBeNegative();
    assert TINY_PLAN.MDR(Credit, 12) == Ok(9999);
    AgendaExists(TinySale(merchant), TINY_PLAN, ids);
    FirstInstalment(TinySale(merchant), TINY_PLAN, ids);
  }

  // A sale that the factory accepts and no ledger will take the agenda of: 12 cents in 12
  // instalments at 99.99 %, whose first net is ten cents below zero.
  lemma TinySaleIsRefused(ledger: seq<L.Entry>, ids: nat -> Id, merchant: Id)
    ensures T.New(1, merchant, true, TINY_PLAN, 12, Credit, 12, 0).Ok?
    ensures Agenda(TinySale(merchant), TINY_PLAN, ids).Ok?
    ensures L.Append(ledger, L.ForScheduled(Agenda(TinySale(merchant), TINY_PLAN, ids).value)) == Err(CheckViolation)
  {
    TinyAgenda(ids, merchant);
    AgendaAmounts(TinySale(merchant), TINY_PLAN, ids);
    assert TINY_PLAN.MDR(Credit, 12).Ok?;
    hide Agenda, FirstNetFits, L.ForScheduled;
    var list := Agenda(TinySale(merchant), TINY_PLAN, ids).value;
    ScheduledIsBalanced(list);
    if L.Append(ledger, L.ForScheduled(list)).Ok? {
      StorableAmounts(list, 0);
    }
  }

  // The instalments' generated ids are new and all different.
  ghost predicate NewIdsFor(rcvs: seq<R.Rcv>, ids: nat -> Id, n: int) {
    && (forall k: nat :: 1 <= k <= n ==> !HasId(rcvs, ids(k)))
    && (forall k: nat, l: nat :: 1 <= k < l <= n ==> ids(k) != ids(l))
  }

  lemma {:induction false} InsertAllExactly(rcvs: seq<R.Rcv>, list: seq<R.Rcv>)
    ensures InsertAll(rcvs, list).Ok? <==>
            (forall i :: 0 <= i < |list| ==> !HasId(rcvs, list[i].id)) && (forall i, j :: 0 <= i < j < |list| ==> list[i].id != list[j].id)
  {
    if list != [] {
      var n := |list| - 1;
      InsertAllExactly(rcvs, list[..n]);
      InsertAllAppends(rcvs, list[..n]);
      if InsertAll(rcvs, list[..n]).Ok? {
        var t := rcvs + list[..n];
        assert HasId(t, list[n].id) <==> HasId(rcvs, list[n].id) || exists i :: 0 <= i < n && list[i].id == list[n].id by {
          HasIdOfBoth(rcvs, list[..n], list[n].id);
        }
      }
    }
  }

  lemma HasIdOfBoth(a: seq<R.Rcv>, b: seq<R.Rcv>, id: Id)
    ensures HasId(a + b, id) <==> HasId(a, id) || exists i :: 0 <= i < |b| && b[i].id == id
  {
    if HasId(a, id) {
      var i :| 0 <= i < |a| && a[i].id == id;
      assert (a + b)[i].id == id;
    }
    if i :| 0 <= i < |b| && b[i].id == id {
      assert (a + b)[|a| + i].id == id;
    }
  }

  // The first delivery of a captured event succeeds exactly when the sale is still captured,
  // the merchant's plan still has a rate for it, the generated ids are new, and the first
  // instalment's share of the fee does not exceed its share of the amount.
  lemma AgendaPostedExactly(ops: seq<Op>, op: Op, tx: T.Tx, plan: FeePlan)
    requires op.OnCaptured? && Enabled(Exec(ops), op) && Exec(ops).outbox[op.k].id !in Exec(ops).processed
    requires FindTx(Exec(ops), Exec(ops).outbox[op.k].data.merchant, Exec(ops).outbox[op.k].data.aggregate) == Ok(tx)
    requires op.merchantPlan == Some(plan)
    ensures var s, n := Exec(ops), tx.data.installments;
            CapturedHandler(s, op).Ok? <==>
              && tx.data.status == T.Captured && plan.MDR(tx.data.product, n).Ok?
              && NewIdsFor(s.rcvs, op.ids, n) && !HasId(s.outbox, op.eid)
              && n >= 1 && FirstNetFits(tx.data.amount, ApplyBps(tx.data.amount, plan.MDR(tx.data.product, n).value), n)
  {
    var s, n := Exec(ops), tx.data.installments;
    RunSafe(ops);
    AmountsArePositive(ops);
    CapturedHasTime(s, op.k, tx);
    hide Exec, Sound, Closed, L.Append, L.ForScheduled, InsertAll, FirstNetFits, ApplyBps, Agenda, StoreAgenda;
    AgendaExists(tx, plan, op.ids);
    if tx.data.status == T.Captured && plan.MDR(tx.data.product, n).Ok? {
      AgendaStoredExactly(s.(processed := s.processed + {s.outbox[op.k].id}), tx, plan, op.ids,
                          NewEvent(op.eid, ReceivablesScheduled, tx.id, tx.data.merchant));
    }
  }

  // A captured sale has an agenda exactly when the plan has a rate for it.
  lemma AgendaExists(tx: T.Tx, plan: FeePlan, ids: nat -> Id)
    ensures Agenda(tx, plan, ids).Ok? <==>
            tx.data.status == T.Captured && tx.data.capturedAt.Some? && plan.MDR(tx.data.product, tx.data.installments).Ok?
    ensures Agenda(tx, plan, ids).Ok? ==>
              && |Agenda(tx, plan, ids).value| == tx.data.installments
              && forall i :: 0 <= i < tx.data.installments ==> Agenda(tx, plan, ids).value[i].id == ids(i + 1)
  {
    BrazilNeverClosedFiveDays();
    if Agenda(tx, plan, ids).Ok? {
      Schedules.ScheduleConserves(tx, plan, BRAZIL, ids);
    }
  }

  lemma AgendaStoredExactly(s: State, tx: T.Tx, plan: FeePlan, ids: nat -> Id, e: Event)
    requires Agenda(tx, plan, ids).Ok? && plan.Valid() && tx.data.amount > 0
    ensures tx.data.installments >= 1 && plan.MDR(tx.data.product, tx.data.installments).Ok?
    ensures StoreAgenda(s, Agenda(tx, plan, ids).value, e).Ok? <==>
              && NewIdsFor(s.rcvs, ids, tx.data.installments) && !HasId(s.outbox, e.id)
              && FirstNetFits(tx.data.amount, ApplyBps(tx.data.amount, plan.MDR(tx.data.product, tx.data.installments).value), tx.data.installments)
  {
    var list := Agenda(tx, plan, ids).value;
    LedgerTakesAgenda(s.ledger, tx, plan, ids);
    AgendaExists(tx, plan, ids);
    hide Agenda, FirstNetFits, ApplyBps, L.Append, L.ForScheduled, InsertAll, NewIdsFor;
    InsertAllExactly(s.rcvs, list);
    IdsOfList(s.rcvs, list, ids);
    OneEvent(s.outbox, e);
  }

  lemma IdsOfList(rcvs: seq<R.Rcv>, list: seq<R.Rcv>, ids: nat -> Id)
    requires forall i :: 0 <= i < |list| ==> list[i].id == ids(i + 1)
    ensures NewIdsFor(rcvs, ids, |list|) <==>
            (forall i :: 0 <= i < |list| ==> !HasId(rcvs, list[i].id)) && (forall i, j :: 0 <= i < j < |list| ==> list[i].id != list[j].id)
  {
    forall k: nat | 1 <= k <= |list|
      ensures list[k-1].id == ids(k)
    {
    }
  }

  lemma CapturedHasTime(s: State, k: nat, tx: T.Tx)
    requires Sound(s) && IsDelivery(s, k, TransactionCaptured) && tx in s.txs && tx.id == s.outbox[k].data.aggregate
    ensures tx.data.capturedAt.Some?
  {
    var i :| 0 <= i < |s.txs| && s.txs[i] == tx;
    assert Says(s.outbox, k, TransactionCaptured, s.txs[i].id);
  }
}
