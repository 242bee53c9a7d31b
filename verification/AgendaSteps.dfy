/** What the delivery of a captured event does, exactly, and where every receivable of a run comes from. */
module AgendaSteps {
  import opened Results
  import opened Tables
  import opened Events
  import opened FeePlans
  import opened Money
  import opened Calendar
  import opened Schedules
  import T = Transactions
  import R = Receivables
  import L = Ledger
  import opened Acquirer
  import opened Agendas
  import opened Safety
  import opened Theorems
  import opened SaleSteps

  // The entries of an agenda: for every receivable the issuer's debt, the merchant's net and the fee.
  function AgendaEntries(list: seq<R.Rcv>): seq<L.Entry> {
    if list == [] then []
    else
      var r := list[|list|-1];
      AgendaEntries(list[..|list|-1])
      + [L.Entry(L.ReceivableFromIssuer, r.data.merchant, r.data.gross, 0, L.OfReceivable, r.id),
         L.Entry(L.PayableToMerchant, r.data.merchant, 0, r.data.net, L.OfReceivable, r.id),
         L.Entry(L.RevenueFees, r.data.merchant, 0, r.data.fee, L.OfReceivable, r.id)]
  }

  lemma {:induction false} EntriesOfAgenda(list: seq<R.Rcv>)
    ensures L.ForScheduled(list) == AgendaEntries(list)
  {
    if list != [] {
      EntriesOfAgenda(list[..|list|-1]);
    }
  }

  lemma {:induction false} InsertFails<D>(t: seq<Row<D>>, rows: seq<Row<D>>)
    ensures InsertAll(t, rows).Err? ==> InsertAll(t, rows) == Err(DuplicateKey)
  {
    if rows != [] {
      InsertFails(t, rows[..|rows|-1]);
    }
  }

  // The agenda of this sale under this plan with these ids, every column of it.
  ghost predicate IsAgenda(list: seq<R.Rcv>, tx: T.Tx, rate: int, ids: nat -> Id)
    requires tx.data.installments > 0 && tx.data.capturedAt.Some?
  {
    |list| == tx.data.installments && forall k: nat :: 1 <= k <= tx.data.installments ==> IsInstalmentOf(list[k-1], tx, rate, BRAZIL, ids(k), k)
  }

  // The first instalment holds the remainders of both splits, and can fall below zero.
  predicate FirstIsNegative(amount: int, rate: int, n: int)
    requires n > 0
  {
    PartOf(amount, n, 1) < PartOf(amount * rate / 10000, n, 1)
  }

  lemma FirstNet(tx: T.Tx, plan: FeePlan)
    requires plan.Valid() && tx.data.amount > 0 && Rate(plan, tx.data.product, tx.data.installments).Some?
    ensures tx.data.installments > 0 && plan.MDR(tx.data.product, tx.data.installments).Ok?
    ensures var n, rate := tx.data.installments, Rate(plan, tx.data.product, tx.data.installments).value;
            FirstIsNegative(tx.data.amount, rate, n) <==>
            !FirstNetFits(tx.data.amount, ApplyBps(tx.data.amount, plan.MDR(tx.data.product, n).value), n)
  {
    RateInRange(plan, tx.data.product, tx.data.installments);
    FeeIsQuotient(tx.data.amount, Rate(plan, tx.data.product, tx.data.installments).value);
    hide ApplyBps;
  }

  lemma AgendaAtRate(tx: T.Tx, plan: FeePlan, ids: nat -> Id) returns (list: seq<R.Rcv>)
    requires plan.Valid() && tx.data.amount > 0 && tx.data.status == T.Captured && tx.data.capturedAt.Some?
    requires Rate(plan, tx.data.product, tx.data.installments).Some?
    ensures Agenda(tx, plan, ids) == Ok(list) && tx.data.installments > 0
    ensures IsAgenda(list, tx, Rate(plan, tx.data.product, tx.data.installments).value, ids)
  {
    BrazilNeverClosedFiveDays();
    ScheduledExactly(tx, plan, BRAZIL, ids);
    list := Agenda(tx, plan, ids).value;
    hide *;
  }

  lemma NoAgenda(tx: T.Tx, plan: FeePlan, ids: nat -> Id)
    requires plan.Valid() && tx.data.amount > 0
    ensures tx.data.status != T.Captured || tx.data.capturedAt == None ==> Agenda(tx, plan, ids) == Err(NotCaptured)
    ensures tx.data.status == T.Captured && tx.data.capturedAt != None && Rate(plan, tx.data.product, tx.data.installments) == None ==>
              Agenda(tx, plan, ids) == Err(InstallmentsNotAllowed)
  {
    BrazilNeverClosedFiveDays();
    ScheduledExactly(tx, plan, BRAZIL, ids);
  }

  // Storing an agenda: the ids, then the ledger's CHECK, then the event's id.
  lemma StoredExactly(s: State, tx: T.Tx, plan: FeePlan, ids: nat -> Id, list: seq<R.Rcv>, e: Event)
    requires plan.Valid() && tx.data.amount > 0 && Agenda(tx, plan, ids) == Ok(list) && Rate(plan, tx.data.product, tx.data.installments).Some?
    requires tx.data.installments > 0
    ensures StoreAgenda(s, list, e) ==
            if !NewIdsFor(s.rcvs, ids, tx.data.installments) then Err(DuplicateKey)
            else if FirstIsNegative(tx.data.amount, Rate(plan, tx.data.product, tx.data.installments).value, tx.data.installments) then Err(CheckViolation)
            else if HasId(s.outbox, e.id) then Err(DuplicateKey)
            else Ok(s.(rcvs := s.rcvs + list, ledger := s.ledger + AgendaEntries(list), outbox := s.outbox + [e]))
  {
    FirstNet(tx, plan);
    LedgerTakesAgenda(s.ledger, tx, plan, ids);
    AgendaExists(tx, plan, ids);
    AgendaAmounts(tx, plan, ids);
    hide Agenda, FirstNetFits, FirstIsNegative, ApplyBps, Rate, NewIdsFor, InsertAll, HasId, L.ForScheduled, AgendaEntries;
    ScheduledIsBalanced(list);
    InsertAllExactly(s.rcvs, list);
    InsertAllAppends(s.rcvs, list);
    InsertFails(s.rcvs, list);
    IdsOfList(s.rcvs, list, ids);
    OneEvent(s.outbox, e);
    EntriesOfAgenda(list);
  }

  // A delivery of a captured event, exactly. One that is not new changes nothing. Otherwise the sale must be there, and
  // its merchant; it must be captured; the plan must have a rate; the ids must be new; the first net must not be
  // negative. Then the whole agenda, its entries, its event and the mark are written.
  lemma DeliveredExactly(ops: seq<Op>, op: Op)
    requires op.OnCaptured? && Enabled(Exec(ops), op)
    ensures var s, ev := Exec(ops), Exec(ops).outbox[op.k];
            && (ev.id in s.processed ==> Step(s, op) == Ok(s))
            && (ev.id !in s.processed && (op.merchantPlan == None || forall i :: !IsSale(s, i, ev.data.merchant, ev.data.aggregate)) ==>
                  Step(s, op) == Err(NotFound))
            && (forall i :: ev.id !in s.processed && op.merchantPlan.Some? && IsSale(s, i, ev.data.merchant, ev.data.aggregate) ==>
                  DeliveredFor(s, op, s.txs[i], op.merchantPlan.value))
  {
    var s, ev := Exec(ops), Exec(ops).outbox[op.k];
    RunSafe(ops);
    InvSound(s);
    AmountsArePositive(ops);
    KeysOf(s);
    FoundExactly(s, ev.data.merchant, ev.data.aggregate);
    HandlerFinds(s, op);
    forall i | ev.id !in s.processed && op.merchantPlan.Some? && IsSale(s, i, ev.data.merchant, ev.data.aggregate)
      ensures DeliveredFor(s, op, s.txs[i], op.merchantPlan.value)
    {
      CapturedHasTime(s, op.k, s.txs[i]);
      DeliveredTo(s, op, s.txs[i], op.merchantPlan.value);
    }
  }

  lemma HandlerFinds(s: State, op: Op)
    requires op.OnCaptured? && Enabled(s, op)
    ensures var ev := s.outbox[op.k];
            && (ev.id in s.processed ==> Step(s, op) == Ok(s))
            && (ev.id !in s.processed && (op.merchantPlan == None || FindTx(s, ev.data.merchant, ev.data.aggregate) == Err(NotFound)) ==>
                  Step(s, op) == Err(NotFound))
  {
    hide Agenda, StoreAgenda;
  }

  ghost predicate DeliveredFor(s: State, op: Op, tx: T.Tx, plan: FeePlan)
    requires op.OnCaptured? && Enabled(s, op)
  {
    var ev, n, rate := s.outbox[op.k], tx.data.installments, Rate(plan, tx.data.product, tx.data.installments);
    && (tx.data.status != T.Captured ==> Step(s, op) == Err(NotCaptured))
    && (tx.data.status == T.Captured && rate == None ==> Step(s, op) == Err(InstallmentsNotAllowed))
    && (tx.data.status == T.Captured && rate.Some? ==>
          && n > 0 && tx.data.capturedAt.Some?
          && exists list :: IsAgenda(list, tx, rate.value, op.ids) &&
               Step(s, op) ==
               if !NewIdsFor(s.rcvs, op.ids, n) then Err(DuplicateKey)
               else if FirstIsNegative(tx.data.amount, rate.value, n) then Err(CheckViolation)
               else if HasId(s.outbox, op.eid) then Err(DuplicateKey)
               else Ok(s.(rcvs := s.rcvs + list, ledger := s.ledger + AgendaEntries(list), processed := s.processed + {ev.id},
                          outbox := s.outbox + [Row(op.eid, 1, EventData(ReceivablesScheduled, tx.id, tx.data.merchant))])))
  }

  lemma DeliveredTo(s: State, op: Op, tx: T.Tx, plan: FeePlan)
    requires op.OnCaptured? && Enabled(s, op) && s.outbox[op.k].id !in s.processed && op.merchantPlan == Some(plan)
    requires FindTx(s, s.outbox[op.k].data.merchant, s.outbox[op.k].data.aggregate) == Ok(tx)
    requires tx.data.amount > 0 && tx.data.capturedAt.Some?
    ensures DeliveredFor(s, op, tx, plan)
  {
    hide Agenda, StoreAgenda, FindTx, FirstIsNegative, Rate, NewIdsFor, IsAgenda, HasId, AgendaEntries;
    NoAgenda(tx, plan, op.ids);
    if tx.data.status == T.Captured && Rate(plan, tx.data.product, tx.data.installments).Some? {
      var list := AgendaAtRate(tx, plan, op.ids);
      StoredExactly(s.(processed := s.processed + {s.outbox[op.k].id}), tx, plan, op.ids, list, NewEvent(op.eid, ReceivablesScheduled, tx.id, tx.data.merchant));
    }
  }

  // ---- over runs

  // A receivable's agenda entry: everything but version, status and links.
  predicate SameButStatus(r: R.Rcv, x: R.Rcv) {
    r.id == x.id && r.data == x.data.(status := r.data.status, settlement := r.data.settlement, anticipation := r.data.anticipation)
  }

  lemma AgendaRow(rcvs: seq<R.Rcv>, list: seq<R.Rcv>, r: R.Rcv) returns (j: nat)
    requires r in rcvs && SameFrozen(AgendaOf(rcvs, r.data.txId), list)
    ensures j < |list| && SameButStatus(r, list[j])
  {
    var rows := AgendaOf(rcvs, r.data.txId);
    WhereMember(rcvs, R.OfTransaction(r.data.txId), r);
    var i :| 0 <= i < |rows| && rows[i] == r;
    j := i;
    assert R.Frozen(rows[j]) == R.Frozen(list[j]);
  }

  lemma PostingOf(s: State, op: Op, txId: Id, rows: seq<R.Rcv>) returns (i: nat, plan: FeePlan)
    requires Sound(s) && IsPosting(s, op, txId, rows)
    ensures op.OnCaptured? && op.merchantPlan == Some(plan) && plan.Valid() && i < |s.txs| && s.txs[i].id == txId
    ensures Agenda(s.txs[i], plan, op.ids).Ok? && SameFrozen(rows, Agenda(s.txs[i], plan, op.ids).value)
  {
    hide Sound, Agenda, CapturedHandler, SameFrozen;
    i, plan := Find(s.txs, txId), op.merchantPlan.value;
  }

  // In every run every receivable is, but for its status and links, an instalment of its sale, computed at the
  // rate of the plan of one delivery m, from the instant at which step n of the run captured the sale.
  lemma RowOfCapture(ops: seq<Op>, r: R.Rcv) returns (n: nat, m: nat, tx: T.Tx, rate: int, x: R.Rcv)
    requires r in Exec(ops).rcvs
    ensures m < |ops| && ops[m].OnCaptured? && ops[m].merchantPlan.Some? && tx in Exec(ops[..m]).txs && tx.id == r.data.txId
    ensures n < m && tx.data.capturedAt.Some? && CapturesAt(Exec(ops[..n]), ops[n], r.data.txId, tx.data.capturedAt.value)
    ensures Rate(ops[m].merchantPlan.value, tx.data.product, tx.data.installments) == Some(rate)
    ensures 1 <= r.data.no <= tx.data.installments && IsInstalmentOf(x, tx, rate, BRAZIL, r.id, r.data.no) && SameButStatus(r, x)
  {
    var rows := AgendaOf(Exec(ops).rcvs, r.data.txId);
    WhereMember(Exec(ops).rcvs, R.OfTransaction(r.data.txId), r);
    m := AgendaOfDelivery(ops, r.data.txId);
    var s, op := Exec(ops[..m]), ops[m];
    RunSafe(ops[..m]);
    InvSound(s);
    AmountsArePositive(ops[..m]);
    var i, plan := PostingOf(s, op, r.data.txId, rows);
    tx := s.txs[i];
    hide Exec, IsPosting, Sound, Inv, AgendaOf, Agenda, CapturesAt;
    AgendaIsOfCaptured(tx, plan, op.ids);
    var list := AgendaAtRate(tx, plan, op.ids);
    rate := Rate(plan, tx.data.product, tx.data.installments).value;
    n := CapturedByStep(ops[..m], i, tx.data.capturedAt.value);
    assert ops[..m][..n] == ops[..n];
    var j := AgendaRow(Exec(ops).rcvs, list, r);
    x := list[j];
    assert IsInstalmentOf(list[j + 1 - 1], tx, rate, BRAZIL, op.ids(j + 1), j + 1);
  }

  lemma AgendaIsOfCaptured(tx: T.Tx, plan: FeePlan, ids: nat -> Id)
    requires Agenda(tx, plan, ids).Ok? && plan.Valid() && tx.data.amount > 0
    ensures tx.data.status == T.Captured && tx.data.capturedAt.Some? && Rate(plan, tx.data.product, tx.data.installments).Some?
  {
    NoAgenda(tx, plan, ids);
    hide Agenda;
  }

  // So every receivable falls due on a business day: on credit the first one from 30 days an instalment after the day
  // of the capture on, at most four days later; on debit the first one after that day.
  lemma DueOfCapture(ops: seq<Op>, r: R.Rcv) returns (n: nat)
    requires r in Exec(ops).rcvs
    ensures n < |ops| && ops[n].Capture? && ops[n].id == r.data.txId && Step(Exec(ops[..n]), ops[n]).Ok?
    ensures var day := ops[n].now / 86400;
            && BRAZIL(r.data.due)
            && (r.data.product.Credit? ==> day + 30 * r.data.no <= r.data.due <= day + 30 * r.data.no + 4
                                           && forall d :: day + 30 * r.data.no <= d < r.data.due ==> !BRAZIL(d))
            && (r.data.product.Debit? ==> day < r.data.due <= day + 5 && forall d :: day < d < r.data.due ==> !BRAZIL(d))
  {
    var m, tx, rate, x;
    n, m, tx, rate, x := RowOfCapture(ops, r);
    BrazilNeverClosedFiveDays();
    hide Exec, Step, BRAZIL, Rate;
    var day := ops[n].now / 86400;
    assert OpensWithinFive(BRAZIL, if r.data.product.Debit? then day + 1 else day + 30 * r.data.no);
  }
}
