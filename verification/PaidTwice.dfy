/** The bank pays twice: a batch has paid a lot and the tables do not keep it, three ways, and the day runs again. */
module PaidTwice {
  import opened Results
  import opened Tables
  import opened Events
  import opened FeePlans
  import T = Transactions
  import R = Receivables
  import L = Ledger
  import opened Acquirer
  import opened Safety
  import opened Theorems
  import opened DueRows
  import opened Batches
  import opened BankLog
  import opened LateRead

  function SaleOf(m: Id, status: T.Status, version: nat, capturedAt: Option<nat>): T.Tx {
    Row(m, version, T.TxData(m, 100, Debit, 1, 0, status, capturedAt, None))
  }

  // Sale m of merchant m, its capture at time 0, and the delivery of event k of the outbox.
  function SellOf(m: Id): Op { Authorize(m, m, true, FREE, 100, Debit, 1, 0, true, 10 * m + 1) }

  function CaptureOf(m: Id): Op { Capture(m, m, 0, 10 * m + 2) }

  function DeliverOf(m: Id, k: nat): Op { OnCaptured(k, Some(FREE), (i: nat) => m, 10 * m + 3) }

  lemma Sells(s: State, m: Id)
    requires !HasId(s.txs, m) && !HasId(s.outbox, 10 * m + 1)
    ensures Apply(s, SellOf(m)) == s.(txs := s.txs + [SaleOf(m, T.Authorized, 2, None)],
                                      outbox := s.outbox + [NewEvent(10 * m + 1, TransactionAuthorized, m, m)])
  {
    OneEvent(s.outbox, NewEvent(10 * m + 1, TransactionAuthorized, m, m));
    hide InsertAll;
  }

  lemma Captures(s: State, m: Id, i: nat)
    requires DistinctIds(s.txs) && i < |s.txs| && s.txs[i] == SaleOf(m, T.Authorized, 2, None) && !HasId(s.outbox, 10 * m + 2)
    ensures Apply(s, CaptureOf(m)) == s.(txs := s.txs[i := SaleOf(m, T.Captured, 3, Some(0))],
                                         outbox := s.outbox + [NewEvent(10 * m + 2, TransactionCaptured, m, m)])
  {
    OneEvent(s.outbox, NewEvent(10 * m + 2, TransactionCaptured, m, m));
    UpdateFound(s.txs, i, SaleOf(m, T.Captured, 3, Some(0)));
    FindAt(s.txs, i);
    hide InsertAll, Update, Find;
  }

  ghost predicate IsInstalment(r: R.Rcv, m: Id) {
    && r.id == m && r.data.merchant == m && r.data.status == R.Scheduled && r.data.due == FirstDue(Debit, 0)
    && r.data.gross == 100 && r.data.fee == 0 && r.data.net == 100
  }

  lemma AgendaOfSale(m: Id, ids: nat -> Id) returns (r: R.Rcv)
    requires ids(1) == m
    ensures Agenda(SaleOf(m, T.Captured, 3, Some(0)), FREE, ids) == Ok([r]) && IsInstalment(r, m)
  {
    hide Agenda, FirstDue;
    var tx := SaleOf(m, T.Captured, 3, Some(0));
    OneInstalmentOf(tx, FREE, ids);
    var list := Agenda(tx, FREE, ids).value;
    r := list[0];
    assert list == [r];
    assert r.data.due == FirstDue(Debit, 0);
    assert r.id == m && r.data.merchant == m && r.data.status == R.Scheduled;
    assert r.data.gross == 100 && r.data.fee == 0 && r.data.net == 100;
  }

  lemma Delivers(s: State, op: Op, m: Id, eventId: Id, i: nat) returns (r: R.Rcv, ledger: seq<L.Entry>)
    requires op.OnCaptured? && op.merchantPlan == Some(FREE) && op.ids(1) == m
    requires DistinctIds(s.txs) && i < |s.txs| && s.txs[i] == SaleOf(m, T.Captured, 3, Some(0))
    requires op.k < |s.outbox| && s.outbox[op.k] == NewEvent(eventId, TransactionCaptured, m, m) && eventId !in s.processed
    requires !HasId(s.rcvs, m) && !HasId(s.outbox, op.eid)
    ensures IsInstalment(r, m)
    ensures Apply(s, op) == s.(processed := s.processed + {eventId}).(rcvs := s.rcvs + [r], ledger := ledger,
                                                                      outbox := s.outbox + [NewEvent(op.eid, ReceivablesScheduled, m, m)])
  {
    hide Agenda, StoreAgenda, IsInstalment, FirstDue, Apply, Find;
    r := AgendaOfSale(m, op.ids);
    assert r.id == m && r.data.gross == r.data.net == 100 && r.data.fee == 0 by { InstalmentAmounts(r, m); }
    ledger := StoresInstalment(s.(processed := s.processed + {eventId}), r, NewEvent(op.eid, ReceivablesScheduled, m, m));
    FindsSale(s, m, i);
    FreeIsValid();
    Handles(s, op, SaleOf(m, T.Captured, 3, Some(0)), [r]);
  }

  lemma FreeIsValid()
    ensures FREE.Valid()
  {
  }

  lemma FindsSale(s: State, m: Id, i: nat)
    requires DistinctIds(s.txs) && i < |s.txs| && s.txs[i] == SaleOf(m, T.Captured, 3, Some(0))
    ensures FindTx(s, m, m) == Ok(s.txs[i])
  {
    FindAt(s.txs, i);
  }

  // The handler of a new event, given what it finds and computes.
  lemma Handles(s: State, op: Op, tx: T.Tx, list: seq<R.Rcv>)
    requires op.OnCaptured? && Enabled(s, op) && s.outbox[op.k].id !in s.processed && op.merchantPlan.Some?
    requires FindTx(s, s.outbox[op.k].data.merchant, s.outbox[op.k].data.aggregate) == Ok(tx)
    requires Agenda(tx, op.merchantPlan.value, op.ids) == Ok(list)
    requires StoreAgenda(s.(processed := s.processed + {s.outbox[op.k].id}), list, NewEvent(op.eid, ReceivablesScheduled, tx.id, tx.data.merchant)).Ok?
    ensures Ok(Apply(s, op)) == StoreAgenda(s.(processed := s.processed + {s.outbox[op.k].id}), list,
                                            NewEvent(op.eid, ReceivablesScheduled, tx.id, tx.data.merchant))
  {
    hide Agenda, StoreAgenda, FindTx;
  }

  lemma InstalmentAmounts(r: R.Rcv, m: Id)
    requires IsInstalment(r, m)
    ensures r.id == m && r.data.gross == r.data.net == 100 && r.data.fee == 0
  {
  }

  lemma StoresInstalment(s: State, r: R.Rcv, e: Event) returns (ledger: seq<L.Entry>)
    requires r.data.gross == r.data.net >= 0 && r.data.fee == 0 && !HasId(s.rcvs, r.id) && !HasId(s.outbox, e.id)
    ensures StoreAgenda(s, [r], e) == Ok(s.(rcvs := s.rcvs + [r], ledger := ledger, outbox := s.outbox + [e]))
  {
    InsertOne(s.rcvs, r);
    assert [r][..0] == [] && L.ForScheduled([r][..0]) == [];
    OneEvent(s.outbox, e);
    var es := L.ForScheduled([r]);
    assert es == L.ForScheduledOne(r);
    L.SumThree(es[0], es[1], es[2], L.DebitOf());
    L.SumThree(es[0], es[1], es[2], L.CreditOf());
    ledger := s.ledger + es;
  }

  // Two merchants have one receivable each, due on the same day; ids from n on are new.
  ghost predicate TwoDue(s: State, n: nat) {
    |s.rcvs| == 2 && IsInstalment(s.rcvs[0], 1) && IsInstalment(s.rcvs[1], 2) && Below(s.stls, n) && Below(s.outbox, n)
  }

  ghost predicate Below<D>(t: seq<Row<D>>, n: nat) {
    forall k :: 0 <= k < |t| ==> t[k].id < n
  }

  const TWO_SALES := [SellOf(1), CaptureOf(1), SellOf(2), CaptureOf(2)]
  const TWO_AGENDAS := TWO_SALES + [DeliverOf(1, 1)] + [DeliverOf(2, 3)]

  const EVENTS := [NewEvent(11, TransactionAuthorized, 1, 1), NewEvent(12, TransactionCaptured, 1, 1),
                   NewEvent(21, TransactionAuthorized, 2, 2), NewEvent(22, TransactionCaptured, 2, 2)]

  lemma AfterSales()
    ensures Exec(TWO_SALES) == Init().(txs := [SaleOf(1, T.Captured, 3, Some(0)), SaleOf(2, T.Captured, 3, Some(0))], outbox := EVENTS)
  {
    hide Apply;
    var s0 := Init();
    var s1 := Init().(txs := [SaleOf(1, T.Authorized, 2, None)], outbox := [EVENTS[0]]);
    var s2 := Init().(txs := [SaleOf(1, T.Captured, 3, Some(0))], outbox := [EVENTS[0], EVENTS[1]]);
    var s3 := Init().(txs := [SaleOf(1, T.Captured, 3, Some(0)), SaleOf(2, T.Authorized, 2, None)], outbox := [EVENTS[0], EVENTS[1], EVENTS[2]]);
    Sells(s0, 1);
    Captures(s1, 1, 0);
    Sells(s2, 2);
    Captures(s3, 2, 1);
    assert s1.outbox + [EVENTS[1]] == s2.outbox && s2.outbox + [EVENTS[2]] == s3.outbox && s3.outbox + [EVENTS[3]] == EVENTS;
    assert s0.outbox + [EVENTS[0]] == s1.outbox && s0.txs + [SaleOf(1, T.Authorized, 2, None)] == s1.txs;
    assert s1.txs[0 := SaleOf(1, T.Captured, 3, Some(0))] == s2.txs && s2.txs + [SaleOf(2, T.Authorized, 2, None)] == s3.txs;
    assert s3.txs[1 := SaleOf(2, T.Captured, 3, Some(0))] == [SaleOf(1, T.Captured, 3, Some(0)), SaleOf(2, T.Captured, 3, Some(0))];
    FourSteps(SellOf(1), CaptureOf(1), SellOf(2), CaptureOf(2));
  }

  lemma FourSteps(a: Op, b: Op, c: Op, d: Op)
    ensures Exec([a, b, c, d]) == Apply(Apply(Apply(Apply(Init(), a), b), c), d)
  {
    hide Apply;
    ExecNext([], a);
    assert [] + [a] == [a];
    ExecNext([a], b);
    assert [a] + [b] == [a, b];
    ExecNext([a, b], c);
    assert [a, b] + [c] == [a, b, c];
    ExecNext([a, b, c], d);
    assert [a, b, c] + [d] == [a, b, c, d];
  }

  lemma AfterAgendas()
    ensures TwoDue(Exec(TWO_AGENDAS), 50)
  {
    AfterSales();
    hide Apply, IsInstalment, FirstDue, Exec;
    var s := Exec(TWO_SALES);
    var r, ledger := Delivers(s, DeliverOf(1, 1), 1, 12, 0);
    ExecNext(TWO_SALES, DeliverOf(1, 1));
    var s' := Exec(TWO_SALES + [DeliverOf(1, 1)]);
    IdOfInstalment(r, 1);
    assert s'.rcvs == [r] && s'.outbox == EVENTS + [NewEvent(13, ReceivablesScheduled, 1, 1)];
    var r2, ledger2 := Delivers(s', DeliverOf(2, 3), 2, 22, 1);
    ExecNext(TWO_SALES + [DeliverOf(1, 1)], DeliverOf(2, 3));
    var s2 := Exec(TWO_AGENDAS);
    assert s2.rcvs == [r] + [r2] && s2.outbox == EVENTS + [NewEvent(13, ReceivablesScheduled, 1, 1)] + [NewEvent(23, ReceivablesScheduled, 2, 2)];
  }

  lemma IdOfInstalment(r: R.Rcv, m: Id)
    requires IsInstalment(r, m)
    ensures r.id == m
  {
  }

  // The lot of merchant m when all goes well; n and n + 1 are its new ids.
  function GoodLot(m: Id, n: Id): Lot { Lot(m, true, Some([]), true, false, true, true, n, n + 1) }

  // The registry does not answer for the second merchant.
  const REGISTRY_DOWN := [GoodLot(1, 50), GoodLot(2, 52).(liens := None)]

  // One merchant alone, and nothing wrong until the COMMIT.
  const ONE_LOT := [GoodLot(1, 50)]

  // The bank has paid and reports that it has not.
  const SILENT := [GoodLot(1, 50).(accepted := false, delivered := true)]

  // The day runs again, and all answer.
  const AGAIN := [GoodLot(1, 60), GoodLot(2, 62)]

  // A batch of the first receivables, one lot for each.
  ghost function BatchOf(s: State, lots: seq<Lot>, commits: bool): Op
    requires |lots| <= |s.rcvs|
  {
    SettleBatch(FirstDue(Debit, 0), |lots|, s.rcvs[..|lots|], lots, commits)
  }

  // Lots of merchants 1 and 2, or of merchant 1 alone, that the bank takes the first of; their ids start at n.
  ghost predicate Plan(lots: seq<Lot>, n: nat) {
    && 1 <= |lots| <= 2 && lots[0].liens.Some? && (lots[0].accepted || lots[0].delivered)
    && forall k :: 0 <= k < |lots| ==>
         lots[k].merchant == k + 1 && lots[k].known && lots[k].posts && lots[k].stored && lots[k].stlId == n + 2 * k && lots[k].eid == n + 2 * k + 1
  }

  lemma BatchIsEnabled(s: State, n: nat, lots: seq<Lot>, commits: bool)
    requires TwoDue(s, n) && Plan(lots, n)
    ensures Enabled(s, BatchOf(s, lots, commits))
    ensures InLot(s.rcvs[..|lots|], 1, 1)
  {
    hide FirstDue, HasId;
    var day, picked := FirstDue(Debit, 0), s.rcvs[..|lots|];
    assert DistinctIds(picked);
    assert forall r :: r in picked ==> r in s.rcvs && IsDue(day)(r);
    assert picked[0].id == 1 && picked[0].data.merchant == 1;
    SameMerchants(picked, lots);
  }

  lemma SameMerchants(picked: seq<R.Rcv>, lots: seq<Lot>)
    requires |picked| == |lots| && forall k :: 0 <= k < |lots| ==> picked[k].data.merchant == lots[k].merchant
    ensures Visited(lots) == Merchants(picked)
  {
  }

  lemma NewFrom<D>(t: seq<Row<D>>, n: nat, id: Id)
    requires Below(t, n) && id >= n
    ensures !HasId(t, id)
  {
  }

  lemma FirstIsTaken(s: State, n: nat, lots: seq<Lot>)
    requires TwoDue(s, n) && Plan(lots, n)
    ensures Takes(s, lots, 0) && Passes(s, lots, 0)
    ensures |lots| == 2 ==> (Passes(s, lots, 1) <==> lots[1].liens.Some?)
  {
    hide HasId, IsInstalment, Below;
    NewFrom(s.stls, n, lots[0].stlId);
    NewFrom(s.outbox, n, lots[0].eid);
    if |lots| == 2 {
      NewFrom(s.stls, n, lots[1].stlId);
      NewFrom(s.outbox, n, lots[1].eid);
      assert StlIds(lots, 1) == {lots[0].stlId} && EventIds(lots, 1) == {lots[0].eid};
    }
  }

  lemma PlanShape(lots: seq<Lot>, n: nat)
    requires Plan(lots, n)
    ensures 1 <= |lots| <= 2 && lots[0].merchant == 1
  {
  }

  // What the bank and the tables make of such a batch.
  lemma Pays(s: State, n: nat, lots: seq<Lot>, commits: bool)
    requires TwoDue(s, n) && Plan(lots, n) && 1 <= |lots| <= |s.rcvs|
    ensures var op := BatchOf(s, lots, commits);
            && PaysIn(s, op, 1)
            && (FailsIn(s, op) <==> !commits || (|lots| == 2 && lots[1].liens.None?))
            && (FailsIn(s, op) || !lots[0].accepted ==> LosesIn(s, op, 1))
  {
    hide HasId, InLot, FirstDue, IsInstalment, Enabled, Takes, Passes, Plan, TwoDue;
    PlanShape(lots, n);
    BatchIsEnabled(s, n, lots, commits);
    FirstIsTaken(s, n, lots);
    assert BatchOf(s, lots, commits).lots == lots;
  }

  // The two ways a batch ends: rolled back, or committed.
  lemma Ends(s: State, op: Op)
    requires Sound(s) && op.SettleBatch? && Enabled(s, op)
    ensures if FailsIn(s, op) then Step(s, op).Err? && Apply(s, op) == s else Step(s, op).Ok?
  {
    hide Sound, Passes, IsPick, IsVisit, SettleLots, FailsIn;
    TakenPays(s, op, 0);
  }

  // A batch whose only lot the bank was silent about commits and leaves the receivables due.
  lemma SilentKeepsDue(s: State)
    requires Sound(s) && TwoDue(s, 50) && |s.rcvs| == 2
    ensures TwoDue(Apply(s, BatchOf(s, SILENT, true)), 60)
  {
    hide FirstDue, Sound, Apply, SettleLots, Step, Enabled, FailsIn, TwoDue, PaysIn, LosesIn;
    var op := BatchOf(s, SILENT, true);
    assert Plan(SILENT, 50);
    BatchIsEnabled(s, 50, SILENT, true);
    Pays(s, 50, SILENT, true);
    Ends(s, op);
    SilentIds(s, op);
    AppliesStep(s, op);
  }

  lemma AppliesStep(s: State, op: Op)
    requires Enabled(s, op) && Step(s, op).Ok?
    ensures Apply(s, op) == Step(s, op).value
  {
    hide Enabled, Step;
  }

  lemma SilentIds(s: State, op: Op)
    requires Sound(s) && TwoDue(s, 50) && |s.rcvs| == 2 && op == BatchOf(s, SILENT, true) && Enabled(s, op) && Step(s, op).Ok?
    ensures TwoDue(Step(s, op).value, 60)
  {
    hide FirstDue, Sound, IsInstalment, SettleLots, HasId, IsPick, IsVisit, Below;
    var lots, s' := op.lots, Step(s, op).value;
    assert lots[..|lots|] == lots;
    RejectedBatchRepeats(s, op.day, op.picked, lots, op.limit, []);
    assert lots[0].stlId == 50 && lots[0].eid == 51;
    assert StlIds(lots, 1) == {lots[0].stlId} && EventIds(lots, 1) == {lots[0].eid};
    forall id
      ensures HasId(s'.stls, id) <==> HasId(s.stls, id) || id == 50
      ensures HasId(s'.outbox, id) <==> HasId(s.outbox, id) || id == 51
    {
      PrefixIds(s, op.day, op.limit, op.picked, lots, |lots|, id);
    }
    StillBelow(s.stls, s'.stls, 50);
    StillBelow(s.outbox, s'.outbox, 51);
  }

  lemma StillBelow<D>(t: seq<Row<D>>, t': seq<Row<D>>, x: Id)
    requires Below(t, 50) && 50 <= x < 60 && forall id :: HasId(t', id) <==> HasId(t, id) || id == x
    ensures Below(t', 60)
  {
    forall k | 0 <= k < |t'|
      ensures t'[k].id < 60
    {
      assert HasId(t', t'[k].id);
    }
  }

  // Two merchants are due; the bank pays the first, the registry fails for the second and the
  // batch rolls back; the day runs again, commits, and the bank has paid the first merchant's receivable twice.
  lemma PaidTwiceHappens() returns (fails: Op, again: Op)
    ensures fails.SettleBatch? && fails.lots == REGISTRY_DOWN && again.SettleBatch? && again.lots == AGAIN
    ensures Enabled(Exec(TWO_AGENDAS), fails) && Step(Exec(TWO_AGENDAS), fails).Err? && Exec(TWO_AGENDAS + [fails]) == Exec(TWO_AGENDAS)
    ensures Enabled(Exec(TWO_AGENDAS), again) && Step(Exec(TWO_AGENDAS), again).Ok?
    ensures PaidTwice(Bank(TWO_AGENDAS + [fails] + [again]), 1)
  {
    assert Plan(REGISTRY_DOWN, 50);
    fails, again := RolledBackAndAgain(REGISTRY_DOWN, true);
  }

  // A batch of one merchant, known, with an answering registry, new ids and a bank that accepts: the COMMIT
  // fails, the day runs again, and the bank has paid its receivable twice.
  lemma FailedCommitPaysTwice() returns (fails: Op, again: Op)
    ensures fails.SettleBatch? && fails.lots == ONE_LOT && !fails.commits && again.SettleBatch? && again.lots == AGAIN
    ensures Enabled(Exec(TWO_AGENDAS), fails) && forall k :: 0 <= k < |ONE_LOT| ==> Passes(Exec(TWO_AGENDAS), ONE_LOT, k)
    ensures Step(Exec(TWO_AGENDAS), fails) == Err(CommitFailed) && Exec(TWO_AGENDAS + [fails]) == Exec(TWO_AGENDAS)
    ensures Enabled(Exec(TWO_AGENDAS), again) && Step(Exec(TWO_AGENDAS), again).Ok?
    ensures PaidTwice(Bank(TWO_AGENDAS + [fails] + [again]), 1)
  {
    hide Exec, Sound, Inv, Bank, PaidTwice, TwoDue;
    assert Plan(ONE_LOT, 50);
    fails, again := RolledBackAndAgain(ONE_LOT, false);
    AfterAgendas();
    FirstIsTaken(Exec(TWO_AGENDAS), 50, ONE_LOT);
    OnlyCommitFails(TWO_AGENDAS, fails);
  }

  // When every lot passes, all that is left to fail is the COMMIT.
  lemma OnlyCommitFails(ops: seq<Op>, op: Op)
    requires op.SettleBatch? && Enabled(Exec(ops), op) && !op.commits && forall k :: 0 <= k < |op.lots| ==> Passes(Exec(ops), op.lots, k)
    ensures Step(Exec(ops), op) == Err(CommitFailed)
  {
    RunSafe(ops);
    InvSound(Exec(ops));
    hide Exec, Sound, Passes, IsPick, IsVisit, SettleLots;
    BatchCommitsExactly(Exec(ops), op.day, op.limit, op.picked, op.lots);
  }

  // The bank has paid the only lot and reports that it has not: the batch commits the failed
  // settlement, the receivable stays due, the day runs again and pays it a second time.
  lemma SilentBankPaysTwice() returns (silent: Op, again: Op)
    ensures silent.SettleBatch? && silent.lots == SILENT && again.SettleBatch? && again.lots == AGAIN
    ensures Enabled(Exec(TWO_AGENDAS), silent) && Step(Exec(TWO_AGENDAS), silent).Ok?
    ensures Enabled(Exec(TWO_AGENDAS + [silent]), again) && Step(Exec(TWO_AGENDAS + [silent]), again).Ok?
    ensures PaidTwice(Bank(TWO_AGENDAS + [silent] + [again]), 1)
  {
    hide Exec, Apply, Enabled, Step, FirstDue, Sound, Inv, PaysIn, LosesIn, FailsIn, TwoDue, Bank, PaidTwice;
    AfterAgendas();
    var s := Exec(TWO_AGENDAS);
    DueRuns(TWO_AGENDAS, 50);
    assert Plan(SILENT, 50) && Plan(AGAIN, 60);
    silent := BatchOf(s, SILENT, true);
    SilentKeepsDue(s);
    ExecNext(TWO_AGENDAS, silent);
    DueRuns(TWO_AGENDAS + [silent], 60);
    var t := Exec(TWO_AGENDAS + [silent]);
    again := BatchOf(t, AGAIN, true);
    PaysAndEnds(s, 50, SILENT, true);
    PaysAndEnds(t, 60, AGAIN, true);
    PaysAgain(TWO_AGENDAS, silent, again, 1);
  }

  lemma DueRuns(ops: seq<Op>, n: nat)
    requires TwoDue(Exec(ops), n)
    ensures Sound(Exec(ops)) && |Exec(ops).rcvs| == 2
  {
    RunSafe(ops);
    InvSound(Exec(ops));
  }

  lemma PaysAndEnds(s: State, n: nat, lots: seq<Lot>, commits: bool)
    requires Sound(s) && TwoDue(s, n) && Plan(lots, n) && |s.rcvs| == 2
    ensures var op := BatchOf(s, lots, commits);
            && Enabled(s, op) && PaysIn(s, op, 1)
            && if !commits || (|lots| == 2 && lots[1].liens.None?) then LosesIn(s, op, 1) && Step(s, op).Err? && Apply(s, op) == s
               else Step(s, op).Ok? && (!lots[0].accepted ==> LosesIn(s, op, 1))
  {
    hide Sound, FirstDue, PaysIn, LosesIn, FailsIn, TwoDue, Apply, Step, Enabled;
    BatchIsEnabled(s, n, lots, commits);
    Pays(s, n, lots, commits);
    Ends(s, BatchOf(s, lots, commits));
  }

  // A batch that the bank has paid rolls back, and the day runs again.
  lemma RolledBackAndAgain(lots: seq<Lot>, commits: bool) returns (fails: Op, again: Op)
    requires Plan(lots, 50) && (!commits || (|lots| == 2 && lots[1].liens.None?))
    ensures fails.SettleBatch? && fails.lots == lots && fails.commits == commits && again.SettleBatch? && again.lots == AGAIN
    ensures Enabled(Exec(TWO_AGENDAS), fails) && Step(Exec(TWO_AGENDAS), fails).Err? && Exec(TWO_AGENDAS + [fails]) == Exec(TWO_AGENDAS)
    ensures Enabled(Exec(TWO_AGENDAS), again) && Step(Exec(TWO_AGENDAS), again).Ok?
    ensures PaidTwice(Bank(TWO_AGENDAS + [fails] + [again]), 1)
  {
    hide Exec, Apply, Enabled, Step, FirstDue, Sound, Inv, PaysIn, LosesIn, FailsIn, TwoDue, Bank, PaidTwice;
    AfterAgendas();
    var s := Exec(TWO_AGENDAS);
    DueRuns(TWO_AGENDAS, 50);
    MoreIdsAreNew(s, 50, 60);
    assert Plan(AGAIN, 60);
    fails, again := BatchOf(s, lots, commits), BatchOf(s, AGAIN, true);
    PaysAndEnds(s, 50, lots, commits);
    PaysAndEnds(s, 60, AGAIN, true);
    ExecNext(TWO_AGENDAS, fails);
    PaysAgain(TWO_AGENDAS, fails, again, 1);
  }

  lemma MoreIdsAreNew(s: State, n: nat, m: nat)
    requires TwoDue(s, n) && n <= m
    ensures TwoDue(s, m)
  {
    hide IsInstalment;
  }

  lemma PaysAgain(ops: seq<Op>, loses: Op, again: Op, id: Id)
    requires LosesIn(Exec(ops), loses, id) && PaysIn(Exec(ops + [loses]), again, id)
    ensures PaidTwice(Bank(ops + [loses] + [again]), id)
  {
    hide Exec, PaysIn, LosesIn, Bank, PaidTwice;
    var all := ops + [loses] + [again];
    var n := |ops|;
    assert all[..n] == ops && all[n] == loses && all[..n+1] == ops + [loses] && all[n+1] == again;
    assert LosesAt(all, n, id) && PaysAt(all, n + 1, id);
    PaidTwiceExactly(all, id);
  }
}
