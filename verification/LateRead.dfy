/** The captured handler reads the sale without a lock: what can happen between its read and its commit. */
module LateRead {
  import opened Results
  import opened Money
  import opened Calendar
  import opened Tables
  import opened Events
  import opened FeePlans
  import T = Transactions
  import R = Receivables
  import Schedules
  import L = Ledger
  import opened Acquirer
  import opened Reconciliation
  import opened Agendas
  import opened Payouts
  import opened Safety
  import opened Theorems

  // The handler's commit, on a copy of the sale that may be old by then.
  ghost function LateCaptured(s: State, op: Op, copy: T.Tx): Result<State>
    requires op.OnCaptured? && IsDelivery(s, op.k, TransactionCaptured)
  {
    var ev := s.outbox[op.k];
    if ev.id in s.processed then Ok(s)
    else if op.merchantPlan.None? then Err(NotFound)
    else
      var list :- Agenda(copy, op.merchantPlan.value, op.ids);
      StoreAgenda(s.(processed := s.processed + {ev.id}), list, NewEvent(op.eid, ReceivablesScheduled, copy.id, copy.data.merchant))
  }

  // The sale was read as captured in the state after n steps; the handler commits after all of ops.
  ghost predicate Late(ops: seq<Op>, n: nat, op: Op, copy: T.Tx) {
    && n <= |ops| && op.OnCaptured? && Enabled(Exec(ops), op)
    && Exec(ops).outbox[op.k].id !in Exec(ops).processed
    && FindTx(Exec(ops[..n]), Exec(ops).outbox[op.k].data.merchant, Exec(ops).outbox[op.k].data.aggregate) == Ok(copy)
    && copy.data.status == T.Captured
    && LateCaptured(Exec(ops), op, copy).Ok?
  }

  // ---- a captured sale stays the same row until it leaves that status

  // What a sale read as captured can be later: the same row, or past the capture, for the same amount.
  predicate NotReturned(copy: T.Tx, now: T.Tx) {
    && now.id == copy.id && now.data.amount == copy.data.amount && now.data.installments == copy.data.installments
    && (now == copy || now.data.status == T.Canceled || now.data.status == T.Settled || now.data.status == T.Chargebacked)
  }

  // Sales read as captured, and what they are later.
  ghost predicate Later(read: State, s: State) {
    forall i :: 0 <= i < |read.txs| && read.txs[i].data.status == T.Captured ==> i < |s.txs| && NotReturned(read.txs[i], s.txs[i])
  }

  lemma LaterNow(s: State)
    ensures Later(s, s)
  {
  }

  lemma LaterMoves(read: State, s: State, s': State)
    requires Later(read, s) && TxsMove(s.txs, s'.txs)
    ensures Later(read, s')
  {
  }

  lemma {:induction false} LaterInRun(ops: seq<Op>, n: nat)
    requires n <= |ops|
    ensures Later(Exec(ops[..n]), Exec(ops))
    decreases |ops|
  {
    hide Inv, Sound, Exec, Apply, Later, TxsMove;
    if n == |ops| {
      assert ops[..n] == ops;
      LaterNow(Exec(ops));
    } else {
      var before := ops[..|ops|-1];
      assert before[..n] == ops[..n];
      LaterInRun(before, n);
      RunSafe(before);
      InvIsSound(Exec(before));
      ExecLast(ops);
      StepMovesTxs(Exec(before), ops[|ops|-1]);
      LaterMoves(Exec(ops[..n]), Exec(before), Exec(ops));
    }
  }

  lemma CapturedRowStays(ops: seq<Op>, n: nat, i: nat)
    requires n <= |ops| && i < |Exec(ops[..n]).txs| && Exec(ops[..n]).txs[i].data.status == T.Captured
    ensures i < |Exec(ops).txs| && NotReturned(Exec(ops[..n]).txs[i], Exec(ops).txs[i])
  {
    hide Exec;
    LaterInRun(ops, n);
  }

  lemma InvIsSound(s: State)
    requires Inv(s)
    ensures Sound(s) && Closed(s)
  {
  }

  // ---- when the late commit is as good as an atomic one

  // Committing on an old copy does what the atomic step would have done exactly when the
  // sale is still captured at the commit.
  lemma LateIsAtomicExactly(ops: seq<Op>, n: nat, op: Op, copy: T.Tx)
    requires Late(ops, n, op, copy)
    ensures LateCaptured(Exec(ops), op, copy) == CapturedHandler(Exec(ops), op) <==> HasStatus(Exec(ops), copy.id, T.Captured)
  {
    var s, s0 := Exec(ops), Exec(ops[..n]);
    var ev := s.outbox[op.k];
    var i := Find(s0.txs, ev.data.aggregate);
    CapturedRowStays(ops, n, i);
    RunSafe(ops);
    FoundAgain(s, i, copy);
    hide Sound, Exec, StoreAgenda, Agenda, T.Transitions;
    if HasStatus(s, copy.id, T.Captured) {
      var j :| 0 <= j < |s.txs| && s.txs[j].id == copy.id && s.txs[j].data.status == T.Captured;
      assert j == i;
      assert s.txs[i] == copy;
      assert FindTx(s, ev.data.merchant, ev.data.aggregate) == Ok(copy);
    } else {
      assert s.txs[i].data.status != T.Captured;
      NotCapturedFails(s, op, i);
    }
  }

  lemma NotCapturedFails(s: State, op: Op, i: nat)
    requires op.OnCaptured? && IsDelivery(s, op.k, TransactionCaptured) && s.outbox[op.k].id !in s.processed
    requires i < |s.txs| && Find(s.txs, s.outbox[op.k].data.aggregate) == i && s.txs[i].data.status != T.Captured
    ensures CapturedHandler(s, op).Err?
  {
  }

  lemma FoundAgain(s: State, i: nat, copy: T.Tx)
    requires Sound(s) && i < |s.txs| && s.txs[i].id == copy.id
    ensures Find(s.txs, copy.id) == i && forall j :: 0 <= j < |s.txs| && s.txs[j].id == copy.id ==> j == i
  {
    FindAt(s.txs, i);
  }

  // What a late commit leaves: the same sales and events, and a scheduled first instalment.
  lemma LateShape(s: State, op: Op, copy: T.Tx) returns (r: R.Rcv)
    requires op.OnCaptured? && IsDelivery(s, op.k, TransactionCaptured) && s.outbox[op.k].id !in s.processed && LateCaptured(s, op, copy).Ok?
    ensures var s' := LateCaptured(s, op, copy).value;
            && s'.txs == s.txs && s.outbox <= s'.outbox && s.processed <= s'.processed
            && |s'.rcvs| > |s.rcvs| && s'.rcvs[|s.rcvs|] == r && r.data.txId == copy.id && r.data.status.Scheduled?
  {
    var list := Agenda(copy, op.merchantPlan.value, op.ids).value;
    BrazilNeverClosedFiveDays();
    Schedules.ScheduleConserves(copy, op.merchantPlan.value, BRAZIL, op.ids);
    r := list[0];
    assert r.data.status.Scheduled?;
    hide Agenda, L.Append, L.ForScheduled, InsertAll;
    InsertAllAppends(s.rcvs, list);
    OneEvent(s.outbox, NewEvent(op.eid, ReceivablesScheduled, copy.id, copy.data.merchant));
  }

  // Otherwise the agenda is committed on a sale that has been closed in the meantime, a
  // state that no run of atomic steps reaches.
  lemma LateCommitOutlivesClosing(ops: seq<Op>, n: nat, op: Op, copy: T.Tx)
    requires Late(ops, n, op, copy) && HasStatus(Exec(ops), copy.id, T.Chargebacked)
    ensures var s' := LateCaptured(Exec(ops), op, copy).value;
            HasStatus(s', copy.id, T.Chargebacked) && !Closed(s') && exists r :: r in s'.rcvs && r.data.txId == copy.id && r.data.status.Scheduled?
  {
    hide Exec, LateCaptured, Journal, AllOrNothing, Grounded;
    var s := Exec(ops);
    var s' := LateCaptured(s, op, copy).value;
    var r := LateShape(s, op, copy);
    var j := |s.rcvs|;
    assert s'.rcvs[j] in s'.rcvs;
    var i :| 0 <= i < |s.txs| && s.txs[i].id == copy.id && s.txs[i].data.status == T.Chargebacked;
    assert s'.rcvs[j].data.txId == s'.txs[i].id;
  }

  lemma LateCommitOutlivesCancellation(ops: seq<Op>, n: nat, op: Op, copy: T.Tx, k: nat)
    requires Late(ops, n, op, copy) && Says(Exec(ops).outbox, k, TransactionCanceled, copy.id) && Exec(ops).outbox[k].id in Exec(ops).processed
    ensures var s' := LateCaptured(Exec(ops), op, copy).value;
            !Closed(s') && exists r :: r in s'.rcvs && r.data.txId == copy.id && r.data.status.Scheduled?
  {
    hide Exec, LateCaptured, Journal, AllOrNothing, Grounded;
    var s := Exec(ops);
    var s' := LateCaptured(s, op, copy).value;
    var r := LateShape(s, op, copy);
    var j := |s.rcvs|;
    assert s'.rcvs[j] in s'.rcvs;
    assert s'.outbox[k] == s.outbox[k];
    assert Says(s'.outbox, k, TransactionCanceled, s'.rcvs[j].data.txId);
  }

  // ---- when closed sales stay closed

  // Whatever happens to closed sales, a late commit keeps everything else; and it keeps
  // closed sales closed exactly when the sale is still open for an agenda.
  lemma LateKeeps(s: State, op: Op, copy: T.Tx, i: nat)
    requires Sound(s) && op.OnCaptured? && Enabled(s, op) && s.outbox[op.k].id !in s.processed
    requires i < |s.txs| && s.txs[i].id == s.outbox[op.k].data.aggregate && copy.data.status == T.Captured && NotReturned(copy, s.txs[i])
    requires LateCaptured(s, op, copy).Ok?
    ensures Sound(LateCaptured(s, op, copy).value)
    ensures Closed(LateCaptured(s, op, copy).value) <==> Closed(s) && OpenForAgenda(s, i)
  {
    hide Sound, Closed, OpenForAgenda, InsertAll, L.ForScheduled, StoreAgenda, Agenda, Complete, RowsOk;
    var list := Agenda(copy, op.merchantPlan.value, op.ids).value;
    var e := NewEvent(op.eid, ReceivablesScheduled, copy.id, copy.data.merchant);
    LateStores(s.(processed := s.processed + {s.outbox[op.k].id}), list, e);
    AgendaPosted(copy, op.merchantPlan.value, op.ids);
    CompleteFor(list, copy, s.txs[i]);
    PostingKeeps(s, op.k, i, list, e);
  }

  lemma LateStores(s: State, list: seq<R.Rcv>, e: Event)
    requires StoreAgenda(s, list, e).Ok?
    ensures InsertAll(s.rcvs, list).Ok? && InsertAll(s.outbox, [e]).Ok? && L.Append(s.ledger, L.ForScheduled(list)).Ok?
    ensures StoreAgenda(s, list, e).value ==
            s.(rcvs := s.rcvs + list, ledger := s.ledger + L.ForScheduled(list), outbox := s.outbox + [e])
  {
    hide InsertAll, L.ForScheduled;
    InsertAllAppends(s.rcvs, list);
    InsertAllAppends(s.outbox, [e]);
  }

  // An agenda complete for the copy is complete for the sale as it is now.
  lemma CompleteFor(list: seq<R.Rcv>, copy: T.Tx, now: T.Tx)
    requires Complete(list, copy) && NotReturned(copy, now)
    ensures Complete(list, now)
  {
  }

  // After a run of atomic steps: a late commit leaves closed sales closed exactly when, at
  // the commit, the sale is not charged back and no cancellation of it has been processed.
  lemma LateKeepsClosedExactly(ops: seq<Op>, n: nat, op: Op, copy: T.Tx)
    requires Late(ops, n, op, copy)
    ensures var s, s' := Exec(ops), LateCaptured(Exec(ops), op, copy).value;
            && Consistent(s')
            && (Closed(s') <==> !HasStatus(s, copy.id, T.Chargebacked)
                                && forall k :: Says(s.outbox, k, TransactionCanceled, copy.id) ==> s.outbox[k].id !in s.processed)
  {
    var s, s0 := Exec(ops), Exec(ops[..n]);
    var ev := s.outbox[op.k];
    var i := Find(s0.txs, ev.data.aggregate);
    CapturedRowStays(ops, n, i);
    RunSafe(ops);
    FoundAgain(s, i, copy);
    LateKeeps(s, op, copy, i);
    hide Sound, Closed, Exec, LateCaptured;
    StatusOf(s, i, copy, T.Chargebacked);
    SoundIsConsistent(LateCaptured(s, op, copy).value);
  }

  lemma StatusOf(s: State, i: nat, copy: T.Tx, status: T.Status)
    requires i < |s.txs| && s.txs[i].id == copy.id && forall j :: 0 <= j < |s.txs| && s.txs[j].id == copy.id ==> j == i
    ensures HasStatus(s, copy.id, status) <==> s.txs[i].data.status == status
  {
  }

  lemma SoundIsConsistent(s: State)
    requires Sound(s)
    ensures Consistent(s)
  {
  }

  // ---- runs in which any number of handlers read early and commit late

  // A step is atomic, or the commit of a handler that read the sale after the first n steps.
  datatype LateStep = Atomic(op: Op) | Commit(op: Op, n: nat)

  ghost function LateRun(steps: seq<LateStep>): State
    decreases |steps|
  {
    if steps == [] then Init()
    else
      var before, step := steps[..|steps|-1], steps[|steps|-1];
      match step
      case Atomic(op) => Apply(LateRun(before), op)
      case Commit(op, n) => CommitLate(LateRun(before), op, LateRun(before[..if n < |before| then n else |before|]))
  }

  // The handler's read found the sale, and its writes go through.
  ghost predicate Commits(s: State, op: Op, read: State) {
    && op.OnCaptured? && Enabled(s, op) && s.outbox[op.k].id !in s.processed
    && FindTx(read, s.outbox[op.k].data.merchant, s.outbox[op.k].data.aggregate).Ok?
    && LateCaptured(s, op, FindTx(read, s.outbox[op.k].data.merchant, s.outbox[op.k].data.aggregate).value).Ok?
  }

  ghost function CommitLate(s: State, op: Op, read: State): State {
    if Commits(s, op, read)
    then LateCaptured(s, op, FindTx(read, s.outbox[op.k].data.merchant, s.outbox[op.k].data.aggregate).value).value
    else s
  }

  // The commit finds its sale still open for an agenda.
  ghost predicate FindsOpen(s: State, op: Op, read: State) {
    Commits(s, op, read) ==>
      var i := Find(s.txs, s.outbox[op.k].data.aggregate);
      i < |s.txs| && OpenForAgenda(s, i)
  }

  lemma CommitLateKeeps(s: State, op: Op, read: State)
    requires Sound(s) && Sound(read) && Later(read, s)
    ensures Sound(CommitLate(s, op, read)) && TxsMove(s.txs, CommitLate(s, op, read).txs)
    ensures Closed(s) ==> (Closed(CommitLate(s, op, read)) <==> FindsOpen(s, op, read))
  {
    hide Sound, Closed, OpenForAgenda, LateCaptured;
    if Commits(s, op, read) {
      var ev := s.outbox[op.k];
      var copy := FindTx(read, ev.data.merchant, ev.data.aggregate).value;
      var i := Find(read.txs, ev.data.aggregate);
      LateReadsCaptured(s, op, copy);
      FoundAgain(s, i, copy);
      LateKeeps(s, op, copy, i);
      var r := LateShape(s, op, copy);
    }
  }

  lemma LateReadsCaptured(s: State, op: Op, copy: T.Tx)
    requires op.OnCaptured? && Enabled(s, op) && s.outbox[op.k].id !in s.processed && LateCaptured(s, op, copy).Ok?
    ensures copy.data.status == T.Captured
  {
  }

  // In every such run the state stays sound: keys, rows, the ledger's reconciliation, one whole
  // agenda a sale, and no double payment; only closed sales may not stay closed.
  lemma {:induction false} LateRunSound(steps: seq<LateStep>, n: nat)
    requires n <= |steps|
    ensures Sound(LateRun(steps)) && Later(LateRun(steps[..n]), LateRun(steps))
    decreases |steps|
  {
    hide Sound, Apply, Later, CommitLate, TxsMove;
    if steps == [] {
      InitSafe();
      InvIsSound(Init());
      LaterNow(Init());
      assert steps[..n] == steps;
    } else {
      var before, step := steps[..|steps|-1], steps[|steps|-1];
      var s := LateRun(before);
      LateRunSound(before, |before|);
      match step {
        case Atomic(op) =>
          StepSafe(s, op);
          KeptIsSound(s, Apply(s, op));
          StepMovesTxs(s, op);
        case Commit(op, k) =>
          var m := if k < |before| then k else |before|;
          LateRunSound(before, m);
          LateRunSound(before[..m], m);
          CommitLateKeeps(s, op, LateRun(before[..m]));
      }
      if n == |steps| {
        assert steps[..n] == steps;
        LaterNow(LateRun(steps));
      } else {
        LateRunSound(before, n);
        assert before[..n] == steps[..n];
        LaterMoves(LateRun(steps[..n]), s, LateRun(steps));
      }
    }
  }

  lemma KeptIsSound(s: State, s': State)
    requires Kept(s, s')
    ensures Sound(s') && (Closed(s) ==> Closed(s'))
  {
  }

  ghost function Atomics(ops: seq<Op>): seq<LateStep> {
    if ops == [] then [] else Atomics(ops[..|ops|-1]) + [Atomic(ops[|ops|-1])]
  }

  // Runs without late commits are the runs of the state machine.
  lemma {:induction false} AtomicRuns(ops: seq<Op>)
    ensures LateRun(Atomics(ops)) == Exec(ops)
  {
    if ops != [] {
      AtomicRuns(ops[..|ops|-1]);
      assert Atomics(ops)[..|Atomics(ops)|-1] == Atomics(ops[..|ops|-1]);
    }
  }

  // What soundness is, for the reader of LateRunSound.
  lemma LateRunsReconcile(steps: seq<LateStep>, account: L.Account, who: Option<Id>)
    ensures var s := LateRun(steps);
            && L.Balance(s.ledger, account, who) == Expected(s, account, who)
            && AllOrNothing(s.txs, s.rcvs) && PaidOnce(s.rcvs, s.ants, s.stls) && RowsOk(s.rcvs) && Keyed(s)
  {
    LateRunSound(steps, 0);
  }

  ghost predicate AlwaysClosed(steps: seq<LateStep>) {
    Closed(LateRun(steps)) && (steps != [] ==> AlwaysClosed(steps[..|steps|-1]))
  }

  // Every late commit of the run found its sale still open.
  ghost predicate AlwaysFoundOpen(steps: seq<LateStep>) {
    steps != [] ==>
      var before, step := steps[..|steps|-1], steps[|steps|-1];
      && AlwaysFoundOpen(before)
      && (step.Commit? ==> FindsOpen(LateRun(before), step.op, LateRun(before[..if step.n < |before| then step.n else |before|])))
  }

  // Closed sales stay closed throughout a run exactly when every late commit found its sale open.
  lemma {:induction false} ClosedSalesStayClosedExactly(steps: seq<LateStep>)
    ensures AlwaysClosed(steps) <==> AlwaysFoundOpen(steps)
  {
    hide Sound, Apply, Closed, Later, CommitLate, FindsOpen;
    if steps == [] {
      InitSafe();
      InvIsSound(Init());
    } else {
      var before, step := steps[..|steps|-1], steps[|steps|-1];
      var s := LateRun(before);
      ClosedSalesStayClosedExactly(before);
      LateRunSound(before, |before|);
      ClosedNow(before);
      match step {
        case Atomic(op) =>
          StepSafe(s, op);
          KeptIsSound(s, Apply(s, op));
        case Commit(op, k) =>
          var m := if k < |before| then k else |before|;
          LateRunSound(before, m);
          LateRunSound(before[..m], m);
          CommitLateKeeps(s, op, LateRun(before[..m]));
      }
    }
  }

  lemma ClosedNow(steps: seq<LateStep>)
    ensures AlwaysClosed(steps) ==> Closed(LateRun(steps))
  {
  }

  // ---- it does happen

  const FREE := FeePlan(0, 0, map[], 0)

  function Sale(status: T.Status, version: nat, capturedAt: Option<nat>): T.Tx {
    Row(1, version, T.TxData(1, 100, Debit, 1, 0, status, capturedAt, None))
  }

  const SALE := Authorize(1, 1, true, FREE, 100, Debit, 1, 0, true, 1)
  const CAPTURE := Capture(1, 1, 0, 2)
  const CHARGEBACK := OpenChargeback(1, 1, 100, 1, 3, 4)

  lemma ExecNext(ops: seq<Op>, op: Op)
    ensures Exec(ops + [op]) == Apply(Exec(ops), op)
  {
    assert (ops + [op])[..|ops|] == ops;
  }

  lemma AfterSale()
    ensures Exec([SALE]) == Init().(txs := [Sale(T.Authorized, 2, None)], outbox := [NewEvent(1, TransactionAuthorized, 1, 1)])
  {
    ExecNext([], SALE);
    assert [] + [SALE] == [SALE];
    OneEvent([], NewEvent(1, TransactionAuthorized, 1, 1));
  }

  lemma AfterCapture()
    ensures Exec([SALE, CAPTURE]) == Init().(txs := [Sale(T.Captured, 3, Some(0))],
                                             outbox := [NewEvent(1, TransactionAuthorized, 1, 1), NewEvent(2, TransactionCaptured, 1, 1)])
  {
    AfterSale();
    hide Exec;
    ExecNext([SALE], CAPTURE);
    assert [SALE] + [CAPTURE] == [SALE, CAPTURE];
    var s := Init().(txs := [Sale(T.Authorized, 2, None)], outbox := [NewEvent(1, TransactionAuthorized, 1, 1)]);
    OneEvent(s.outbox, NewEvent(2, TransactionCaptured, 1, 1));
    UpdateFound(s.txs, 0, Sale(T.Captured, 3, Some(0)));
  }

  lemma NothingToClose(s: State, txId: Id, to: R.Status)
    requires s.rcvs == [] && (to == R.Canceled || to == R.Chargebacked)
    ensures ApplyClosing(s, CloseAll(Where(s.rcvs, R.OfTransaction(txId)), to)) == Ok(s)
  {
  }

  // Opening a case, given what it finds and stores, when nothing is to be closed.
  lemma Opens(s: State, op: Op, tx: T.Tx, moved: T.Tx, txs: seq<T.Tx>, outbox: seq<Event>)
    requires op.OpenChargeback? && FindTx(s, op.merchant, op.id) == Ok(tx) && tx.data.status == T.Captured && 0 < op.amount <= tx.data.amount
    requires T.Moved(tx, T.Chargebacked) == Ok(moved) && Update(s.txs, moved) == Ok(txs) && s.rcvs == [] && s.cbs == []
    requires InsertAll(s.outbox, [NewEvent(op.eid, TransactionChargebacked, tx.id, tx.data.merchant),
                                  NewEvent(op.eid2, ChargebackOpened, op.cbId, tx.data.merchant)]) == Ok(outbox)
    ensures Apply(s, op) == s.(txs := txs, cbs := [Row(op.cbId, 1, CbData(tx.id, tx.data.merchant, op.amount))], outbox := outbox)
  {
    hide FindTx, T.Moved, Update, InsertAll, CloseAll, ApplyClosing, Where;
    assert [] + [Row(op.cbId, 1, CbData(tx.id, tx.data.merchant, op.amount))] == [Row(op.cbId, 1, CbData(tx.id, tx.data.merchant, op.amount))];
    NothingToClose(s.(txs := txs, cbs := [Row(op.cbId, 1, CbData(tx.id, tx.data.merchant, op.amount))]), tx.id, R.Chargebacked);
  }

  lemma AfterChargeback()
    ensures var s := Exec([SALE, CAPTURE, CHARGEBACK]);
            && s.txs == [Sale(T.Chargebacked, 4, Some(0))] && s.rcvs == [] && s.ledger == [] && s.processed == {}
            && s.outbox == [NewEvent(1, TransactionAuthorized, 1, 1), NewEvent(2, TransactionCaptured, 1, 1),
                            NewEvent(3, TransactionChargebacked, 1, 1), NewEvent(4, ChargebackOpened, 1, 1)]
  {
    AfterCapture();
    hide Exec, Apply, InsertAll;
    ExecNext([SALE, CAPTURE], CHARGEBACK);
    assert [SALE, CAPTURE] + [CHARGEBACK] == [SALE, CAPTURE, CHARGEBACK];
    var s := Exec([SALE, CAPTURE]);
    var e, e2 := NewEvent(3, TransactionChargebacked, 1, 1), NewEvent(4, ChargebackOpened, 1, 1);
    TwoEventsFit(s.outbox, e, e2);
    FindAt(s.txs, 0);
    UpdateFound(s.txs, 0, Sale(T.Chargebacked, 4, Some(0)));
    assert s.txs[0 := Sale(T.Chargebacked, 4, Some(0))] == [Sale(T.Chargebacked, 4, Some(0))];
    Opens(s, CHARGEBACK, s.txs[0], Sale(T.Chargebacked, 4, Some(0)), [Sale(T.Chargebacked, 4, Some(0))], s.outbox + [e, e2]);
  }

  lemma TwoEventsFit(outbox: seq<Event>, e: Event, e2: Event)
    requires !HasId(outbox, e.id) && !HasId(outbox, e2.id) && e.id != e2.id
    ensures InsertAll(outbox, [e, e2]) == Ok(outbox + [e, e2])
  {
    assert [e, e2][..1] == [e] && [e][..0] == [];
    InsertOne(outbox, e);
    assert outbox + [e, e2] == outbox + [e] + [e2];
    GrowsHasId(outbox, e);
  }

  const DELIVERY: Op := OnCaptured(1, Some(FREE), (k: nat) => k + 6, 5)

  // A debit sale without fee gets one receivable of the whole amount.
  lemma OneInstalmentOf(tx: T.Tx, plan: FeePlan, ids: nat -> Id)
    requires tx.data.status == T.Captured && tx.data.capturedAt.Some? && tx.data.product.Debit? && tx.data.installments == 1 && plan.debit == 0
    ensures Agenda(tx, plan, ids).Ok?
    ensures var list := Agenda(tx, plan, ids).value;
            && |list| == 1 && list[0].id == ids(1) && list[0].data.merchant == tx.data.merchant && list[0].data.status == R.Scheduled
            && list[0].data.gross == tx.data.amount && list[0].data.fee == 0 && list[0].data.net == tx.data.amount
            && list[0].data.due == FirstDue(Debit, tx.data.capturedAt.value)
  {
    assert ApplyBps(tx.data.amount, 0) == 0;
    hide Agenda, ApplyBps, SplitParts;
    SplitOnce(tx.data.amount);
    SplitOnce(0);
    AgendaExists(tx, plan, ids);
    FirstInstalment(tx, plan, ids);
  }

  lemma OneInstalment()
    ensures Agenda(Sale(T.Captured, 3, Some(0)), FREE, DELIVERY.ids).Ok?
    ensures var list := Agenda(Sale(T.Captured, 3, Some(0)), FREE, DELIVERY.ids).value;
            |list| == 1 && list[0].data.gross == 100 && list[0].data.fee == 0 && list[0].data.net == 100
  {
    hide Agenda;
    OneInstalmentOf(Sale(T.Captured, 3, Some(0)), FREE, DELIVERY.ids);
  }

  lemma LateCommitSucceeds(s: State)
    requires s.rcvs == [] && s.ledger == [] && 2 !in s.processed && !HasId(s.outbox, 5)
    requires |s.outbox| > 1 && s.outbox[1] == NewEvent(2, TransactionCaptured, 1, 1)
    ensures IsDelivery(s, 1, TransactionCaptured) && LateCaptured(s, DELIVERY, Sale(T.Captured, 3, Some(0))).Ok?
  {
    OneInstalment();
    hide Agenda, StoreAgenda;
    var list := Agenda(Sale(T.Captured, 3, Some(0)), FREE, DELIVERY.ids).value;
    StoresOne(s.(processed := s.processed + {2}), list, NewEvent(5, ReceivablesScheduled, 1, 1));
  }

  // Sold, captured, read by the handler, charged back, and only then committed by the handler.
  lemma LateCommitHappens()
    ensures Late([SALE, CAPTURE, CHARGEBACK], 2, DELIVERY, Sale(T.Captured, 3, Some(0)))
    ensures HasStatus(Exec([SALE, CAPTURE, CHARGEBACK]), 1, T.Chargebacked)
  {
    var ops := [SALE, CAPTURE, CHARGEBACK];
    AfterCapture();
    AfterChargeback();
    hide Exec, LateCaptured;
    assert ops[..2] == [SALE, CAPTURE];
    LateCommitSucceeds(Exec(ops));
    assert Exec(ops).txs[0].id == 1;
  }

  const CANCEL := Cancel(1, 1, 0, 3)
  const CANCELED := OnCanceled(2)
  const CANCELED_SALE: T.Tx := Row(1, 4, T.TxData(1, 100, Debit, 1, 0, T.Canceled, Some(0), Some(0)))

  lemma AfterCancel()
    ensures Exec([SALE, CAPTURE, CANCEL]) ==
            Init().(txs := [CANCELED_SALE],
                    outbox := [NewEvent(1, TransactionAuthorized, 1, 1), NewEvent(2, TransactionCaptured, 1, 1), NewEvent(3, TransactionCanceled, 1, 1)])
  {
    AfterCapture();
    hide Exec;
    ExecNext([SALE, CAPTURE], CANCEL);
    assert [SALE, CAPTURE] + [CANCEL] == [SALE, CAPTURE, CANCEL];
    var s := Exec([SALE, CAPTURE]);
    OneEvent(s.outbox, NewEvent(3, TransactionCanceled, 1, 1));
    UpdateFound(s.txs, 0, CANCELED_SALE);
  }

  lemma AfterCanceled()
    ensures Exec([SALE, CAPTURE, CANCEL, CANCELED]) == Exec([SALE, CAPTURE, CANCEL]).(processed := {3})
  {
    AfterCancel();
    hide Exec;
    ExecNext([SALE, CAPTURE, CANCEL], CANCELED);
    assert [SALE, CAPTURE, CANCEL] + [CANCELED] == [SALE, CAPTURE, CANCEL, CANCELED];
  }

  // Sold, captured, read by the handler, canceled, the cancellation processed (nothing to
  // take back yet), and only then committed by the handler.
  lemma LateCommitAfterCancellationHappens()
    ensures Late([SALE, CAPTURE, CANCEL, CANCELED], 2, DELIVERY, Sale(T.Captured, 3, Some(0)))
    ensures var s := Exec([SALE, CAPTURE, CANCEL, CANCELED]);
            Says(s.outbox, 2, TransactionCanceled, 1) && s.outbox[2].id in s.processed
  {
    var ops := [SALE, CAPTURE, CANCEL, CANCELED];
    AfterCapture();
    AfterCancel();
    AfterCanceled();
    hide Exec, LateCaptured;
    assert ops[..2] == [SALE, CAPTURE];
    LateCommitSucceeds(Exec(ops));
  }

  lemma StoresOne(s: State, list: seq<R.Rcv>, e: Event)
    requires |list| == 1 && list[0].data.gross == list[0].data.net >= 0 && list[0].data.fee == 0
    requires s.rcvs == [] && s.ledger == [] && !HasId(s.outbox, e.id)
    ensures StoreAgenda(s, list, e).Ok?
  {
    assert list[..0] == [];
    assert InsertAll(s.rcvs, list[..0]) == Ok([]);
    OneEvent(s.outbox, e);
    var es := L.ForScheduled(list);
    assert L.ForScheduled(list[..0]) == [];
    assert es == L.ForScheduledOne(list[0]);
    L.SumThree(es[0], es[1], es[2], L.DebitOf());
    L.SumThree(es[0], es[1], es[2], L.CreditOf());
  }
}
