/** What becomes of a sale: authorization, capture and cancellation, exactly, and when a captured sale was captured. */
module SaleSteps {
  import opened Results
  import opened Tables
  import opened Events
  import opened FeePlans
  import T = Transactions
  import Schedules
  import R = Receivables
  import opened Acquirer
  import opened Safety
  import opened Theorems

  // Row i is the sale with this id, and it is this merchant's.
  predicate IsSale(s: State, i: int, merchant: Id, id: Id) {
    0 <= i < |s.txs| && s.txs[i].id == id && s.txs[i].data.merchant == merchant
  }

  // A sale is found by its id, for its own merchant only.
  lemma FoundExactly(s: State, merchant: Id, id: Id)
    requires DistinctIds(s.txs)
    ensures forall i :: IsSale(s, i, merchant, id) ==> FindTx(s, merchant, id) == Ok(s.txs[i])
    ensures (forall i :: !IsSale(s, i, merchant, id)) ==> FindTx(s, merchant, id) == Err(NotFound)
  {
    forall i | IsSale(s, i, merchant, id)
      ensures FindTx(s, merchant, id) == Ok(s.txs[i])
    {
      FindAt(s.txs, i);
    }
    if FindTx(s, merchant, id).Ok? {
      assert IsSale(s, Find(s.txs, id), merchant, id);
    }
  }

  // A sale is refused for an inactive merchant, an amount that is not positive, instalments outside 1 to 12,
  // more than one on debit, or no rate in the plan, in this order; otherwise it is stored with the issuer's
  // answer, and its event with it.
  lemma AuthorizedExactly(s: State, op: Op)
    requires op.Authorize?
    ensures Step(s, op) ==
            if !op.active then Err(MerchantInactive)
            else if op.amount <= 0 then Err(InvalidAmount)
            else if op.installments < 1 || op.installments > 12 then Err(MaxInstallments)
            else if op.product.Debit? && op.installments != 1 then Err(DebitInstallments)
            else if Schedules.Rate(op.plan, op.product, op.installments) == None then Err(InstallmentsNotAllowed)
            else if HasId(s.txs, op.id) || HasId(s.outbox, op.eid) then Err(DuplicateKey)
            else Ok(s.(txs := s.txs + [Row(op.id, 2, T.TxData(op.merchant, op.amount, op.product, op.installments, op.brand,
                                                              if op.approved then T.Authorized else T.Denied, None, None))],
                       outbox := s.outbox + [Row(op.eid, 1, EventData(if op.approved then TransactionAuthorized else TransactionDenied,
                                                                      op.id, op.merchant))]))
  {
    hide HasId, InsertAll;
    OneEvent(s.outbox, Row(op.eid, 1, EventData(if op.approved then TransactionAuthorized else TransactionDenied, op.id, op.merchant)));
  }

  // A capture finds the merchant's own sale, captures it only when it is authorized, and writes
  // status, version and the instant of the capture, and its event.
  lemma CapturedExactly(s: State, op: Op)
    requires op.Capture? && DistinctIds(s.txs)
    ensures (forall i :: !IsSale(s, i, op.merchant, op.id)) ==> Step(s, op) == Err(NotFound)
    ensures forall i :: IsSale(s, i, op.merchant, op.id) ==>
              Step(s, op) ==
              if s.txs[i].data.status != T.Authorized then Err(InvalidTransition)
              else if HasId(s.outbox, op.eid) then Err(DuplicateKey)
              else Ok(s.(txs := s.txs[i := Row(op.id, s.txs[i].version + 1, s.txs[i].data.(status := T.Captured, capturedAt := Some(op.now)))],
                         outbox := s.outbox + [Row(op.eid, 1, EventData(TransactionCaptured, op.id, op.merchant))]))
  {
    FoundExactly(s, op.merchant, op.id);
    hide FindTx, HasId, InsertAll;
    forall i | IsSale(s, i, op.merchant, op.id)
      ensures Step(s, op) ==
              if s.txs[i].data.status != T.Authorized then Err(InvalidTransition)
              else if HasId(s.outbox, op.eid) then Err(DuplicateKey)
              else Ok(s.(txs := s.txs[i := Row(op.id, s.txs[i].version + 1, s.txs[i].data.(status := T.Captured, capturedAt := Some(op.now)))],
                         outbox := s.outbox + [Row(op.eid, 1, EventData(TransactionCaptured, op.id, op.merchant))]))
    {
      T.TransitionTable(s.txs[i].data.status, T.Captured);
      hide T.Transitions, Update;
      UpdateFound(s.txs, i, Row(op.id, s.txs[i].version + 1, s.txs[i].data.(status := T.Captured, capturedAt := Some(op.now))));
      OneEvent(s.outbox, Row(op.eid, 1, EventData(TransactionCaptured, op.id, op.merchant)));
    }
  }

  // A cancellation likewise, of an authorized or a captured sale.
  lemma CanceledExactly(s: State, op: Op)
    requires op.Cancel? && DistinctIds(s.txs)
    ensures (forall i :: !IsSale(s, i, op.merchant, op.id)) ==> Step(s, op) == Err(NotFound)
    ensures forall i :: IsSale(s, i, op.merchant, op.id) ==>
              Step(s, op) ==
              if s.txs[i].data.status != T.Authorized && s.txs[i].data.status != T.Captured then Err(InvalidTransition)
              else if HasId(s.outbox, op.eid) then Err(DuplicateKey)
              else Ok(s.(txs := s.txs[i := Row(op.id, s.txs[i].version + 1, s.txs[i].data.(status := T.Canceled, canceledAt := Some(op.now)))],
                         outbox := s.outbox + [Row(op.eid, 1, EventData(TransactionCanceled, op.id, op.merchant))]))
  {
    FoundExactly(s, op.merchant, op.id);
    hide FindTx, HasId, InsertAll;
    forall i | IsSale(s, i, op.merchant, op.id)
      ensures Step(s, op) ==
              if s.txs[i].data.status != T.Authorized && s.txs[i].data.status != T.Captured then Err(InvalidTransition)
              else if HasId(s.outbox, op.eid) then Err(DuplicateKey)
              else Ok(s.(txs := s.txs[i := Row(op.id, s.txs[i].version + 1, s.txs[i].data.(status := T.Canceled, canceledAt := Some(op.now)))],
                         outbox := s.outbox + [Row(op.eid, 1, EventData(TransactionCanceled, op.id, op.merchant))]))
    {
      T.TransitionTable(s.txs[i].data.status, T.Canceled);
      hide T.Transitions, Update;
      UpdateFound(s.txs, i, Row(op.id, s.txs[i].version + 1, s.txs[i].data.(status := T.Canceled, canceledAt := Some(op.now))));
      OneEvent(s.outbox, Row(op.eid, 1, EventData(TransactionCanceled, op.id, op.merchant)));
    }
  }

  // ---- over runs

  // The step captures this sale at this instant.
  ghost predicate CapturesAt(s: State, op: Op, id: Id, at: nat) {
    op.Capture? && Step(s, op).Ok? && op.id == id && op.now == at
  }

  // The times of a sale, and everything but its status, version and times, are as they were, or a capture or
  // cancellation has just set its time.
  ghost predicate SameSale(s: State, op: Op, from: T.Tx, to: T.Tx) {
    && to.id == from.id
    && to.data.(status := from.data.status, capturedAt := from.data.capturedAt, canceledAt := from.data.canceledAt) == from.data
    && (to.data.capturedAt == from.data.capturedAt || (to.data.capturedAt.Some? && CapturesAt(s, op, to.id, to.data.capturedAt.value)))
    && (to.data.canceledAt == from.data.canceledAt
        || (op.Cancel? && Step(s, op).Ok? && op.id == to.id && to.data.canceledAt == Some(op.now)))
  }

  predicate ChargedBack(txs: seq<T.Tx>, txs': seq<T.Tx>, i: int) {
    0 <= i < |txs| && txs' == txs[i := txs[i].(version := txs[i].version + 1, data := txs[i].data.(status := T.Chargebacked))]
  }

  lemma TxsAfter(s: State, op: Op)
    requires Sound(s) && Enabled(s, op) && Step(s, op).Ok? && !op.Authorize? && !op.Capture? && !op.Cancel?
    ensures var txs' := Step(s, op).value.txs;
            txs' == s.txs || exists i :: ChargedBack(s.txs, txs', i)
  {
    hide Sound, Grows;
    KeysOf(s);
    match op {
      case OnCaptured(_, _, _, _) => CapturedGrows(s, op);
      case OnCanceled(k) =>
        var ev := s.outbox[k];
        if ev.id !in s.processed {
          ClosingGrows(s.(processed := s.processed + {ev.id}), CloseAll(Where(s.rcvs, R.OfTransaction(ev.data.aggregate)), R.Canceled));
        }
      case Anticipate(_, _, _, _, _, _, _, _) => AnticipateGrows(s, op);
      case OpenChargeback(_, _, _, _, _, _) =>
        OpenGrows(s, op);
        var i := Find(s.txs, op.id);
        UpdateFound(s.txs, i, T.Moved(s.txs[i], T.Chargebacked).value);
        assert ChargedBack(s.txs, Step(s, op).value.txs, i);
      case SettleBatch(day, _, picked, lots, _) => LotsGrow(s, day, picked, lots);
    }
  }

  ghost predicate TimesKept(s: State, op: Op, txs': seq<T.Tx>) {
    && |s.txs| <= |txs'| && (forall i :: 0 <= i < |s.txs| ==> SameSale(s, op, s.txs[i], txs'[i]))
    && forall i :: |s.txs| <= i < |txs'| ==> txs'[i].data.capturedAt == None && txs'[i].data.canceledAt == None
  }

  lemma OneChanged(s: State, op: Op, i: nat, row: T.Tx)
    requires i < |s.txs| && SameSale(s, op, s.txs[i], row)
    ensures TimesKept(s, op, s.txs[i := row])
  {
    hide Step;
  }

  lemma AuthorizedTimes(s: State, op: Op)
    requires op.Authorize? && Step(s, op).Ok?
    ensures TimesKept(s, op, Step(s, op).value.txs)
  {
    AuthorizedExactly(s, op);
    hide HasId, Step, Schedules.Rate;
  }

  lemma CapturedTimes(s: State, op: Op)
    requires DistinctIds(s.txs) && op.Capture? && Step(s, op).Ok?
    ensures TimesKept(s, op, Step(s, op).value.txs)
  {
    CapturedExactly(s, op);
    hide HasId, Step, TimesKept, DistinctIds;
    var i :| IsSale(s, i, op.merchant, op.id);
    OneChanged(s, op, i, Row(op.id, s.txs[i].version + 1, s.txs[i].data.(status := T.Captured, capturedAt := Some(op.now))));
  }

  lemma CanceledTimes(s: State, op: Op)
    requires DistinctIds(s.txs) && op.Cancel? && Step(s, op).Ok?
    ensures TimesKept(s, op, Step(s, op).value.txs)
  {
    CanceledExactly(s, op);
    hide HasId, Step, TimesKept, DistinctIds;
    var i :| IsSale(s, i, op.merchant, op.id);
    OneChanged(s, op, i, Row(op.id, s.txs[i].version + 1, s.txs[i].data.(status := T.Canceled, canceledAt := Some(op.now))));
  }

  lemma ChargedTimes(s: State, op: Op, txs': seq<T.Tx>, i: int)
    requires ChargedBack(s.txs, txs', i)
    ensures TimesKept(s, op, txs')
  {
    hide Step, TimesKept;
    OneChanged(s, op, i, s.txs[i].(version := s.txs[i].version + 1, data := s.txs[i].data.(status := T.Chargebacked)));
  }

  lemma OtherTimes(s: State, op: Op)
    requires Sound(s) && Enabled(s, op) && Step(s, op).Ok? && !op.Authorize? && !op.Capture? && !op.Cancel?
    ensures TimesKept(s, op, Step(s, op).value.txs)
  {
    TxsAfter(s, op);
    hide *;
    if i :| ChargedBack(s.txs, Step(s, op).value.txs, i) {
      ChargedTimes(s, op, Step(s, op).value.txs, i);
    } else {
      NoStepNoTimes(s, op);
    }
  }

  lemma StepTimes(s: State, op: Op)
    requires Sound(s)
    ensures TimesKept(s, op, Apply(s, op).txs)
  {
    KeysOf(s);
    hide Sound, Step, TimesKept, Enabled;
    NoStepNoTimes(s, op);
    if Enabled(s, op) && Step(s, op).Ok? {
      if op.Authorize? {
        AuthorizedTimes(s, op);
      } else if op.Capture? {
        CapturedTimes(s, op);
      } else if op.Cancel? {
        CanceledTimes(s, op);
      } else {
        OtherTimes(s, op);
      }
    }
  }

  lemma NoStepNoTimes(s: State, op: Op)
    ensures TimesKept(s, op, s.txs)
  {
    hide Step;
  }

  // In every run a sale that carries the time of a capture was captured at that time, by a step of the run.
  lemma {:induction false} CapturedByStep(ops: seq<Op>, i: nat, at: nat) returns (n: nat)
    requires i < |Exec(ops).txs| && Exec(ops).txs[i].data.capturedAt == Some(at)
    ensures n < |ops| && CapturesAt(Exec(ops[..n]), ops[n], Exec(ops).txs[i].id, at)
  {
    hide Sound, Inv, Apply, CapturesAt;
    var before, op := ops[..|ops|-1], ops[|ops|-1];
    var s := Exec(before);
    RunSafe(before);
    InvSound(s);
    StepTimes(s, op);
    assert SameSale(s, op, s.txs[i], Exec(ops).txs[i]);
    if s.txs[i].data.capturedAt == Some(at) {
      n := CapturedByStep(before, i, at);
      assert before[..n] == ops[..n];
    } else {
      n := |before|;
    }
  }
}
