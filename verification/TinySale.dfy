/** A sale whose agenda the ledger never takes: sold, captured, and refused at every delivery of its captured event. */
module TinySale {
  import opened Results
  import opened Tables
  import opened Events
  import opened FeePlans
  import T = Transactions
  import R = Receivables
  import L = Ledger
  import opened Acquirer
  import opened Safety
  import opened Theorems
  import opened LateRead

  // Twelve cents in twelve instalments at 99.99 %.
  const SELL := Authorize(1, 1, true, TINY_PLAN, 12, Credit, 12, 0, true, 1)
  const CAPTURE_IT := Capture(1, 1, 0, 2)

  function SoldTiny(status: T.Status, version: nat, capturedAt: Option<nat>): T.Tx {
    TinySale(1).(version := version, data := TinySale(1).data.(status := status, capturedAt := capturedAt))
  }

  lemma AfterTinySale()
    ensures Exec([SELL]) == Init().(txs := [SoldTiny(T.Authorized, 2, None)], outbox := [NewEvent(1, TransactionAuthorized, 1, 1)])
  {
    ExecNext([], SELL);
    assert [] + [SELL] == [SELL];
    OneEvent([], NewEvent(1, TransactionAuthorized, 1, 1));
    assert TINY_PLAN.MDR(Credit, 12) == Ok(9999);
  }

  lemma AfterTinyCapture()
    ensures Exec([SELL, CAPTURE_IT]) == Init().(txs := [TinySale(1)],
                                                outbox := [NewEvent(1, TransactionAuthorized, 1, 1), NewEvent(2, TransactionCaptured, 1, 1)])
  {
    AfterTinySale();
    hide Exec;
    ExecNext([SELL], CAPTURE_IT);
    assert [SELL] + [CAPTURE_IT] == [SELL, CAPTURE_IT];
    var s := Init().(txs := [SoldTiny(T.Authorized, 2, None)], outbox := [NewEvent(1, TransactionAuthorized, 1, 1)]);
    OneEvent(s.outbox, NewEvent(2, TransactionCaptured, 1, 1));
    UpdateFound(s.txs, 0, TinySale(1));
  }

  // A delivery of the captured event under the plan of the sale, with whatever ids.
  ghost predicate IsTinyDelivery(op: Op) {
    op.OnCaptured? && op.k == 1 && op.merchantPlan == Some(TINY_PLAN)
  }

  // A handler whose agenda the ledger refuses fails: with the ledger's error when the ids are new.
  lemma RefusedAgenda(s: State, op: Op, tx: T.Tx, list: seq<R.Rcv>)
    requires op.OnCaptured? && Enabled(s, op) && s.outbox[op.k].id !in s.processed && op.merchantPlan.Some?
    requires FindTx(s, s.outbox[op.k].data.merchant, s.outbox[op.k].data.aggregate) == Ok(tx)
    requires Agenda(tx, op.merchantPlan.value, op.ids) == Ok(list) && L.Append(s.ledger, L.ForScheduled(list)) == Err(CheckViolation)
    ensures Step(s, op).Err? && (InsertAll(s.rcvs, list).Ok? ==> Step(s, op) == Err(CheckViolation))
  {
    hide Agenda, FindTx, L.Append, L.ForScheduled, InsertAll;
  }

  ghost predicate DifferentIds(ids: nat -> Id, n: nat) {
    forall k: nat, l: nat :: 1 <= k < l <= n ==> ids(k) != ids(l)
  }

  lemma TinyAgendaFits(ids: nat -> Id) returns (list: seq<R.Rcv>)
    ensures Agenda(TinySale(1), TINY_PLAN, ids) == Ok(list)
    ensures L.Append([], L.ForScheduled(list)) == Err(CheckViolation)
    ensures DifferentIds(ids, 12) ==> InsertAll([], list).Ok?
  {
    hide Agenda, L.Append, L.ForScheduled, InsertAll;
    TinyAgenda(ids, 1);
    AgendaExists(TinySale(1), TINY_PLAN, ids);
    TinySaleIsRefused([], ids, 1);
    list := Agenda(TinySale(1), TINY_PLAN, ids).value;
    InsertAllExactly([], list);
  }

  // The delivery finds the sale and computes its agenda, and the ledger's CHECK refuses it.
  lemma TinyDeliveryFails(op: Op)
    requires IsTinyDelivery(op)
    ensures var s := Exec([SELL, CAPTURE_IT]);
            Enabled(s, op) && Step(s, op).Err? && (DifferentIds(op.ids, 12) ==> Step(s, op) == Err(CheckViolation))
  {
    AfterTinyCapture();
    TinyPlanIsValid();
    hide Exec, Agenda, L.Append, L.ForScheduled, InsertAll, DifferentIds, Step;
    var list := TinyAgendaFits(op.ids);
    RefusedAgenda(Exec([SELL, CAPTURE_IT]), op, TinySale(1), list);
  }

  lemma TinyPlanIsValid()
    ensures TINY_PLAN.Valid()
  {
    TinyAgenda((k: nat) => k, 1);
  }

  // However often the event is delivered, the sale stays captured without an agenda.
  lemma {:induction false} TinySaleNeverScheduled(deliveries: seq<Op>)
    requires forall i :: 0 <= i < |deliveries| ==> IsTinyDelivery(deliveries[i])
    ensures Exec([SELL, CAPTURE_IT] + deliveries) == Exec([SELL, CAPTURE_IT])
    ensures Exec([SELL, CAPTURE_IT] + deliveries).txs == [TinySale(1)] && Exec([SELL, CAPTURE_IT] + deliveries).rcvs == []
  {
    hide Exec, Step, IsTinyDelivery;
    AfterTinyCapture();
    if deliveries == [] {
      assert [SELL, CAPTURE_IT] + deliveries == [SELL, CAPTURE_IT];
    } else {
      var before, op := deliveries[..|deliveries|-1], deliveries[|deliveries|-1];
      TinySaleNeverScheduled(before);
      TinyDeliveryFails(op);
      ExecNext([SELL, CAPTURE_IT] + before, op);
      assert [SELL, CAPTURE_IT] + deliveries == [SELL, CAPTURE_IT] + before + [op];
    }
  }
}
