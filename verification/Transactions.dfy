/** Card transactions: the factory, the transition table and the events each transition records. */
module Transactions {
  import opened Results
  import opened Tables
  import opened Events
  import opened FeePlans

  datatype Status = Pending | Authorized | Denied | Captured | Canceled | Settled | Chargebacked

  datatype TxData = TxData(merchant: Id, amount: int, product: Product, installments: int, brand: Id,
                           status: Status, capturedAt: Option<nat>, canceledAt: Option<nat>)

  type Tx = Row<TxData>

  function Transitions(from: Status): seq<Status> {
    match from
    case Pending => [Authorized, Denied]
    case Authorized => [Captured, Canceled]
    case Captured => [Canceled, Settled, Chargebacked]
    case Settled => [Chargebacked]
    case _ => []
  }

  // The whole table, pair by pair.
  lemma TransitionTable(from: Status, to: Status)
    ensures to in Transitions(from) <==>
            || (from == Pending && (to == Authorized || to == Denied))
            || (from == Authorized && (to == Captured || to == Canceled))
            || (from == Captured && (to == Canceled || to == Settled || to == Chargebacked))
            || (from == Settled && to == Chargebacked)
  {
    assert Transitions(Pending) == [Authorized, Denied] && Transitions(Authorized) == [Captured, Canceled];
    assert Transitions(Captured) == [Canceled, Settled, Chargebacked] && Transitions(Settled) == [Chargebacked];
  }

  // A transition changes the status and counts one version.
  function Moved(t: Tx, to: Status): Result<Tx> {
    if to in Transitions(t.data.status)
    then Ok(t.(version := t.version + 1, data := t.data.(status := to)))
    else Err(InvalidTransition)
  }

  function Capture(t: Tx, now: nat): Result<Tx> {
    var moved :- Moved(t, Captured);
    Ok(moved.(data := moved.data.(capturedAt := Some(now))))
  }

  function Cancel(t: Tx, now: nat): Result<Tx> {
    var moved :- Moved(t, Canceled);
    Ok(moved.(data := moved.data.(canceledAt := Some(now))))
  }

  // The factory checks all it can before the issuer is asked.
  function New(id: Id, merchant: Id, active: bool, plan: FeePlan, amount: int, product: Product, installments: int, brand: Id): Result<Tx> {
    if !active then Err(MerchantInactive)
    else if amount <= 0 then Err(InvalidAmount)
    else if installments < 1 || installments > 12 then Err(MaxInstallments)
    else if product.Debit? && installments != 1 then Err(DebitInstallments)
    else
      var _ :- plan.MDR(product, installments);
      Ok(Row(id, 1, TxData(merchant, amount, product, installments, brand, Pending, None, None)))
  }

  // States a transaction can be in before its capture.
  predicate BeforeCapture(s: Status) {
    s.Pending? || s.Authorized? || s.Denied?
  }

  // No way leads back to a state before the capture, and none leaves the two closing states.
  lemma TransitionsAreOneWay(from: Status, to: Status)
    requires to in Transitions(from)
    ensures !BeforeCapture(from) ==> !BeforeCapture(to)
    ensures from != Canceled && from != Chargebacked && from != Denied
    ensures to == Captured ==> from == Authorized
  {
  }

  class Transaction {
    const id: Id
    const merchant: Id
    const amount: int
    const product: Product
    const installments: int
    const brand: Id
    var status: Status
    var capturedAt: Option<nat>
    var canceledAt: Option<nat>
    var version: nat
    var events: seq<Event>

    function View(): Tx
      reads this
    {
      Row(id, version, TxData(merchant, amount, product, installments, brand, status, capturedAt, canceledAt))
    }

    constructor Restore(row: Tx)
      ensures View() == row && events == []
    {
      id, version := row.id, row.version;
      merchant, amount, product := row.data.merchant, row.data.amount, row.data.product;
      installments, brand := row.data.installments, row.data.brand;
      status, capturedAt, canceledAt := row.data.status, row.data.capturedAt, row.data.canceledAt;
      events := [];
    }

    method Transition(to: Status) returns (r: Result<()>)
      modifies this`status, this`version
      ensures r == if to in Transitions(old(status)) then Ok(()) else Err(InvalidTransition)
      ensures View() == if r.Ok? then old(View()).(version := old(version) + 1, data := old(View()).data.(status := to)) else old(View())
    {
      var allowed := Transitions(status);
      for i := 0 to |allowed|
        invariant status == old(status) && version == old(version)
        invariant to !in allowed[..i]
      {
        if allowed[i] == to {
          status := to;
          version := version + 1;
          return Ok(());
        }
      }
      assert allowed[..|allowed|] == allowed;
      return Err(InvalidTransition);
    }

    method Authorize(eid: Id) returns (r: Result<()>)
      modifies this
      ensures r == if old(status) == Pending then Ok(()) else Err(InvalidTransition)
      ensures View() == if r.Ok? then old(View()).(version := old(version) + 1, data := old(View()).data.(status := Authorized)) else old(View())
      ensures events == old(events) + if r.Ok? then [NewEvent(eid, TransactionAuthorized, id, merchant)] else []
    {
      var moved := Transition(Authorized);
      if moved.Err? { return moved; }
      events := events + [NewEvent(eid, TransactionAuthorized, id, merchant)];
      return Ok(());
    }

    method Deny(eid: Id) returns (r: Result<()>)
      modifies this
      ensures r == if old(status) == Pending then Ok(()) else Err(InvalidTransition)
      ensures View() == if r.Ok? then old(View()).(version := old(version) + 1, data := old(View()).data.(status := Denied)) else old(View())
      ensures events == old(events) + if r.Ok? then [NewEvent(eid, TransactionDenied, id, merchant)] else []
    {
      var moved := Transition(Denied);
      if moved.Err? { return moved; }
      events := events + [NewEvent(eid, TransactionDenied, id, merchant)];
      return Ok(());
    }

    method CaptureNow(now: nat, eid: Id) returns (r: Result<()>)
      modifies this
      ensures r == if old(status) == Authorized then Ok(()) else Err(InvalidTransition)
      ensures View() == if r.Ok? then old(View()).(version := old(version) + 1,
                                                   data := old(View()).data.(status := Captured, capturedAt := Some(now)))
                        else old(View())
      ensures events == old(events) + if r.Ok? then [NewEvent(eid, TransactionCaptured, id, merchant)] else []
    {
      var moved := Transition(Captured);
      if moved.Err? { return moved; }
      capturedAt := Some(now);
      events := events + [NewEvent(eid, TransactionCaptured, id, merchant)];
      return Ok(());
    }

    method CancelNow(now: nat, eid: Id) returns (r: Result<()>)
      modifies this
      ensures r == if old(status) == Authorized || old(status) == Captured then Ok(()) else Err(InvalidTransition)
      ensures View() == if r.Ok? then old(View()).(version := old(version) + 1,
                                                   data := old(View()).data.(status := Canceled, canceledAt := Some(now)))
                        else old(View())
      ensures events == old(events) + if r.Ok? then [NewEvent(eid, TransactionCanceled, id, merchant)] else []
    {
      var moved := Transition(Canceled);
      if moved.Err? { return moved; }
      canceledAt := Some(now);
      events := events + [NewEvent(eid, TransactionCanceled, id, merchant)];
      return Ok(());
    }

    method Chargeback(eid: Id) returns (r: Result<()>)
      modifies this
      ensures r == if old(status) == Captured || old(status) == Settled then Ok(()) else Err(InvalidTransition)
      ensures View() == if r.Ok? then old(View()).(version := old(version) + 1, data := old(View()).data.(status := Chargebacked)) else old(View())
      ensures events == old(events) + if r.Ok? then [NewEvent(eid, TransactionChargebacked, id, merchant)] else []
    {
      var moved := Transition(Chargebacked);
      if moved.Err? { return moved; }
      events := events + [NewEvent(eid, TransactionChargebacked, id, merchant)];
      return Ok(());
    }

    method PullEvents() returns (evs: seq<Event>)
      modifies this`events
      ensures evs == old(events) && events == []
    {
      evs := events;
      events := [];
    }
  }
}
