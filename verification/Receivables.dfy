/** Receivables: the instalments of a captured sale, from the agenda to their end. */
module Receivables {
  import opened Results
  import opened Tables
  import opened FeePlans

  datatype Status = Scheduled | Anticipated | Settled | Canceled | Chargebacked

  datatype RcvData = RcvData(txId: Id, merchant: Id, no: nat, installments: nat, product: Product, brand: Id,
                             gross: int, fee: int, net: int, due: nat,
                             status: Status, settlement: Option<Id>, anticipation: Option<Id>)

  type Rcv = Row<RcvData>

  function NewReceivable(id: Id, txId: Id, merchant: Id, no: nat, installments: nat, product: Product, brand: Id,
                         gross: int, fee: int, due: nat): Rcv {
    Row(id, 1, RcvData(txId, merchant, no, installments, product, brand, gross, fee, gross - fee, due, Scheduled, None, None))
  }

  function Transitions(from: Status): seq<Status> {
    match from
    case Scheduled => [Anticipated, Settled, Canceled, Chargebacked]
    case Anticipated => [Settled, Chargebacked]
    case _ => []
  }

  // The whole table, pair by pair.
  lemma TransitionTable(from: Status, to: Status)
    ensures to in Transitions(from) <==>
            || (from == Scheduled && to != Scheduled)
            || (from == Anticipated && (to == Settled || to == Chargebacked))
  {
    assert Transitions(Scheduled) == [Anticipated, Settled, Canceled, Chargebacked] && Transitions(Anticipated) == [Settled, Chargebacked];
  }

  function Moved(r: Rcv, to: Status): Result<Rcv> {
    if to in Transitions(r.data.status)
    then Ok(r.(version := r.version + 1, data := r.data.(status := to)))
    else Err(InvalidTransition)
  }

  function Anticipate(r: Rcv, anticipation: Id): Result<Rcv> {
    var moved :- Moved(r, Anticipated);
    Ok(moved.(data := moved.data.(anticipation := Some(anticipation))))
  }

  function Settle(r: Rcv, settlement: Id): Result<Rcv> {
    var moved :- Moved(r, Settled);
    Ok(moved.(data := moved.data.(settlement := Some(settlement))))
  }

  // Every change of a receivable, column by column.
  lemma ChangesExactly(r: Rcv, to: Status, id: Id)
    ensures Moved(r, to) == if to in Transitions(r.data.status) then Ok(Row(r.id, r.version + 1, r.data.(status := to))) else Err(InvalidTransition)
    ensures Anticipate(r, id) == if r.data.status.Scheduled?
                                 then Ok(Row(r.id, r.version + 1, r.data.(status := Anticipated, anticipation := Some(id))))
                                 else Err(InvalidTransition)
    ensures Settle(r, id) == if r.data.status.Scheduled? || r.data.status.Anticipated?
                             then Ok(Row(r.id, r.version + 1, r.data.(status := Settled, settlement := Some(id))))
                             else Err(InvalidTransition)
  {
    TransitionTable(r.data.status, Anticipated);
    TransitionTable(r.data.status, Settled);
    hide Transitions;
  }

  predicate IsAnticipable(r: Rcv, today: nat) {
    r.data.status.Scheduled? && r.data.due > today
  }

  // What no transition touches: everything but the status and the two links.
  function Frozen(r: Rcv): (Id, RcvData) {
    (r.id, r.data.(status := Scheduled, settlement := None, anticipation := None))
  }

  class Receivable {
    const id: Id
    const txId: Id
    const merchant: Id
    const no: nat
    const installments: nat
    const product: Product
    const brand: Id
    const gross: int
    const fee: int
    const net: int
    const due: nat
    var status: Status
    var settlement: Option<Id>
    var anticipation: Option<Id>
    var version: nat

    function View(): Rcv
      reads this
    {
      Row(id, version, RcvData(txId, merchant, no, installments, product, brand, gross, fee, net, due,
                               status, settlement, anticipation))
    }

    constructor Restore(row: Rcv)
      ensures View() == row
    {
      id, version := row.id, row.version;
      txId, merchant, no, installments := row.data.txId, row.data.merchant, row.data.no, row.data.installments;
      product, brand := row.data.product, row.data.brand;
      gross, fee, net, due := row.data.gross, row.data.fee, row.data.net, row.data.due;
      status, settlement, anticipation := row.data.status, row.data.settlement, row.data.anticipation;
    }

    constructor New(id: Id, txId: Id, merchant: Id, no: nat, installments: nat, product: Product, brand: Id,
                    gross: int, fee: int, due: nat)
      ensures View() == NewReceivable(id, txId, merchant, no, installments, product, brand, gross, fee, due)
    {
      this.id, this.txId, this.merchant, this.no, this.installments := id, txId, merchant, no, installments;
      this.product, this.brand, this.gross, this.fee, this.net, this.due := product, brand, gross, fee, gross - fee, due;
      status, settlement, anticipation, version := Scheduled, None, None, 1;
    }

    method Transition(to: Status) returns (r: Result<()>)
      modifies this`status, this`version
      ensures r == if to in Transitions(old(status)) then Ok(()) else Err(InvalidTransition)
      ensures View() == if r.Ok? then old(View()).(version := old(version) + 1, data := old(View()).data.(status := to)) else old(View())
    {
      var allowed := Transitions(status);
      for i := 0 to |allowed|
        invariant status == old(status) && version == old(version)
        invariant to !in allowed[..i]
      {
        if allowed[i] == to {
          status := to;
          version := version + 1;
          return Ok(());
        }
      }
      assert allowed[..|allowed|] == allowed;
      return Err(InvalidTransition);
    }

    method AnticipateBy(anticipationId: Id) returns (r: Result<()>)
      modifies this
      ensures r == if old(status) == Scheduled then Ok(()) else Err(InvalidTransition)
      ensures View() == if r.Ok? then old(View()).(version := old(version) + 1,
                                                   data := old(View()).data.(status := Anticipated, anticipation := Some(anticipationId)))
                        else old(View())
    {
      r := Transition(Anticipated);
      if r.Err? { return; }
      anticipation := Some(anticipationId);
    }

    method SettleBy(settlementId: Id) returns (r: Result<()>)
      modifies this
      ensures r == if old(status) == Scheduled || old(status) == Anticipated then Ok(()) else Err(InvalidTransition)
      ensures View() == if r.Ok? then old(View()).(version := old(version) + 1,
                                                   data := old(View()).data.(status := Settled, settlement := Some(settlementId)))
                        else old(View())
    {
      r := Transition(Settled);
      if r.Err? { return; }
      settlement := Some(settlementId);
    }
  }

  // ---- weights of a row, for sums over the agenda

  function Gross(): Rcv -> int { (r: Rcv) => r.data.gross }

  function Fee(): Rcv -> int { (r: Rcv) => r.data.fee }

  function Net(): Rcv -> int { (r: Rcv) => r.data.net }

  // The receivables of one transaction.
  function OfTransaction(txId: Id): Rcv -> bool { (r: Rcv) => r.data.txId == txId }
}
