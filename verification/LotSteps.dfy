/** What one merchant's lot does, exactly: refused before the bank, stopped by a statement, settled or recorded as failed. */
module LotSteps {
  import opened Results
  import opened Tables
  import opened Events
  import R = Receivables
  import S = Settlements
  import L = Ledger
  import opened Acquirer
  import opened Safety
  import opened Payouts

  // A row after the lot: settled, when the lot takes it.
  function AfterLot(r: R.Rcv, rows: seq<R.Rcv>, stlId: Id): R.Rcv {
    if r in rows then Row(r.id, r.version + 1, r.data.(status := R.Settled, settlement := Some(stlId))) else r
  }

  function AllSettled(rcvs: seq<R.Rcv>, rows: seq<R.Rcv>, stlId: Id): seq<R.Rcv> {
    seq(|rcvs|, j requires 0 <= j < |rcvs| => AfterLot(rcvs[j], rows, stlId))
  }

  // What is paid leaves the bank and is no longer owed to the merchant; where nothing is paid nothing is booked.
  function PaymentEntries(merchant: Id, paid: int, stlId: Id): seq<L.Entry> {
    if paid == 0 then []
    else [L.Entry(L.PayableToMerchant, merchant, paid, 0, L.OfSettlement, stlId), L.Entry(L.BankOutgoing, merchant, 0, paid, L.OfSettlement, stlId)]
  }

  // The tables after a lot the bank accepts, and after one it rejects.
  function Paid(s: State, rows: seq<R.Rcv>, lot: Lot, built: S.Stl): State {
    s.(rcvs := AllSettled(s.rcvs, rows, lot.stlId),
       stls := s.stls + [Row(lot.stlId, 3, built.data.(status := S.Confirmed))],
       ledger := s.ledger + PaymentEntries(lot.merchant, built.data.toMerchant + built.data.toCreditors, lot.stlId),
       outbox := s.outbox + [Row(lot.eid, 1, EventData(SettlementCompleted, lot.stlId, lot.merchant))])
  }

  function Refused(s: State, lot: Lot, built: S.Stl): State {
    s.(stls := s.stls + [Row(lot.stlId, 2, built.data.(status := S.Failed))],
       outbox := s.outbox + [Row(lot.eid, 1, EventData(SettlementFailed, lot.stlId, lot.merchant))])
  }

  // A lot, exactly.
  lemma LotExactly(s: State, day: nat, rows: seq<R.Rcv>, lot: Lot)
    requires Sound(s) && LotRows(s, day, rows, lot.merchant)
    ensures lot.liens.Some? ==> S.Build(lot.stlId, day, lot.merchant, rows, lot.liens.value).Ok?
    ensures SettleLot(s, day, rows, lot) ==
            if !lot.known then Err(NotFound)
            else if lot.liens == None then Err(RegistryDown)
            else if HasId(s.stls, lot.stlId) then Err(DuplicateKey)
            else if !lot.posts || !lot.stored then Err(StatementFailed)
            else if HasId(s.outbox, lot.eid) then Err(DuplicateKey)
            else
              var built := S.Build(lot.stlId, day, lot.merchant, rows, lot.liens.value).value;
              Ok(if lot.accepted then Paid(s, rows, lot, built) else Refused(s, lot, built))
  {
    hide *;
    if lot.liens.Some? {
      LotIsBuilt(s, day, rows, lot);
    }
    LotStops(s, day, rows, lot);
    if lot.known && lot.liens.Some? && !HasId(s.stls, lot.stlId) && lot.posts && lot.stored && !HasId(s.outbox, lot.eid) {
      if lot.accepted {
        PaidExactly(s, day, rows, lot);
      } else {
        RefusedExactly(s, day, rows, lot);
      }
    }
  }

  lemma LotIsBuilt(s: State, day: nat, rows: seq<R.Rcv>, lot: Lot)
    requires Sound(s) && LotRows(s, day, rows, lot.merchant) && lot.liens.Some?
    ensures S.Build(lot.stlId, day, lot.merchant, rows, lot.liens.value).Ok?
  {
    RowsNotNegative(s, day, rows, lot.merchant);
    S.BuildConserves(lot.stlId, day, lot.merchant, rows, lot.liens.value);
  }

  // The lots that do not go through, and their errors.
  lemma LotStops(s: State, day: nat, rows: seq<R.Rcv>, lot: Lot)
    requires Sound(s) && LotRows(s, day, rows, lot.merchant)
    requires lot.liens.Some? ==> S.Build(lot.stlId, day, lot.merchant, rows, lot.liens.value).Ok?
    ensures !lot.known ==> SettleLot(s, day, rows, lot) == Err(NotFound)
    ensures lot.known && lot.liens == None ==> SettleLot(s, day, rows, lot) == Err(RegistryDown)
    ensures lot.known && lot.liens.Some? && HasId(s.stls, lot.stlId) ==> SettleLot(s, day, rows, lot) == Err(DuplicateKey)
    ensures lot.known && lot.liens.Some? && !HasId(s.stls, lot.stlId) && (!lot.posts || !lot.stored) ==>
              SettleLot(s, day, rows, lot) == Err(StatementFailed)
    ensures lot.known && lot.liens.Some? && !HasId(s.stls, lot.stlId) && lot.posts && lot.stored && HasId(s.outbox, lot.eid) ==>
              SettleLot(s, day, rows, lot) == Err(DuplicateKey)
  {
    if lot.known && lot.liens.Some? && !HasId(s.stls, lot.stlId) {
      var built := S.Build(lot.stlId, day, lot.merchant, rows, lot.liens.value).value;
      S.BuildFields(lot.stlId, day, lot.merchant, rows, lot.liens.value);
      if lot.posts && lot.stored && HasId(s.outbox, lot.eid) {
        OneEvent(s.outbox, NewEvent(lot.eid, if lot.accepted then SettlementCompleted else SettlementFailed, built.id, lot.merchant));
        if lot.accepted {
          EventRefused(s, day, rows, lot);
        } else {
          CreateThenUpdate(s.stls, built, S.MarkFailed(built).value);
        }
      }
    }
    hide Sound, LotRows, S.Build, PostSettled, HasId, InsertAll, Update, StoreAccepted;
  }

  // An accepted lot whose event id is taken fails at its last statement.
  lemma EventRefused(s: State, day: nat, rows: seq<R.Rcv>, lot: Lot)
    requires Sound(s) && LotRows(s, day, rows, lot.merchant) && lot.known && lot.liens.Some? && lot.posts && lot.stored && lot.accepted
    requires !HasId(s.stls, lot.stlId) && HasId(s.outbox, lot.eid)
    ensures SettleLot(s, day, rows, lot) == Err(DuplicateKey)
  {
    var built, x, news := AcceptedTakes(s, day, rows, lot);
    assert Replaces(s.rcvs, rows, news);
    UpdateAllIsPatch(s.rcvs, rows, news);
    CreateThenUpdate(s.stls, built, x);
    PostsShape(s.(stls := s.stls + [built]), built, x, rows, news, s.stls + [x]);
    OneEvent(s.outbox, NewEvent(lot.eid, SettlementCompleted, built.id, lot.merchant));
    hide Sound, LotRows, S.Build, PostSettled, HasId, InsertAll, Update, UpdateAll, Patch, Replaces, SettlesRows, SettleAll, L.ForSettlement, S.MarkSent, S.MarkConfirmed;
  }

  lemma PaidExactly(s: State, day: nat, rows: seq<R.Rcv>, lot: Lot)
    requires Sound(s) && LotRows(s, day, rows, lot.merchant) && lot.known && lot.liens.Some? && lot.posts && lot.stored && lot.accepted
    requires !HasId(s.stls, lot.stlId) && !HasId(s.outbox, lot.eid)
    ensures S.Build(lot.stlId, day, lot.merchant, rows, lot.liens.value).Ok?
    ensures SettleLot(s, day, rows, lot) == Ok(Paid(s, rows, lot, S.Build(lot.stlId, day, lot.merchant, rows, lot.liens.value).value))
  {
    hide *;
    LotIsBuilt(s, day, rows, lot);
    var x, news, e := AcceptedShape(s, day, rows, lot);
    SettlesMeans(s.rcvs, rows, news, x);
    RowsAfterLot(s.rcvs, rows, news, lot.stlId);
    BuiltThenPaid(lot.stlId, day, lot.merchant, rows, lot.liens.value, x);
    PaidIs(s, rows, lot, S.Build(lot.stlId, day, lot.merchant, rows, lot.liens.value).value, x, news, e);
  }

  lemma SettlesMeans(rcvs: seq<R.Rcv>, rows: seq<R.Rcv>, news: seq<R.Rcv>, x: S.Stl)
    requires SettlesRows(rcvs, rows, news, x)
    ensures Replaces(rcvs, rows, news) && forall i :: 0 <= i < |rows| ==> R.Settle(rows[i], x.id) == Ok(news[i])
  {
    hide Replaces, R.Settle;
  }

  lemma BuiltThenPaid(id: Id, day: nat, merchant: Id, rows: seq<R.Rcv>, liens: seq<S.Lien>, x: S.Stl)
    requires S.Build(id, day, merchant, rows, liens).Ok? && x == S.Confirmation(S.Build(id, day, merchant, rows, liens).value)
    ensures var built := S.Build(id, day, merchant, rows, liens).value;
            && x == Row(id, 3, built.data.(status := S.Confirmed))
            && L.ForSettlement(x) == PaymentEntries(merchant, built.data.toMerchant + built.data.toCreditors, id)
  {
    S.BuildFields(id, day, merchant, rows, liens);
    hide S.Build;
  }

  lemma PaidIs(s: State, rows: seq<R.Rcv>, lot: Lot, built: S.Stl, x: S.Stl, news: seq<R.Rcv>, e: Event)
    requires Patch(s.rcvs, news) == AllSettled(s.rcvs, rows, lot.stlId) && x == Row(lot.stlId, 3, built.data.(status := S.Confirmed))
    requires L.ForSettlement(x) == PaymentEntries(lot.merchant, built.data.toMerchant + built.data.toCreditors, lot.stlId)
    requires e == NewEvent(lot.eid, SettlementCompleted, lot.stlId, lot.merchant)
    ensures s.(rcvs := Patch(s.rcvs, news), stls := s.stls + [x], ledger := s.ledger + L.ForSettlement(x), outbox := s.outbox + [e]) ==
            Paid(s, rows, lot, built)
  {
    hide Patch, AllSettled, L.ForSettlement, PaymentEntries;
  }

  lemma RowsAfterLot(rcvs: seq<R.Rcv>, rows: seq<R.Rcv>, news: seq<R.Rcv>, stlId: Id)
    requires Replaces(rcvs, rows, news) && forall i :: 0 <= i < |rows| ==> R.Settle(rows[i], stlId) == Ok(news[i])
    ensures Patch(rcvs, news) == AllSettled(rcvs, rows, stlId)
  {
    hide R.Settle;
    forall i | 0 <= i < |rows|
      ensures news[i] == Row(rows[i].id, rows[i].version + 1, rows[i].data.(status := R.Settled, settlement := Some(stlId)))
    {
      R.ChangesExactly(rows[i], R.Settled, stlId);
    }
    forall j | 0 <= j < |rcvs|
      ensures Patch(rcvs, news)[j] == AfterLot(rcvs[j], rows, stlId)
    {
      PatchHit(rcvs, rows, news, j);
    }
  }

  lemma RefusedExactly(s: State, day: nat, rows: seq<R.Rcv>, lot: Lot)
    requires Sound(s) && LotRows(s, day, rows, lot.merchant) && lot.known && lot.liens.Some? && lot.posts && lot.stored && !lot.accepted
    requires !HasId(s.stls, lot.stlId) && !HasId(s.outbox, lot.eid)
    ensures S.Build(lot.stlId, day, lot.merchant, rows, lot.liens.value).Ok?
    ensures SettleLot(s, day, rows, lot) == Ok(Refused(s, lot, S.Build(lot.stlId, day, lot.merchant, rows, lot.liens.value).value))
  {
    LotIsBuilt(s, day, rows, lot);
    S.BuildFields(lot.stlId, day, lot.merchant, rows, lot.liens.value);
    var built := S.Build(lot.stlId, day, lot.merchant, rows, lot.liens.value).value;
    CreateThenUpdate(s.stls, built, S.MarkFailed(built).value);
    OneEvent(s.outbox, NewEvent(lot.eid, SettlementFailed, built.id, lot.merchant));
    hide Sound, LotRows, S.Build, HasId, InsertAll, Update;
  }
}
