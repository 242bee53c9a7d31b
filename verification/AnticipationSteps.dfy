/** What a request to anticipate does, exactly: when it goes through, what the merchant gets, and how the balances move. */
module AnticipationSteps {
  import opened Results
  import opened Sums
  import opened Tables
  import opened Events
  import R = Receivables
  import A = Anticipations
  import L = Ledger
  import opened Acquirer
  import opened Reconciliation
  import opened Payouts
  import opened Safety
  import opened ClosingSteps

  // The merchant's own receivables among the ids asked for.
  function AskedFor(op: Op): R.Rcv -> bool
    requires op.Anticipate?
  {
    (r: R.Rcv) => r.data.merchant == op.merchant && r.id in op.rcvIds
  }

  lemma {:induction false} SameWhere(t: seq<R.Rcv>, p: R.Rcv -> bool, q: R.Rcv -> bool)
    requires forall r :: p(r) == q(r)
    ensures Where(t, p) == Where(t, q)
  {
    if t != [] {
      SameWhere(t[..|t|-1], p, q);
    }
  }

  // ---- liens

  // The registry says of every due date of the list that there is no lien on it.
  ghost predicate Free(rows: seq<R.Rcv>, liened: nat -> Option<bool>) {
    forall i :: 0 <= i < |rows| ==> liened(rows[i].data.due) == Some(false)
  }

  // The first due date with a lien, or without an answer, decides the error; with none the check passes.
  lemma {:induction false} LiensExactly(rows: seq<R.Rcv>, liened: nat -> Option<bool>)
    ensures LienCheck(rows, liened).Ok? <==> Free(rows, liened)
    ensures forall i :: 0 <= i < |rows| && liened(rows[i].data.due) != Some(false) && Free(rows[..i], liened) ==>
              LienCheck(rows, liened) == Err(if liened(rows[i].data.due) == None then RegistryDown else ReceivableLiened)
  {
    if rows != [] {
      var n := |rows| - 1;
      var before := rows[..n];
      LiensExactly(before, liened);
      assert forall i :: 0 <= i < n ==> before[i] == rows[i] && before[..i] == rows[..i];
    }
  }

  // ---- the request

  // The items a request offers, one for each receivable, with the pricer's value of it.
  function OfferedItems(rows: seq<R.Rcv>, today: nat, rate: int, pricer: A.Pricer): seq<A.Item> {
    seq(|rows|, i requires 0 <= i < |rows| =>
      var r := rows[i].data;
      var value := pricer(r.net, r.due - today, rate);
      A.Item(rows[i].id, r.due, r.due - today, r.net, value, r.net - value))
  }

  // A row after the request.
  function AfterAnticipation(r: R.Rcv, op: Op): R.Rcv
    requires op.Anticipate?
  {
    if AskedFor(op)(r) then Row(r.id, r.version + 1, r.data.(status := R.Anticipated, anticipation := Some(op.aid))) else r
  }

  function AllAnticipated(rcvs: seq<R.Rcv>, op: Op): seq<R.Rcv>
    requires op.Anticipate?
  {
    seq(|rcvs|, j requires 0 <= j < |rcvs| => AfterAnticipation(rcvs[j], op))
  }

  // The merchant is owed that much less; the bank pays it the present value; the discount is earned.
  function AdvanceEntries(merchant: Id, gross: int, net: int, aid: Id): seq<L.Entry> {
    [L.Entry(L.PayableToMerchant, merchant, gross, 0, L.OfAnticipation, aid),
     L.Entry(L.BankOutgoing, merchant, 0, net, L.OfAnticipation, aid),
     L.Entry(L.RevenueAnticipation, merchant, 0, gross - net, L.OfAnticipation, aid)]
  }

  // The tables after the request, for the rows it takes and what they are worth to the merchant today.
  function Granted(s: State, op: Op, rows: seq<R.Rcv>): State
    requires op.Anticipate?
  {
    var today := op.now / 86400;
    var gross, net := Sum(rows, R.Net()), Sum(rows, A.PricedAt(today, op.rate, op.pricer));
    s.(rcvs := AllAnticipated(s.rcvs, op),
       ants := s.ants + [Row(op.aid, 2, A.AntData(op.merchant, OfferedItems(rows, today, op.rate, op.pricer), gross, gross - net, net, op.rate,
                                                  op.now, A.Confirmed))],
       ledger := s.ledger + AdvanceEntries(op.merchant, gross, net, op.aid),
       outbox := s.outbox + [Row(op.eid, 1, EventData(AnticipationConfirmed, op.aid, op.merchant))])
  }

  // All rows are scheduled and fall due after today.
  ghost predicate AllOffered(rows: seq<R.Rcv>, merchant: Id, today: nat) {
    forall i :: 0 <= i < |rows| ==> A.Offered(merchant, rows[i], today)
  }

  // A request, exactly. Every id asked for must be a receivable of the merchant, at least one; all must be scheduled and
  // due after today; the registry must know of no lien; the merchant's money and the discount must not be
  // negative; and the ids must be new.
  lemma AnticipatedExactly(s: State, op: Op)
    requires Sound(s) && op.Anticipate?
    ensures var rows, today := Where(s.rcvs, AskedFor(op)), op.now / 86400;
            var gross, net := Sum(rows, R.Net()), Sum(rows, A.PricedAt(today, op.rate, op.pricer));
            && (|rows| != |op.rcvIds| ==> Step(s, op) == Err(NotFound))
            && (|rows| == |op.rcvIds| ==>
                  && (rows == [] ==> Step(s, op) == Err(NoReceivables))
                  && (!AllOffered(rows, op.merchant, today) ==> Step(s, op) == Err(NotAnticipable))
                  && (rows != [] && AllOffered(rows, op.merchant, today) ==>
                        && (forall i :: 0 <= i < |rows| && op.liened(rows[i].data.due) != Some(false) && Free(rows[..i], op.liened) ==>
                              Step(s, op) == Err(if op.liened(rows[i].data.due) == None then RegistryDown else ReceivableLiened))
                        && (Free(rows, op.liened) ==>
                              Step(s, op) ==
                              if HasId(s.ants, op.aid) then Err(DuplicateKey)
                              else if net < 0 || net > gross then Err(CheckViolation)
                              else if HasId(s.outbox, op.eid) then Err(DuplicateKey)
                              else Ok(Granted(s, op, rows)))))
  {
    var rows, today := Where(s.rcvs, AskedFor(op)), op.now / 86400;
    SoundRows(s);
    SameWhere(s.rcvs, AskedFor(op), ByIds(op.merchant, op.rcvIds));
    RowsOfMerchantOnly(s.rcvs, op);
    hide *;
    NotOffered(op, rows);
    LiensExactly(rows, op.liened);
    RequestRefused(s, op, rows);
    if |rows| == |op.rcvIds| && rows != [] && AllOffered(rows, op.merchant, today) {
      var a := OfferedSimulates(op, rows);
      if Free(rows, op.liened) {
        GrantedExactly(s, op, rows);
      } else {
        NotFreeIsErr(rows, op.liened);
      }
    }
  }

  lemma NotFreeIsErr(rows: seq<R.Rcv>, liened: nat -> Option<bool>)
    requires !Free(rows, liened)
    ensures LienCheck(rows, liened).Err?
  {
    LiensExactly(rows, liened);
  }

  // What the simulation says of a list of the merchant's own receivables that it does not accept.
  lemma NotOffered(op: Op, rows: seq<R.Rcv>)
    requires op.Anticipate? && forall i :: 0 <= i < |rows| ==> rows[i].data.merchant == op.merchant
    ensures rows == [] ==> A.Simulate(op.aid, op.merchant, rows, op.now, op.rate, op.pricer) == Err(NoReceivables)
    ensures rows != [] && !AllOffered(rows, op.merchant, op.now / 86400) ==>
              A.Simulate(op.aid, op.merchant, rows, op.now, op.rate, op.pricer) == Err(NotAnticipable)
  {
    A.SimulatedExactly(op.aid, op.merchant, rows, op.now, op.rate, op.pricer);
    if !AllOffered(rows, op.merchant, op.now / 86400) {
      var i := FirstNotOffered(rows, op.merchant, op.now / 86400);
    }
  }

  lemma RequestRefused(s: State, op: Op, rows: seq<R.Rcv>)
    requires op.Anticipate? && rows == Where(s.rcvs, ByIds(op.merchant, op.rcvIds))
    ensures var priced := A.Simulate(op.aid, op.merchant, rows, op.now, op.rate, op.pricer);
            && (|rows| != |op.rcvIds| ==> Step(s, op) == Err(NotFound))
            && (|rows| == |op.rcvIds| && priced.Err? ==> Step(s, op) == Err(priced.error))
            && (|rows| == |op.rcvIds| && priced.Ok? && LienCheck(rows, op.liened).Err? ==> Step(s, op) == Err(LienCheck(rows, op.liened).error))
  {
    hide Where, LienCheck, A.Simulate, A.AnticipateAll, StoreAnticipation;
  }

  lemma RowsOfMerchantOnly(rcvs: seq<R.Rcv>, op: Op)
    requires op.Anticipate?
    ensures forall i :: 0 <= i < |Where(rcvs, AskedFor(op))| ==> Where(rcvs, AskedFor(op))[i].data.merchant == op.merchant
  {
    var rows := Where(rcvs, AskedFor(op));
    forall i | 0 <= i < |rows|
      ensures rows[i].data.merchant == op.merchant
    {
      WhereMember(rcvs, AskedFor(op), rows[i]);
    }
  }

  lemma FirstNotOffered(rows: seq<R.Rcv>, merchant: Id, today: nat) returns (i: nat)
    requires !AllOffered(rows, merchant, today)
    ensures i < |rows| && !A.Offered(merchant, rows[i], today) && forall k :: 0 <= k < i ==> A.Offered(merchant, rows[k], today)
  {
    i := 0;
    while A.Offered(merchant, rows[i], today)
      invariant i < |rows| && forall k :: 0 <= k < i ==> A.Offered(merchant, rows[k], today)
      decreases |rows| - i
    {
      i := i + 1;
    }
  }

  // The rows of the request become anticipated, each with its next version, and no other row changes.
  lemma RowsAnticipated(rcvs: seq<R.Rcv>, op: Op, rows: seq<R.Rcv>) returns (news: seq<R.Rcv>)
    requires op.Anticipate? && DistinctIds(rcvs) && rows == Where(rcvs, AskedFor(op)) && forall i :: 0 <= i < |rows| ==> rows[i].data.status.Scheduled?
    ensures A.AnticipateAll(rows, op.aid) == Ok(news) && Replaces(rcvs, rows, news) && Patch(rcvs, news) == AllAnticipated(rcvs, op)
  {
    A.AnticipateAllMoves(rows, op.aid);
    news := A.AnticipateAll(rows, op.aid).value;
    Selected(rcvs, AskedFor(op));
    hide A.AnticipateAll, Where;
    forall i | 0 <= i < |rows|
      ensures news[i] == Row(rows[i].id, rows[i].version + 1, rows[i].data.(status := R.Anticipated, anticipation := Some(op.aid)))
    {
      R.ChangesExactly(rows[i], R.Anticipated, op.aid);
    }
    hide R.Anticipate, R.Moved;
    assert Replaces(rcvs, rows, news);
    forall j | 0 <= j < |rcvs|
      ensures Patch(rcvs, news)[j] == AfterAnticipation(rcvs[j], op)
    {
      PatchHit(rcvs, rows, news, j);
      WhereMember(rcvs, AskedFor(op), rcvs[j]);
    }
  }

  // The three entries balance, and the ledger's CHECKs ask that no amount be negative.
  lemma EntriesAppend(ledger: seq<L.Entry>, merchant: Id, gross: int, net: int, aid: Id)
    requires gross >= 0
    ensures L.Append(ledger, AdvanceEntries(merchant, gross, net, aid)) ==
            if net < 0 || net > gross then Err(CheckViolation) else Ok(ledger + AdvanceEntries(merchant, gross, net, aid))
  {
    var es := AdvanceEntries(merchant, gross, net, aid);
    L.SumThree(es[0], es[1], es[2], L.DebitOf());
    L.SumThree(es[0], es[1], es[2], L.CreditOf());
    assert es == [es[0], es[1], es[2]];
    assert L.Storable(es[1]) <==> net >= 0;
    assert L.Storable(es[2]) <==> gross - net >= 0;
  }

  // The anticipation as it is stored.
  lemma ConfirmedExactly(op: Op, rows: seq<R.Rcv>, a: A.Ant)
    requires op.Anticipate? && A.Simulate(op.aid, op.merchant, rows, op.now, op.rate, op.pricer) == Ok(a)
    requires rows != [] && AllOffered(rows, op.merchant, op.now / 86400)
    ensures var today := op.now / 86400;
            var gross, net := Sum(rows, R.Net()), Sum(rows, A.PricedAt(today, op.rate, op.pricer));
            A.Confirmed1(a) == Row(op.aid, 2, A.AntData(op.merchant, OfferedItems(rows, today, op.rate, op.pricer), gross, gross - net, net, op.rate,
                                                        op.now, A.Confirmed))
  {
    A.SimulatedExactly(op.aid, op.merchant, rows, op.now, op.rate, op.pricer);
    hide A.Simulate, Sum;
    assert a.data.items == OfferedItems(rows, op.now / 86400, op.rate, op.pricer);
  }

  lemma GrossNotNegative(rcvs: seq<R.Rcv>, q: R.Rcv -> bool)
    requires RowsOk(rcvs)
    ensures Sum(Where(rcvs, q), R.Net()) >= 0
  {
    forall r | r in Where(rcvs, q)
      ensures R.Net()(r) >= 0
    {
      WhereMember(rcvs, q, r);
      var j :| 0 <= j < |rcvs| && rcvs[j] == r;
      assert RowOk(rcvs[j]);
    }
    SumNonNegative(Where(rcvs, q), R.Net());
  }

  lemma GrantedExactly(s: State, op: Op, rows: seq<R.Rcv>)
    requires DistinctIds(s.rcvs) && RowsOk(s.rcvs) && op.Anticipate? && rows == Where(s.rcvs, AskedFor(op)) == Where(s.rcvs, ByIds(op.merchant, op.rcvIds))
    requires |rows| == |op.rcvIds| && rows != [] && AllOffered(rows, op.merchant, op.now / 86400) && LienCheck(rows, op.liened).Ok?
    ensures var gross, net := Sum(rows, R.Net()), Sum(rows, A.PricedAt(op.now / 86400, op.rate, op.pricer));
            Step(s, op) ==
            if HasId(s.ants, op.aid) then Err(DuplicateKey)
            else if net < 0 || net > gross then Err(CheckViolation)
            else if HasId(s.outbox, op.eid) then Err(DuplicateKey)
            else Ok(Granted(s, op, rows))
  {
    var gross, net := Sum(rows, R.Net()), Sum(rows, A.PricedAt(op.now / 86400, op.rate, op.pricer));
    GrossNotNegative(s.rcvs, AskedFor(op));
    OfferedAreScheduled(rows, op.merchant, op.now / 86400);
    var news := RowsAnticipated(s.rcvs, op, rows);
    var a := OfferedSimulates(op, rows);
    UpdateAllIsPatch(s.rcvs, rows, news);
    EntriesAppend(s.ledger, op.merchant, gross, net, op.aid);
    RequestStores(s, op, rows, a, news);
    ConfirmedExactly(op, rows, a);
    hide *;
    StoredAs(s, A.Confirmed1(a), news, NewEvent(op.eid, AnticipationConfirmed, op.aid, op.merchant), gross, net);
    GrantedIs(s, op, rows);
  }

  lemma OfferedAreScheduled(rows: seq<R.Rcv>, merchant: Id, today: nat)
    requires AllOffered(rows, merchant, today)
    ensures forall i :: 0 <= i < |rows| ==> rows[i].data.status.Scheduled?
  {
  }

  lemma OfferedSimulates(op: Op, rows: seq<R.Rcv>) returns (a: A.Ant)
    requires op.Anticipate? && rows != [] && AllOffered(rows, op.merchant, op.now / 86400)
    ensures A.Simulate(op.aid, op.merchant, rows, op.now, op.rate, op.pricer) == Ok(a)
  {
    A.SimulatedExactly(op.aid, op.merchant, rows, op.now, op.rate, op.pricer);
    a := A.Simulate(op.aid, op.merchant, rows, op.now, op.rate, op.pricer).value;
  }

  lemma RequestStores(s: State, op: Op, rows: seq<R.Rcv>, a: A.Ant, news: seq<R.Rcv>)
    requires op.Anticipate? && rows == Where(s.rcvs, ByIds(op.merchant, op.rcvIds)) && |rows| == |op.rcvIds| && LienCheck(rows, op.liened).Ok?
    requires A.Simulate(op.aid, op.merchant, rows, op.now, op.rate, op.pricer) == Ok(a) && A.AnticipateAll(rows, op.aid) == Ok(news)
    ensures Step(s, op) == StoreAnticipation(s, A.Confirmed1(a), news, NewEvent(op.eid, AnticipationConfirmed, op.aid, op.merchant))
  {
    hide Where, LienCheck, A.Simulate, A.AnticipateAll, StoreAnticipation, A.Confirmed1;
  }

  // Anticipation, rows, entries and event are stored in this order, and the first refusal is the error.
  lemma StoredAs(s: State, x: A.Ant, news: seq<R.Rcv>, e: Event, gross: int, net: int)
    requires UpdateAll(s.rcvs, news).Ok? && x.data.gross == gross && x.data.net == net && x.data.discount == gross - net
    requires L.Append(s.ledger, AdvanceEntries(x.data.merchant, gross, net, x.id)) ==
             if net < 0 || net > gross then Err(CheckViolation) else Ok(s.ledger + AdvanceEntries(x.data.merchant, gross, net, x.id))
    ensures StoreAnticipation(s, x, news, e) ==
            if HasId(s.ants, x.id) then Err(DuplicateKey)
            else if net < 0 || net > gross then Err(CheckViolation)
            else if HasId(s.outbox, e.id) then Err(DuplicateKey)
            else Ok(s.(rcvs := UpdateAll(s.rcvs, news).value, ants := s.ants + [x], outbox := s.outbox + [e],
                       ledger := s.ledger + AdvanceEntries(x.data.merchant, gross, net, x.id)))
  {
    OneEvent(s.outbox, e);
    hide UpdateAll, HasId, InsertAll, L.Append;
  }

  lemma GrantedIs(s: State, op: Op, rows: seq<R.Rcv>)
    requires op.Anticipate?
    ensures var today := op.now / 86400;
            var gross, net := Sum(rows, R.Net()), Sum(rows, A.PricedAt(today, op.rate, op.pricer));
            Granted(s, op, rows) ==
            s.(rcvs := AllAnticipated(s.rcvs, op),
               ants := s.ants + [Row(op.aid, 2, A.AntData(op.merchant, OfferedItems(rows, today, op.rate, op.pricer), gross, gross - net, net, op.rate,
                                                          op.now, A.Confirmed))],
               ledger := s.ledger + AdvanceEntries(op.merchant, gross, net, op.aid),
               outbox := s.outbox + [NewEvent(op.eid, AnticipationConfirmed, op.aid, op.merchant)])
  {
  }

  // ---- the balances

  // An applied request pays the merchant exactly what the pricer says of its receivables and earns exactly the
  // rest of their nets; what is owed to the merchant falls by the nets, and nothing else moves.
  lemma AnticipationMovesBalances(s: State, op: Op, who: Option<Id>)
    requires Sound(s) && op.Anticipate? && Step(s, op).Ok? && (who == None || who == Some(op.merchant))
    ensures var rows, s' := Where(s.rcvs, AskedFor(op)), Step(s, op).value;
            var gross, net := Sum(rows, R.Net()), Sum(rows, A.PricedAt(op.now / 86400, op.rate, op.pricer));
            && L.Balance(s'.ledger, L.BankOutgoing, who) == L.Balance(s.ledger, L.BankOutgoing, who) + net
            && L.Balance(s'.ledger, L.RevenueAnticipation, who) == L.Balance(s.ledger, L.RevenueAnticipation, who) + gross - net
            && L.Balance(s'.ledger, L.PayableToMerchant, who) == L.Balance(s.ledger, L.PayableToMerchant, who) - gross
            && L.Balance(s'.ledger, L.ReceivableFromIssuer, who) == L.Balance(s.ledger, L.ReceivableFromIssuer, who)
            && L.Balance(s'.ledger, L.RevenueFees, who) == L.Balance(s.ledger, L.RevenueFees, who)
            && L.Balance(s'.ledger, L.ChargebackLoss, who) == L.Balance(s.ledger, L.ChargebackLoss, who)
  {
    var rows := Where(s.rcvs, AskedFor(op));
    var gross, net := Sum(rows, R.Net()), Sum(rows, A.PricedAt(op.now / 86400, op.rate, op.pricer));
    hide *;
    IsGranted(s, op, rows);
    GrantedIs(s, op, rows);
    EntriesMove(s.ledger, op.merchant, gross, net, op.aid, who);
  }

  lemma EntriesMove(ledger: seq<L.Entry>, merchant: Id, gross: int, net: int, aid: Id, who: Option<Id>)
    requires who == None || who == Some(merchant)
    ensures var ledger' := ledger + AdvanceEntries(merchant, gross, net, aid);
            && L.Balance(ledger', L.BankOutgoing, who) == L.Balance(ledger, L.BankOutgoing, who) + net
            && L.Balance(ledger', L.RevenueAnticipation, who) == L.Balance(ledger, L.RevenueAnticipation, who) + gross - net
            && L.Balance(ledger', L.PayableToMerchant, who) == L.Balance(ledger, L.PayableToMerchant, who) - gross
            && L.Balance(ledger', L.ReceivableFromIssuer, who) == L.Balance(ledger, L.ReceivableFromIssuer, who)
            && L.Balance(ledger', L.RevenueFees, who) == L.Balance(ledger, L.RevenueFees, who)
            && L.Balance(ledger', L.ChargebackLoss, who) == L.Balance(ledger, L.ChargebackLoss, who)
  {
    hide *;
    ThreeMove(ledger, merchant, gross, net, aid, L.BankOutgoing, who);
    ThreeMove(ledger, merchant, gross, net, aid, L.RevenueAnticipation, who);
    ThreeMove(ledger, merchant, gross, net, aid, L.PayableToMerchant, who);
    ThreeMove(ledger, merchant, gross, net, aid, L.ReceivableFromIssuer, who);
    ThreeMove(ledger, merchant, gross, net, aid, L.RevenueFees, who);
    ThreeMove(ledger, merchant, gross, net, aid, L.ChargebackLoss, who);
  }

  lemma ThreeMove(ledger: seq<L.Entry>, merchant: Id, gross: int, net: int, aid: Id, account: L.Account, who: Option<Id>)
    requires who == None || who == Some(merchant)
    ensures L.Balance(ledger + AdvanceEntries(merchant, gross, net, aid), account, who) ==
            L.Balance(ledger, account, who) +
            match account
            case PayableToMerchant => -gross
            case BankOutgoing => net
            case RevenueAnticipation => gross - net
            case _ => 0
  {
    var es := AdvanceEntries(merchant, gross, net, aid);
    L.BalanceAppend(ledger, es, account, who);
    L.SumThree(es[0], es[1], es[2], L.Weight(account, who));
    assert es == [es[0], es[1], es[2]];
  }

  lemma IsGranted(s: State, op: Op, rows: seq<R.Rcv>)
    requires Sound(s) && op.Anticipate? && Step(s, op).Ok? && rows == Where(s.rcvs, AskedFor(op))
    ensures Step(s, op) == Ok(Granted(s, op, rows))
  {
    AnticipatedExactly(s, op);
    SomeLien(rows, op.liened);
    hide Step, Sound, Where, Granted, AllOffered, Free, Sum, HasId;
  }

  // Where some due date is not free, one is the first.
  lemma {:induction false} SomeLien(rows: seq<R.Rcv>, liened: nat -> Option<bool>)
    ensures !Free(rows, liened) ==> exists i :: 0 <= i < |rows| && liened(rows[i].data.due) != Some(false) && Free(rows[..i], liened)
  {
    if rows != [] {
      var n := |rows| - 1;
      var before := rows[..n];
      SomeLien(before, liened);
      if !Free(before, liened) {
        var i :| 0 <= i < |before| && liened(before[i].data.due) != Some(false) && Free(before[..i], liened);
        assert before[..i] == rows[..i] && before[i] == rows[i];
      } else if !Free(rows, liened) {
        assert liened(rows[n].data.due) != Some(false) && Free(rows[..n], liened);
      }
    }
  }
}
