/** The settlement of one merchant's day: the lien waterfall and the settlement's life. */
module Settlements {
  import opened Results
  import opened Sums
  import opened Tables
  import opened Events
  import R = Receivables

  datatype Status = Pending | Sent | Confirmed | Failed

  datatype OrderKind = ToMerchant | ToCreditor

  datatype Order = Order(kind: OrderKind, beneficiary: Id, amount: int)

  datatype Lien = Lien(creditor: Id, amount: int)

  datatype StlData = StlData(day: nat, merchant: Id, total: int, toMerchant: int, toCreditors: int, retained: int,
                             orders: seq<Order>, receivableIds: seq<Id>, status: Status)

  type Stl = Row<StlData>

  // ---- adding up the receivables of the lot

  datatype Scan = Scan(payable: int, retained: int, total: int, ids: seq<Id>)

  function ScanOne(day: nat, merchant: Id, s: Scan, r: R.Rcv): Result<Scan> {
    if r.data.merchant != merchant then Err(WrongMerchant)
    else if r.data.due != day then Err(WrongDay)
    else if r.data.status.Scheduled? then Ok(Scan(s.payable + r.data.net, s.retained, s.total + r.data.net, s.ids + [r.id]))
    else if r.data.status.Anticipated? then Ok(Scan(s.payable, s.retained + r.data.net, s.total + r.data.net, s.ids + [r.id]))
    else Err(WrongStatus)
  }

  function ScanAll(day: nat, merchant: Id, rows: seq<R.Rcv>): Result<Scan> {
    if rows == [] then Ok(Scan(0, 0, 0, []))
    else
      var before :- ScanAll(day, merchant, rows[..|rows|-1]);
      ScanOne(day, merchant, before, rows[|rows|-1])
  }

  // ---- paying liens: the creditor goes first, up to what there is to pay

  datatype Paid = Paid(left: int, toCreditors: int, orders: seq<Order>)

  function PayOne(p: Paid, l: Lien): Paid {
    if p.left == 0 then p
    else
      var amount := if l.amount > p.left then p.left else l.amount;
      Paid(p.left - amount, p.toCreditors + amount, p.orders + [Order(ToCreditor, l.creditor, amount)])
  }

  function PayLiens(payable: int, liens: seq<Lien>): Paid {
    if liens == [] then Paid(payable, 0, []) else PayOne(PayLiens(payable, liens[..|liens|-1]), liens[|liens|-1])
  }

  function BuildFrom(id: Id, day: nat, merchant: Id, scan: Scan, liens: seq<Lien>): Stl {
    var p := PayLiens(scan.payable, liens);
    Row(id, 1, StlData(day, merchant, scan.total, if p.left > 0 then p.left else 0, p.toCreditors, scan.retained,
                       OrdersOf(merchant, p), scan.ids, Pending))
  }

  // What the liens leave goes to the merchant, if it is anything.
  function OrdersOf(merchant: Id, p: Paid): seq<Order> {
    if p.left > 0 then p.orders + [Order(ToMerchant, merchant, p.left)] else p.orders
  }

  function Build(id: Id, day: nat, merchant: Id, rows: seq<R.Rcv>, liens: seq<Lien>): Result<Stl> {
    if rows == [] then Err(NothingToSettle)
    else
      var scan :- ScanAll(day, merchant, rows);
      Ok(BuildFrom(id, day, merchant, scan, liens))
  }

  function MarkSent(s: Stl): Result<Stl> {
    if s.data.status != Pending then Err(InvalidTransition)
    else Ok(s.(version := s.version + 1, data := s.data.(status := Sent)))
  }

  function MarkConfirmed(s: Stl): Result<Stl> {
    if s.data.status != Sent then Err(InvalidTransition)
    else Ok(s.(version := s.version + 1, data := s.data.(status := Confirmed)))
  }

  // A lot as it is stored once sent and confirmed.
  function Confirmation(s: Stl): Stl {
    s.(version := s.version + 2, data := s.data.(status := Confirmed))
  }

  function MarkFailed(s: Stl): Result<Stl> {
    if s.data.status != Sent && s.data.status != Pending then Err(InvalidTransition)
    else Ok(s.(version := s.version + 1, data := s.data.(status := Failed)))
  }

  // ---- the waterfall, declaratively

  function LienAmount(): Lien -> int { (l: Lien) => l.amount }

  function OrderAmount(): Order -> int { (o: Order) => o.amount }

  function Min(a: int, b: int): int { if a < b then a else b }

  function Max(a: int, b: int): int { if a > b then a else b }

  // What creditor i is owed: the lien, within what the earlier liens left.
  function Owed(payable: int, liens: seq<Lien>, i: nat): int
    requires i < |liens|
  {
    Min(liens[i].amount, Max(0, payable - Sum(liens[..i], LienAmount())))
  }

  lemma {:induction false} WaterfallTotals(payable: int, liens: seq<Lien>)
    requires payable >= 0
    requires forall l :: l in liens ==> l.amount >= 0
    ensures PayLiens(payable, liens).toCreditors == Min(payable, Sum(liens, LienAmount()))
    ensures PayLiens(payable, liens).left == Max(0, payable - Sum(liens, LienAmount()))
  {
    if liens != [] {
      WaterfallTotals(payable, liens[..|liens|-1]);
      SumPrefix(liens, |liens| - 1, LienAmount());
    }
  }

  // For non-negative liens the loop is the waterfall: orders go to the first creditors, in
  // order, each for what it is owed, and a creditor without an order is owed nothing.
  lemma {:induction false} WaterfallAmounts(payable: int, liens: seq<Lien>)
    requires payable >= 0
    requires forall l :: l in liens ==> l.amount >= 0
    ensures PaysAsOwed(payable, liens, PayLiens(payable, liens))
  {
    hide PaysAsOwed, Owed, PayOne, Sum, LienAmount;
    if liens == [] {
      NothingOwed(payable);
    } else {
      var n := |liens| - 1;
      WaterfallAmounts(payable, liens[..n]);
      PaidPrefix(payable, liens, n);
      PaysAsOwedNext(payable, liens, n, PayLiens(payable, liens[..n]));
    }
  }

  ghost predicate PaysAsOwed(payable: int, liens: seq<Lien>, p: Paid) {
    && |p.orders| <= |liens|
    && (|p.orders| < |liens| ==> p.left == 0)
    && (forall i :: 0 <= i < |p.orders| ==> p.orders[i] == Order(ToCreditor, liens[i].creditor, Owed(payable, liens, i)))
    && (forall i :: |p.orders| <= i < |liens| ==> Owed(payable, liens, i) == 0)
  }

  lemma NothingOwed(payable: int)
    ensures PaysAsOwed(payable, [], PayLiens(payable, []))
  {
  }

  lemma PaysAsOwedNext(payable: int, liens: seq<Lien>, n: nat, p: Paid)
    requires |liens| == n + 1 && PaysAsOwed(payable, liens[..n], p) && p.left >= 0 && liens[n].amount >= 0
    requires Owed(payable, liens, n) == Min(liens[n].amount, p.left)
    ensures PaysAsOwed(payable, liens, PayOne(p, liens[n]))
  {
    hide Owed, PayOne;
    OwedPrefix(payable, liens, n);
    OneMoreOrder(p, liens[n], Owed(payable, liens, n));
    assert forall i :: 0 <= i < n ==> liens[..n][i] == liens[i];
  }

  // What creditor n is owed is its lien, within what the earlier liens left.
  lemma PaidPrefix(payable: int, liens: seq<Lien>, n: nat)
    requires payable >= 0 && n < |liens|
    requires forall l :: l in liens ==> l.amount >= 0
    ensures PayLiens(payable, liens[..n]).left >= 0
    ensures Owed(payable, liens, n) == Min(liens[n].amount, PayLiens(payable, liens[..n]).left)
  {
    WaterfallTotals(payable, liens[..n]);
  }

  lemma OneMoreOrder(p: Paid, l: Lien, owed: int)
    requires owed == Min(l.amount, p.left) && l.amount >= 0 && p.left >= 0
    ensures p.left == 0 ==> PayOne(p, l) == p && owed == 0
    ensures p.left != 0 ==> PayOne(p, l).orders == p.orders + [Order(ToCreditor, l.creditor, owed)]
  {
  }

  lemma OwedPrefix(payable: int, liens: seq<Lien>, n: nat)
    requires n <= |liens|
    ensures forall i :: 0 <= i < n ==> Owed(payable, liens, i) == Owed(payable, liens[..n], i)
  {
    forall i | 0 <= i < n
      ensures Owed(payable, liens, i) == Owed(payable, liens[..n], i)
    {
      assert liens[..n][..i] == liens[..i];
    }
  }

  // Whom a lot pays, whatever the liens: nobody when there is nothing to pay; else the first creditor, or
  // the merchant when there is none, comes first, and everybody else is a creditor or the merchant.
  lemma {:induction false} Payees(merchant: Id, payable: int, liens: seq<Lien>)
    requires payable >= 0
    ensures var p := PayLiens(payable, liens);
            && (payable == 0 ==> OrdersOf(merchant, p) == [])
            && (payable != 0 ==> OrdersOf(merchant, p) != [])
            && (payable != 0 ==> if liens == [] then OrdersOf(merchant, p)[0].kind == ToMerchant && OrdersOf(merchant, p)[0].beneficiary == merchant
                                 else OrdersOf(merchant, p)[0].kind == ToCreditor && OrdersOf(merchant, p)[0].beneficiary == liens[0].creditor)
            && forall o :: o in OrdersOf(merchant, p) ==>
                 (o.kind == ToMerchant && o.beneficiary == merchant)
                 || (o.kind == ToCreditor && exists i :: 0 <= i < |liens| && liens[i].creditor == o.beneficiary)
  {
    CreditorsPaid(payable, liens);
    hide PayLiens;
    var p := PayLiens(payable, liens);
    forall o | o in p.orders
      ensures o.kind == ToCreditor && exists i :: 0 <= i < |liens| && liens[i].creditor == o.beneficiary
    {
      var i :| 0 <= i < |p.orders| && p.orders[i] == o;
      assert liens[i].creditor == o.beneficiary;
    }
  }

  lemma {:induction false} CreditorsPaid(payable: int, liens: seq<Lien>)
    ensures var p := PayLiens(payable, liens);
            && |p.orders| <= |liens| && (p.left != 0 ==> |p.orders| == |liens|)
            && (forall i :: 0 <= i < |p.orders| ==> p.orders[i].kind == ToCreditor && p.orders[i].beneficiary == liens[i].creditor)
            && (payable == 0 ==> p.left == 0 && p.orders == [])
            && (payable != 0 && liens != [] ==> p.orders != [])
            && (liens == [] ==> p.left == payable)
  {
    if liens != [] {
      CreditorsPaid(payable, liens[..|liens|-1]);
    }
  }

  lemma PayOneConserves(p: Paid, l: Lien)
    requires p.left >= 0 && Sum(p.orders, OrderAmount()) == p.toCreditors
    ensures var q := PayOne(p, l);
            q.left >= 0 && q.left + q.toCreditors == p.left + p.toCreditors && Sum(q.orders, OrderAmount()) == q.toCreditors
  {
    var q := PayOne(p, l);
    if q != p {
      SumPush(p.orders, q.orders[|q.orders|-1], OrderAmount());
    }
  }

  // Whatever the liens, even negative ones, orders carry exactly what there was to pay.
  lemma {:induction false} LiensConserve(payable: int, liens: seq<Lien>)
    requires payable >= 0
    ensures var p := PayLiens(payable, liens);
            p.left >= 0 && p.left + p.toCreditors == payable && Sum(p.orders, OrderAmount()) == p.toCreditors
  {
    if liens != [] {
      var n := |liens| - 1;
      LiensConserve(payable, liens[..n]);
      PayOneConserves(PayLiens(payable, liens[..n]), liens[n]);
    }
  }

  // Weight of a receivable in the part to pay and in the part to retain.
  function PayableNet(): R.Rcv -> int { (r: R.Rcv) => if r.data.status.Scheduled? then r.data.net else 0 }

  function RetainedNet(): R.Rcv -> int { (r: R.Rcv) => if r.data.status.Anticipated? then r.data.net else 0 }

  predicate CanSettle(r: R.Rcv, day: nat, merchant: Id) {
    r.data.merchant == merchant && r.data.due == day && (r.data.status.Scheduled? || r.data.status.Anticipated?)
  }

  lemma {:induction false} ScanAllSums(day: nat, merchant: Id, rows: seq<R.Rcv>)
    ensures ScanAll(day, merchant, rows).Ok? <==> forall i :: 0 <= i < |rows| ==> CanSettle(rows[i], day, merchant)
    ensures ScanAll(day, merchant, rows).Ok? ==>
              var s := ScanAll(day, merchant, rows).value;
              && s.payable == Sum(rows, PayableNet()) && s.retained == Sum(rows, RetainedNet())
              && s.total == Sum(rows, R.Net()) && s.total == s.payable + s.retained
              && |s.ids| == |rows| && forall i :: 0 <= i < |rows| ==> s.ids[i] == rows[i].id
  {
    if rows != [] {
      ScanAllSums(day, merchant, rows[..|rows|-1]);
    }
  }

  // A lot is built exactly when it is not empty and every receivable is the merchant's,
  // due that day and still to settle; anticipated money is retained, the rest is paid out in
  // full, and the orders add up to what is paid.
  lemma BuildConserves(id: Id, day: nat, merchant: Id, rows: seq<R.Rcv>, liens: seq<Lien>)
    requires forall r :: r in rows ==> r.data.net >= 0
    ensures Build(id, day, merchant, rows, liens).Ok? <==> rows != [] && forall i :: 0 <= i < |rows| ==> CanSettle(rows[i], day, merchant)
    ensures Build(id, day, merchant, rows, liens).Ok? ==>
              var s := Build(id, day, merchant, rows, liens).value.data;
              && s.status == Pending
              && s.retained == Sum(rows, RetainedNet()) >= 0
              && s.toMerchant + s.toCreditors == Sum(rows, PayableNet()) >= 0
              && s.total == s.toMerchant + s.toCreditors + s.retained == Sum(rows, R.Net())
              && Sum(s.orders, OrderAmount()) == s.toMerchant + s.toCreditors
              && |s.receivableIds| == |rows| && forall i :: 0 <= i < |rows| ==> s.receivableIds[i] == rows[i].id
  {
    ScanAllSums(day, merchant, rows);
    SumNonNegative(rows, PayableNet());
    SumNonNegative(rows, RetainedNet());
    if Build(id, day, merchant, rows, liens).Ok? {
      LiensConserve(Sum(rows, PayableNet()), liens);
    }
  }

  // A lot is built new, for the merchant and the day.
  lemma BuildFields(id: Id, day: nat, merchant: Id, rows: seq<R.Rcv>, liens: seq<Lien>)
    requires Build(id, day, merchant, rows, liens).Ok?
    ensures var s := Build(id, day, merchant, rows, liens).value;
            s.id == id && s.version == 1 && s.data.merchant == merchant && s.data.day == day && s.data.status == Pending
  {
    hide ScanAll, PayLiens;
  }

  // With non-negative liens the creditors get the smaller of the liens and the payable part.
  lemma BuildPaysCreditorsFirst(id: Id, day: nat, merchant: Id, rows: seq<R.Rcv>, liens: seq<Lien>)
    requires forall r :: r in rows ==> r.data.net >= 0
    requires forall l :: l in liens ==> l.amount >= 0
    requires Build(id, day, merchant, rows, liens).Ok?
    ensures var s := Build(id, day, merchant, rows, liens).value.data;
            && s.toCreditors == Min(Sum(rows, PayableNet()), Sum(liens, LienAmount()))
            && s.toMerchant == Max(0, Sum(rows, PayableNet()) - Sum(liens, LienAmount()))
  {
    ScanAllSums(day, merchant, rows);
    SumNonNegative(rows, PayableNet());
    WaterfallTotals(Sum(rows, PayableNet()), liens);
  }

  function PayableOf(): seq<R.Rcv> -> int { (rows: seq<R.Rcv>) => Sum(rows, PayableNet()) }

  // What the creditors get of a lot, with this much to pay them in all.
  function CappedAt(owed: int): seq<R.Rcv> -> int { (rows: seq<R.Rcv>) => Min(Sum(rows, PayableNet()), owed) }

  function ToCreditorsOf(): Stl -> int { (s: Stl) => s.data.toCreditors }

  // The sum of capped amounts stays within the cap exactly in three cases.
  lemma CapsWithinExactly(lots: seq<seq<R.Rcv>>, owed: int)
    requires owed >= 0 && forall rows :: rows in lots ==> PayableOf()(rows) >= 0
    ensures Sum(lots, CappedAt(owed)) <= owed <==>
            || Sum(lots, PayableOf()) <= owed
            || owed == 0
            || forall i, j :: 0 <= i < j < |lots| ==> PayableOf()(lots[i]) == 0 || PayableOf()(lots[j]) == 0
  {
    hide Sum;
    var cap, all := CappedAt(owed), PayableOf();
    SumBelow(lots, cap, all);
    if owed == 0 {
      SumZero(lots, cap);
    } else if forall i, j :: 0 <= i < j < |lots| ==> all(lots[i]) == 0 || all(lots[j]) == 0 {
      SumOfOne(lots, owed, cap);
    } else {
      var i, j :| 0 <= i < j < |lots| && all(lots[i]) != 0 && all(lots[j]) != 0;
      if k :| 0 <= k < |lots| && all(lots[k]) > owed {
        CapsOverflow(lots, owed, k, if k == i then j else i);
      } else {
        assert forall rows :: rows in lots ==> all(rows) <= owed;
        SumPointwise(lots, lots, cap, all);
      }
    }
  }

  lemma CapsOverflow(lots: seq<seq<R.Rcv>>, owed: int, k: nat, m: nat)
    requires owed > 0 && forall rows :: rows in lots ==> PayableOf()(rows) >= 0
    requires k < |lots| && m < |lots| && k != m && PayableOf()(lots[k]) > owed && PayableOf()(lots[m]) != 0
    ensures Sum(lots, CappedAt(owed)) > owed && Sum(lots, PayableOf()) > owed
  {
    hide Sum;
    var cap := CappedAt(owed);
    assert cap(lots[k]) == owed && cap(lots[m]) >= 1;
    SumOfTwo(lots, if k < m then k else m, if k < m then m else k, cap);
    SumBelow(lots, cap, PayableOf());
  }

  // Liens are read in full for every lot, so the cap holds per lot: over all the lots of a
  // merchant's day the creditors get no more than the liens exactly when all the lots
  // together fit, or at most one of them has anything to pay, or there are no liens.
  lemma LiensCapDayExactly(ids: seq<Id>, day: nat, merchant: Id, lots: seq<seq<R.Rcv>>, liens: seq<Lien>, built: seq<Stl>)
    requires |ids| == |lots| == |built| && forall i :: 0 <= i < |lots| ==> Build(ids[i], day, merchant, lots[i], liens) == Ok(built[i])
    requires forall i, r :: 0 <= i < |lots| && r in lots[i] ==> r.data.net >= 0
    requires forall l :: l in liens ==> l.amount >= 0
    ensures var owed := Sum(liens, LienAmount());
            Sum(built, ToCreditorsOf()) <= owed <==>
            || Sum(lots, PayableOf()) <= owed
            || owed == 0
            || forall i, j :: 0 <= i < j < |lots| ==> PayableOf()(lots[i]) == 0 || PayableOf()(lots[j]) == 0
  {
    var owed := Sum(liens, LienAmount());
    SumNonNegative(liens, LienAmount());
    forall i | 0 <= i < |lots|
      ensures ToCreditorsOf()(built[i]) == CappedAt(owed)(lots[i]) && PayableOf()(lots[i]) >= 0
    {
      BuildPaysCreditorsFirst(ids[i], day, merchant, lots[i], liens);
      SumNonNegative(lots[i], PayableNet());
    }
    SumPointwise(built, lots, ToCreditorsOf(), CappedAt(owed));
    CapsWithinExactly(lots, owed);
  }

  class Settlement {
    const id: Id
    const day: nat
    const merchant: Id
    var total: int
    var toMerchant: int
    var toCreditors: int
    var retained: int
    var orders: seq<Order>
    var receivableIds: seq<Id>
    var status: Status
    var version: nat
    var events: seq<Event>

    function View(): Stl
      reads this
    {
      Row(id, version, StlData(day, merchant, total, toMerchant, toCreditors, retained, orders, receivableIds, status))
    }

    constructor New(id: Id, day: nat, merchant: Id)
      ensures View() == Row(id, 1, StlData(day, merchant, 0, 0, 0, 0, [], [], Pending)) && events == []
    {
      this.id, this.day, this.merchant := id, day, merchant;
      total, toMerchant, toCreditors, retained := 0, 0, 0, 0;
      orders, receivableIds, status, version, events := [], [], Pending, 1, [];
    }

    method MarkSentNow() returns (r: Result<()>)
      modifies this
      ensures r == if old(status) == Pending then Ok(()) else Err(InvalidTransition)
      ensures View() == if r.Ok? then old(View()).(version := old(version) + 1, data := old(View()).data.(status := Sent)) else old(View())
      ensures events == old(events)
    {
      if status != Pending { return Err(InvalidTransition); }
      status, version := Sent, version + 1;
      return Ok(());
    }

    method MarkConfirmedNow(eid: Id) returns (r: Result<()>)
      modifies this
      ensures r == if old(status) == Sent then Ok(()) else Err(InvalidTransition)
      ensures View() == if r.Ok? then old(View()).(version := old(version) + 1, data := old(View()).data.(status := Confirmed)) else old(View())
      ensures events == old(events) + if r.Ok? then [NewEvent(eid, SettlementCompleted, id, merchant)] else []
    {
      if status != Sent { return Err(InvalidTransition); }
      status, version := Confirmed, version + 1;
      events := events + [NewEvent(eid, SettlementCompleted, id, merchant)];
      return Ok(());
    }

    method MarkFailedNow(eid: Id) returns (r: Result<()>)
      modifies this
      ensures r == if old(status) == Sent || old(status) == Pending then Ok(()) else Err(InvalidTransition)
      ensures View() == if r.Ok? then old(View()).(version := old(version) + 1, data := old(View()).data.(status := Failed)) else old(View())
      ensures events == old(events) + if r.Ok? then [NewEvent(eid, SettlementFailed, id, merchant)] else []
    {
      if status != Sent && status != Pending { return Err(InvalidTransition); }
      status, version := Failed, version + 1;
      events := events + [NewEvent(eid, SettlementFailed, id, merchant)];
      return Ok(());
    }

    method PullEvents() returns (evs: seq<Event>)
      modifies this`events
      ensures evs == old(events) && events == []
    {
      evs := events;
      events := [];
    }
  }

  // Once nothing is left to pay, the remaining liens change nothing: the loop may stop.
  lemma {:induction false} NothingLeft(payable: int, liens: seq<Lien>, i: nat)
    requires i <= |liens| && PayLiens(payable, liens[..i]).left == 0
    ensures PayLiens(payable, liens) == PayLiens(payable, liens[..i])
    decreases |liens| - i
  {
    if i < |liens| {
      assert liens[..i+1][..i] == liens[..i];
      NothingLeft(payable, liens, i + 1);
    } else {
      assert liens[..i] == liens;
    }
  }

  // Any error of a prefix is the error of the whole scan.
  lemma {:induction false} ScanStops(day: nat, merchant: Id, rows: seq<R.Rcv>, i: nat)
    requires i <= |rows| && ScanAll(day, merchant, rows[..i]).Err?
    ensures ScanAll(day, merchant, rows) == ScanAll(day, merchant, rows[..i])
    decreases |rows| - i
  {
    if i < |rows| {
      assert rows[..i+1][..i] == rows[..i];
      ScanStops(day, merchant, rows, i + 1);
    } else {
      assert rows[..i] == rows;
    }
  }

  lemma ScanPush(day: nat, merchant: Id, rows: seq<R.Rcv>, i: nat)
    requires i < |rows| && ScanAll(day, merchant, rows[..i]).Ok?
    ensures ScanAll(day, merchant, rows[..i+1]) == ScanOne(day, merchant, ScanAll(day, merchant, rows[..i]).value, rows[i])
    ensures ScanAll(day, merchant, rows[..i+1]).Err? ==> ScanAll(day, merchant, rows) == ScanAll(day, merchant, rows[..i+1])
  {
    assert rows[..i+1][..i] == rows[..i];
    if ScanAll(day, merchant, rows[..i+1]).Err? {
      ScanStops(day, merchant, rows, i + 1);
    }
  }

  // The first loop: adds up the lot, or reports the first receivable that does not belong.
  method AddReceivables(s: Settlement, receivables: seq<R.Receivable>, ghost rows: seq<R.Rcv>) returns (r: Result<int>)
    requires |rows| == |receivables| && forall i :: 0 <= i < |rows| ==> rows[i] == receivables[i].View()
    requires s.retained == 0 && s.total == 0 && s.receivableIds == []
    modifies s`retained, s`total, s`receivableIds
    ensures r.Err? ==> ScanAll(s.day, s.merchant, rows) == Err(r.error)
    ensures r.Ok? ==> ScanAll(s.day, s.merchant, rows) == Ok(Scan(r.value, s.retained, s.total, s.receivableIds))
  {
    var payable := 0;
    for i := 0 to |receivables|
      invariant ScanAll(s.day, s.merchant, rows[..i]) == Ok(Scan(payable, s.retained, s.total, s.receivableIds))
    {
      var x := receivables[i];
      ScanPush(s.day, s.merchant, rows, i);
      assert rows[i] == x.View();
      if x.merchant != s.merchant {
        return Err(WrongMerchant);
      } else if x.due != s.day {
        return Err(WrongDay);
      }
      match x.status {
        case Scheduled => payable := payable + x.net;
        case Anticipated => s.retained := s.retained + x.net;
        case _ => return Err(WrongStatus);
      }
      s.total := s.total + x.net;
      s.receivableIds := s.receivableIds + [x.id];
    }
    assert rows[..|rows|] == rows;
    return Ok(payable);
  }

  // The second loop: pays the liens in order and stops when nothing is left.
  method PayCreditors(s: Settlement, available: int, liens: seq<Lien>) returns (payable: int)
    requires s.toCreditors == 0 && s.orders == []
    modifies s`toCreditors, s`orders
    ensures PayLiens(available, liens) == Paid(payable, s.toCreditors, s.orders)
  {
    payable := available;
    for i := 0 to |liens|
      invariant PayLiens(available, liens[..i]) == Paid(payable, s.toCreditors, s.orders)
    {
      if payable == 0 {
        NothingLeft(available, liens, i);
        return;
      }
      var l := liens[i];
      assert liens[..i+1][..i] == liens[..i];
      var amount := l.amount;
      if amount > payable {
        amount := payable;
      }
      s.orders := s.orders + [Order(ToCreditor, l.creditor, amount)];
      s.toCreditors := s.toCreditors + amount;
      payable := payable - amount;
    }
    assert liens[..|liens|] == liens;
  }

  // ---- a built lot, exactly

  // The liens a lot reaches: those before which something is left to pay.
  lemma {:induction false} OrdersReached(payable: int, liens: seq<Lien>, i: nat)
    requires payable >= 0 && (forall l :: l in liens ==> l.amount >= 0) && i < |liens|
    ensures i < |PayLiens(payable, liens).orders| <==> Sum(liens[..i], LienAmount()) < payable
    ensures i < |PayLiens(payable, liens).orders| ==>
              PayLiens(payable, liens).orders[i] == Order(ToCreditor, liens[i].creditor, Min(liens[i].amount, payable - Sum(liens[..i], LienAmount())))
  {
    var n := |liens| - 1;
    var before := liens[..n];
    WaterfallTotals(payable, before);
    CreditorsPaid(payable, before);
    if i < n {
      assert before[..i] == liens[..i];
      OrdersReached(payable, before, i);
    }
  }

  // What a lot orders: each creditor in turn, as long as something is left, its lien or what is left; the
  // merchant last, what the liens leave of what there is to pay.
  ghost predicate OrdersAreDue(orders: seq<Order>, merchant: Id, payable: int, liens: seq<Lien>) {
    var owed := Sum(liens, LienAmount());
    && (forall i :: 0 <= i < |liens| && Sum(liens[..i], LienAmount()) < payable ==>
          i < |orders| && orders[i] == Order(ToCreditor, liens[i].creditor, Min(liens[i].amount, payable - Sum(liens[..i], LienAmount()))))
    && (payable > owed ==> |orders| == |liens| + 1 && orders[|liens|] == Order(ToMerchant, merchant, payable - owed))
    && (payable <= owed ==> |orders| <= |liens| && forall i :: 0 <= i < |orders| ==> Sum(liens[..i], LienAmount()) < payable)
  }

  lemma BuiltOrders(merchant: Id, payable: int, liens: seq<Lien>)
    requires payable >= 0 && forall l :: l in liens ==> l.amount >= 0
    ensures OrdersAreDue(OrdersOf(merchant, PayLiens(payable, liens)), merchant, payable, liens)
  {
    WaterfallTotals(payable, liens);
    CreditorsPaid(payable, liens);
    var p := PayLiens(payable, liens);
    hide PayLiens, Sum;
    forall i | 0 <= i < |liens|
      ensures i < |p.orders| <==> Sum(liens[..i], LienAmount()) < payable
      ensures i < |p.orders| ==> p.orders[i] == Order(ToCreditor, liens[i].creditor, Min(liens[i].amount, payable - Sum(liens[..i], LienAmount())))
    {
      OrdersReached(payable, liens, i);
    }
  }

  // A lot that cannot be built: nothing to settle, or the first receivable that is another merchant's, or
  // due another day, or neither scheduled nor anticipated, in this order.
  lemma NotBuiltExactly(id: Id, day: nat, merchant: Id, rows: seq<R.Rcv>, liens: seq<Lien>, i: nat)
    ensures rows == [] ==> Build(id, day, merchant, rows, liens) == Err(NothingToSettle)
    ensures i < |rows| && !CanSettle(rows[i], day, merchant) && (forall k :: 0 <= k < i ==> CanSettle(rows[k], day, merchant)) ==>
              Build(id, day, merchant, rows, liens) ==
              Err(if rows[i].data.merchant != merchant then WrongMerchant else if rows[i].data.due != day then WrongDay else WrongStatus)
  {
    if i < |rows| && forall k :: 0 <= k < i ==> CanSettle(rows[k], day, merchant) {
      ScanAllSums(day, merchant, rows[..i]);
      ScanPush(day, merchant, rows, i);
    }
  }

  // A lot that is built, column by column, for liens that are not negative.
  lemma BuiltExactly(id: Id, day: nat, merchant: Id, rows: seq<R.Rcv>, liens: seq<Lien>)
    requires rows != [] && (forall i :: 0 <= i < |rows| ==> CanSettle(rows[i], day, merchant) && rows[i].data.net >= 0)
    requires forall l :: l in liens ==> l.amount >= 0
    ensures Build(id, day, merchant, rows, liens).Ok?
    ensures var x, payable, owed := Build(id, day, merchant, rows, liens).value, Sum(rows, PayableNet()), Sum(liens, LienAmount());
            && x.id == id && x.version == 1 && x.data.day == day && x.data.merchant == merchant && x.data.status == Pending
            && x.data.total == Sum(rows, R.Net()) && x.data.retained == Sum(rows, RetainedNet())
            && x.data.toCreditors == Min(payable, owed) && x.data.toMerchant == Max(0, payable - owed)
            && OrdersAreDue(x.data.orders, merchant, payable, liens)
            && |x.data.receivableIds| == |rows| && forall i :: 0 <= i < |rows| ==> x.data.receivableIds[i] == rows[i].id
  {
    BuildConserves(id, day, merchant, rows, liens);
    BuildPaysCreditorsFirst(id, day, merchant, rows, liens);
    BuildFields(id, day, merchant, rows, liens);
    ScanAllSums(day, merchant, rows);
    BuiltOrders(merchant, Sum(rows, PayableNet()), liens);
    hide PayLiens, OrdersOf, OrdersAreDue, ScanAll;
  }

  method BuildSettlement(id: Id, day: nat, merchant: Id, receivables: seq<R.Receivable>, liens: seq<Lien>,
                         ghost rows: seq<R.Rcv>) returns (r: Result<Settlement>)
    requires |rows| == |receivables| && forall i :: 0 <= i < |rows| ==> rows[i] == receivables[i].View()
    ensures r.Err? ==> Build(id, day, merchant, rows, liens) == Err(r.error)
    ensures r.Ok? ==> fresh(r.value) && Build(id, day, merchant, rows, liens) == Ok(r.value.View()) && r.value.events == []
    ensures r.Ok? ==> r.value.id == id && r.value.merchant == merchant && r.value.day == day
  {
    if receivables == [] {
      return Err(NothingToSettle);
    }
    var s := new Settlement.New(id, day, merchant);
    var scanned := AddReceivables(s, receivables, rows);
    if scanned.Err? {
      return Err(scanned.error);
    }
    var payable := PayCreditors(s, scanned.value, liens);
    if payable > 0 {
      s.orders := s.orders + [Order(ToMerchant, merchant, payable)];
      s.toMerchant := payable;
    }
    return Ok(s);
  }
}
