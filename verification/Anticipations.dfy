/** Anticipation: the merchant is paid today, at a discount, for receivables that fall due later. */
module Anticipations {
  import opened Results
  import opened Sums
  import opened Civil
  import opened Tables
  import opened Events
  import R = Receivables
  import opened Schedules

  datatype Status = Simulated | Confirmed

  datatype Item = Item(receivableId: Id, due: nat, days: int, net: int, presentValue: int, discount: int)

  datatype AntData = AntData(merchant: Id, items: seq<Item>, gross: int, discount: int, net: int, rateMonth: int,
                             requestedAt: nat, status: Status)

  type Ant = Row<AntData>

  // Present value of an amount, for a number of days and a monthly rate.
  type Pricer = (int, int, int) -> int

  function ItemOf(r: R.Rcv, today: nat, rate: int, pricer: Pricer): Item {
    var days := r.data.due - today;
    var pv := pricer(r.data.net, days, rate);
    Item(r.id, r.data.due, days, r.data.net, pv, r.data.net - pv)
  }

  function ItemNet(): Item -> int { (x: Item) => x.net }

  function ItemValue(): Item -> int { (x: Item) => x.presentValue }

  // The items of a list of receivables, or why one cannot be anticipated.
  function Items(merchant: Id, rows: seq<R.Rcv>, today: nat, rate: int, pricer: Pricer): Result<seq<Item>> {
    if rows == [] then Ok([])
    else
      var before :- Items(merchant, rows[..|rows|-1], today, rate, pricer);
      var r := rows[|rows|-1];
      if r.data.merchant != merchant then Err(WrongMerchant)
      else if !R.IsAnticipable(r, today) then Err(NotAnticipable)
      else Ok(before + [ItemOf(r, today, rate, pricer)])
  }

  function Simulate(id: Id, merchant: Id, rows: seq<R.Rcv>, now: nat, rate: int, pricer: Pricer): Result<Ant> {
    if rows == [] then Err(NoReceivables)
    else
      var items :- Items(merchant, rows, DateOnly(now), rate, pricer);
      var gross, net := Sum(items, ItemNet()), Sum(items, ItemValue());
      Ok(Row(id, 1, AntData(merchant, items, gross, gross - net, net, rate, now, Simulated)))
  }

  function AnticipateAll(rows: seq<R.Rcv>, id: Id): Result<seq<R.Rcv>> {
    if rows == [] then Ok([])
    else
      var before :- AnticipateAll(rows[..|rows|-1], id);
      var r :- R.Anticipate(rows[|rows|-1], id);
      Ok(before + [r])
  }

  function Confirmed1(a: Ant): Ant {
    a.(version := a.version + 1, data := a.data.(status := Confirmed))
  }

  // Simulation accepts a list exactly when all of it is the merchant's and can be anticipated.
  lemma {:induction false} ItemsExact(merchant: Id, rows: seq<R.Rcv>, today: nat, rate: int, pricer: Pricer)
    ensures Items(merchant, rows, today, rate, pricer).Ok? <==>
            forall i :: 0 <= i < |rows| ==> rows[i].data.merchant == merchant && R.IsAnticipable(rows[i], today)
  {
    if rows != [] {
      var n := |rows| - 1;
      ItemsExact(merchant, rows[..n], today, rate, pricer);
      assert forall i :: 0 <= i < n ==> rows[..n][i] == rows[i];
    }
  }

  lemma {:induction false} ItemsOfRows(merchant: Id, rows: seq<R.Rcv>, today: nat, rate: int, pricer: Pricer)
    requires Items(merchant, rows, today, rate, pricer).Ok?
    ensures var items := Items(merchant, rows, today, rate, pricer).value;
            |items| == |rows| && forall i :: 0 <= i < |rows| ==> items[i] == ItemOf(rows[i], today, rate, pricer)
  {
    if rows != [] {
      ItemsOfRows(merchant, rows[..|rows|-1], today, rate, pricer);
    }
  }

  // The items carry exactly the nets of the receivables.
  lemma ItemsConserve(merchant: Id, rows: seq<R.Rcv>, today: nat, rate: int, pricer: Pricer)
    requires Items(merchant, rows, today, rate, pricer).Ok?
    ensures Sum(Items(merchant, rows, today, rate, pricer).value, ItemNet()) == Sum(rows, R.Net())
  {
    ItemsOfRows(merchant, rows, today, rate, pricer);
    SumPointwise(Items(merchant, rows, today, rate, pricer).value, rows, ItemNet(), R.Net());
  }

  // What the pricer makes of a receivable today.
  function PricedAt(today: nat, rate: int, pricer: Pricer): R.Rcv -> int {
    (r: R.Rcv) => pricer(r.data.net, r.data.due - today, rate)
  }

  // Item by item the merchant is offered the pricer's value of the receivable's net, for the days to
  // its due date at that rate; the discount is the rest of the net.
  ghost predicate PricedItem(x: Item, r: R.Rcv, today: nat, rate: int, pricer: Pricer) {
    && x.receivableId == r.id && x.due == r.data.due && x.days == r.data.due - today && x.net == r.data.net
    && x.presentValue == pricer(r.data.net, r.data.due - today, rate)
    && x.discount == r.data.net - pricer(r.data.net, r.data.due - today, rate)
  }

  // A simulation, exactly: it fails for an empty list and at the first receivable of another merchant, or
  // not scheduled, or not due after today; otherwise it carries the priced items and their sums.
  lemma SimulatedExactly(id: Id, merchant: Id, rows: seq<R.Rcv>, now: nat, rate: int, pricer: Pricer)
    ensures rows == [] ==> Simulate(id, merchant, rows, now, rate, pricer) == Err(NoReceivables)
    ensures forall i :: 0 <= i < |rows| && !Offered(merchant, rows[i], DateOnly(now)) && (forall k :: 0 <= k < i ==> Offered(merchant, rows[k], DateOnly(now))) ==>
              Simulate(id, merchant, rows, now, rate, pricer) == Err(if rows[i].data.merchant != merchant then WrongMerchant else NotAnticipable)
    ensures rows != [] && (forall i :: 0 <= i < |rows| ==> Offered(merchant, rows[i], DateOnly(now))) ==>
              && Simulate(id, merchant, rows, now, rate, pricer).Ok?
              && var a := Simulate(id, merchant, rows, now, rate, pricer).value;
              && a.id == id && a.version == 1 && a.data.merchant == merchant && a.data.rateMonth == rate && a.data.requestedAt == now
              && a.data.status == Simulated
              && |a.data.items| == |rows| && (forall i :: 0 <= i < |rows| ==> PricedItem(a.data.items[i], rows[i], DateOnly(now), rate, pricer))
              && a.data.gross == Sum(rows, R.Net()) && a.data.net == Sum(rows, PricedAt(DateOnly(now), rate, pricer))
              && a.data.discount == a.data.gross - a.data.net
  {
    var today := DateOnly(now);
    hide DateOnly;
    ItemsExact(merchant, rows, today, rate, pricer);
    forall i | 0 <= i < |rows| && !Offered(merchant, rows[i], today) && (forall k :: 0 <= k < i ==> Offered(merchant, rows[k], today))
      ensures Items(merchant, rows, today, rate, pricer) == Err(if rows[i].data.merchant != merchant then WrongMerchant else NotAnticipable)
    {
      ItemsExact(merchant, rows[..i], today, rate, pricer);
      ItemsFail(merchant, rows, today, rate, pricer, i);
    }
    if Items(merchant, rows, today, rate, pricer).Ok? {
      ItemsOfRows(merchant, rows, today, rate, pricer);
      ItemsConserve(merchant, rows, today, rate, pricer);
      hide Items;
      SumPointwise(Items(merchant, rows, today, rate, pricer).value, rows, ItemValue(), PricedAt(today, rate, pricer));
    }
  }

  // What the merchant may have anticipated: its own scheduled receivables that fall due after today.
  predicate Offered(merchant: Id, r: R.Rcv, today: nat) {
    r.data.merchant == merchant && r.data.status == R.Scheduled && r.data.due > today
  }

  lemma ItemsFail(merchant: Id, rows: seq<R.Rcv>, today: nat, rate: int, pricer: Pricer, i: nat)
    requires i < |rows| && Items(merchant, rows[..i], today, rate, pricer).Ok?
    requires rows[i].data.merchant != merchant || !R.IsAnticipable(rows[i], today)
    ensures Items(merchant, rows, today, rate, pricer) == Err(if rows[i].data.merchant != merchant then WrongMerchant else NotAnticipable)
  {
    assert rows[..i+1][..i] == rows[..i];
    ItemsStop(merchant, rows, today, rate, pricer, i + 1);
  }

  lemma ItemsPush(merchant: Id, rows: seq<R.Rcv>, today: nat, rate: int, pricer: Pricer, i: nat)
    requires i < |rows| && Items(merchant, rows[..i], today, rate, pricer).Ok?
    requires rows[i].data.merchant == merchant && R.IsAnticipable(rows[i], today)
    ensures Items(merchant, rows[..i+1], today, rate, pricer) ==
            Ok(Items(merchant, rows[..i], today, rate, pricer).value + [ItemOf(rows[i], today, rate, pricer)])
  {
    assert rows[..i+1][..i] == rows[..i];
  }

  lemma {:induction false} ItemsStop(merchant: Id, rows: seq<R.Rcv>, today: nat, rate: int, pricer: Pricer, i: nat)
    requires i <= |rows| && Items(merchant, rows[..i], today, rate, pricer).Err?
    ensures Items(merchant, rows, today, rate, pricer) == Items(merchant, rows[..i], today, rate, pricer)
    decreases |rows| - i
  {
    if i < |rows| {
      assert rows[..i+1][..i] == rows[..i];
      ItemsStop(merchant, rows, today, rate, pricer, i + 1);
    } else {
      assert rows[..i] == rows;
    }
  }

  // What may be anticipated can be: each row moves to ANTICIPATED and carries the anticipation.
  lemma {:induction false} AnticipateAllMoves(rows: seq<R.Rcv>, id: Id)
    requires forall i :: 0 <= i < |rows| ==> rows[i].data.status.Scheduled?
    ensures AnticipateAll(rows, id).Ok?
    ensures var news := AnticipateAll(rows, id).value;
            |news| == |rows| && forall i :: 0 <= i < |rows| ==> R.Anticipate(rows[i], id) == Ok(news[i])
  {
    if rows != [] {
      AnticipateAllMoves(rows[..|rows|-1], id);
    }
  }

  class Anticipation {
    const id: Id
    const merchant: Id
    const rateMonth: int
    const requestedAt: nat
    var items: seq<Item>
    var gross: int
    var discount: int
    var net: int
    var status: Status
    var version: nat
    var events: seq<Event>

    function View(): Ant
      reads this
    {
      Row(id, version, AntData(merchant, items, gross, discount, net, rateMonth, requestedAt, status))
    }

    constructor New(id: Id, merchant: Id, rateMonth: int, requestedAt: nat)
      ensures View() == Row(id, 1, AntData(merchant, [], 0, 0, 0, rateMonth, requestedAt, Simulated)) && events == []
    {
      this.id, this.merchant, this.rateMonth, this.requestedAt := id, merchant, rateMonth, requestedAt;
      items, gross, discount, net, status, version, events := [], 0, 0, 0, Simulated, 1, [];
    }

    method AddItem(x: R.Receivable, today: nat, rate: int, pricer: Pricer)
      requires gross == Sum(items, ItemNet()) && net == Sum(items, ItemValue())
      modifies this`items, this`gross, this`net
      ensures items == old(items) + [ItemOf(x.View(), today, rate, pricer)] && PricedItem(items[|items|-1], x.View(), today, rate, pricer)
      ensures gross == Sum(items, ItemNet()) && net == Sum(items, ItemValue())
    {
      var days := x.due - today;
      var pv := pricer(x.net, days, rate);
      var item := Item(x.id, x.due, days, x.net, pv, x.net - pv);
      SumPush(items, item, ItemNet());
      SumPush(items, item, ItemValue());
      items := items + [item];
      gross := gross + x.net;
      net := net + pv;
    }

    // Marks every receivable; the first that cannot be marked stops the confirmation.
    method Confirm(receivables: seq<R.Receivable>, ghost rows: seq<R.Rcv>, eid: Id) returns (r: Result<()>)
      requires |rows| == |receivables| && forall i :: 0 <= i < |rows| ==> rows[i] == receivables[i].View()
      requires forall i, j :: 0 <= i < j < |receivables| ==> receivables[i] != receivables[j]
      modifies this, receivables
      ensures r.Ok? <==> old(status) != Confirmed && |rows| == |old(items)| && AnticipateAll(rows, id).Ok?
      ensures r.Ok? ==> View() == Confirmed1(old(View())) && events == old(events) + [NewEvent(eid, AnticipationConfirmed, id, merchant)]
      ensures r.Ok? ==> Views(receivables) == AnticipateAll(rows, id).value
      ensures r.Err? ==> r.error == if old(status) == Confirmed then AlreadyDone else if |rows| != |old(items)| then NotAnticipable else InvalidTransition
    {
      hide AnticipateAll, Views;
      if status == Confirmed {
        return Err(AlreadyDone);
      }
      if |receivables| != |items| {
        return Err(NotAnticipable);
      }
      var marked := AnticipateEach(receivables, rows, id);
      if marked.Err? {
        return marked;
      }
      status, version := Confirmed, version + 1;
      events := events + [NewEvent(eid, AnticipationConfirmed, id, merchant)];
      return Ok(());
    }

    method PullEvents() returns (evs: seq<Event>)
      modifies this`events
      ensures evs == old(events) && events == []
    {
      evs := events;
      events := [];
    }
  }

  method AnticipateEach(receivables: seq<R.Receivable>, ghost rows: seq<R.Rcv>, id: Id) returns (r: Result<()>)
    requires |rows| == |receivables| && forall i :: 0 <= i < |rows| ==> rows[i] == receivables[i].View()
    requires forall i, j :: 0 <= i < j < |receivables| ==> receivables[i] != receivables[j]
    modifies receivables
    ensures r.Ok? <==> AnticipateAll(rows, id).Ok?
    ensures r.Ok? ==> Views(receivables) == AnticipateAll(rows, id).value
    ensures r.Err? ==> r.error == InvalidTransition
  {
    hide AnticipateAll, R.Anticipate;
    AnticipateNone(id);
    assert rows[..0] == [];
    ghost var news: seq<R.Rcv> := [];
    for i := 0 to |receivables|
      invariant AnticipateAll(rows[..i], id) == Ok(news) && |news| == i
      invariant forall j :: 0 <= j < i ==> receivables[j].View() == news[j]
      invariant forall j :: i <= j < |rows| ==> receivables[j].View() == rows[j]
    {
      AnticipatePush(rows, id, i);
      R.ChangesExactly(rows[i], R.Anticipated, id);
      r := receivables[i].AnticipateBy(id);
      if r.Err? {
        AnticipateStops(rows, id, i + 1);
        return;
      }
      news := news + [receivables[i].View()];
    }
    assert rows[..|rows|] == rows;
    ViewsAre(receivables, news);
    return Ok(());
  }

  lemma ViewsAre(list: seq<R.Receivable>, rows: seq<R.Rcv>)
    requires |list| == |rows| && forall i :: 0 <= i < |list| ==> list[i].View() == rows[i]
    ensures Views(list) == rows
  {
  }

  lemma AnticipateNone(id: Id)
    ensures AnticipateAll([], id) == Ok([])
  {
  }

  lemma AnticipatePush(rows: seq<R.Rcv>, id: Id, i: nat)
    requires i < |rows| && AnticipateAll(rows[..i], id).Ok?
    ensures R.Anticipate(rows[i], id).Err? ==> AnticipateAll(rows[..i+1], id).Err?
    ensures R.Anticipate(rows[i], id).Ok? ==>
              AnticipateAll(rows[..i+1], id) == Ok(AnticipateAll(rows[..i], id).value + [R.Anticipate(rows[i], id).value])
  {
    assert rows[..i+1][..i] == rows[..i];
  }

  lemma {:induction false} AnticipateStops(rows: seq<R.Rcv>, id: Id, i: nat)
    requires i <= |rows| && AnticipateAll(rows[..i], id).Err?
    ensures AnticipateAll(rows, id).Err?
    decreases |rows| - i
  {
    if i < |rows| {
      assert rows[..i+1][..i] == rows[..i];
      AnticipateStops(rows, id, i + 1);
    } else {
      assert rows[..i] == rows;
    }
  }

  lemma SumOfNone(merchant: Id, today: nat, rate: int, pricer: Pricer)
    ensures Items(merchant, [], today, rate, pricer) == Ok([]) && Sum([], ItemNet()) == Sum([], ItemValue()) == 0
  {
  }

  method SimulateAnticipation(id: Id, merchant: Id, receivables: seq<R.Receivable>, now: nat, rate: int, pricer: Pricer,
                              ghost rows: seq<R.Rcv>) returns (r: Result<Anticipation>)
    requires |rows| == |receivables| && forall i :: 0 <= i < |rows| ==> rows[i] == receivables[i].View()
    ensures r.Err? ==> Simulate(id, merchant, rows, now, rate, pricer) == Err(r.error)
    ensures r.Ok? ==> fresh(r.value) && r.value.events == [] && Simulate(id, merchant, rows, now, rate, pricer) == Ok(r.value.View())
    ensures r.Ok? ==> |r.value.items| == |rows| && forall i :: 0 <= i < |rows| ==> PricedItem(r.value.items[i], rows[i], DateOnly(now), rate, pricer)
  {
    hide Items, ItemOf, PricedItem, Sum, DateOnly;
    if receivables == [] {
      return Err(NoReceivables);
    }
    SumOfNone(merchant, DateOnly(now), rate, pricer);
    assert rows[..0] == [];
    var a := new Anticipation.New(id, merchant, rate, now);
    var today := DateOnly(now);
    for i := 0 to |receivables|
      invariant fresh(a) && a.events == []
      invariant a.id == id && a.merchant == merchant && a.rateMonth == rate && a.requestedAt == now
      invariant Items(merchant, rows[..i], today, rate, pricer) == Ok(a.items)
      invariant |a.items| == i && forall j :: 0 <= j < i ==> PricedItem(a.items[j], rows[j], today, rate, pricer)
      invariant a.gross == Sum(a.items, ItemNet()) && a.net == Sum(a.items, ItemValue())
      invariant a.discount == 0 && a.status == Simulated && a.version == 1
    {
      var x := receivables[i];
      assert rows[..i+1][..i] == rows[..i] && rows[i] == x.View();
      if x.merchant != merchant {
        ItemsFail(merchant, rows, today, rate, pricer, i);
        return Err(WrongMerchant);
      }
      if !(x.status.Scheduled? && x.due > today) {
        ItemsFail(merchant, rows, today, rate, pricer, i);
        return Err(NotAnticipable);
      }
      ItemsPush(merchant, rows, today, rate, pricer, i);
      a.AddItem(x, today, rate, pricer);
    }
    assert rows[..|rows|] == rows;
    a.discount := a.gross - a.net;
    return Ok(a);
  }
}
