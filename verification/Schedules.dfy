/** The agenda of a captured sale, and its grouping into receivable units for the registry. */
module Schedules {
  import opened Results
  import opened Sums
  import opened Money
  import opened Civil
  import opened Calendar
  import opened FeePlans
  import T = Transactions
  import opened Receivables

  // Debit falls due on the next business day; instalment k of a credit sale 30k
  // days after the capture, moved to a business day.
  ghost function DueDate(cal: BusinessCalendar, product: Product, captured: nat, k: nat): nat
    requires NeverClosedFiveDays(cal)
  {
    if product.Debit? then AfterBusinessDays(cal, captured, 1) else NextBusiness(cal, captured + 30 * k)
  }

  // Instalment k, given the parts of the amount and of the fee.
  ghost function Instalment(tx: T.Tx, cal: BusinessCalendar, ids: nat -> Id, gross: seq<int>, fees: seq<int>, k: nat): Rcv
    requires NeverClosedFiveDays(cal) && tx.data.capturedAt.Some? && 1 <= k <= |gross| == |fees|
  {
    NewReceivable(ids(k), tx.id, tx.data.merchant, k, |gross|, tx.data.product, tx.data.brand, gross[k - 1], fees[k - 1],
                  DueDate(cal, tx.data.product, DateOnly(tx.data.capturedAt.value), k))
  }

  // The first n instalments.
  ghost function Instalments(tx: T.Tx, cal: BusinessCalendar, ids: nat -> Id, gross: seq<int>, fees: seq<int>, n: nat): (list: seq<Rcv>)
    requires NeverClosedFiveDays(cal) && tx.data.capturedAt.Some? && n <= |gross| == |fees|
    ensures |list| == n
    ensures forall i :: 0 <= i < n ==> list[i] == Instalment(tx, cal, ids, gross, fees, i + 1)
  {
    if n == 0 then [] else Instalments(tx, cal, ids, gross, fees, n - 1) + [Instalment(tx, cal, ids, gross, fees, n)]
  }

  ghost function Schedule(tx: T.Tx, plan: FeePlan, cal: BusinessCalendar, ids: nat -> Id): (r: Result<seq<Rcv>>)
    requires NeverClosedFiveDays(cal)
  {
    if !tx.data.status.Captured? || tx.data.capturedAt.None? then Err(NotCaptured)
    else
      var mdr :- plan.MDR(tx.data.product, tx.data.installments);
      var n := tx.data.installments;
      Ok(Instalments(tx, cal, ids, SplitParts(tx.data.amount, n), SplitParts(ApplyBps(tx.data.amount, mdr), n), n))
  }

  ghost function Views(list: seq<Receivable>): (rows: seq<Rcv>)
    reads list
    ensures |rows| == |list|
    ensures forall i :: 0 <= i < |list| ==> rows[i] == list[i].View()
  {
    seq(|list|, i requires 0 <= i < |list| reads list => list[i].View())
  }

  method DueOn(cal: BusinessCalendar, product: Product, captured: nat, k: nat) returns (due: nat)
    requires NeverClosedFiveDays(cal)
    ensures due == DueDate(cal, product, captured, k)
  {
    if product.Debit? {
      due := AddBusinessDays(cal, captured * SECONDS_PER_DAY, 1);
    } else {
      due := NextBusinessDay(cal, (captured + 30 * k) * SECONDS_PER_DAY);
      NextBusinessUnique(cal, captured + 30 * k, due);
    }
  }

  method NewInstalments(tx: T.Transaction, cal: BusinessCalendar, ids: nat -> Id, grossParts: array<int>, feeParts: array<int>)
      returns (out: seq<Receivable>)
    requires NeverClosedFiveDays(cal) && tx.capturedAt.Some? && grossParts.Length == feeParts.Length
    ensures fresh(out)
    ensures Views(out) == Instalments(tx.View(), cal, ids, grossParts[..], feeParts[..], grossParts.Length)
    ensures forall i, j :: 0 <= i < j < |out| ==> out[i] != out[j]
  {
    ghost var row, gross, fees := tx.View(), grossParts[..], feeParts[..];
    var captured := DateOnly(tx.capturedAt.value);
    var n := grossParts.Length;
    out := [];
    ghost var rows: seq<Rcv> := [];
    for k := 1 to n + 1
      invariant |out| == k - 1 && fresh(out)
      invariant forall i, j :: 0 <= i < j < |out| ==> out[i] != out[j]
      invariant rows == Instalments(row, cal, ids, gross, fees, k - 1)
      invariant forall i :: 0 <= i < k - 1 ==> out[i].View() == rows[i]
    {
      var due := DueOn(cal, tx.product, captured, k);
      var instalment := new Receivable.New(ids(k), tx.id, tx.merchant, k, n, tx.product, tx.brand,
                                           grossParts[k - 1], feeParts[k - 1], due);
      assert instalment.View() == Instalment(row, cal, ids, gross, fees, k);
      out := out + [instalment];
      rows := rows + [instalment.View()];
    }
    assert Views(out) == rows;
  }

  method ScheduleReceivables(tx: T.Transaction, plan: FeePlan, cal: BusinessCalendar, ids: nat -> Id)
      returns (r: Result<seq<Receivable>>)
    requires NeverClosedFiveDays(cal)
    ensures r.Err? ==> Schedule(tx.View(), plan, cal, ids) == Err(r.error)
    ensures r.Ok? ==> fresh(r.value) && Schedule(tx.View(), plan, cal, ids) == Ok(Views(r.value))
    ensures r.Ok? ==> forall i, j :: 0 <= i < j < |r.value| ==> r.value[i] != r.value[j]
  {
    if !tx.status.Captured? || tx.capturedAt.None? {
      return Err(NotCaptured);
    }
    var mdr := plan.MDR(tx.product, tx.installments);
    if mdr.Err? {
      return Err(mdr.error);
    }
    var n := tx.installments;
    var fee := ApplyBps(tx.amount, mdr.value);
    var grossParts := Split(tx.amount, n);
    var feeParts := Split(fee, n);
    assert grossParts.Length == |grossParts[..]| == n && feeParts.Length == |feeParts[..]| == n;
    var out := NewInstalments(tx, cal, ids, grossParts, feeParts);
    return Ok(out);
  }

  // ---- what a schedule promises

  // The instalments of a sale carry its whole amount and its whole fee, and are
  // numbered from 1.
  lemma ScheduleConserves(tx: T.Tx, plan: FeePlan, cal: BusinessCalendar, ids: nat -> Id)
    requires NeverClosedFiveDays(cal) && Schedule(tx, plan, cal, ids).Ok?
    ensures var list := Schedule(tx, plan, cal, ids).value;
            var mdr := plan.MDR(tx.data.product, tx.data.installments).value;
            && |list| == tx.data.installments >= 1
            && (forall i :: 0 <= i < |list| ==> list[i].data.no == i + 1 && list[i].data.txId == tx.id)
            && Sum(list, Gross()) == tx.data.amount
            && Sum(list, Fee()) == ApplyBps(tx.data.amount, mdr)
            && Sum(list, Net()) == tx.data.amount - ApplyBps(tx.data.amount, mdr)
  {
    var n, mdr := tx.data.installments, plan.MDR(tx.data.product, tx.data.installments).value;
    var gross, fees := SplitParts(tx.data.amount, n), SplitParts(ApplyBps(tx.data.amount, mdr), n);
    InstalmentSums(Instalments(tx, cal, ids, gross, fees, n), gross, fees);
    SplitConserves(tx.data.amount, n);
    SplitConserves(ApplyBps(tx.data.amount, mdr), n);
  }

  lemma InstalmentSums(list: seq<Rcv>, grossParts: seq<int>, feeParts: seq<int>)
    requires |list| == |grossParts| == |feeParts|
    requires forall i :: 0 <= i < |list| ==>
               list[i].data.gross == grossParts[i] && list[i].data.fee == feeParts[i] && list[i].data.net == grossParts[i] - feeParts[i]
    ensures Sum(list, Gross()) == Sum(grossParts, Value) && Sum(list, Fee()) == Sum(feeParts, Value)
    ensures Sum(list, Net()) == Sum(grossParts, Value) - Sum(feeParts, Value)
  {
    SumPointwise(list, grossParts, Gross(), Value);
    SumPointwise(list, feeParts, Fee(), Value);
    SumOfSums(list, Net(), Fee(), Gross());
  }

  // Under a valid plan every amount is non-negative, but for the net of the first instalment,
  // which can fall short of zero by at most n-1 cents; it does so exactly when the
  // remainders of the fee outweigh those of the amount.
  lemma ScheduleAmounts(tx: T.Tx, plan: FeePlan, cal: BusinessCalendar, ids: nat -> Id, i: nat)
    requires NeverClosedFiveDays(cal) && Schedule(tx, plan, cal, ids).Ok? && i < tx.data.installments
    requires plan.Valid() && tx.data.amount > 0
    ensures var r := Schedule(tx, plan, cal, ids).value[i].data;
            var n := tx.data.installments;
            var fee := ApplyBps(tx.data.amount, plan.MDR(tx.data.product, n).value);
            && r.gross >= 0 && r.fee >= 0 && r.net == r.gross - r.fee
            && (i > 0 ==> r.net >= 0)
            && (i == 0 ==> r.net >= -(n - 1))
            && (i == 0 ==> (r.net >= 0 <==> tx.data.amount / n + tx.data.amount % n >= fee / n + fee % n))
            && (tx.data.amount <= MAX_INT64 / 10000 ==> r.gross <= MAX_INT64 && r.fee <= MAX_INT64 && r.net <= MAX_INT64)
  {
    var n := tx.data.installments;
    var mdr := plan.MDR(tx.data.product, n).value;
    ApplyBpsBounds(tx.data.amount, mdr);
    var fee := ApplyBps(tx.data.amount, mdr);
    SplitNet(tx.data.amount, fee, n, i);
    SplitFair(tx.data.amount, n, i);
    SplitFair(fee, n, i);
  }

  // Every instalment falls due on a business day, so the daily settlement does not skip it;
  // credit instalments fall due in order, each at most four days after its 30k days.
  lemma ScheduleDueDates(tx: T.Tx, plan: FeePlan, cal: BusinessCalendar, ids: nat -> Id, i: nat, j: nat)
    requires NeverClosedFiveDays(cal) && Schedule(tx, plan, cal, ids).Ok? && i <= j < tx.data.installments
    ensures var list := Schedule(tx, plan, cal, ids).value;
            var captured := DateOnly(tx.data.capturedAt.value);
            && cal(list[i].data.due) && captured < list[i].data.due
            && (tx.data.product.Credit? ==> captured + 30 * (i + 1) <= list[i].data.due <= captured + 30 * (i + 1) + 4)
            && (tx.data.product.Credit? && i < j ==> list[i].data.due < list[j].data.due)
            && (tx.data.product.Debit? ==> list[i].data.due <= captured + 5)
  {
    AfterBusinessDaysCounts(cal, DateOnly(tx.data.capturedAt.value), 1);
  }

  // The rate a plan has for a sale, if it has one.
  function Rate(plan: FeePlan, product: Product, n: int): Option<int> {
    if n == 1 then Some(if product.Debit? then plan.debit else plan.creditOneShot)
    else if n > 1 && product.Credit? && n in plan.creditInstallments then Some(plan.creditInstallments[n])
    else None
  }

  // The day d is the first open one from that day on.
  ghost predicate FirstOpen(cal: BusinessCalendar, from: nat, d: nat) {
    from <= d && cal(d) && forall x :: from <= x < d ==> !cal(x)
  }

  // Part k (from 1) of an amount split in n: the quotient, and with the first part the remainder.
  function PartOf(amount: int, n: int, k: int): int
    requires n > 0
  {
    if k == 1 then amount / n + amount % n else amount / n
  }

  // Instalment k of a sale, column by column.
  ghost predicate IsInstalmentOf(r: Rcv, tx: T.Tx, rate: int, cal: BusinessCalendar, id: Id, k: nat)
    requires tx.data.installments > 0 && tx.data.capturedAt.Some?
  {
    var n, d := tx.data.installments, r.data;
    var captured := tx.data.capturedAt.value / 86400;
    && r.id == id && r.version == 1 && d.txId == tx.id && d.merchant == tx.data.merchant && d.no == k && d.installments == n
    && d.product == tx.data.product && d.brand == tx.data.brand
    && d.gross == PartOf(tx.data.amount, n, k) && d.fee == PartOf(tx.data.amount * rate / 10000, n, k) && d.net == d.gross - d.fee
    && d.status == Scheduled && d.settlement == None && d.anticipation == None
    && FirstOpen(cal, if d.product.Debit? then captured + 1 else captured + 30 * k, d.due)
  }

  // The agenda of a sale, exactly: only of a captured one, only at a rate of the plan, and then every column
  // of every instalment.
  lemma ScheduledExactly(tx: T.Tx, plan: FeePlan, cal: BusinessCalendar, ids: nat -> Id)
    requires NeverClosedFiveDays(cal) && plan.Valid() && tx.data.amount > 0
    ensures var rate, list := Rate(plan, tx.data.product, tx.data.installments), Schedule(tx, plan, cal, ids);
            if tx.data.status != T.Captured || tx.data.capturedAt == None then list == Err(NotCaptured)
            else if rate == None then list == Err(InstallmentsNotAllowed)
            else
              && list.Ok? && |list.value| == tx.data.installments > 0
              && forall k: nat :: 1 <= k <= tx.data.installments ==> IsInstalmentOf(list.value[k-1], tx, rate.value, cal, ids(k), k)
  {
    var n, rate := tx.data.installments, Rate(plan, tx.data.product, tx.data.installments);
    if tx.data.status == T.Captured && tx.data.capturedAt.Some? && rate.Some? {
      RateInRange(plan, tx.data.product, n);
      ApplyBpsBounds(tx.data.amount, rate.value);
      var fee := ApplyBps(tx.data.amount, rate.value);
      FeeIsQuotient(tx.data.amount, rate.value);
      var list := Schedule(tx, plan, cal, ids).value;
      hide ApplyBps, SplitParts;
      forall k: nat | 1 <= k <= n
        ensures IsInstalmentOf(list[k-1], tx, rate.value, cal, ids(k), k)
      {
        SplitFair(tx.data.amount, n, k - 1);
        SplitFair(fee, n, k - 1);
        DueIsFirstOpen(cal, tx.data.product, DateOnly(tx.data.capturedAt.value), k);
      }
    }
  }

  lemma RateInRange(plan: FeePlan, product: Product, n: int)
    requires plan.Valid() && Rate(plan, product, n).Some?
    ensures plan.MDR(product, n) == Ok(Rate(plan, product, n).value) && 0 <= Rate(plan, product, n).value <= 10000
  {
  }

  lemma FeeIsQuotient(amount: int, rate: int)
    requires amount >= 0 && 0 <= rate <= 10000
    ensures ApplyBps(amount, rate) == amount * rate / 10000
  {
    MulBounds(amount, rate);
  }

  lemma DueIsFirstOpen(cal: BusinessCalendar, product: Product, captured: nat, k: nat)
    requires NeverClosedFiveDays(cal)
    ensures FirstOpen(cal, if product.Debit? then captured + 1 else captured + 30 * k, DueDate(cal, product, captured, k))
  {
    assert AfterBusinessDays(cal, captured, 0) == captured;
  }

  // ---- grouping into units

  datatype UnitKey = UnitKey(merchant: Id, brand: Id, product: Product, due: nat)

  datatype RcvUnit = RcvUnit(key: UnitKey, total: int, count: int)

  function KeyOf(r: Rcv): UnitKey {
    UnitKey(r.data.merchant, r.data.brand, r.data.product, r.data.due)
  }

  // The keys of a list, each once, in order of first occurrence.
  function Keys(list: seq<Rcv>): seq<UnitKey> {
    if list == [] then []
    else
      var before, k := Keys(list[..|list|-1]), KeyOf(list[|list|-1]);
      if k in before then before else before + [k]
  }

  function NetAt(k: UnitKey): Rcv -> int { (r: Rcv) => if KeyOf(r) == k then r.data.net else 0 }

  function OneAt(k: UnitKey): Rcv -> int { (r: Rcv) => if KeyOf(r) == k then 1 else 0 }

  // Group-by as a reference: for each key, the sum and the count over the list.
  ghost predicate GroupedBy(list: seq<Rcv>, units: seq<RcvUnit>) {
    && |units| == |Keys(list)|
    && forall u :: 0 <= u < |units| ==> units[u] == RcvUnit(Keys(list)[u], Sum(list, NetAt(Keys(list)[u])), Sum(list, OneAt(Keys(list)[u])))
  }

  lemma {:induction false} KeysCover(list: seq<Rcv>)
    ensures forall k :: k in Keys(list) <==> exists i :: 0 <= i < |list| && KeyOf(list[i]) == k
    ensures forall u, v :: 0 <= u < v < |Keys(list)| ==> Keys(list)[u] != Keys(list)[v]
  {
    if list != [] {
      KeysCover(list[..|list|-1]);
    }
  }

  // A key that has not occurred has nothing to sum.
  lemma {:induction false} AbsentKey(list: seq<Rcv>, k: UnitKey)
    requires forall i :: 0 <= i < |list| ==> KeyOf(list[i]) != k
    ensures Sum(list, NetAt(k)) == 0 && Sum(list, OneAt(k)) == 0
  {
    if list != [] {
      AbsentKey(list[..|list|-1], k);
    }
  }

  method GroupUnits(list: seq<Rcv>) returns (units: seq<RcvUnit>)
    ensures GroupedBy(list, units)
  {
    var index: map<UnitKey, nat> := map[];
    units := [];
    for n := 0 to |list|
      invariant GroupedBy(list[..n], units)
      invariant forall k :: k in index <==> k in Keys(list[..n])
      invariant forall k :: k in index ==> index[k] < |units| && units[index[k]].key == k
    {
      var r := list[n];
      var k := KeyOf(r);
      GroupOneMore(list[..n], r, units);
      KeysCover(list[..n]);
      assert list[..n+1] == list[..n] + [r];
      if k in index {
        units := units[index[k] := units[index[k]].(total := units[index[k]].total + r.data.net, count := units[index[k]].count + 1)];
      } else {
        index := index[k := |units|];
        units := units + [RcvUnit(k, r.data.net, 1)];
      }
    }
    assert list[..|list|] == list;
  }

  lemma GroupOneMore(list: seq<Rcv>, r: Rcv, units: seq<RcvUnit>)
    requires GroupedBy(list, units)
    ensures forall u :: 0 <= u < |units| && units[u].key == KeyOf(r) ==>
                        GroupedBy(list + [r], units[u := units[u].(total := units[u].total + r.data.net, count := units[u].count + 1)])
    ensures KeyOf(r) !in Keys(list) ==> GroupedBy(list + [r], units + [RcvUnit(KeyOf(r), r.data.net, 1)])
    ensures Keys(list + [r]) == if KeyOf(r) in Keys(list) then Keys(list) else Keys(list) + [KeyOf(r)]
  {
    assert (list + [r])[..|list|] == list;
    KeysCover(list);
    forall k
      ensures Sum(list + [r], NetAt(k)) == Sum(list, NetAt(k)) + NetAt(k)(r)
      ensures Sum(list + [r], OneAt(k)) == Sum(list, OneAt(k)) + OneAt(k)(r)
    {
    }
    if KeyOf(r) !in Keys(list) {
      AbsentKey(list, KeyOf(r));
    }
  }

  function Total(): RcvUnit -> int { (u: RcvUnit) => u.total }

  ghost function UnitsOf(list: seq<Rcv>): (units: seq<RcvUnit>)
    ensures GroupedBy(list, units)
  {
    seq(|Keys(list)|, u requires 0 <= u < |Keys(list)| =>
      RcvUnit(Keys(list)[u], Sum(list, NetAt(Keys(list)[u])), Sum(list, OneAt(Keys(list)[u]))))
  }

  lemma GroupingUnique(list: seq<Rcv>, a: seq<RcvUnit>, b: seq<RcvUnit>)
    requires GroupedBy(list, a) && GroupedBy(list, b)
    ensures a == b
  {
  }

  // A receivable belongs to a unit when merchant, brand, product and due date are the same.
  predicate Belongs(r: Rcv, k: UnitKey) {
    r.data.merchant == k.merchant && r.data.brand == k.brand && r.data.product == k.product && r.data.due == k.due
  }

  function NetIn(k: UnitKey): Rcv -> int { (r: Rcv) => if Belongs(r, k) then r.data.net else 0 }

  function OneIn(k: UnitKey): Rcv -> int { (r: Rcv) => if Belongs(r, k) then 1 else 0 }

  ghost predicate InSomeUnit(r: Rcv, units: seq<RcvUnit>) {
    exists u :: 0 <= u < |units| && Belongs(r, units[u].key)
  }

  // Units, exactly: every receivable belongs to one of them and to no other, each holds the nets and the
  // number of its receivables, and they stand in the order in which their first receivables do.
  lemma UnitsExactly(list: seq<Rcv>, units: seq<RcvUnit>)
    requires GroupedBy(list, units)
    ensures forall i :: 0 <= i < |list| ==> InSomeUnit(list[i], units)
    ensures forall i, u, v :: 0 <= i < |list| && 0 <= u < |units| && 0 <= v < |units| && Belongs(list[i], units[u].key) && Belongs(list[i], units[v].key)
              ==> u == v
    ensures forall u :: 0 <= u < |units| ==> units[u].total == Sum(list, NetIn(units[u].key)) && units[u].count == Sum(list, OneIn(units[u].key)) > 0
    ensures forall u, v :: 0 <= u < v < |units| ==>
              exists i :: 0 <= i < |list| && Belongs(list[i], units[u].key) && forall j :: 0 <= j <= i ==> !Belongs(list[j], units[v].key)
  {
    OneUnitEach(list, units);
    hide Keys, Sum, GroupedBy, Belongs;
    forall u | 0 <= u < |units|
      ensures units[u].total == Sum(list, NetIn(units[u].key)) && units[u].count == Sum(list, OneIn(units[u].key)) > 0
    {
      UnitSums(list, units, u);
    }
    forall u, v | 0 <= u < v < |units|
      ensures exists i :: 0 <= i < |list| && Belongs(list[i], units[u].key) && forall j :: 0 <= j <= i ==> !Belongs(list[j], units[v].key)
    {
      var i := UnitsInOrder(list, units, u, v);
    }
  }

  lemma UnitSums(list: seq<Rcv>, units: seq<RcvUnit>, u: nat)
    requires GroupedBy(list, units) && u < |units|
    ensures units[u].total == Sum(list, NetIn(units[u].key)) && units[u].count == Sum(list, OneIn(units[u].key)) > 0
  {
    var k := units[u].key;
    assert k in Keys(list);
    var i := KeyOccurs(list, k);
    SumPointwise(list, list, NetAt(k), NetIn(k));
    SumPointwise(list, list, OneAt(k), OneIn(k));
    SomeCounts(list, i, OneIn(k));
  }

  lemma UnitsInOrder(list: seq<Rcv>, units: seq<RcvUnit>, u: nat, v: nat) returns (i: nat)
    requires GroupedBy(list, units) && u < v < |units|
    ensures i < |list| && Belongs(list[i], units[u].key) && forall j :: 0 <= j <= i ==> !Belongs(list[j], units[v].key)
  {
    i := FirstOccurrences(list, u, v);
    hide Keys, Sum;
  }

  lemma KeyOccurs(list: seq<Rcv>, k: UnitKey) returns (i: nat)
    requires k in Keys(list)
    ensures i < |list| && KeyOf(list[i]) == k
  {
    KeysCover(list);
    var j :| 0 <= j < |list| && KeyOf(list[j]) == k;
    i := j;
  }

  lemma OneUnitEach(list: seq<Rcv>, units: seq<RcvUnit>)
    requires GroupedBy(list, units)
    ensures forall i :: 0 <= i < |list| ==> InSomeUnit(list[i], units)
    ensures forall i, u, v :: 0 <= i < |list| && 0 <= u < |units| && 0 <= v < |units| && Belongs(list[i], units[u].key) && Belongs(list[i], units[v].key)
              ==> u == v
  {
    KeysCover(list);
    hide Keys, Sum;
    forall i | 0 <= i < |list|
      ensures InSomeUnit(list[i], units)
    {
      assert KeyOf(list[i]) in Keys(list);
      var u :| 0 <= u < |Keys(list)| && Keys(list)[u] == KeyOf(list[i]);
      assert Belongs(list[i], units[u].key);
      assert InSomeUnit(list[i], units);
    }
    forall i, u, v | 0 <= i < |list| && 0 <= u < |units| && 0 <= v < |units| && Belongs(list[i], units[u].key) && Belongs(list[i], units[v].key)
      ensures u == v
    {
      assert Keys(list)[u] == KeyOf(list[i]) == Keys(list)[v];
    }
  }

  lemma SomeCounts(list: seq<Rcv>, i: nat, w: Rcv -> int)
    requires i < |list| && w(list[i]) >= 1 && forall r :: w(r) >= 0
    ensures Sum(list, w) >= 1
  {
    SumPrefix(list, i, w);
    SumPrefix(list, i + 1, w);
    assert list[..i+1][..i] == list[..i];
  }

  lemma {:induction false} FirstOccurrences(list: seq<Rcv>, u: nat, v: nat) returns (i: nat)
    requires u < v < |Keys(list)|
    ensures i < |list| && KeyOf(list[i]) == Keys(list)[u] && forall j :: 0 <= j <= i ==> KeyOf(list[j]) != Keys(list)[v]
  {
    var earlier := list[..|list|-1];
    var before := Keys(earlier);
    KeysCover(earlier);
    if v < |before| {
      i := FirstOccurrences(earlier, u, v);
    } else {
      assert before[u] in before;
      i := KeyOccurs(earlier, before[u]);
      assert Keys(list)[v] !in before;
      forall j | 0 <= j <= i
        ensures KeyOf(list[j]) in before
      {
        assert KeyOf(earlier[j]) in before;
      }
    }
  }

  // Nothing is lost by grouping.
  lemma {:induction false} UnitsConserve(list: seq<Rcv>, units: seq<RcvUnit>)
    requires GroupedBy(list, units)
    ensures Sum(units, Total()) == Sum(list, Net())
  {
    if list != [] {
      var n := |list| - 1;
      UnitsConserve(list[..n], UnitsOf(list[..n]));
      UnitsGrow(list[..n], list[n]);
      assert list == list[..n] + [list[n]];
      GroupingUnique(list, units, UnitsOf(list));
    }
  }

  // One receivable more adds its net to the grouped total.
  lemma UnitsGrow(list: seq<Rcv>, r: Rcv)
    ensures Sum(UnitsOf(list + [r]), Total()) == Sum(UnitsOf(list), Total()) + r.data.net
  {
    var before := UnitsOf(list);
    GroupOneMore(list, r, before);
    if KeyOf(r) in Keys(list) {
      var u :| 0 <= u < |before| && Keys(list)[u] == KeyOf(r);
      var after := before[u := before[u].(total := before[u].total + r.data.net, count := before[u].count + 1)];
      SumUpdate(before, u, after[u], Total());
      GroupingUnique(list + [r], after, UnitsOf(list + [r]));
    } else {
      var after := before + [RcvUnit(KeyOf(r), r.data.net, 1)];
      SumPush(before, RcvUnit(KeyOf(r), r.data.net, 1), Total());
      GroupingUnique(list + [r], after, UnitsOf(list + [r]));
    }
  }

  // A list whose keys are all different groups into one unit per receivable.
  lemma {:induction false} DifferentKeys(list: seq<Rcv>)
    requires forall i, j :: 0 <= i < j < |list| ==> KeyOf(list[i]) != KeyOf(list[j])
    ensures |Keys(list)| == |list|
    ensures forall u :: 0 <= u < |list| ==> Keys(list)[u] == KeyOf(list[u]) && Sum(list, OneAt(Keys(list)[u])) == 1
  {
    if list != [] {
      var n := |list| - 1;
      DifferentKeys(list[..n]);
      KeysCover(list[..n]);
      AbsentKey(list[..n], KeyOf(list[n]));
      forall u | 0 <= u < n
        ensures Sum(list, OneAt(KeyOf(list[u]))) == 1
      {
        assert KeyOf(list[..n][u]) == KeyOf(list[u]);
      }
    }
  }

  // One credit sale registers exactly one unit of one receivable per instalment.
  lemma CreditSaleUnits(tx: T.Tx, plan: FeePlan, cal: BusinessCalendar, ids: nat -> Id, units: seq<RcvUnit>)
    requires NeverClosedFiveDays(cal) && Schedule(tx, plan, cal, ids).Ok? && tx.data.product.Credit?
    requires GroupedBy(Schedule(tx, plan, cal, ids).value, units)
    ensures |units| == tx.data.installments
    ensures forall u :: 0 <= u < |units| ==> units[u].count == 1
  {
    var list := Schedule(tx, plan, cal, ids).value;
    forall i, j | 0 <= i < j < |list|
      ensures KeyOf(list[i]) != KeyOf(list[j])
    {
      ScheduleDueDates(tx, plan, cal, ids, i, j);
    }
    DifferentKeys(list);
  }
}
