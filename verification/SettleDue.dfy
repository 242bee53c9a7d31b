/** The daily settlement: batches of due receivables, one lot per merchant, until none is left. */
module SettleDue {
  import opened Results
  import opened Sums
  import opened Civil
  import opened Calendar
  import opened Tables
  import opened Events
  import R = Receivables
  import S = Settlements
  import L = Ledger
  import opened Acquirer
  import opened Payouts
  import opened Safety
  import opened Database
  import opened DuePicks
  import opened DueRows
  import opened Batches
  import opened BankLog
  import opened Theorems

  datatype Totals = Totals(merchants: nat, settlements: nat, failed: nat, paid: int, retained: int)

  class Report {
    var skipped: bool
    var merchants: nat
    var settlements: nat
    var failed: nat
    var paid: int
    var retained: int

    constructor ()
      ensures !skipped && Total() == Totals(0, 0, 0, 0, 0)
    {
      skipped, merchants, settlements, failed, paid, retained := false, 0, 0, 0, 0, 0;
    }

    function Total(): Totals
      reads this
    {
      Totals(merchants, settlements, failed, paid, retained)
    }
  }

  // The outside world: for each visit to a merchant, what the merchant register, the
  // registry and the bank answer; and what the bank has taken, which nothing takes back.
  class Outside {
    const answers: (nat, Id) -> Lot
    var visits: nat
    var sent: seq<S.Stl>

    constructor (answers: (nat, Id) -> Lot)
      ensures this.answers == answers && visits == 0 && sent == []
    {
      this.answers, visits, sent := answers, 0, [];
    }

    // What the bank takes, whatever it reports.
    method Send(s: S.Settlement, taken: bool)
      modifies this`sent
      ensures sent == old(sent) + if taken then [s.View()] else []
    {
      if taken {
        sent := sent + [s.View()];
      }
    }
  }

  // ---- one merchant

  method SettleReceivables(rs: seq<R.Receivable>, ghost rows: seq<R.Rcv>, id: Id) returns (r: Result<()>)
    requires Holds(rs, rows)
    modifies rs
    ensures r.Ok? <==> SettleAll(rows, id).Ok?
    ensures r.Ok? ==> Holds(rs, SettleAll(rows, id).value)
  {
    hide SettleAll, R.Settle;
    SettleNone(id);
    assert rows[..0] == [];
    ghost var news: seq<R.Rcv> := [];
    for i := 0 to |rs|
      invariant SettleAll(rows[..i], id) == Ok(news) && |news| == i
      invariant forall j :: 0 <= j < i ==> rs[j].View() == news[j]
      invariant forall j :: i <= j < |rs| ==> rs[j].View() == rows[j]
    {
      SettlePush(rows, id, i);
      R.ChangesExactly(rows[i], R.Settled, id);
      r := rs[i].SettleBy(id);
      if r.Err? {
        SettleStops(rows, id, i + 1);
        return;
      }
      news := news + [rs[i].View()];
    }
    assert rows[..|rows|] == rows;
    return Ok(());
  }

  lemma SettleNone(id: Id)
    ensures SettleAll([], id) == Ok([])
  {
  }

  lemma SettlePush(rows: seq<R.Rcv>, id: Id, i: nat)
    requires i < |rows| && SettleAll(rows[..i], id).Ok?
    ensures R.Settle(rows[i], id).Err? ==> SettleAll(rows[..i+1], id).Err?
    ensures R.Settle(rows[i], id).Ok? ==>
              SettleAll(rows[..i+1], id) == Ok(SettleAll(rows[..i], id).value + [R.Settle(rows[i], id).value])
  {
    assert rows[..i+1][..i] == rows[..i];
  }

  lemma {:induction false} SettleStops(rows: seq<R.Rcv>, id: Id, i: nat)
    requires i <= |rows| && SettleAll(rows[..i], id).Err?
    ensures SettleAll(rows, id).Err?
    decreases |rows| - i
  {
    if i < |rows| {
      assert rows[..i+1][..i] == rows[..i];
      SettleStops(rows, id, i + 1);
    } else {
      assert rows[..i] == rows;
    }
  }

  // What the statements after the bank's answer come to, if they work.
  function WhenWorking(lot: Lot, step: Result<State>): Result<State> {
    if lot.posts && lot.stored then step else Err(StatementFailed)
  }

  method RecordRejected(db: Database, rep: Report, s: S.Settlement, lot: Lot) returns (r: Result<()>)
    requires s.events == [] && s.merchant == lot.merchant
    modifies db, rep, s
    ensures Ran(db, WhenWorking(lot, StoreRejected(old(db.tables), old(s.View()), lot)), r.Ok?)
    ensures rep.Total() == old(rep.Total()).(failed := old(rep.failed) + 1) && rep.skipped == old(rep.skipped)
  {
    rep.failed := rep.failed + 1;
    var _ :- s.MarkFailedNow(lot.eid);
    var _ :- db.UpdateSettlement(s);
    if !lot.posts {
      return Err(StatementFailed);
    }
    var evs := s.PullEvents();
    if !lot.stored {
      return Err(StatementFailed);
    }
    r := db.AppendEvents(evs);
  }

  method PostLot(db: Database, s: S.Settlement, rs: seq<R.Receivable>, ghost rows: seq<R.Rcv>, eid: Id) returns (r: Result<()>)
    requires s.events == [] && Holds(rs, rows)
    modifies db, s, rs
    ensures Ran(db, PostSettled(old(db.tables), old(s.View()), rows), r.Ok?)
    ensures r.Ok? ==> s.events == [NewEvent(eid, SettlementCompleted, s.id, s.merchant)]
    ensures r.Ok? ==> s.View().data == old(s.View()).data.(status := S.Confirmed)
    ensures r.Ok? ==> db.tables.outbox == old(db.tables).outbox
  {
    hide SettleAll, UpdateAll, Update, L.ForSettlement, L.Append, R.Settle;
    var _ :- s.MarkSentNow();
    var confirmed := s.MarkConfirmedNow(eid);
    assert confirmed.Ok?;
    var _ :- SettleReceivables(rs, rows, s.id);
    var _ :- db.UpdateReceivables(rs, SettleAll(rows, s.id).value);
    var _ :- db.UpdateSettlement(s);
    var entries := L.ForSettlement(s.View());
    if |entries| > 0 {
      var _ :- db.AppendEntries(entries);
    }
    return Ok(());
  }

  method RecordAccepted(db: Database, rep: Report, s: S.Settlement, rs: seq<R.Receivable>, ghost rows: seq<R.Rcv>, lot: Lot)
      returns (r: Result<()>)
    requires s.events == [] && s.merchant == lot.merchant && Holds(rs, rows)
    modifies db, rep, s, rs
    ensures Ran(db, WhenWorking(lot, StoreAccepted(old(db.tables), old(s.View()), rows, lot)), r.Ok?)
    ensures rep.skipped == old(rep.skipped)
    ensures PostSettled(old(db.tables), old(s.View()), rows).Ok? ==>
              rep.Total() == if lot.posts then Counted(old(rep.Total()), old(s.View())) else old(rep.Total())
  {
    hide PostSettled;
    var _ :- PostLot(db, s, rs, rows, lot.eid);
    if !lot.posts {
      return Err(StatementFailed);
    }
    rep.settlements := rep.settlements + 1;
    rep.paid := rep.paid + s.toMerchant + s.toCreditors;
    rep.retained := rep.retained + s.retained;
    var evs := s.PullEvents();
    if !lot.stored {
      return Err(StatementFailed);
    }
    r := db.AppendEvents(evs);
  }

  // What the report adds for a lot the bank took.
  function Counted(t: Totals, s: S.Stl): Totals {
    t.(settlements := t.settlements + 1, paid := t.paid + s.data.toMerchant + s.data.toCreditors, retained := t.retained + s.data.retained)
  }

  // Once the bank has taken a lot, everything up to the report's counters succeeds.
  lemma AcceptedPosts(s: State, day: nat, rows: seq<R.Rcv>, lot: Lot)
    requires Sound(s) && LotRows(s, day, rows, lot.merchant) && Reached(s, lot)
    ensures S.Build(lot.stlId, day, lot.merchant, rows, lot.liens.value).Ok?
    ensures var built := S.Build(lot.stlId, day, lot.merchant, rows, lot.liens.value).value;
            && PostSettled(s.(stls := s.stls + [built]), built, rows).Ok?
            && built.data.toMerchant + built.data.toCreditors == Sum(rows, S.PayableNet())
            && built.data.retained == Sum(rows, S.RetainedNet())
  {
    var built, x, news := AcceptedTakes(s, day, rows, lot);
    assert Replaces(s.rcvs, rows, news) && x.data == built.data.(status := S.Confirmed);
    hide Sound, S.Build, SettleAll, LotRows, SettlesRows, Replaces, L.Append, L.ForSettlement;
    UpdateAllIsPatch(s.rcvs, rows, news);
    CreateThenUpdate(s.stls, built, x);
    SettlementAppends(s.ledger, x);
  }

  // The answer to a visit of a merchant.
  function AnswerTo(answers: (nat, Id) -> Lot, n: nat, merchant: Id): Lot {
    answers(n, merchant).(merchant := merchant)
  }

  method SettleMerchant(db: Database, rep: Report, out: Outside, merchant: Id, rs: seq<R.Receivable>, ghost rows: seq<R.Rcv>, day: nat)
      returns (r: Result<()>)
    requires Sound(db.tables) && LotRows(db.tables, day, rows, merchant) && Holds(rs, rows)
    modifies db, rep, out, rs
    ensures var s, lot := old(db.tables), AnswerTo(out.answers, old(out.visits), merchant);
            && Ran(db, SettleLot(s, day, rows, lot), r.Ok?)
            && (Reached(s, lot) ==> S.Build(lot.stlId, day, merchant, rows, lot.liens.value).Ok?)
            && out.sent == old(out.sent) + SentLot(s, day, rows, lot)
            && rep.Total() == LotTotal(old(rep.Total()), s, day, rows, lot)
    ensures out.visits == old(out.visits) + 1 && rep.skipped == old(rep.skipped)
  {
    hide Sound, StoreAccepted, StoreRejected, PostSettled, S.Build, LotRows, HasId, Counted, Reached;
    var lot := AnswerTo(out.answers, out.visits, merchant);
    rep.merchants := rep.merchants + 1;
    out.visits := out.visits + 1;
    ghost var s := db.tables;
    if Reached(s, lot) {
      AcceptedPosts(s, day, rows, lot);
    }
    LotSteps(s, day, rows, lot);
    var sent :- SendLot(db, out, rs, rows, day, lot);
    r := RecordLot(db, rep, sent, rs, rows, lot);
  }

  // A lot that does not reach the bank fails; one that does is stored and then recorded.
  lemma LotSteps(s: State, day: nat, rows: seq<R.Rcv>, lot: Lot)
    requires Reached(s, lot) ==> S.Build(lot.stlId, day, lot.merchant, rows, lot.liens.value).Ok?
    ensures !Reached(s, lot) ==> SettleLot(s, day, rows, lot).Err?
    ensures Reached(s, lot) ==>
              var built := S.Build(lot.stlId, day, lot.merchant, rows, lot.liens.value).value;
              var created := s.(stls := s.stls + [built]);
              SettleLot(s, day, rows, lot) ==
              WhenWorking(lot, if lot.accepted then StoreAccepted(created, built, rows, lot) else StoreRejected(created, built, lot))
  {
    hide StoreAccepted, StoreRejected;
    if lot.known && lot.liens.Some? && S.Build(lot.stlId, day, lot.merchant, rows, lot.liens.value).Ok? {
      S.BuildFields(lot.stlId, day, lot.merchant, rows, lot.liens.value);
    }
  }

  // Builds the lot, stores it and sends it to the bank.
  method SendLot(db: Database, out: Outside, rs: seq<R.Receivable>, ghost rows: seq<R.Rcv>, day: nat, lot: Lot) returns (r: Result<S.Settlement>)
    requires Holds(rs, rows) && (Reached(db.tables, lot) ==> S.Build(lot.stlId, day, lot.merchant, rows, lot.liens.value).Ok?)
    modifies db, out`sent
    ensures r.Ok? <==> Reached(old(db.tables), lot)
    ensures r.Ok? ==>
              var built := S.Build(lot.stlId, day, lot.merchant, rows, lot.liens.value).value;
              && fresh(r.value) && r.value.View() == built && r.value.events == [] && r.value.merchant == lot.merchant
              && db.tables == old(db.tables).(stls := old(db.tables).stls + [built])
              && out.sent == old(out.sent) + if lot.accepted || lot.delivered then [built] else []
    ensures r.Err? ==> db.tables == old(db.tables) && out.sent == old(out.sent)
  {
    hide S.Build, HasId;
    if !lot.known {
      return Err(NotFound);
    }
    if lot.liens.None? {
      return Err(RegistryDown);
    }
    var s :- S.BuildSettlement(lot.stlId, day, lot.merchant, rs, lot.liens.value, rows);
    var created := db.CreateSettlement(s);
    if created.Err? {
      return Err(created.error);
    }
    out.Send(s, lot.accepted || lot.delivered);
    return Ok(s);
  }

  method RecordLot(db: Database, rep: Report, s: S.Settlement, rs: seq<R.Receivable>, ghost rows: seq<R.Rcv>, lot: Lot) returns (r: Result<()>)
    requires s.events == [] && s.merchant == lot.merchant && Holds(rs, rows)
    requires lot.accepted ==> PostSettled(db.tables, s.View(), rows).Ok?
    modifies db, rep, s, rs
    ensures Ran(db, WhenWorking(lot, if lot.accepted then StoreAccepted(old(db.tables), old(s.View()), rows, lot)
                                     else StoreRejected(old(db.tables), old(s.View()), lot)), r.Ok?)
    ensures rep.skipped == old(rep.skipped)
    ensures rep.Total() == if !lot.accepted then old(rep.Total()).(failed := old(rep.failed) + 1)
                           else if lot.posts then Counted(old(rep.Total()), old(s.View())) else old(rep.Total())
  {
    hide StoreAccepted, StoreRejected, PostSettled, Counted;
    if lot.accepted {
      r := RecordAccepted(db, rep, s, rs, rows, lot);
    } else {
      r := RecordRejected(db, rep, s, lot);
    }
  }

  // What one visit adds to the report.
  function LotTotal(t: Totals, s: State, day: nat, rows: seq<R.Rcv>, lot: Lot): Totals {
    var visited := t.(merchants := t.merchants + 1);
    if !Reached(s, lot) then visited
    else if !lot.accepted then visited.(failed := t.failed + 1)
    else if !lot.posts then visited
    else match S.Build(lot.stlId, day, lot.merchant, rows, lot.liens.value)
         case Ok(built) => Counted(visited, built)
         case Err(_) => visited
  }

  // What one visit adds to the report, by the answers: a visit; a failure where the lot reaches the bank and is
  // rejected; a settlement, with what it pays and retains, where it is accepted and posted.
  lemma VisitCounts(t: Totals, s: State, day: nat, rows: seq<R.Rcv>, lot: Lot)
    requires Sound(s) && LotRows(s, day, rows, lot.merchant)
    ensures var reached := lot.known && lot.liens != None && !HasId(s.stls, lot.stlId);
            var counted := reached && lot.accepted && lot.posts;
            LotTotal(t, s, day, rows, lot) ==
            Totals(t.merchants + 1, t.settlements + (if counted then 1 else 0), t.failed + (if reached && !lot.accepted then 1 else 0),
                   t.paid + (if counted then Sum(rows, S.PayableNet()) else 0), t.retained + (if counted then Sum(rows, S.RetainedNet()) else 0))
  {
    if Reached(s, lot) {
      AcceptedPosts(s, day, rows, lot);
    }
    hide Sound, LotRows, S.Build, PostSettled, HasId;
  }

  // ---- grouping

  function Of(list: seq<R.Receivable>, m: Id): seq<R.Receivable> {
    if list == [] then []
    else
      var before, x := Of(list[..|list|-1], m), list[|list|-1];
      if x.merchant == m then before + [x] else before
  }

  method GroupByMerchant(list: seq<R.Receivable>) returns (byMerchant: map<Id, seq<R.Receivable>>)
    ensures forall m :: m in byMerchant <==> exists i :: 0 <= i < |list| && list[i].merchant == m
    ensures forall m :: m in byMerchant ==> byMerchant[m] == Of(list, m)
  {
    byMerchant := map[];
    for i := 0 to |list|
      invariant forall m :: m in byMerchant <==> exists j :: 0 <= j < i && list[j].merchant == m
      invariant forall m :: Of(list[..i], m) == if m in byMerchant then byMerchant[m] else []
    {
      assert list[..i+1][..i] == list[..i];
      var x := list[i];
      var before := if x.merchant in byMerchant then byMerchant[x.merchant] else [];
      byMerchant := byMerchant[x.merchant := before + [x]];
    }
    assert list[..|list|] == list;
  }

  // The objects of one merchant stand for the rows of that merchant.
  lemma {:induction false} OfHolds(list: seq<R.Receivable>, rows: seq<R.Rcv>, m: Id)
    requires Holds(list, rows)
    ensures Holds(Of(list, m), Where(rows, OfMerchant(m)))
    ensures forall x :: x in Of(list, m) <==> x in list && x.merchant == m
  {
    if list != [] {
      var n := |list| - 1;
      OfHolds(list[..n], rows[..n], m);
      assert list[n].View() == rows[n] && list == list[..n] + [list[n]];
      assert list[n] !in list[..n];
    }
  }

  // ---- what a report owes to the tables and to the bank

  // The tables, the report and what the outside world has seen, at one moment.
  datatype Moment = Moment(s: State, t: Totals, v: nat, sent: seq<S.Stl>)

  ghost function Now(db: Database, rep: Report, out: Outside): Moment
    reads db, rep, out
  {
    Moment(db.tables, rep.Total(), out.visits, out.sent)
  }

  // Between two moments, money leaves the due rows exactly as the report counts it.
  ghost predicate Progress(a: Moment, b: Moment, day: nat) {
    && OnlySettled(a.s.rcvs, b.s.rcvs, day)
    && b.t.paid + Sum(b.s.rcvs, DuePayable(day)) == a.t.paid + Sum(a.s.rcvs, DuePayable(day))
    && b.t.retained + Sum(b.s.rcvs, DueRetained(day)) == a.t.retained + Sum(a.s.rcvs, DueRetained(day))
    && b.t.merchants - a.t.merchants == (b.t.settlements - a.t.settlements) + (b.t.failed - a.t.failed)
    && a.t.settlements <= b.t.settlements && a.t.failed <= b.t.failed
    && Sum(b.s.rcvs, DueOne(day)) + b.t.settlements <= Sum(a.s.rcvs, DueOne(day)) + a.t.settlements
  }

  lemma ProgressTwice(a: Moment, b: Moment, c: Moment, day: nat)
    requires Progress(a, b, day) && Progress(b, c, day)
    ensures Progress(a, c, day)
  {
    OnlySettledTwice(a.s.rcvs, b.s.rcvs, c.s.rcvs, day);
  }

  // The moment after a lot, had everything it writes been kept.
  ghost function AfterLot(a: Moment, day: nat, rows: seq<R.Rcv>, lot: Lot): Moment
    requires SettleLot(a.s, day, rows, lot).Ok?
  {
    Moment(SettleLot(a.s, day, rows, lot).value, LotTotal(a.t, a.s, day, rows, lot), a.v + 1, a.sent + SentLot(a.s, day, rows, lot))
  }

  lemma LotProgress(a: Moment, day: nat, rows: seq<R.Rcv>, lot: Lot)
    requires Sound(a.s) && LotRows(a.s, day, rows, lot.merchant) && SettleLot(a.s, day, rows, lot).Ok?
    ensures Progress(a, AfterLot(a, day, rows, lot), day)
  {
    hide Sound, SettleLot, PostSettled, S.Build, LotRows, OnlySettled;
    LotOkOnly(a.s, day, rows, lot);
    AcceptedPosts(a.s, day, rows, lot);
    RowsNotEmpty(a.s, day, rows, lot.merchant);
    if lot.accepted {
      AcceptedEffect(a.s, day, rows, lot);
    } else {
      RejectedEffect(a.s, day, rows, lot);
      NothingSettled(a.s.rcvs, day);
    }
  }

  lemma RowsNotEmpty(s: State, day: nat, rows: seq<R.Rcv>, merchant: Id)
    requires LotRows(s, day, rows, merchant)
    ensures rows != []
  {
  }

  lemma NothingSettled(rcvs: seq<R.Rcv>, day: nat)
    ensures OnlySettled(rcvs, rcvs, day)
  {
  }

  // Whatever happens to the unit of work, the report counts the lots the bank reports as paid, once posted.
  lemma LotTruthful(s: State, day: nat, rows: seq<R.Rcv>, lot: Lot, t: Totals)
    requires Sound(s) && LotRows(s, day, rows, lot.merchant)
    ensures LotTotal(t, s, day, rows, lot).paid == t.paid + Sum(CountedLot(s, day, rows, lot), LotPaid())
    ensures LotTotal(t, s, day, rows, lot).paid >= t.paid
    ensures lot.accepted ==> LotTotal(t, s, day, rows, lot).failed == t.failed
  {
    if Reached(s, lot) {
      AcceptedPosts(s, day, rows, lot);
      RowsNotNegative(s, day, rows, lot.merchant);
      SumNonNegative(rows, S.PayableNet());
      hide Sound, PostSettled, S.Build, LotRows;
      var built := S.Build(lot.stlId, day, lot.merchant, rows, lot.liens.value).value;
      SumPush([], built, LotPaid());
      assert [] + [built] == [built];
    }
  }

  // From the n-th visit on, every merchant is known, the registry answers, ids are new and statements work.
  ghost predicate Answered(answers: (nat, Id) -> Lot, n: nat, s: State) {
    && (forall k: nat, m :: k >= n ==> var a := AnswerTo(answers, k, m);
          a.known && a.liens.Some? && a.posts && a.stored && !HasId(s.stls, a.stlId) && !HasId(s.outbox, a.eid))
    && (forall k: nat, l: nat, m, m' :: n <= k < l ==>
          AnswerTo(answers, k, m).stlId != AnswerTo(answers, l, m').stlId && AnswerTo(answers, k, m).eid != AnswerTo(answers, l, m').eid)
  }

  lemma AnsweredNext(answers: (nat, Id) -> Lot, n: nat, s: State, day: nat, rows: seq<R.Rcv>, merchant: Id)
    requires Sound(s) && LotRows(s, day, rows, merchant) && Answered(answers, n, s)
    ensures var r := SettleLot(s, day, rows, AnswerTo(answers, n, merchant)); r.Ok? && Answered(answers, n + 1, r.value)
  {
    var lot := AnswerTo(answers, n, merchant);
    LotSucceedsExactly(s, day, rows, lot);
    var s' := SettleLot(s, day, rows, lot).value;
    if lot.accepted {
      var x, news, e := AcceptedShape(s, day, rows, lot);
      GrowsHasId(s.stls, x);
      GrowsHasId(s.outbox, e);
    } else {
      var x, e := RejectedShape(s, day, rows, lot);
      GrowsHasId(s.stls, x);
      GrowsHasId(s.outbox, e);
    }
  }

  // ---- one batch

  // The report's visits and payments between two moments, against what the outside world saw.
  ghost predicate Told(a: Moment, b: Moment) {
    && b.v - a.v == b.t.merchants - a.t.merchants >= 0
    && a.t.paid <= b.t.paid
    && a.t.failed <= b.t.failed
  }

  lemma ToldTwice(a: Moment, b: Moment, c: Moment)
    requires Told(a, b) && Told(b, c)
    ensures Told(a, c)
  {
  }

  lemma LotTold(a: Moment, s': State, day: nat, rows: seq<R.Rcv>, lot: Lot)
    requires Sound(a.s) && LotRows(a.s, day, rows, lot.merchant)
    ensures Told(a, Moment(s', LotTotal(a.t, a.s, day, rows, lot), a.v + 1, a.sent + SentLot(a.s, day, rows, lot)))
    ensures LotTotal(a.t, a.s, day, rows, lot).paid == a.t.paid + Sum(CountedLot(a.s, day, rows, lot), LotPaid())
    ensures lot.accepted ==> LotTotal(a.t, a.s, day, rows, lot).failed == a.t.failed
  {
    LotTruthful(a.s, day, rows, lot, a.t);
    hide Sound, LotRows, S.Build;
  }

  // One visit of a merchant, with all that follows from it.
  method Visit(db: Database, rep: Report, out: Outside, m: Id, rs: seq<R.Receivable>, ghost rows: seq<R.Rcv>, day: nat) returns (r: Result<()>)
    requires Sound(db.tables) && LotRows(db.tables, day, rows, m) && Holds(rs, rows)
    modifies db, rep, out, rs
    ensures var lot := AnswerTo(out.answers, old(out.visits), m);
            && Ran(db, SettleLot(old(db.tables), day, rows, lot), r.Ok?)
            && out.sent == old(out.sent) + SentLot(old(db.tables), day, rows, lot)
            && rep.paid == old(rep.paid) + Sum(CountedLot(old(db.tables), day, rows, lot), LotPaid())
            && (lot.accepted ==> rep.failed == old(rep.failed))
    ensures r.Ok? ==> Progress(old(Now(db, rep, out)), Now(db, rep, out), day)
    ensures Told(old(Now(db, rep, out)), Now(db, rep, out))
    ensures Answered(out.answers, old(out.visits), old(db.tables)) ==> r.Ok? && Answered(out.answers, out.visits, db.tables)
    ensures rep.skipped == old(rep.skipped) && out.visits == old(out.visits) + 1
  {
    hide Sound, SettleLot, LotRows, Answered, Progress, Told, LotTotal, SentLot, CountedLot;
    ghost var a, lot := Now(db, rep, out), AnswerTo(out.answers, out.visits, m);
    if Answered(out.answers, out.visits, a.s) {
      AnsweredNext(out.answers, out.visits, a.s, day, rows, m);
    }
    if SettleLot(a.s, day, rows, lot).Ok? {
      LotProgress(a, day, rows, lot);
    }
    r := SettleMerchant(db, rep, out, m, rs, rows, day);
    LotTold(a, db.tables, day, rows, lot);
  }

  // The lots are the answers to the visits, from the v-th on.
  ghost predicate AreAnswers(answers: (nat, Id) -> Lot, v: nat, lots: seq<Lot>) {
    forall i :: 0 <= i < |lots| ==> lots[i] == AnswerTo(answers, v + i, lots[i].merchant)
  }

  // How far a batch has got.
  ghost predicate SoFar(answers: (nat, Id) -> Lot, a: Moment, b: Moment, day: nat, picked: seq<R.Rcv>, lots: seq<Lot>) {
    && Midway(a.s, b.s, day, picked, lots)
    && Progress(a, b, day) && Told(a, b) && b.v == a.v + |lots|
    && b.sent == a.sent + BankTakes(a.s, day, picked, lots)
    && b.t.paid == a.t.paid + Sum(ReportCounts(a.s, day, picked, lots), LotPaid())
    && AreAnswers(answers, a.v, lots)
    && ((forall i :: 0 <= i < |lots| ==> lots[i].accepted) ==> b.t.failed == a.t.failed)
    && (Answered(answers, a.v, a.s) ==> Answered(answers, b.v, b.s))
  }

  // What the bank has taken after one lot more.
  lemma TakesNext(s0: State, s: State, day: nat, picked: seq<R.Rcv>, lots: seq<Lot>, lot: Lot)
    requires SettleLots(s0, day, picked, lots) == Ok(s)
    ensures BankTakes(s0, day, picked, lots + [lot]) ==
            BankTakes(s0, day, picked, lots) + SentLot(s, day, Where(picked, OfMerchant(lot.merchant)), lot)
    ensures SettleLots(s0, day, picked, lots + [lot]) == SettleLot(s, day, Where(picked, OfMerchant(lot.merchant)), lot)
    ensures Sum(ReportCounts(s0, day, picked, lots + [lot]), LotPaid()) ==
            Sum(ReportCounts(s0, day, picked, lots), LotPaid()) + Sum(CountedLot(s, day, Where(picked, OfMerchant(lot.merchant)), lot), LotPaid())
  {
    hide SettleLot, SentLot, CountedLot;
    assert (lots + [lot])[..|lots|] == lots;
    SumAppend(ReportCounts(s0, day, picked, lots), CountedLot(s, day, Where(picked, OfMerchant(lot.merchant)), lot), LotPaid());
  }

  lemma MidwayOk(s0: State, s: State, day: nat, picked: seq<R.Rcv>, lots: seq<Lot>)
    requires Midway(s0, s, day, picked, lots)
    ensures SettleLots(s0, day, picked, lots) == Ok(s) && Sound(s)
  {
    hide Sound, SettleLots;
  }

  lemma SoFarNext(answers: (nat, Id) -> Lot, a: Moment, b: Moment, c: Moment, day: nat, picked: seq<R.Rcv>, lots: seq<Lot>, lot: Lot)
    requires SoFar(answers, a, b, day, picked, lots) && lot.merchant !in Visited(lots) && lot == AnswerTo(answers, b.v, lot.merchant)
    requires LotRows(b.s, day, Where(picked, OfMerchant(lot.merchant)), lot.merchant)
    requires SettleLot(b.s, day, Where(picked, OfMerchant(lot.merchant)), lot) == Ok(c.s)
    requires Progress(b, c, day) && Told(b, c) && c.v == b.v + 1 && (Answered(answers, b.v, b.s) ==> Answered(answers, c.v, c.s))
    requires c.sent == b.sent + SentLot(b.s, day, Where(picked, OfMerchant(lot.merchant)), lot)
    requires c.t.paid == b.t.paid + Sum(CountedLot(b.s, day, Where(picked, OfMerchant(lot.merchant)), lot), LotPaid())
    requires lot.accepted ==> c.t.failed == b.t.failed
    ensures SoFar(answers, a, c, day, picked, lots + [lot])
    ensures Visited(lots + [lot]) == Visited(lots) + {lot.merchant}
  {
    hide Answered, Told, Progress, Midway, Visited, LotRows, SettleLot, SettleLots, Where, AnswerTo, SentLot, BankTakes, ReportCounts, CountedLot;
    MidwayOk(a.s, b.s, day, picked, lots);
    TakesNext(a.s, b.s, day, picked, lots, lot);
    ProgressTwice(a, b, c, day);
    ToldTwice(a, b, c);
    MidwayNext(a.s, b.s, day, picked, lots, lot);
    var more := lots + [lot];
    assert forall i :: 0 <= i < |lots| ==> more[i] == lots[i];
    assert more[|lots|] == lot;
  }

  lemma SoFarLot(answers: (nat, Id) -> Lot, a: Moment, b: Moment, day: nat, picked: seq<R.Rcv>, lots: seq<Lot>, m: Id)
    requires SoFar(answers, a, b, day, picked, lots) && m in Merchants(picked) - Visited(lots)
    ensures Sound(b.s) && LotRows(b.s, day, Where(picked, OfMerchant(m)), m)
    ensures SettleLots(a.s, day, picked, lots) == Ok(b.s)
  {
    hide Visited, SettleLots, Told, Progress, Answered, BankTakes, ReportCounts, AreAnswers;
    MidwayLot(a.s, b.s, day, picked, lots, m);
    MidwayOk(a.s, b.s, day, picked, lots);
  }

  // A visit fails: what the bank has taken is what it takes of the lots up to this one.
  ghost predicate NextFailed(answers: (nat, Id) -> Lot, a: Moment, b: Moment, day: nat, picked: seq<R.Rcv>, more: seq<Lot>) {
    && Told(a, b) && SettleLots(a.s, day, picked, more).Err? && !Answered(answers, a.v, a.s)
    && b.sent == a.sent + BankTakes(a.s, day, picked, more)
    && b.t.paid == a.t.paid + Sum(ReportCounts(a.s, day, picked, more), LotPaid())
  }

  method VisitNext(db: Database, rep: Report, out: Outside, m: Id, rs: seq<R.Receivable>, day: nat,
                   ghost a: Moment, ghost picked: seq<R.Rcv>, ghost lots: seq<Lot>) returns (r: Result<()>, ghost more: seq<Lot>)
    requires SoFar(out.answers, a, Now(db, rep, out), day, picked, lots)
    requires m in Merchants(picked) - Visited(lots)
    requires Holds(rs, Where(picked, OfMerchant(m)))
    modifies db, rep, out, rs
    ensures |more| == |lots| + 1 && more[..|lots|] == lots && more[|lots|].merchant == m
    ensures r.Ok? ==> SoFar(out.answers, a, Now(db, rep, out), day, picked, more) && Visited(more) == Visited(lots) + {m}
    ensures r.Err? ==> NextFailed(out.answers, a, Now(db, rep, out), day, picked, more)
    ensures rep.skipped == old(rep.skipped)
  {
    hide Sound, SettleLot, SettleLots, LotRows, Answered, Told, Midway, Progress, Where, Visited, Holds, BankTakes, SentLot, ReportCounts, CountedLot, AreAnswers;
    ghost var b, lot := Now(db, rep, out), AnswerTo(out.answers, out.visits, m);
    more := lots + [lot];
    SoFarLot(out.answers, a, b, day, picked, lots, m);
    r := Visit(db, rep, out, m, rs, Where(picked, OfMerchant(m)), day);
    ToldTwice(a, b, Now(db, rep, out));
    TakesNext(a.s, b.s, day, picked, lots, lot);
    if r.Ok? {
      SoFarNext(out.answers, a, b, Now(db, rep, out), day, picked, lots, lot);
    }
  }

  // How the visits of a batch end: all done, or stopped by an error, with the bank's part in both cases.
  ghost predicate VisitDone(answers: (nat, Id) -> Lot, a: Moment, b: Moment, day: nat, picked: seq<R.Rcv>, lots: seq<Lot>, ok: bool) {
    && (ok ==> SoFar(answers, a, b, day, picked, lots))
    && (!ok ==> SettleLots(a.s, day, picked, lots).Err? && !Answered(answers, a.v, a.s))
    && IsVisit(picked, lots) && Told(a, b) && b.sent == a.sent + BankTakes(a.s, day, picked, lots)
    && b.t.paid == a.t.paid + Sum(ReportCounts(a.s, day, picked, lots), LotPaid())
  }

  // Visits every merchant of a batch once, in no particular order; stops at the first error.
  method VisitMerchants(db: Database, rep: Report, out: Outside, list: seq<R.Receivable>, byMerchant: map<Id, seq<R.Receivable>>, day: nat,
                        ghost picked: seq<R.Rcv>) returns (r: Result<()>, ghost lots: seq<Lot>)
    requires Midway(db.tables, db.tables, day, picked, [])
    requires Holds(list, picked)
    requires forall m :: m in byMerchant <==> exists i :: 0 <= i < |list| && list[i].merchant == m
    requires forall m :: m in byMerchant ==> byMerchant[m] == Of(list, m)
    modifies db, rep, out, list
    ensures VisitDone(out.answers, old(Now(db, rep, out)), Now(db, rep, out), day, picked, lots, r.Ok?)
    ensures rep.skipped == old(rep.skipped)
  {
    hide Midway, Where, IsVisit, Visited, Merchants, Of, Holds, SoFar, NextFailed, VisitDone, Unvisited, AnswerTo, Told, Progress, SettleLots, Sum, LotPaid,
         Answered, AreAnswers, BankTakes, ReportCounts, HasId, IsDue, OfMerchant, LotTotal, Counted, Reached, SettleLot;
    ghost var a := Now(db, rep, out);
    lots := [];
    var todo := byMerchant.Keys;
    r := Ok(());
    NothingYet(out.answers, a, day, picked);
    Grouped(list, picked, byMerchant);
    while todo != {}
      invariant r.Ok? && todo <= byMerchant.Keys && Visited(lots) == byMerchant.Keys - todo
      invariant forall m :: m in todo ==> Holds(byMerchant[m], Where(picked, OfMerchant(m)))
      invariant SoFar(out.answers, a, Now(db, rep, out), day, picked, lots)
      invariant rep.skipped == old(rep.skipped)
    {
      var m :| m in todo;
      assert forall i :: 0 <= i < |byMerchant[m]| ==> byMerchant[m][i] in list;
      ghost var more;
      SoFarShape(out.answers, a, Now(db, rep, out), day, picked, lots);
      r, more := VisitNext(db, rep, out, m, byMerchant[m], day, a, picked, lots);
      if r.Err? {
        FailedVisit(out.answers, a, Now(db, rep, out), day, picked, lots, more, todo);
        lots := more + Unvisited(todo - {m});
        return;
      }
      lots := more;
      todo := todo - {m};
    }
    AllVisited(out.answers, a, Now(db, rep, out), day, picked, lots);
  }

  lemma FailedVisit(answers: (nat, Id) -> Lot, a: Moment, b: Moment, day: nat, picked: seq<R.Rcv>, lots: seq<Lot>, more: seq<Lot>, todo: set<Id>)
    requires NextFailed(answers, a, b, day, picked, more) && |more| == |lots| + 1 && more[..|lots|] == lots
    requires forall i, j :: 0 <= i < j < |lots| ==> lots[i].merchant != lots[j].merchant
    requires more[|lots|].merchant in todo && todo <= Merchants(picked) && Visited(lots) == Merchants(picked) - todo
    ensures VisitDone(answers, a, b, day, picked, more + Unvisited(todo - {more[|lots|].merchant}), false)
  {
    hide SettleLots, BankTakes, ReportCounts, Merchants, Visited, Unvisited, IsVisit, Told, Answered;
    VisitFails(a.s, day, picked, lots, more, todo - {more[|lots|].merchant});
  }

  // What is left of the visits after an error changes nothing.
  lemma VisitFails(s: State, day: nat, picked: seq<R.Rcv>, lots: seq<Lot>, more: seq<Lot>, todo: set<Id>)
    requires |more| == |lots| + 1 && more[..|lots|] == lots && SettleLots(s, day, picked, more).Err?
    requires forall i, j :: 0 <= i < j < |lots| ==> lots[i].merchant != lots[j].merchant
    requires more[|lots|].merchant !in Visited(lots) && more[|lots|].merchant !in todo && Visited(lots) !! todo
    requires Merchants(picked) == Visited(lots) + {more[|lots|].merchant} + todo
    ensures IsVisit(picked, more + Unvisited(todo))
    ensures BankTakes(s, day, picked, more + Unvisited(todo)) == BankTakes(s, day, picked, more)
    ensures ReportCounts(s, day, picked, more + Unvisited(todo)) == ReportCounts(s, day, picked, more)
    ensures SettleLots(s, day, picked, more + Unvisited(todo)).Err?
  {
    hide SettleLots, BankTakes, ReportCounts, Merchants, Visited, Unvisited, IsVisit;
    assert more == lots + [more[|lots|]];
    VisitCompleted(lots, more[|lots|], picked, todo);
    BankStops(s, day, picked, more, Unvisited(todo));
  }

  lemma SoFarShape(answers: (nat, Id) -> Lot, a: Moment, b: Moment, day: nat, picked: seq<R.Rcv>, lots: seq<Lot>)
    requires SoFar(answers, a, b, day, picked, lots)
    ensures forall i, j :: 0 <= i < j < |lots| ==> lots[i].merchant != lots[j].merchant
  {
    hide Told, Progress, Answered, Sound, SettleLots, BankTakes, ReportCounts, AreAnswers;
  }

  // The visits an error has left out, for the record: nothing came of them.
  ghost function Unvisited(todo: set<Id>): (lots: seq<Lot>)
    ensures Visited(lots) == todo && forall i, j :: 0 <= i < j < |lots| ==> lots[i].merchant != lots[j].merchant
  {
    if todo == {} then []
    else
      var m :| m in todo;
      var rest := Unvisited(todo - {m});
      var lots := rest + [Lot(m, false, None, false, false, false, false, 0, 0)];
      VisitedPush(rest, lots[|rest|]);
      assert forall i :: 0 <= i < |rest| ==> rest[i].merchant in Visited(rest);
      lots
  }

  lemma VisitedBoth(a: seq<Lot>, b: seq<Lot>)
    ensures Visited(a + b) == Visited(a) + Visited(b)
  {
    var all := a + b;
    assert forall i :: 0 <= i < |a| ==> all[i] == a[i];
    assert forall i :: 0 <= i < |b| ==> all[|a| + i] == b[i];
    forall m
      ensures m in Visited(all) <==> m in Visited(a) || m in Visited(b)
    {
      if m in Visited(a) {
        var i :| 0 <= i < |a| && a[i].merchant == m;
        assert all[i].merchant == m;
      }
      if m in Visited(b) {
        var i :| 0 <= i < |b| && b[i].merchant == m;
        assert all[|a| + i].merchant == m;
      }
    }
  }

  lemma VisitedPush(lots: seq<Lot>, lot: Lot)
    ensures Visited(lots + [lot]) == Visited(lots) + {lot.merchant}
  {
    VisitedBoth(lots, [lot]);
    assert [lot][0] == lot;
  }

  // Lots of different merchants, on both sides and across.
  lemma DifferentMerchants(a: seq<Lot>, b: seq<Lot>)
    requires forall i, j :: 0 <= i < j < |a| ==> a[i].merchant != a[j].merchant
    requires forall i, j :: 0 <= i < j < |b| ==> b[i].merchant != b[j].merchant
    requires Visited(a) !! Visited(b)
    ensures forall i, j :: 0 <= i < j < |a + b| ==> (a + b)[i].merchant != (a + b)[j].merchant
  {
    var all := a + b;
    forall i, j | 0 <= i < j < |all|
      ensures all[i].merchant != all[j].merchant
    {
      if i < |a| <= j {
        assert a[i].merchant in Visited(a) && b[j - |a|].merchant in Visited(b);
      }
    }
  }

  lemma VisitCompleted(lots: seq<Lot>, lot: Lot, picked: seq<R.Rcv>, todo: set<Id>)
    requires forall i, j :: 0 <= i < j < |lots| ==> lots[i].merchant != lots[j].merchant
    requires lot.merchant !in Visited(lots) && lot.merchant !in todo && Visited(lots) !! todo
    requires Merchants(picked) == Visited(lots) + {lot.merchant} + todo
    ensures IsVisit(picked, lots + [lot] + Unvisited(todo))
  {
    hide Merchants, Unvisited, Visited;
    var rest := Unvisited(todo);
    VisitedPush(lots, lot);
    VisitedPush([], lot);
    assert [] + [lot] == [lot] && Visited([]) == {} by { NothingVisited(); }
    DifferentMerchants(lots, [lot]);
    VisitedBoth(lots + [lot], rest);
    DifferentMerchants(lots + [lot], rest);
  }

  lemma NothingVisited()
    ensures Visited([]) == {}
  {
  }

  // After a lot that fails the bank takes nothing more of the batch.
  lemma {:induction false} BankStops(s: State, day: nat, picked: seq<R.Rcv>, lots: seq<Lot>, more: seq<Lot>)
    requires SettleLots(s, day, picked, lots).Err?
    ensures BankTakes(s, day, picked, lots + more) == BankTakes(s, day, picked, lots) && SettleLots(s, day, picked, lots + more).Err?
    ensures ReportCounts(s, day, picked, lots + more) == ReportCounts(s, day, picked, lots)
  {
    if more == [] {
      assert lots + more == lots;
    } else {
      var n := |more| - 1;
      BankStops(s, day, picked, lots, more[..n]);
      assert (lots + more)[..|lots + more|-1] == lots + more[..n];
    }
  }

  lemma NothingYet(answers: (nat, Id) -> Lot, a: Moment, day: nat, picked: seq<R.Rcv>)
    requires Midway(a.s, a.s, day, picked, [])
    ensures SoFar(answers, a, a, day, picked, [])
    ensures Visited([]) == {}
  {
    hide Midway, Answered;
  }

  // The objects of each merchant stand for that merchant's rows, and each merchant has some.
  lemma Grouped(list: seq<R.Receivable>, picked: seq<R.Rcv>, byMerchant: map<Id, seq<R.Receivable>>)
    requires Holds(list, picked)
    requires forall m :: m in byMerchant <==> exists i :: 0 <= i < |list| && list[i].merchant == m
    requires forall m :: m in byMerchant ==> byMerchant[m] == Of(list, m)
    ensures forall m :: m in byMerchant ==> Holds(byMerchant[m], Where(picked, OfMerchant(m)))
    ensures forall m, x :: m in byMerchant && x in byMerchant[m] ==> x in list && x.merchant == m
    ensures byMerchant.Keys == Merchants(picked)
  {
    hide Of, Where;
    forall m
      ensures m in byMerchant ==> Holds(byMerchant[m], Where(picked, OfMerchant(m)))
      ensures forall x :: m in byMerchant && x in byMerchant[m] ==> x in list && x.merchant == m
      ensures m in byMerchant <==> m in Merchants(picked)
    {
      OfHolds(list, picked, m);
      assert forall i :: 0 <= i < |list| ==> list[i].View() == picked[i];
    }
  }

  // When no merchant is left to visit, every merchant of the batch was visited once.
  lemma AllVisited(answers: (nat, Id) -> Lot, a: Moment, b: Moment, day: nat, picked: seq<R.Rcv>, lots: seq<Lot>)
    requires SoFar(answers, a, b, day, picked, lots) && Visited(lots) == Merchants(picked)
    ensures VisitDone(answers, a, b, day, picked, lots, true)
  {
    hide Told, Progress, Answered, Sound, SettleLots, BankTakes, AreAnswers;
  }

  lemma DoneMeans(answers: (nat, Id) -> Lot, a: Moment, b: Moment, day: nat, picked: seq<R.Rcv>, lots: seq<Lot>, ok: bool)
    requires VisitDone(answers, a, b, day, picked, lots, ok)
    ensures ok ==> SoFar(answers, a, b, day, picked, lots)
    ensures !ok ==> SettleLots(a.s, day, picked, lots).Err? && !Answered(answers, a.v, a.s)
    ensures IsVisit(picked, lots) && Told(a, b) && b.sent == a.sent + BankTakes(a.s, day, picked, lots)
    ensures b.t.paid == a.t.paid + Sum(ReportCounts(a.s, day, picked, lots), LotPaid())
  {
    hide SoFar, SettleLots, BankTakes, ReportCounts, IsVisit, Told, Answered;
  }

  lemma InvKeyed(s: State)
    requires Sound(s)
    ensures DistinctIds(s.rcvs)
  {
  }

  lemma BatchStart(s: State, day: nat, limit: nat, list: seq<R.Receivable>, picked: seq<R.Rcv>)
    requires Sound(s) && IsPick(s.rcvs, day, limit, picked) && Holds(list, picked)
    ensures Midway(s, s, day, picked, []) && |list| == |picked|
    ensures picked == [] ==> IsVisit(picked, [])
  {
    hide Sound;
  }

  // A merchant visited for every lot, and a lot for every batch that is not empty.
  lemma BatchEnd(answers: (nat, Id) -> Lot, a: Moment, b: Moment, day: nat, picked: seq<R.Rcv>, lots: seq<Lot>)
    requires SoFar(answers, a, b, day, picked, lots) && IsVisit(picked, lots)
    ensures SettleLots(a.s, day, picked, lots) == Ok(b.s) && Sound(b.s) && Progress(a, b, day)
    ensures AreAnswers(answers, a.v, lots) && b.v == a.v + |lots| && (picked != [] ==> lots != [])
    ensures (forall i :: 0 <= i < |lots| ==> lots[i].accepted) ==> b.t.failed == a.t.failed
    ensures Answered(answers, a.v, a.s) ==> Answered(answers, b.v, b.s)
  {
    hide Told, Progress, Answered, Sound, SettleLots, BankTakes, ReportCounts, AreAnswers;
    if picked != [] {
      assert picked[0].data.merchant in Visited(lots);
    }
  }

  // What was told does not depend on the tables.
  lemma ToldAnyway(a: Moment, b: Moment, s: State)
    requires Told(a, b)
    ensures Told(a, b.(s := s))
  {
  }

  // One unit of work: what is due and not locked, in order and up to the limit, merchant by merchant,
  // then the COMMIT. It is one step of the state machine, rolled back whole after an error; but an error takes
  // back neither the report nor anything of what the bank has taken until then.
  method Batch(db: Database, rep: Report, out: Outside, day: nat, limit: nat, locked: set<Id>, commits: bool)
      returns (r: Result<nat>, ghost picked: seq<R.Rcv>, ghost lots: seq<Lot>)
    requires Sound(db.tables)
    modifies db, rep, out
    ensures picked == DuePick(Where(old(db.tables).rcvs, Unlocked(locked)), day, limit)
    ensures IsPick(old(db.tables).rcvs, day, limit, picked) && IsVisit(picked, lots)
    ensures r.Ok? <==> SettleDay(old(db.tables), day, picked, lots, commits).Ok?
    ensures r.Ok? ==> r.value == |picked| && SettleDay(old(db.tables), day, picked, lots, commits) == Ok(db.tables)
    ensures r.Err? ==> db.tables == old(db.tables)
    ensures out.sent == old(out.sent) + BankTakes(old(db.tables), day, picked, lots)
    ensures rep.paid == old(rep.paid) + Sum(ReportCounts(old(db.tables), day, picked, lots), LotPaid())
    ensures r.Ok? ==> Sound(db.tables) && Progress(old(Now(db, rep, out)), Now(db, rep, out), day)
    ensures r.Ok? ==> AreAnswers(out.answers, old(out.visits), lots) && out.visits == old(out.visits) + |lots| && (picked != [] ==> lots != [])
    ensures r.Ok? && (forall i :: 0 <= i < |lots| ==> lots[i].accepted) ==> rep.failed == old(rep.failed)
    ensures Told(old(Now(db, rep, out)), Now(db, rep, out))
    ensures commits && Answered(out.answers, old(out.visits), old(db.tables)) ==> r.Ok? && Answered(out.answers, out.visits, db.tables)
    ensures rep.skipped == old(rep.skipped)
  {
    hide Sound, SettleLot, SettleLots, Answered, Told, Progress, Where, IsVisit, IsPick, Visited, Merchants, Of, Holds, SoFar, Midway, DuePick,
         BankTakes, ReportCounts, AreAnswers, VisitDone;
    ghost var a := Now(db, rep, out);
    assert DistinctIds(db.tables.rcvs) by { InvKeyed(db.tables); }
    var saved := db.tables;
    var list;
    list, picked := db.ListDueOnForUpdate(day, limit, locked);
    BatchStart(db.tables, day, limit, list, picked);
    NothingYet(out.answers, a, day, picked);
    lots := [];
    var visited: Result<()> := Ok(());
    if |list| == 0 {
      NothingTold(a, day, picked);
    } else {
      var byMerchant := GroupByMerchant(list);
      visited, lots := VisitMerchants(db, rep, out, list, byMerchant, day, picked);
      DoneMeans(out.answers, a, Now(db, rep, out), day, picked, lots, visited.Ok?);
    }
    ToldAnyway(a, Now(db, rep, out), saved);
    if visited.Err? {
      db.Rollback(saved);
      return Err(visited.error), picked, lots;
    }
    BatchEnd(out.answers, a, Now(db, rep, out), day, picked, lots);
    if !commits {
      db.Rollback(saved);
      return Err(CommitFailed), picked, lots;
    }
    return Ok(|list|), picked, lots;
  }

  lemma NothingTold(a: Moment, day: nat, picked: seq<R.Rcv>)
    ensures Told(a, a) && a.sent == a.sent + BankTakes(a.s, day, picked, [])
    ensures a.t.paid == a.t.paid + Sum(ReportCounts(a.s, day, picked, []), LotPaid())
  {
  }

  // ---- the whole day

  // What is left to wait for: rejections the bank can still give, then due receivables.
  function RejectionsLeft(patience: nat, visits: nat): nat {
    if visits < patience then patience - visits else 0
  }

  // The merchants that have something due.
  ghost function DueMerchants(rcvs: seq<R.Rcv>, day: nat): set<Id> {
    set j | 0 <= j < |rcvs| && IsDue(day)(rcvs[j]) :: rcvs[j].data.merchant
  }

  // From the visit number patience on, the bank accepts every merchant that has something due.
  ghost predicate AcceptsInTheEnd(answers: (nat, Id) -> Lot, patience: nat, rcvs: seq<R.Rcv>, day: nat) {
    forall k: nat, m :: k >= patience && m in DueMerchants(rcvs, day) ==> AnswerTo(answers, k, m).accepted
  }

  lemma FewerMerchants(rcvs: seq<R.Rcv>, rcvs': seq<R.Rcv>, day: nat)
    requires OnlySettled(rcvs, rcvs', day)
    ensures DueMerchants(rcvs', day) <= DueMerchants(rcvs, day)
  {
    forall m | m in DueMerchants(rcvs', day)
      ensures m in DueMerchants(rcvs, day)
    {
      var j :| 0 <= j < |rcvs'| && IsDue(day)(rcvs'[j]) && rcvs'[j].data.merchant == m;
      assert SettledOrSame(rcvs[j], rcvs'[j], day);
    }
  }

  // The lots of a batch are of merchants that have something due.
  lemma LotsAreDue(rcvs: seq<R.Rcv>, day: nat, limit: nat, picked: seq<R.Rcv>, lots: seq<Lot>)
    requires IsPick(rcvs, day, limit, picked) && IsVisit(picked, lots)
    ensures forall i :: 0 <= i < |lots| ==> lots[i].merchant in DueMerchants(rcvs, day)
  {
    forall i | 0 <= i < |lots|
      ensures lots[i].merchant in DueMerchants(rcvs, day)
    {
      assert lots[i].merchant in Visited(lots);
      var k :| 0 <= k < |picked| && picked[k].data.merchant == lots[i].merchant;
      assert picked[k] in picked;
      var j :| 0 <= j < |rcvs| && rcvs[j] == picked[k];
    }
  }

  lemma BatchAdvances(a: Moment, b: Moment, day: nat, patience: nat, lots: seq<Lot>)
    requires Progress(a, b, day) && Told(a, b) && b.v == a.v + |lots| && lots != []
    requires a.v >= patience ==> b.t.failed == a.t.failed
    ensures 0 <= Sum(b.s.rcvs, DueOne(day))
    ensures RejectionsLeft(patience, b.v) < RejectionsLeft(patience, a.v)
         || (RejectionsLeft(patience, b.v) == RejectionsLeft(patience, a.v) && Sum(b.s.rcvs, DueOne(day)) < Sum(a.s.rcvs, DueOne(day)))
  {
    DueCount(a.s.rcvs, day);
    DueCount(b.s.rcvs, day);
  }

  lemma AllAccepted(answers: (nat, Id) -> Lot, a: Moment, b: Moment, day: nat, limit: nat, picked: seq<R.Rcv>, lots: seq<Lot>, patience: nat)
    requires Progress(a, b, day) && AcceptsInTheEnd(answers, patience, a.s.rcvs, day) && AreAnswers(answers, b.v, lots) && b.v >= patience
    requires IsPick(b.s.rcvs, day, limit, picked) && IsVisit(picked, lots)
    ensures forall i :: 0 <= i < |lots| ==> lots[i].accepted
  {
    hide IsPick, IsVisit, DueMerchants, OnlySettled;
    FewerMerchants(a.s.rcvs, b.s.rcvs, day);
    LotsAreDue(b.s.rcvs, day, limit, picked, lots);
  }

  // A batch that finds nothing means that everything due has been settled, but for what is locked.
  lemma NothingDue(a: Moment, b: Moment, day: nat, limit: nat, locked: set<Id>)
    requires Progress(a, b, day) && DistinctIds(b.s.rcvs) && DuePick(Where(b.s.rcvs, Unlocked(locked)), day, limit) == [] && limit >= 1
    ensures forall j :: 0 <= j < |a.s.rcvs| && a.s.rcvs[j].data.due == day && (a.s.rcvs[j].data.status.Scheduled? || a.s.rcvs[j].data.status.Anticipated?) ==>
              b.s.rcvs[j].data.status.Settled? || (b.s.rcvs[j] == a.s.rcvs[j] && a.s.rcvs[j].id in locked)
    ensures locked == {} ==> Sum(b.s.rcvs, DuePayable(day)) == Sum(b.s.rcvs, DueRetained(day)) == 0
  {
    UnlockedPick(b.s.rcvs, day, limit, locked);
    hide DuePick;
    if locked == {} {
      WhereNone(b.s.rcvs, IsDue(day));
      DueCount(b.s.rcvs, day);
    }
    forall j | 0 <= j < |a.s.rcvs| && IsDue(day)(a.s.rcvs[j])
      ensures b.s.rcvs[j].data.status.Settled? || (b.s.rcvs[j] == a.s.rcvs[j] && a.s.rcvs[j].id in locked)
    {
      assert SettledOrSame(a.s.rcvs[j], b.s.rcvs[j], day) && b.s.rcvs[j] in b.s.rcvs;
    }
  }

  // What the report has counted of the last batch of a run.
  ghost function LastCounted(ops: seq<Op>): seq<S.Stl> {
    if ops == [] then [] else CountedAt(Exec(ops[..|ops|-1]), ops[|ops|-1])
  }

  // Settles a day. The bank may reject any number of lots, as long as it accepts every
  // merchant that has something due in the end; liens, limit and order of merchants are arbitrary, and
  // so are the rows that are locked at each query and the COMMITs that fail. It is a run of batches; the bank's log is
  // what the bank takes in that run, and the report what is counted of it.
  method Execute(db: Database, out: Outside, t: nat, lock: Option<bool>, limit: nat, locked: nat -> set<Id>, commits: nat -> bool,
                 ghost history: seq<Op>, ghost patience: nat)
      returns (r: Result<()>, rep: Report, rounds: nat, ghost runs: seq<Op>)
    requires db.tables == Exec(history) && out.sent == Bank(history)
    requires AcceptsInTheEnd(out.answers, patience, db.tables.rcvs, DateOnly(t))
    modifies db, out
    ensures fresh(rep) && db.tables == Exec(history + runs) && out.sent == Bank(history + runs) && rounds == |runs|
    ensures rep.paid == Sum(Counts(history + runs), LotPaid()) - Sum(Counts(history), LotPaid())
    ensures OnlySettled(old(db.tables).rcvs, db.tables.rcvs, DateOnly(t))
    ensures rep.skipped <==> !IsBusinessDay(DateOnly(t))
    ensures rep.skipped ==> r.Ok?
    ensures rep.skipped || lock != Some(true) ==>
              db.tables == old(db.tables) && out.visits == old(out.visits) && out.sent == old(out.sent) && rep.Total() == Totals(0, 0, 0, 0, 0)
    ensures !rep.skipped && lock != Some(true) ==> r == Err(if lock.None? then LockDown else AlreadyRunning)
    ensures r.Ok? && !rep.skipped ==>
              && rep.paid == Sum(old(db.tables).rcvs, DuePayable(DateOnly(t))) - Sum(db.tables.rcvs, DuePayable(DateOnly(t)))
              && rep.retained == Sum(old(db.tables).rcvs, DueRetained(DateOnly(t))) - Sum(db.tables.rcvs, DueRetained(DateOnly(t)))
              && rep.merchants == rep.settlements + rep.failed == out.visits - old(out.visits)
    ensures r.Ok? && !rep.skipped && limit >= 1 ==>
              var rcvs := old(db.tables).rcvs;
              && rounds >= 1
              && (forall j :: 0 <= j < |rcvs| && rcvs[j].data.due == DateOnly(t) && (rcvs[j].data.status.Scheduled? || rcvs[j].data.status.Anticipated?) ==>
                    db.tables.rcvs[j].data.status.Settled? || (db.tables.rcvs[j] == rcvs[j] && rcvs[j].id in locked(rounds - 1)))
              && (locked(rounds - 1) == {} ==> Sum(db.tables.rcvs, DuePayable(DateOnly(t))) == Sum(db.tables.rcvs, DueRetained(DateOnly(t))) == 0)
    ensures r.Err? && lock == Some(true) ==>
              && runs != [] && runs[|runs|-1].SettleBatch? && db.tables == Exec((history + runs)[..|history + runs|-1])
              && rep.paid == Sum(old(db.tables).rcvs, DuePayable(DateOnly(t))) - Sum(db.tables.rcvs, DuePayable(DateOnly(t)))
                             + Sum(LastCounted(history + runs), LotPaid())
    ensures (IsBusinessDay(DateOnly(t)) && lock == Some(true) && (forall n :: commits(n)) && Answered(out.answers, old(out.visits), old(db.tables)))
            ==> r.Ok?
  {
    hide Sound, Exec, Apply, Enabled, Step, SettleLots, SettleDay, Answered, Told, Progress, IsVisit, IsPick, IsBusinessDay, OnlySettled, DuePick,
         Where, BankTakes, ReportCounts, AreAnswers, AcceptsInTheEnd, Bank, Counts, LastCounted, DateOnly, Sum, IsDue, Unlocked, DueMerchants,
         DuePayable, DueRetained, DueOne, LotPaid, RejectionsLeft, LotRows, Visited, Merchants;
    var day := DateOnly(t);
    rep := new Report();
    runs := [];
    rounds := 0;
    assert history + runs == history;
    ghost var a := Now(db, rep, out);
    Nothing(a, day);
    if !IsBusinessDay(day) {
      rep.skipped := true;
      return Ok(()), rep, rounds, runs;
    }
    if lock.None? {
      return Err(LockDown), rep, rounds, runs;
    }
    if !lock.value {
      return Err(AlreadyRunning), rep, rounds, runs;
    }
    while true
      invariant fresh(rep) && !rep.skipped && rounds == |runs|
      invariant db.tables == Exec(history + runs) && out.sent == Bank(history + runs)
      invariant rep.paid == Sum(Counts(history + runs), LotPaid()) - Sum(Counts(history), LotPaid())
      invariant Progress(a, Now(db, rep, out), day) && Told(a, Now(db, rep, out))
      invariant (forall n :: commits(n)) && Answered(out.answers, a.v, a.s) ==> Answered(out.answers, out.visits, db.tables)
      invariant Sum(db.tables.rcvs, DueOne(day)) >= 0
      decreases RejectionsLeft(patience, out.visits), Sum(db.tables.rcvs, DueOne(day))
    {
      ghost var b, ops := Now(db, rep, out), history + runs;
      RunSafe(ops);
      InvSound(Exec(ops));
      var processed, picked, lots := Batch(db, rep, out, day, limit, locked(rounds), commits(rounds));
      ghost var c, op := Now(db, rep, out), SettleBatch(day, limit, picked, lots, commits(rounds));
      ToldTwice(a, b, c);
      RunGrowsBy(ops, day, limit, picked, lots, commits(rounds));
      runs := runs + [op];
      rounds := rounds + 1;
      assert history + runs == ops + [op];
      if processed.Err? {
        ErrorPays(a, b, c, day, ops, op);
        return Err(processed.error), rep, rounds, runs;
      }
      ProgressTwice(a, b, c, day);
      if processed.value == 0 {
        Done(a, b, c, day, limit, lots, locked(rounds - 1), commits(rounds - 1));
        return Ok(()), rep, rounds, runs;
      }
      if b.v >= patience {
        AllAccepted(out.answers, a, b, day, limit, picked, lots, patience);
      }
      BatchAdvances(b, c, day, patience, lots);
    }
  }

  lemma Nothing(a: Moment, day: nat)
    ensures Progress(a, a, day) && Told(a, a) && OnlySettled(a.s.rcvs, a.s.rcvs, day) && Sum(a.s.rcvs, DueOne(day)) >= 0
  {
    DueCount(a.s.rcvs, day);
  }

  lemma RunGrowsBy(ops: seq<Op>, day: nat, limit: nat, picked: seq<R.Rcv>, lots: seq<Lot>, commits: bool)
    requires IsPick(Exec(ops).rcvs, day, limit, picked) && IsVisit(picked, lots)
    ensures var step, op := SettleDay(Exec(ops), day, picked, lots, commits), SettleBatch(day, limit, picked, lots, commits);
            && Enabled(Exec(ops), op)
            && Exec(ops + [op]) == (if step.Ok? then step.value else Exec(ops))
            && Bank(ops + [op]) == Bank(ops) + BankTakes(Exec(ops), day, picked, lots)
            && Sum(Counts(ops + [op]), LotPaid()) == Sum(Counts(ops), LotPaid()) + Sum(ReportCounts(Exec(ops), day, picked, lots), LotPaid())
  {
    hide IsPick, IsVisit, SettleLots, SettleDay, BankTakes, ReportCounts;
    var more := ops + [SettleBatch(day, limit, picked, lots, commits)];
    assert more[..|more|-1] == ops;
    SumAppend(Counts(ops), ReportCounts(Exec(ops), day, picked, lots), LotPaid());
  }

  // After an error the report says what the tables keep and what was counted of the failed batch.
  lemma ErrorPays(a: Moment, b: Moment, c: Moment, day: nat, ops: seq<Op>, op: Op)
    requires Progress(a, b, day) && c.s == b.s == Exec(ops)
    requires op.SettleBatch? && Enabled(Exec(ops), op) && c.t.paid == b.t.paid + Sum(ReportCounts(Exec(ops), op.day, op.picked, op.lots), LotPaid())
    ensures c.t.paid - a.t.paid == Sum(a.s.rcvs, DuePayable(day)) - Sum(c.s.rcvs, DuePayable(day)) + Sum(LastCounted(ops + [op]), LotPaid())
    ensures OnlySettled(a.s.rcvs, c.s.rcvs, day) && (ops + [op])[..|ops|] == ops
  {
    hide Exec, Enabled, ReportCounts, OnlySettled;
    assert (ops + [op])[..|ops|] == ops;
  }

  // An empty batch has no lots.
  lemma NothingToVisit(lots: seq<Lot>)
    requires IsVisit([], lots)
    ensures lots == []
  {
    hide Visited, Merchants;
    NobodyIsPicked();
    if lots != [] {
      FirstIsVisited(lots);
    }
  }

  lemma NobodyIsPicked()
    ensures Merchants([]) == {}
  {
  }

  lemma FirstIsVisited(lots: seq<Lot>)
    requires lots != []
    ensures lots[0].merchant in Visited(lots)
  {
  }

  lemma Done(a: Moment, b: Moment, c: Moment, day: nat, limit: nat, lots: seq<Lot>, locked: set<Id>, commits: bool)
    requires Progress(a, c, day) && Told(a, c) && Sound(b.s) && DuePick(Where(b.s.rcvs, Unlocked(locked)), day, limit) == []
    requires IsVisit([], lots) && SettleDay(b.s, day, [], lots, commits) == Ok(c.s)
    ensures OnlySettled(a.s.rcvs, c.s.rcvs, day)
    ensures c.t.paid - a.t.paid == Sum(a.s.rcvs, DuePayable(day)) - Sum(c.s.rcvs, DuePayable(day))
    ensures c.t.retained - a.t.retained == Sum(a.s.rcvs, DueRetained(day)) - Sum(c.s.rcvs, DueRetained(day))
    ensures c.t.merchants - a.t.merchants == c.t.settlements - a.t.settlements + c.t.failed - a.t.failed == c.v - a.v
    ensures limit >= 1 ==>
      && (forall j :: 0 <= j < |a.s.rcvs| && a.s.rcvs[j].data.due == day && (a.s.rcvs[j].data.status.Scheduled? || a.s.rcvs[j].data.status.Anticipated?) ==>
            c.s.rcvs[j].data.status.Settled? || (c.s.rcvs[j] == a.s.rcvs[j] && a.s.rcvs[j].id in locked))
      && (locked == {} ==> Sum(c.s.rcvs, DuePayable(day)) == Sum(c.s.rcvs, DueRetained(day)) == 0)
  {
    hide Sound, DuePick;
    NothingToVisit(lots);
    InvKeyed(b.s);
    if limit >= 1 {
      NothingDue(a, c, day, limit, locked);
    }
  }
}
