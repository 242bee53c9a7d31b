/** How a day of batches ends, for a bank with a standing verdict on every lot it is sent. */
module DayRuns {
  import opened Results
  import opened Sums
  import opened Tables
  import R = Receivables
  import S = Settlements
  import opened Acquirer
  import opened Reconciliation
  import opened Safety
  import opened DueRows
  import opened Batches

  // The bank's standing verdict on a lot: what it says is settled by the merchant and its
  // receivables, as it is for any verdict on the built lot while the liens stand.
  type Verdict = (Id, seq<R.Rcv>) -> bool

  // The bank accepts the lot of this merchant when these rows are picked.
  predicate Good(v: Verdict, picked: seq<R.Rcv>, merchant: Id) {
    v(merchant, Where(picked, OfMerchant(merchant)))
  }

  // ---- a day: committed batches, one after the other

  ghost function After(s: State, ops: seq<Op>): State {
    if ops == [] then s else Apply(After(s, ops[..|ops|-1]), ops[|ops|-1])
  }

  ghost predicate IsBatch(s: State, day: nat, limit: nat, v: Verdict, op: Op) {
    && op.SettleBatch? && op.day == day && op.limit == limit && Enabled(s, op) && Step(s, op).Ok?
    && IsDuePick(s.rcvs, day, limit, op.picked)
    && forall i :: 0 <= i < |op.lots| ==> op.lots[i].accepted == Good(v, op.picked, op.lots[i].merchant)
  }

  ghost predicate DayRun(s: State, day: nat, limit: nat, v: Verdict, ops: seq<Op>) {
    ops != [] ==>
      var before := ops[..|ops|-1];
      DayRun(s, day, limit, v, before) && IsBatch(After(s, before), day, limit, v, ops[|ops|-1])
  }

  // What one committed batch does to one row, by the verdict.
  ghost predicate RowByVerdict(r: R.Rcv, r': R.Rcv, day: nat, v: Verdict, picked: seq<R.Rcv>) {
    if r in picked && Good(v, picked, r.data.merchant) then !IsDue(day)(r') else r' == r
  }

  lemma BatchByVerdict(s: State, day: nat, limit: nat, v: Verdict, op: Op)
    requires Sound(s) && IsBatch(s, day, limit, v, op)
    ensures op.SettleBatch? && Sound(Apply(s, op)) && IsDuePick(s.rcvs, day, limit, op.picked)
    ensures var rcvs' := Apply(s, op).rcvs;
            |rcvs'| == |s.rcvs| && forall j :: 0 <= j < |s.rcvs| ==> RowByVerdict(s.rcvs[j], rcvs'[j], day, v, op.picked)
  {
    hide Sound, SettleLots, SettledOrSame, IsDuePick, Good;
    StepSafe(s, op);
    KeptIsSoundAgain(s, Apply(s, op));
    BatchRows(s, day, limit, op.picked, op.lots);
    var rcvs' := Apply(s, op).rcvs;
    forall j | 0 <= j < |s.rcvs|
      ensures RowByVerdict(s.rcvs[j], rcvs'[j], day, v, op.picked)
    {
      assert RowAfter(s.rcvs[j], rcvs'[j], day, op.picked, op.lots, |op.lots|);
      if s.rcvs[j] in op.picked {
        VisitedRow(op.picked, op.lots, s.rcvs[j]);
      }
    }
  }

  lemma KeptIsSoundAgain(s: State, s': State)
    requires Kept(s, s')
    ensures Sound(s')
  {
  }

  lemma VisitedRow(picked: seq<R.Rcv>, lots: seq<Lot>, r: R.Rcv)
    requires IsVisit(picked, lots) && r in picked
    ensures exists k :: 0 <= k < |lots| && lots[k].merchant == r.data.merchant
  {
    var i :| 0 <= i < |picked| && picked[i] == r;
    assert r.data.merchant in Visited(lots);
  }

  lemma {:induction false} DayRunSound(s: State, day: nat, limit: nat, v: Verdict, ops: seq<Op>)
    requires Sound(s) && DayRun(s, day, limit, v, ops)
    ensures Sound(After(s, ops)) && |After(s, ops).rcvs| == |s.rcvs|
  {
    hide Sound, Apply, IsBatch;
    if ops != [] {
      DayRunSound(s, day, limit, v, ops[..|ops|-1]);
      BatchByVerdict(After(s, ops[..|ops|-1]), day, limit, v, ops[|ops|-1]);
    }
  }

  // ---- lots that are rejected

  // The bank rejects every lot of this pick.
  ghost predicate AllRejected(v: Verdict, picked: seq<R.Rcv>) {
    forall r :: r in picked ==> !Good(v, picked, r.data.merchant)
  }

  // A batch rejected whole leaves the agenda as it was.
  lemma RejectedWhole(s: State, day: nat, limit: nat, v: Verdict, op: Op)
    requires Sound(s) && IsBatch(s, day, limit, v, op) && AllRejected(v, op.picked)
    ensures Apply(s, op).rcvs == s.rcvs
  {
    hide Sound, Apply, IsBatch, Good;
    BatchByVerdict(s, day, limit, v, op);
    forall j | 0 <= j < |s.rcvs|
      ensures Apply(s, op).rcvs[j] == s.rcvs[j]
    {
      assert RowByVerdict(s.rcvs[j], Apply(s, op).rcvs[j], day, v, op.picked);
    }
  }

  // A bank that rejects everything leaves the agenda as it was after any number of batches,
  // and, if anything was due, the next batch is not empty: the loop goes on for ever.
  lemma AllRejectedGoesOn(s: State, day: nat, limit: nat, ops: seq<Op>, next: seq<R.Rcv>)
    requires Sound(s) && DayRun(s, day, limit, (m, rows) => false, ops) && IsDuePick(After(s, ops).rcvs, day, limit, next)
    ensures After(s, ops).rcvs == s.rcvs
    ensures limit >= 1 && (exists r :: r in s.rcvs && IsDue(day)(r)) ==> next != []
  {
    hide Sound, After, IsBatch;
    NeverAccepted(s, day, limit, ops);
    if limit >= 1 && exists r :: r in s.rcvs && IsDue(day)(r) {
      var r :| r in s.rcvs && IsDue(day)(r);
      WhereMember(s.rcvs, IsDue(day), r);
    }
  }

  lemma {:induction false} NeverAccepted(s: State, day: nat, limit: nat, ops: seq<Op>)
    requires Sound(s) && DayRun(s, day, limit, (m, rows) => false, ops)
    ensures After(s, ops).rcvs == s.rcvs
  {
    hide Sound, Apply, IsBatch;
    if ops != [] {
      NeverAccepted(s, day, limit, ops[..|ops|-1]);
      DayRunSound(s, day, limit, (m, rows) => false, ops[..|ops|-1]);
      RejectedWhole(After(s, ops[..|ops|-1]), day, limit, (m, rows) => false, ops[|ops|-1]);
    }
  }

  // ---- progress

  // A weight that falls nowhere below and somewhere strictly.
  lemma {:induction false} SumDrops(a: seq<R.Rcv>, b: seq<R.Rcv>, w: R.Rcv -> int)
    requires |a| == |b| && forall i :: 0 <= i < |a| ==> w(b[i]) <= w(a[i])
    ensures Sum(b, w) <= Sum(a, w)
    ensures (exists i :: 0 <= i < |a| && w(b[i]) < w(a[i])) ==> Sum(b, w) < Sum(a, w)
  {
    if a != [] {
      var n := |a| - 1;
      SumDrops(a[..n], b[..n], w);
      if i :| 0 <= i < |a| && w(b[i]) < w(a[i]) {
        if i < n {
          assert w(b[..n][i]) < w(a[..n][i]);
        }
      }
    }
  }

  // While a row of an accepted lot is picked, every batch leaves fewer rows due.
  lemma BatchShrinks(s: State, day: nat, limit: nat, v: Verdict, op: Op, w: R.Rcv -> int, r: R.Rcv)
    requires Sound(s) && IsBatch(s, day, limit, v, op)
    requires forall x :: w(x) >= 0 && (!IsDue(day)(x) ==> w(x) == 0)
    requires r in op.picked && Good(v, op.picked, r.data.merchant) && w(r) > 0
    ensures Sum(Apply(s, op).rcvs, w) < Sum(s.rcvs, w)
  {
    hide Sound, Apply, IsBatch, Good;
    BatchByVerdict(s, day, limit, v, op);
    assert r in s.rcvs;
    var j :| 0 <= j < |s.rcvs| && s.rcvs[j] == r;
    SumDrops(s.rcvs, Apply(s, op).rcvs, w);
  }

  // ---- the order of the query, and how the day ends for any verdict

  // Batches pick in the order of the query: merchant, then id.
  ghost predicate OrderedRun(s: State, day: nat, limit: nat, ops: seq<Op>) {
    ops != [] ==>
      var before, op := ops[..|ops|-1], ops[|ops|-1];
      OrderedRun(s, day, limit, before) && op.SettleBatch? && op.picked == DuePick(After(s, before).rcvs, day, limit)
  }

  // What is picked next.
  ghost function Next(s: State, day: nat, limit: nat): seq<R.Rcv> {
    DuePick(s.rcvs, day, limit)
  }

  // Batch i finds something due, and all its lots are rejected.
  ghost predicate Stuck(s: State, day: nat, limit: nat, v: Verdict, ops: seq<Op>, i: nat)
    requires i <= |ops|
  {
    Next(After(s, ops[..i]), day, limit) != [] && AllRejected(v, Next(After(s, ops[..i]), day, limit))
  }

  // Once every lot of the next pick is rejected, the agenda never changes any more.
  lemma {:induction false} StuckForGood(s: State, day: nat, limit: nat, v: Verdict, ops: seq<Op>, i: nat)
    requires Sound(s) && DayRun(s, day, limit, v, ops) && OrderedRun(s, day, limit, ops)
    requires i <= |ops| && AllRejected(v, Next(After(s, ops[..i]), day, limit))
    ensures After(s, ops).rcvs == After(s, ops[..i]).rcvs
  {
    hide Sound, Apply, IsBatch, AllRejected, DuePick;
    if i == |ops| {
      assert ops[..i] == ops;
    } else {
      var before, op := ops[..|ops|-1], ops[|ops|-1];
      assert before[..i] == ops[..i];
      StuckForGood(s, day, limit, v, before, i);
      DayRunSound(s, day, limit, v, before);
      RejectedWhole(After(s, before), day, limit, v, op);
    }
  }

  // As long as no batch is stuck, every batch leaves at least one row less due.
  lemma {:induction false} ShrinksOrSticks(s: State, day: nat, limit: nat, v: Verdict, ops: seq<Op>)
    requires Sound(s) && DayRun(s, day, limit, v, ops) && OrderedRun(s, day, limit, ops) && limit >= 1
    requires forall i :: 0 <= i < |ops| ==> !Stuck(s, day, limit, v, ops, i)
    ensures Where(After(s, ops).rcvs, IsDue(day)) == [] || Sum(After(s, ops).rcvs, DueOne(day)) + |ops| <= Sum(s.rcvs, DueOne(day))
  {
    hide Sound, Apply, IsBatch, DuePick, Stuck;
    if ops != [] {
      var before, op := ops[..|ops|-1], ops[|ops|-1];
      var t := After(s, before);
      StuckAlike(s, day, limit, v, ops, before);
      ShrinksOrSticks(s, day, limit, v, before);
      DayRunSound(s, day, limit, v, before);
      BatchByVerdict(t, day, limit, v, op);
      if Where(t.rcvs, IsDue(day)) == [] {
        NothingDueStays(t.rcvs, After(s, ops).rcvs, day, v, op.picked);
      } else {
        NotStuck(s, day, limit, v, ops);
        var r :| r in op.picked && Good(v, op.picked, r.data.merchant);
        BatchShrinks(t, day, limit, v, op, DueOne(day), r);
      }
    }
  }

  lemma StuckAlike(s: State, day: nat, limit: nat, v: Verdict, ops: seq<Op>, before: seq<Op>)
    requires ops != [] && before == ops[..|ops|-1]
    ensures forall i :: 0 <= i < |before| ==> (Stuck(s, day, limit, v, before, i) <==> Stuck(s, day, limit, v, ops, i))
  {
    hide After, AllRejected, Next;
    forall i | 0 <= i < |before|
      ensures Stuck(s, day, limit, v, before, i) <==> Stuck(s, day, limit, v, ops, i)
    {
      assert before[..i] == ops[..i];
    }
  }

  lemma NotStuck(s: State, day: nat, limit: nat, v: Verdict, ops: seq<Op>)
    requires ops != [] && OrderedRun(s, day, limit, ops) && !Stuck(s, day, limit, v, ops, |ops| - 1)
    requires ops[|ops|-1].picked != []
    ensures exists r :: r in ops[|ops|-1].picked && Good(v, ops[|ops|-1].picked, r.data.merchant)
  {
    hide After, Good, DuePick;
  }

  lemma NothingDueStays(rcvs: seq<R.Rcv>, rcvs': seq<R.Rcv>, day: nat, v: Verdict, picked: seq<R.Rcv>)
    requires Where(rcvs, IsDue(day)) == [] && |rcvs'| == |rcvs|
    requires forall j :: 0 <= j < |rcvs| ==> RowByVerdict(rcvs[j], rcvs'[j], day, v, picked)
    ensures Where(rcvs', IsDue(day)) == []
  {
    hide Good;
    forall r | r in rcvs'
      ensures !IsDue(day)(r)
    {
      var j :| 0 <= j < |rcvs'| && rcvs'[j] == r;
      WhereMember(rcvs, IsDue(day), rcvs[j]);
      assert rcvs[j] in rcvs && RowByVerdict(rcvs[j], rcvs'[j], day, v, picked);
    }
    WhereNone(rcvs', IsDue(day));
  }

  // For any verdict on the lots: after as many batches as there are due receivables, nothing is
  // due exactly when no batch that found something due was rejected whole; one that was is repeated for ever.
  lemma DayEndsExactly(s: State, day: nat, limit: nat, v: Verdict, ops: seq<Op>)
    requires Sound(s) && DayRun(s, day, limit, v, ops) && OrderedRun(s, day, limit, ops) && limit >= 1
    requires |ops| >= Sum(s.rcvs, DueOne(day))
    ensures Where(After(s, ops).rcvs, IsDue(day)) == [] <==> forall i :: 0 <= i < |ops| ==> !Stuck(s, day, limit, v, ops, i)
    ensures forall i :: 0 <= i < |ops| && Stuck(s, day, limit, v, ops, i) ==> After(s, ops).rcvs == After(s, ops[..i]).rcvs
  {
    hide Sound, After, DayRun, OrderedRun, Stuck, Next;
    if forall i :: 0 <= i < |ops| ==> !Stuck(s, day, limit, v, ops, i) {
      ShrinksOrSticks(s, day, limit, v, ops);
      DueCount(After(s, ops).rcvs, day);
    }
    forall i | 0 <= i < |ops| && Stuck(s, day, limit, v, ops, i)
      ensures After(s, ops).rcvs == After(s, ops[..i]).rcvs && Where(After(s, ops).rcvs, IsDue(day)) != []
    {
      StuckRejects(s, day, limit, v, ops, i);
      StuckForGood(s, day, limit, v, ops, i);
    }
  }

  lemma StuckRejects(s: State, day: nat, limit: nat, v: Verdict, ops: seq<Op>, i: nat)
    requires i <= |ops| && Stuck(s, day, limit, v, ops, i)
    ensures AllRejected(v, Next(After(s, ops[..i]), day, limit)) && Where(After(s, ops[..i]).rcvs, IsDue(day)) != []
  {
    hide After, AllRejected;
    assert InOrder([]) == [];
  }

  // ---- verdicts that come down to the receivables

  // A lot that can be sent: receivables of one merchant, due on the day, with nets that are not negative.
  ghost predicate IsLot(day: nat, m: Id, rows: seq<R.Rcv>) {
    rows != [] && forall r :: r in rows ==> IsDue(day)(r) && r.data.merchant == m && r.data.net >= 0
  }

  // The bank accepts a lot exactly when nothing is wrong with any of its receivables.
  ghost predicate ByRows(v: Verdict, day: nat, ok: R.Rcv -> bool) {
    forall m, rows :: IsLot(day, m, rows) ==> (v(m, rows) <==> forall r :: r in rows ==> ok(r))
  }

  lemma LotIsLot(s: State, day: nat, limit: nat, picked: seq<R.Rcv>, r: R.Rcv)
    requires Sound(s) && IsPick(s.rcvs, day, limit, picked) && r in picked
    ensures IsLot(day, r.data.merchant, Where(picked, OfMerchant(r.data.merchant)))
    ensures forall x :: x in Where(picked, OfMerchant(r.data.merchant)) <==> x in picked && x.data.merchant == r.data.merchant
  {
    var m := r.data.merchant;
    var rows := Where(picked, OfMerchant(m));
    SoundNets(s);
    hide Sound, Where;
    WhereMember(picked, OfMerchant(m), r);
    forall x
      ensures x in rows <==> x in picked && x.data.merchant == m
    {
      WhereMember(picked, OfMerchant(m), x);
    }
  }

  lemma SoundNets(s: State)
    requires Sound(s)
    ensures forall r :: r in s.rcvs ==> r.data.net >= 0
  {
    forall r | r in s.rcvs
      ensures r.data.net >= 0
    {
      var j :| 0 <= j < |s.rcvs| && s.rcvs[j] == r;
      assert RowOk(s.rcvs[j]);
    }
  }

  // By rows, a lot is accepted exactly when all picked rows of its merchant are in order.
  lemma GoodByRows(s: State, day: nat, limit: nat, v: Verdict, ok: R.Rcv -> bool, picked: seq<R.Rcv>, r: R.Rcv)
    requires Sound(s) && IsPick(s.rcvs, day, limit, picked) && ByRows(v, day, ok) && r in picked
    ensures Good(v, picked, r.data.merchant) <==> forall x :: x in picked && x.data.merchant == r.data.merchant ==> ok(x)
  {
    hide Sound, IsPick;
    LotIsLot(s, day, limit, picked, r);
    hide IsLot, Where;
    var rows := Where(picked, OfMerchant(r.data.merchant));
    assert forall x :: x in rows ==> x in picked && x.data.merchant == r.data.merchant;
    assert forall x :: x in picked && x.data.merchant == r.data.merchant ==> x in rows;
  }

  lemma BatchIsPick(s: State, day: nat, limit: nat, v: Verdict, op: Op)
    requires IsBatch(s, day, limit, v, op)
    ensures op.SettleBatch? && IsPick(s.rcvs, day, limit, op.picked)
  {
    hide Good;
  }

  // However many batches run, a receivable with something wrong stays as it is.
  lemma {:induction false} WrongStays(s: State, day: nat, limit: nat, v: Verdict, ok: R.Rcv -> bool, ops: seq<Op>, j: nat)
    requires Sound(s) && DayRun(s, day, limit, v, ops) && ByRows(v, day, ok) && j < |s.rcvs| && !ok(s.rcvs[j])
    ensures |After(s, ops).rcvs| == |s.rcvs| && After(s, ops).rcvs[j] == s.rcvs[j]
  {
    hide Sound, Apply, IsBatch, ByRows, Good;
    if ops != [] {
      var before, op := ops[..|ops|-1], ops[|ops|-1];
      var t := After(s, before);
      WrongStays(s, day, limit, v, ok, before, j);
      DayRunSound(s, day, limit, v, before);
      BatchByVerdict(t, day, limit, v, op);
      BatchIsPick(t, day, limit, v, op);
      if s.rcvs[j] in op.picked {
        GoodByRows(t, day, limit, v, ok, op.picked, s.rcvs[j]);
      }
      assert RowByVerdict(t.rcvs[j], After(s, ops).rcvs[j], day, v, op.picked);
    }
  }

  // Nothing is wrong with anything that is due.
  ghost predicate AllDueOk(s: State, day: nat, ok: R.Rcv -> bool) {
    forall r :: r in s.rcvs && IsDue(day)(r) ==> ok(r)
  }

  lemma {:induction false} OkShrink(s: State, day: nat, limit: nat, v: Verdict, ok: R.Rcv -> bool, ops: seq<Op>)
    requires Sound(s) && DayRun(s, day, limit, v, ops) && ByRows(v, day, ok) && AllDueOk(s, day, ok) && limit >= 1
    ensures AllDueOk(After(s, ops), day, ok)
    ensures Where(After(s, ops).rcvs, IsDue(day)) == [] || Sum(After(s, ops).rcvs, DueOne(day)) + |ops| <= Sum(s.rcvs, DueOne(day))
  {
    hide Sound, Apply, IsBatch, ByRows, Good;
    if ops != [] {
      var before, op := ops[..|ops|-1], ops[|ops|-1];
      var t := After(s, before);
      OkShrink(s, day, limit, v, ok, before);
      DayRunSound(s, day, limit, v, before);
      BatchByVerdict(t, day, limit, v, op);
      BatchIsPick(t, day, limit, v, op);
      StillOk(t, After(s, ops), day, v, ok, op.picked);
      if Where(t.rcvs, IsDue(day)) == [] {
        NothingDueStays(t.rcvs, After(s, ops).rcvs, day, v, op.picked);
      } else {
        assert op.picked[0] in op.picked;
        GoodByRows(t, day, limit, v, ok, op.picked, op.picked[0]);
        BatchShrinks(t, day, limit, v, op, DueOne(day), op.picked[0]);
      }
    }
  }

  lemma StillOk(s: State, s': State, day: nat, v: Verdict, ok: R.Rcv -> bool, picked: seq<R.Rcv>)
    requires AllDueOk(s, day, ok) && |s'.rcvs| == |s.rcvs|
    requires forall j :: 0 <= j < |s.rcvs| ==> RowByVerdict(s.rcvs[j], s'.rcvs[j], day, v, picked)
    ensures AllDueOk(s', day, ok)
  {
    hide Good;
    forall r | r in s'.rcvs && IsDue(day)(r)
      ensures ok(r)
    {
      var j :| 0 <= j < |s'.rcvs| && s'.rcvs[j] == r;
      assert s.rcvs[j] in s.rcvs && RowByVerdict(s.rcvs[j], s'.rcvs[j], day, v, picked);
    }
  }

  // The day ends exactly when nothing is wrong with any due receivable: then after as many batches as
  // there are due receivables, at the latest, and otherwise never.
  lemma DayEndsByRows(s: State, day: nat, limit: nat, v: Verdict, ok: R.Rcv -> bool, ops: seq<Op>)
    requires Sound(s) && DayRun(s, day, limit, v, ops) && ByRows(v, day, ok) && limit >= 1
    ensures !AllDueOk(s, day, ok) ==> Where(After(s, ops).rcvs, IsDue(day)) != []
    ensures AllDueOk(s, day, ok) && |ops| >= Sum(s.rcvs, DueOne(day)) ==> Where(After(s, ops).rcvs, IsDue(day)) == []
  {
    hide Sound, After, ByRows;
    if AllDueOk(s, day, ok) {
      OkShrink(s, day, limit, v, ok, ops);
      DueCount(After(s, ops).rcvs, day);
    } else {
      var r :| r in s.rcvs && IsDue(day)(r) && !ok(r);
      var j :| 0 <= j < |s.rcvs| && s.rcvs[j] == r;
      WrongStays(s, day, limit, v, ok, ops, j);
      WhereMember(After(s, ops).rcvs, IsDue(day), r);
    }
  }

  // ---- the repository's own bank

  // Accounts the file gateway refuses, by whose they are.
  type BadAccount = (S.OrderKind, Id) -> bool

  // The file gateway looks at the orders of the lot: one refused account is enough, and a lot
  // without orders is accepted.
  function FileGateway(day: nat, liens: Id -> seq<S.Lien>, bad: BadAccount): Verdict {
    (m: Id, rows: seq<R.Rcv>) =>
      match S.Build(0, day, m, rows, liens(m))
      case Ok(built) => forall i :: 0 <= i < |built.data.orders| ==> !bad(built.data.orders[i].kind, built.data.orders[i].beneficiary)
      case Err(_) => true
  }

  // It is the verdict on the lot as it is built and sent, whatever its id, while these liens stand.
  lemma GatewaySeesOrders(day: nat, liens: Id -> seq<S.Lien>, bad: BadAccount, m: Id, rows: seq<R.Rcv>, id: Id)
    requires S.Build(id, day, m, rows, liens(m)).Ok?
    ensures FileGateway(day, liens, bad)(m, rows) <==>
            forall o :: o in S.Build(id, day, m, rows, liens(m)).value.data.orders ==> !bad(o.kind, o.beneficiary)
  {
    hide S.ScanAll, S.PayLiens, S.OrdersOf;
    var orders := S.Build(id, day, m, rows, liens(m)).value.data.orders;
    assert S.Build(0, day, m, rows, liens(m)).value.data.orders == orders;
    assert forall i :: 0 <= i < |orders| ==> orders[i] in orders;
  }

  // The first of a merchant's payees, and whether any of them is refused.
  function FirstPayee(m: Id, liens: seq<S.Lien>): (S.OrderKind, Id) {
    if liens == [] then (S.ToMerchant, m) else (S.ToCreditor, liens[0].creditor)
  }

  predicate NoneBad(m: Id, liens: seq<S.Lien>, bad: BadAccount) {
    !bad(S.ToMerchant, m) && forall i :: 0 <= i < |liens| ==> !bad(S.ToCreditor, liens[i].creditor)
  }

  // A receivable is in order when it pays nothing, or its merchant's first payee is not refused.
  function PaysWell(liens: Id -> seq<S.Lien>, bad: BadAccount): R.Rcv -> bool {
    (r: R.Rcv) => S.PayableNet()(r) == 0 || !bad(FirstPayee(r.data.merchant, liens(r.data.merchant)).0, FirstPayee(r.data.merchant, liens(r.data.merchant)).1)
  }

  // What the gateway says of one lot: it depends on the first payee when none of the
  // others is refused, and on nothing else but whether the lot pays at all.
  lemma GatewayByRows(day: nat, liens: Id -> seq<S.Lien>, bad: BadAccount)
    requires forall m :: bad(FirstPayee(m, liens(m)).0, FirstPayee(m, liens(m)).1) || NoneBad(m, liens(m), bad)
    ensures ByRows(FileGateway(day, liens, bad), day, PaysWell(liens, bad))
  {
    hide S.Build, FirstPayee, NoneBad;
    forall m, rows | IsLot(day, m, rows)
      ensures FileGateway(day, liens, bad)(m, rows) <==> forall r :: r in rows ==> PaysWell(liens, bad)(r)
    {
      LotOrders(day, m, rows, liens(m), bad);
      PaysSomething(rows);
      if r :| r in rows && S.PayableNet()(r) != 0 {
        assert r.data.merchant == m;
      }
    }
  }

  lemma {:induction false} PaysSomething(rows: seq<R.Rcv>)
    requires forall r :: r in rows ==> r.data.net >= 0
    ensures Sum(rows, S.PayableNet()) >= 0
    ensures Sum(rows, S.PayableNet()) == 0 <==> forall r :: r in rows ==> S.PayableNet()(r) == 0
  {
    if rows != [] {
      var n := |rows| - 1;
      PaysSomething(rows[..n]);
      assert rows == rows[..n] + [rows[n]];
    }
  }

  lemma LotOrders(day: nat, m: Id, rows: seq<R.Rcv>, liens: seq<S.Lien>, bad: BadAccount)
    requires IsLot(day, m, rows)
    requires bad(FirstPayee(m, liens).0, FirstPayee(m, liens).1) || NoneBad(m, liens, bad)
    ensures S.Build(0, day, m, rows, liens).Ok?
    ensures var orders := S.Build(0, day, m, rows, liens).value.data.orders;
            (exists i :: 0 <= i < |orders| && bad(orders[i].kind, orders[i].beneficiary)) <==>
            Sum(rows, S.PayableNet()) != 0 && bad(FirstPayee(m, liens).0, FirstPayee(m, liens).1)
  {
    forall i | 0 <= i < |rows|
      ensures S.CanSettle(rows[i], day, m)
    {
      assert rows[i] in rows;
    }
    S.BuildConserves(0, day, m, rows, liens);
    PaysSomething(rows);
    S.ScanAllSums(day, m, rows);
    var payable := Sum(rows, S.PayableNet());
    var orders := S.Build(0, day, m, rows, liens).value.data.orders;
    S.Payees(m, payable, liens);
    assert orders == S.OrdersOf(m, S.PayLiens(payable, liens));
    hide S.Build, S.ScanAll, S.PayLiens, Sum, S.OrdersOf;
    if payable != 0 && bad(FirstPayee(m, liens).0, FirstPayee(m, liens).1) {
      assert bad(orders[0].kind, orders[0].beneficiary);
    }
  }
}
