/** What the bank has taken over a whole run, against the tables: the tables roll back, the bank does not. */
module BankLog {
  import opened Results
  import opened Tables
  import R = Receivables
  import S = Settlements
  import L = Ledger
  import opened Acquirer
  import opened Agendas
  import opened Payouts
  import opened Safety
  import opened Theorems
  import opened DueRows
  import opened Batches

  // What the bank takes in one step, whether the step commits or not.
  ghost function TakenAt(s: State, op: Op): seq<S.Stl> {
    if op.SettleBatch? && Enabled(s, op) then BankTakes(s, op.day, op.picked, op.lots) else []
  }

  // Everything the bank has taken in a run.
  ghost function Bank(ops: seq<Op>): seq<S.Stl> {
    if ops == [] then [] else Bank(ops[..|ops|-1]) + TakenAt(Exec(ops[..|ops|-1]), ops[|ops|-1])
  }

  // What the report counts in one step, and in a run.
  ghost function CountedAt(s: State, op: Op): seq<S.Stl> {
    if op.SettleBatch? && Enabled(s, op) then ReportCounts(s, op.day, op.picked, op.lots) else []
  }

  ghost function Counts(ops: seq<Op>): seq<S.Stl> {
    if ops == [] then [] else Counts(ops[..|ops|-1]) + CountedAt(Exec(ops[..|ops|-1]), ops[|ops|-1])
  }

  // ---- the books: the confirmed settlements of the tables

  function IsConfirmed(): S.Stl -> bool { (x: S.Stl) => Confirmed(x) }

  function Books(stls: seq<S.Stl>): seq<S.Stl> {
    Where(stls, IsConfirmed())
  }

  function Confirmations(sent: seq<S.Stl>): seq<S.Stl> {
    if sent == [] then [] else Confirmations(sent[..|sent|-1]) + [S.Confirmation(sent[|sent|-1])]
  }

  lemma {:induction false} ConfirmationsOf(a: seq<S.Stl>, b: seq<S.Stl>)
    ensures Confirmations(a + b) == Confirmations(a) + Confirmations(b)
    ensures |Confirmations(b)| == |b|
  {
    if b == [] {
      assert a + b == a;
    } else {
      var n := |b| - 1;
      assert (a + b)[..|a + b|-1] == a + b[..n];
      ConfirmationsOf(a, b[..n]);
    }
  }

  lemma BooksGrow(stls: seq<S.Stl>, x: S.Stl)
    ensures Books(stls + [x]) == Books(stls) + if Confirmed(x) then [x] else []
  {
    assert (stls + [x])[..|stls|] == stls;
  }

  // The bank has paid the lot and reports that it has not.
  predicate Silent(lot: Lot) {
    lot.delivered && !lot.accepted
  }

  // A lot that goes through enters the books exactly as the bank took it, unless the bank was silent about it.
  lemma LotBooks(s: State, day: nat, rows: seq<R.Rcv>, lot: Lot)
    requires Sound(s) && LotRows(s, day, rows, lot.merchant) && SettleLot(s, day, rows, lot).Ok?
    ensures Books(SettleLot(s, day, rows, lot).value.stls) ==
            Books(s.stls) + if Silent(lot) then [] else Confirmations(SentLot(s, day, rows, lot))
    ensures Silent(lot) ==> |SentLot(s, day, rows, lot)| == 1
  {
    hide Sound, LotRows, Where;
    LotOkOnly(s, day, rows, lot);
    if lot.accepted {
      var x, news, e := AcceptedShape(s, day, rows, lot);
      hide SettleLot, S.Build;
      BooksGrow(s.stls, x);
      OneConfirmation(S.Build(lot.stlId, day, lot.merchant, rows, lot.liens.value).value);
    } else {
      var x, e := RejectedShape(s, day, rows, lot);
      LotIsBuilt(s, day, rows, lot);
      hide SettleLot, S.Build;
      BooksGrow(s.stls, x);
      NoConfirmation();
      assert Books(s.stls) + [] == Books(s.stls);
    }
  }

  lemma LotIsBuilt(s: State, day: nat, rows: seq<R.Rcv>, lot: Lot)
    requires SettleLot(s, day, rows, lot).Ok?
    ensures lot.liens.Some? && S.Build(lot.stlId, day, lot.merchant, rows, lot.liens.value).Ok?
  {
    hide StoreAccepted, StoreRejected, S.Build;
  }

  lemma NoConfirmation()
    ensures Confirmations([]) == []
  {
  }

  lemma OneConfirmation(x: S.Stl)
    ensures Confirmations([x]) == [S.Confirmation(x)] && Confirmations([]) == []
  {
    assert [x][..0] == [];
  }

  // Lots that go through: the books grow by what the bank took, but for the lots it was silent about.
  lemma {:induction false} PrefixBooks(s: State, day: nat, limit: nat, picked: seq<R.Rcv>, lots: seq<Lot>, n: nat)
    requires Sound(s) && IsPick(s.rcvs, day, limit, picked) && IsVisit(picked, lots) && n <= |lots|
    requires SettleLots(s, day, picked, lots[..n]).Ok?
    ensures var books, sent := Books(SettleLots(s, day, picked, lots[..n]).value.stls), BankTakes(s, day, picked, lots[..n]);
            && |Books(s.stls)| <= |books| <= |Books(s.stls)| + |sent|
            && ((forall k :: 0 <= k < n ==> !Silent(lots[k])) ==> books == Books(s.stls) + Confirmations(sent))
            && ((exists k :: 0 <= k < n && Silent(lots[k])) ==> |books| < |Books(s.stls)| + |sent|)
  {
    hide Sound, SettleLot, LotRows, IsPick, IsVisit, Books, SentLot, Confirmations, Where, Silent;
    NoConfirmation();
    if n == 0 {
      assert Books(s.stls) + [] == Books(s.stls);
    } else {
      assert lots[..n][..n-1] == lots[..n-1];
      PrefixBooks(s, day, limit, picked, lots, n - 1);
      NextLot(s, day, limit, picked, lots, n - 1);
      var before := SettleLots(s, day, picked, lots[..n-1]).value;
      var rows := Where(picked, OfMerchant(lots[n-1].merchant));
      LotBooks(before, day, rows, lots[n-1]);
      ConfirmationsOf(BankTakes(s, day, picked, lots[..n-1]), SentLot(before, day, rows, lots[n-1]));
    }
  }

  // After a batch the books grow by what the bank took exactly when the bank took nothing, or
  // the batch committed and the bank was silent about no lot.
  lemma BatchMatchesExactly(s: State, op: Op)
    requires Sound(s) && op.SettleBatch? && Enabled(s, op)
    ensures Books(Apply(s, op).stls) == Books(s.stls) + Confirmations(TakenAt(s, op)) <==> !Differs(s, op)
    ensures |Books(Apply(s, op).stls)| <= |Books(s.stls)| + |TakenAt(s, op)|
  {
    hide Sound, SettleLots, IsPick, IsVisit, Books, Silent;
    var sent := TakenAt(s, op);
    ConfirmationsOf([], sent);
    ConfirmationsOf(sent, []);
    if Step(s, op).Ok? {
      assert op.lots[..|op.lots|] == op.lots;
      PrefixBooks(s, op.day, op.limit, op.picked, op.lots, |op.lots|);
    } else {
      assert sent == [] ==> Books(s.stls) + Confirmations(sent) == Books(s.stls);
    }
  }

  // The bank takes something in this batch that the books will not show: the batch fails, or
  // the bank is silent about a lot.
  ghost predicate Differs(s: State, op: Op) {
    op.SettleBatch? && Enabled(s, op) && TakenAt(s, op) != []
    && (Step(s, op).Err? || exists k :: 0 <= k < |op.lots| && Silent(op.lots[k]))
  }

  // Whether a batch commits and whether the bank takes anything of it, by the answers, the
  // generated ids, and the statements and the COMMIT that work.
  lemma BatchMatchesByAnswers(s: State, op: Op)
    requires Sound(s) && op.SettleBatch? && Enabled(s, op)
    ensures Step(s, op).Ok? <==> op.commits && forall k :: 0 <= k < |op.lots| ==> Passes(s, op.lots, k)
    ensures TakenAt(s, op) == [] <==> forall k :: 0 <= k < |op.lots| ==> !Takes(s, op.lots, k)
  {
    hide Sound, SettleLots, IsPick, IsVisit, Passes, Takes;
    BatchCommitsExactly(s, op.day, op.limit, op.picked, op.lots);
    NothingTaken(s, op.day, op.limit, op.picked, op.lots, |op.lots|);
    assert op.lots[..|op.lots|] == op.lots;
  }

  lemma {:induction false} NothingTaken(s: State, day: nat, limit: nat, picked: seq<R.Rcv>, lots: seq<Lot>, n: nat)
    requires Sound(s) && IsPick(s.rcvs, day, limit, picked) && IsVisit(picked, lots) && n <= |lots|
    ensures BankTakes(s, day, picked, lots[..n]) == [] <==> forall k :: 0 <= k < n ==> !Takes(s, lots, k)
  {
    hide Sound, SettleLots, IsPick, IsVisit, Takes;
    if n > 0 {
      NothingTaken(s, day, limit, picked, lots, n - 1);
      NextTaken(s, day, limit, picked, lots, n - 1);
    }
  }

  // ---- over a whole run

  // Step i is a batch in which the bank takes something that the books will not show.
  ghost predicate Overpays(ops: seq<Op>, i: nat)
    requires i < |ops|
  {
    Differs(Exec(ops[..i]), ops[i])
  }

  lemma OtherStepsKeepStls(s: State, op: Op)
    requires !op.SettleBatch?
    ensures Apply(s, op).stls == s.stls
  {
    hide Agenda, L.ForScheduled, InsertAll, UpdateAll, CloseAll, L.Append;
  }

  // The books and the bank differ by what the overpaying batches took.
  lemma {:induction false} BankAgainstBooks(ops: seq<Op>)
    ensures |Books(Exec(ops).stls)| <= |Bank(ops)|
    ensures (forall i :: 0 <= i < |ops| ==> !Overpays(ops, i)) ==> Books(Exec(ops).stls) == Confirmations(Bank(ops))
    ensures (exists i :: 0 <= i < |ops| && Overpays(ops, i)) ==> |Books(Exec(ops).stls)| < |Bank(ops)|
  {
    hide Inv, Sound, Apply, Step, TakenAt, Books, Overpays, Differs;
    if ops == [] {
      NoBooks();
    } else {
      var before, op := ops[..|ops|-1], ops[|ops|-1];
      BankAgainstBooks(before);
      RunSafe(before);
      InvSound(Exec(before));
      StepAgainstBooks(Exec(before), op);
      ConfirmationsOf(Bank(before), TakenAt(Exec(before), op));
      OverpaysLast(ops);
    }
  }

  lemma NoBooks()
    ensures Books(Exec([]).stls) == [] == Bank([])
  {
  }

  lemma StepAgainstBooks(s: State, op: Op)
    requires Sound(s)
    ensures Books(Apply(s, op).stls) == Books(s.stls) + Confirmations(TakenAt(s, op)) <==> !Differs(s, op)
    ensures Differs(s, op) ==> |Books(Apply(s, op).stls)| < |Books(s.stls)| + |TakenAt(s, op)|
    ensures |Confirmations(TakenAt(s, op))| == |TakenAt(s, op)|
  {
    hide Sound, SettleLots, Books, Silent, IsPick, IsVisit;
    ConfirmationsOf([], TakenAt(s, op));
    if op.SettleBatch? && Enabled(s, op) {
      BatchMatchesExactly(s, op);
      if Differs(s, op) {
        DiffersIsLess(s, op);
      }
    } else {
      if !op.SettleBatch? {
        OtherStepsKeepStls(s, op);
      }
      assert Books(s.stls) + [] == Books(s.stls);
    }
  }

  lemma DiffersIsLess(s: State, op: Op)
    requires Sound(s) && Differs(s, op)
    ensures |Books(Apply(s, op).stls)| < |Books(s.stls)| + |TakenAt(s, op)|
  {
    hide Sound, SettleLots, Books, Silent, IsPick, IsVisit;
    if Step(s, op).Ok? {
      assert op.lots[..|op.lots|] == op.lots;
      PrefixBooks(s, op.day, op.limit, op.picked, op.lots, |op.lots|);
    }
  }

  lemma OverpaysLast(ops: seq<Op>)
    requires ops != []
    ensures var before, op := ops[..|ops|-1], ops[|ops|-1];
            && (forall i :: 0 <= i < |before| ==> (Overpays(ops, i) <==> Overpays(before, i)))
            && (Overpays(ops, |before|) <==> Differs(Exec(before), op))
  {
    hide Exec, Differs;
    var before := ops[..|ops|-1];
    assert forall i :: 0 <= i < |before| ==> before[..i] == ops[..i];
  }

  // In a run, what the bank has taken is what the books say exactly when no batch failed after the bank
  // took something, and the bank was silent about nothing it took.
  lemma BankMatchesBooksExactly(ops: seq<Op>)
    ensures Books(Exec(ops).stls) == Confirmations(Bank(ops)) <==> forall i :: 0 <= i < |ops| ==> !Overpays(ops, i)
  {
    hide Exec, Bank, Books, Overpays;
    BankAgainstBooks(ops);
    ConfirmationsOf([], Bank(ops));
  }

  // ---- paid twice

  ghost predicate PaidBy(sent: seq<S.Stl>, id: Id) {
    exists m :: 0 <= m < |sent| && PaysFor(sent[m], id)
  }

  ghost predicate PaidTwice(sent: seq<S.Stl>, id: Id) {
    exists m, n :: 0 <= m < n < |sent| && PaysFor(sent[m], id) && PaysFor(sent[n], id)
  }

  // By the answers: the bank takes the lot of this receivable's merchant.
  ghost predicate PaysIn(s: State, op: Op, id: Id) {
    op.SettleBatch? && Enabled(s, op) && exists k :: 0 <= k < |op.lots| && Takes(s, op.lots, k) && InLot(op.picked, op.lots[k].merchant, id)
  }

  // Some merchant is unknown, the registry fails, an id is not new, a statement fails or the
  // process dies, or the COMMIT fails.
  ghost predicate FailsIn(s: State, op: Op) {
    op.SettleBatch? && Enabled(s, op) && (!op.commits || exists k :: 0 <= k < |op.lots| && !Passes(s, op.lots, k))
  }

  // The bank pays for the receivable in this batch and the tables do not keep it: the batch
  // fails, or the bank reports that it has not paid.
  ghost predicate LosesIn(s: State, op: Op, id: Id) {
    op.SettleBatch? && Enabled(s, op)
    && exists k :: 0 <= k < |op.lots| && Takes(s, op.lots, k) && InLot(op.picked, op.lots[k].merchant, id) && (FailsIn(s, op) || !op.lots[k].accepted)
  }

  ghost predicate PaysAt(ops: seq<Op>, i: nat, id: Id)
    requires i < |ops|
  {
    PaysIn(Exec(ops[..i]), ops[i], id)
  }

  ghost predicate LosesAt(ops: seq<Op>, i: nat, id: Id)
    requires i < |ops|
  {
    LosesIn(Exec(ops[..i]), ops[i], id)
  }

  lemma TakenPays(s: State, op: Op, id: Id)
    requires Sound(s)
    ensures PaidBy(TakenAt(s, op), id) <==> PaysIn(s, op, id)
    ensures !PaidTwice(TakenAt(s, op), id)
    ensures FailsIn(s, op) <==> op.SettleBatch? && Enabled(s, op) && Step(s, op).Err?
  {
    hide Sound, SettleLots, IsPick, IsVisit, Takes, Passes, InLot, PaysFor, BankTakes;
    if op.SettleBatch? && Enabled(s, op) {
      assert op.lots[..|op.lots|] == op.lots;
      PaidExactly(s, op.day, op.limit, op.picked, op.lots, |op.lots|, id);
      PaidOncePerBatch(s, op.day, op.limit, op.picked, op.lots, |op.lots|, id);
      BatchCommitsExactly(s, op.day, op.limit, op.picked, op.lots);
    }
  }

  lemma PaidByBoth(a: seq<S.Stl>, b: seq<S.Stl>, id: Id)
    ensures PaidBy(a + b, id) <==> PaidBy(a, id) || PaidBy(b, id)
    ensures PaidTwice(a + b, id) <==> PaidTwice(a, id) || PaidTwice(b, id) || (PaidBy(a, id) && PaidBy(b, id))
  {
    hide PaysFor;
    var c := a + b;
    assert forall m :: 0 <= m < |a| ==> c[m] == a[m];
    assert forall m :: 0 <= m < |b| ==> c[|a| + m] == b[m];
    if PaidBy(b, id) {
      var n :| 0 <= n < |b| && PaysFor(b[n], id);
      assert PaysFor(c[|a| + n], id);
      if PaidBy(a, id) {
        var m :| 0 <= m < |a| && PaysFor(a[m], id);
        assert PaysFor(c[m], id);
      }
    }
    if PaidTwice(b, id) {
      var m, n :| 0 <= m < n < |b| && PaysFor(b[m], id) && PaysFor(b[n], id);
      assert PaysFor(c[|a| + m], id) && PaysFor(c[|a| + n], id);
    }
    if PaidTwice(a, id) {
      var m, n :| 0 <= m < n < |a| && PaysFor(a[m], id) && PaysFor(a[n], id);
      assert PaysFor(c[m], id) && PaysFor(c[n], id);
    }
    if PaidBy(a, id) {
      var m :| 0 <= m < |a| && PaysFor(a[m], id);
      assert PaysFor(c[m], id);
    }
    if PaidTwice(c, id) {
      PaidTwiceSplit(a, b, id);
    }
    if m :| 0 <= m < |c| && PaysFor(c[m], id) {
      if m >= |a| {
        assert PaysFor(b[m - |a|], id);
      }
    }
  }

  lemma PaidTwiceSplit(a: seq<S.Stl>, b: seq<S.Stl>, id: Id)
    requires PaidTwice(a + b, id)
    ensures PaidTwice(a, id) || PaidTwice(b, id) || (PaidBy(a, id) && PaidBy(b, id))
  {
    hide PaysFor;
    var c := a + b;
    var m, n :| 0 <= m < n < |c| && PaysFor(c[m], id) && PaysFor(c[n], id);
    assert m < |a| ==> PaysFor(a[m], id);
    assert m >= |a| ==> PaysFor(b[m - |a|], id);
    assert n < |a| ==> PaysFor(a[n], id);
    assert n >= |a| ==> PaysFor(b[n - |a|], id);
  }

  // The bank has paid for a receivable exactly when some step's answers say so.
  lemma {:induction false} BankPaysExactly(ops: seq<Op>, id: Id)
    ensures PaidBy(Bank(ops), id) <==> exists i :: 0 <= i < |ops| && PaysAt(ops, i, id)
  {
    hide Inv, Sound, Exec, PaysIn, LosesIn, PaidBy, PaidTwice, TakenAt;
    if ops == [] {
      NobodyPaid(id);
    } else {
      var before := ops[..|ops|-1];
      BankPaysExactly(before, id);
      RunSafe(before);
      InvSound(Exec(before));
      TakenPays(Exec(before), ops[|ops|-1], id);
      PaidByBoth(Bank(before), TakenAt(Exec(before), ops[|ops|-1]), id);
      PaysLast(ops, id);
    }
  }

  lemma NobodyPaid(id: Id)
    ensures !PaidBy([], id) && !PaidTwice([], id)
  {
  }

  lemma PaysLast(ops: seq<Op>, id: Id)
    requires ops != []
    ensures var before := ops[..|ops|-1];
            && (forall i :: 0 <= i < |before| ==> (PaysAt(ops, i, id) <==> PaysAt(before, i, id)) && (LosesAt(ops, i, id) <==> LosesAt(before, i, id)))
            && (PaysAt(ops, |before|, id) <==> PaysIn(Exec(before), ops[|before|], id))
            && (LosesAt(ops, |before|, id) <==> LosesIn(Exec(before), ops[|before|], id))
  {
    hide Exec, PaysIn, LosesIn;
    var before := ops[..|ops|-1];
    assert forall i :: 0 <= i < |before| ==> before[..i] == ops[..i];
  }

  // ---- what was settled is never due again

  ghost predicate NoLongerDue(s: State, id: Id) {
    HasId(s.rcvs, id) && forall r :: r in s.rcvs && r.id == id ==> !r.data.status.Scheduled? && !r.data.status.Anticipated?
  }

  lemma CommitSettles(s: State, op: Op, id: Id)
    requires Sound(s) && PaysIn(s, op, id) && !LosesIn(s, op, id) && Step(s, op).Ok?
    ensures NoLongerDue(Apply(s, op), id)
  {
    hide Sound, SettleLots, Takes, OnlyMoved, SettledOrSame, FailsIn;
    var s' := Apply(s, op);
    var k :| 0 <= k < |op.lots| && Takes(s, op.lots, k) && InLot(op.picked, op.lots[k].merchant, id);
    assert op.lots[k].accepted;
    var i :| 0 <= i < |op.picked| && op.picked[i].id == id && op.picked[i].data.merchant == op.lots[k].merchant;
    assert op.picked[i] in op.picked;
    var j :| 0 <= j < |s.rcvs| && s.rcvs[j] == op.picked[i];
    BatchRows(s, op.day, op.limit, op.picked, op.lots);
    assert Accepts(op.lots, |op.lots|, op.lots[k].merchant);
    assert RowAfter(s.rcvs[j], s'.rcvs[j], op.day, op.picked, op.lots, |op.lots|);
    RowIsSettled(s.rcvs[j], s'.rcvs[j], op.day, op.picked, op.lots);
    StepSafe(s, op);
    KeptKeys(s, s');
    OneRow(s'.rcvs, j, id);
  }

  lemma RowIsSettled(r: R.Rcv, r': R.Rcv, day: nat, picked: seq<R.Rcv>, lots: seq<Lot>)
    requires r in picked && Accepts(lots, |lots|, r.data.merchant) && RowAfter(r, r', day, picked, lots, |lots|)
    ensures r'.data.status.Settled? && r'.id == r.id
  {
  }

  lemma KeptKeys(s: State, s': State)
    requires Kept(s, s')
    ensures DistinctIds(s'.rcvs) && Sound(s')
  {
  }

  lemma OneRow(rcvs: seq<R.Rcv>, j: nat, id: Id)
    requires DistinctIds(rcvs) && j < |rcvs| && rcvs[j].id == id
    ensures HasId(rcvs, id) && forall r :: r in rcvs && r.id == id ==> r == rcvs[j]
  {
  }

  lemma NoLongerDueStays(s: State, op: Op, id: Id)
    requires Sound(s) && NoLongerDue(s, id)
    ensures NoLongerDue(Apply(s, op), id)
  {
    hide Sound, Apply, Step, Posts;
    var s' := Apply(s, op);
    StepSafe(s, op);
    KeptKeys(s, s');
    StepRows(s, op);
    var j :| 0 <= j < |s.rcvs| && s.rcvs[j].id == id;
    assert s.rcvs[j] in s.rcvs;
    if OnlyMoved(s.rcvs, s'.rcvs) {
      SameTransaction(s.rcvs, s'.rcvs, j);
    } else {
      PostsAppends(s, op, s');
      assert s'.rcvs[j] == s.rcvs[j];
    }
    OneRow(s'.rcvs, j, id);
  }

  lemma PostsAppends(s: State, op: Op, s': State)
    requires Posts(s, op, s')
    ensures s.rcvs <= s'.rcvs
  {
    hide Agenda;
  }

  lemma NotPickedAgain(s: State, op: Op, id: Id)
    requires NoLongerDue(s, id)
    ensures !PaysIn(s, op, id)
  {
    hide Takes, NoLongerDue, IsPick, IsVisit;
    if op.SettleBatch? && Enabled(s, op) {
      forall merchant
        ensures !InLot(op.picked, merchant, id)
      {
        NotInPick(s, op.day, op.limit, op.picked, id, merchant);
      }
    }
  }

  lemma NotInPick(s: State, day: nat, limit: nat, picked: seq<R.Rcv>, id: Id, merchant: Id)
    requires NoLongerDue(s, id) && IsPick(s.rcvs, day, limit, picked)
    ensures !InLot(picked, merchant, id)
  {
    assert forall i :: 0 <= i < |picked| ==> picked[i] in picked;
  }

  // What a batch has paid and the tables have kept is not paid again.
  lemma {:induction false} KeptIsPaidOnce(ops: seq<Op>, i: nat, id: Id)
    requires i < |ops| && PaysAt(ops, i, id) && !LosesAt(ops, i, id)
    ensures NoLongerDue(Exec(ops), id)
    decreases |ops|
  {
    hide Inv, Sound, Exec, Apply, Step, PaysIn, LosesIn, FailsIn, NoLongerDue, Enabled;
    var before, op := ops[..|ops|-1], ops[|ops|-1];
    ExecLast(ops);
    RunSafe(before);
    InvSound(Exec(before));
    if i == |before| {
      TakenPays(Exec(before), op, id);
      NotLostIsOk(Exec(before), op, id);
      CommitSettles(Exec(before), op, id);
    } else {
      PaysLast(ops, id);
      KeptIsPaidOnce(before, i, id);
      NoLongerDueStays(Exec(before), op, id);
    }
  }

  lemma NotLostIsOk(s: State, op: Op, id: Id)
    requires PaysIn(s, op, id) && !LosesIn(s, op, id)
    ensures op.SettleBatch? && Enabled(s, op) && !FailsIn(s, op)
  {
    hide Takes, InLot, IsPick, IsVisit, FailsIn;
  }

  lemma LosesPays(s: State, op: Op, id: Id)
    requires LosesIn(s, op, id)
    ensures PaysIn(s, op, id)
  {
    hide Takes, InLot, IsPick, IsVisit, FailsIn;
  }

  // Over a whole run the bank pays twice for a receivable exactly when a batch had it paid
  // without the tables keeping it, and a later batch pays for it again.
  lemma {:induction false} PaidTwiceExactly(ops: seq<Op>, id: Id)
    ensures PaidTwice(Bank(ops), id) <==> exists i, j :: 0 <= i < j < |ops| && LosesAt(ops, i, id) && PaysAt(ops, j, id)
  {
    hide Inv, Sound, Exec, PaysIn, LosesIn, PaidBy, PaidTwice, TakenAt, NoLongerDue;
    if ops == [] {
      NobodyPaid(id);
    } else {
      var before, op := ops[..|ops|-1], ops[|ops|-1];
      var n := |before|;
      PaidTwiceExactly(before, id);
      RunSafe(before);
      InvSound(Exec(before));
      TakenPays(Exec(before), op, id);
      PaidByBoth(Bank(before), TakenAt(Exec(before), op), id);
      PaysLast(ops, id);
      BankPaysExactly(before, id);
      LostWerePaid(before, id);
      if PaysAt(ops, n, id) {
        forall i | 0 <= i < n && PaysAt(before, i, id)
          ensures LosesAt(before, i, id)
        {
          if !LosesAt(before, i, id) {
            KeptIsPaidOnce(before, i, id);
            NotPickedAgain(Exec(before), op, id);
          }
        }
      }
    }
  }

  lemma LostWerePaid(ops: seq<Op>, id: Id)
    ensures forall i :: 0 <= i < |ops| && LosesAt(ops, i, id) ==> PaysAt(ops, i, id)
  {
    hide Exec, PaysIn, LosesIn;
    forall i | 0 <= i < |ops| && LosesAt(ops, i, id)
      ensures PaysAt(ops, i, id)
    {
      LosesPays(Exec(ops[..i]), ops[i], id);
    }
  }

  // ---- the report against the bank

  // In step i the bank takes a lot that the report does not count: the bank reports that it has
  // not paid, or a statement fails before the report's counters.
  ghost predicate Miscounts(ops: seq<Op>, i: nat)
    requires i < |ops|
  {
    MiscountsIn(Exec(ops[..i]), ops[i])
  }

  ghost predicate MiscountsIn(s: State, op: Op) {
    op.SettleBatch? && Enabled(s, op) && exists k :: 0 <= k < |op.lots| && Uncounted(s, op.lots, k)
  }

  lemma StepCounts(s: State, op: Op)
    requires Sound(s)
    ensures |CountedAt(s, op)| <= |TakenAt(s, op)|
    ensures if MiscountsIn(s, op) then |CountedAt(s, op)| < |TakenAt(s, op)| else CountedAt(s, op) == TakenAt(s, op)
  {
    hide Sound, IsPick, IsVisit, Uncounted, BankTakes, ReportCounts;
    if op.SettleBatch? && Enabled(s, op) {
      assert op.lots[..|op.lots|] == op.lots;
      CountedExactly(s, op.day, op.limit, op.picked, op.lots, |op.lots|);
    }
  }

  // Over a whole run the reports count exactly what the bank takes if and only if no lot is taken without being counted.
  lemma {:induction false} ReportsMatchExactly(ops: seq<Op>)
    ensures |Counts(ops)| <= |Bank(ops)|
    ensures Counts(ops) == Bank(ops) <==> forall i :: 0 <= i < |ops| ==> !Miscounts(ops, i)
    ensures |Counts(ops)| == |Bank(ops)| ==> Counts(ops) == Bank(ops)
  {
    hide Inv, Sound, Exec, CountedAt, TakenAt, MiscountsIn;
    if ops != [] {
      var before := ops[..|ops|-1];
      ReportsMatchExactly(before);
      RunSafe(before);
      InvSound(Exec(before));
      StepCounts(Exec(before), ops[|ops|-1]);
      assert forall i :: 0 <= i < |before| ==> before[..i] == ops[..i];
      assert forall i :: 0 <= i < |before| ==> (Miscounts(ops, i) <==> Miscounts(before, i));
      assert Miscounts(ops, |before|) <==> MiscountsIn(Exec(before), ops[|before|]);
    }
  }
}
