/** A batch, lot by lot: what it settles, when it goes through, and what the bank takes on the way. */
module Batches {
  import opened Results
  import opened Tables
  import R = Receivables
  import S = Settlements
  import opened Acquirer
  import opened Payouts
  import opened Safety
  import opened DueRows

  // ---- how far a batch has got

  // The lots so far, one per merchant; rows of merchants not yet visited are as they were read.
  ghost predicate Midway(s0: State, s: State, day: nat, picked: seq<R.Rcv>, lots: seq<Lot>) {
    && Sound(s) && SettleLots(s0, day, picked, lots) == Ok(s)
    && DistinctIds(picked) && (forall r :: r in picked ==> IsDue(day)(r))
    && (forall i, j :: 0 <= i < j < |lots| ==> lots[i].merchant != lots[j].merchant)
    && (forall r :: r in picked && r.data.merchant !in Visited(lots) ==> r in s.rcvs)
  }

  lemma MidwayLot(s0: State, s: State, day: nat, picked: seq<R.Rcv>, lots: seq<Lot>, m: Id)
    requires Midway(s0, s, day, picked, lots) && m in Merchants(picked) - Visited(lots)
    ensures LotRows(s, day, Where(picked, OfMerchant(m)), m)
  {
    hide Sound, SettleLots;
    var lot := Lot(m, true, None, true, false, true, true, 0, 0);
    var more := lots + [lot];
    assert more[..|lots|] == lots && more[|lots|].merchant == m;
    forall i, j | 0 <= i < j < |more|
      ensures more[i].merchant != more[j].merchant
    {
      assert j == |lots| ==> lots[i].merchant != m;
    }
    LotOfBatch(s, day, picked, more, |lots|);
  }

  lemma MidwayNext(s0: State, s: State, day: nat, picked: seq<R.Rcv>, lots: seq<Lot>, lot: Lot)
    requires Midway(s0, s, day, picked, lots) && lot.merchant !in Visited(lots)
    requires LotRows(s, day, Where(picked, OfMerchant(lot.merchant)), lot.merchant)
    requires SettleLot(s, day, Where(picked, OfMerchant(lot.merchant)), lot).Ok?
    ensures Midway(s0, SettleLot(s, day, Where(picked, OfMerchant(lot.merchant)), lot).value, day, picked, lots + [lot])
    ensures Visited(lots + [lot]) == Visited(lots) + {lot.merchant}
  {
    hide Sound, SettleLot;
    var rows := Where(picked, OfMerchant(lot.merchant));
    var more := lots + [lot];
    var s' := SettleLot(s, day, rows, lot).value;
    LotSafe(s, day, rows, lot);
    assert more[..|more|-1] == lots;
    assert more[|lots|] == lot;
    assert forall i :: 0 <= i < |lots| ==> more[i] == lots[i];
    forall m
      ensures m in Visited(more) <==> m in Visited(lots) || m == lot.merchant
    {
      if m in Visited(lots) {
        var i :| 0 <= i < |lots| && lots[i].merchant == m;
        assert more[i].merchant == m;
      }
    }
    forall r | r in picked && r.data.merchant !in Visited(more)
      ensures r in s'.rcvs
    {
      var j :| 0 <= j < |s.rcvs| && s.rcvs[j] == r;
      assert s'.rcvs[j] == r;
    }
  }

  // The query's rows and the visits of a batch that goes through its first n lots.
  lemma {:induction false} PrefixMidway(s: State, day: nat, limit: nat, picked: seq<R.Rcv>, lots: seq<Lot>, n: nat)
    requires Sound(s) && IsPick(s.rcvs, day, limit, picked) && IsVisit(picked, lots) && n <= |lots|
    requires SettleLots(s, day, picked, lots[..n]).Ok?
    ensures Midway(s, SettleLots(s, day, picked, lots[..n]).value, day, picked, lots[..n])
  {
    hide Sound, SettleLot;
    if n > 0 {
      assert lots[..n][..n-1] == lots[..n-1] && lots[..n][n-1] == lots[n-1] && lots[..n] == lots[..n-1] + [lots[n-1]];
      PrefixMidway(s, day, limit, picked, lots, n - 1);
      var before := SettleLots(s, day, picked, lots[..n-1]).value;
      NotYetVisited(picked, lots, n - 1);
      MidwayLot(s, before, day, picked, lots[..n-1], lots[n-1].merchant);
      MidwayNext(s, before, day, picked, lots[..n-1], lots[n-1]);
    }
  }

  lemma NotYetVisited(picked: seq<R.Rcv>, lots: seq<Lot>, n: nat)
    requires IsVisit(picked, lots) && n < |lots|
    ensures lots[n].merchant in Merchants(picked) - Visited(lots[..n])
  {
    assert lots[n].merchant in Visited(lots);
    assert forall i :: 0 <= i < n ==> lots[..n][i] == lots[i];
  }

  // The lot that comes next, in the state the earlier ones leave.
  lemma NextLot(s: State, day: nat, limit: nat, picked: seq<R.Rcv>, lots: seq<Lot>, n: nat)
    requires Sound(s) && IsPick(s.rcvs, day, limit, picked) && IsVisit(picked, lots) && n < |lots|
    requires SettleLots(s, day, picked, lots[..n]).Ok?
    ensures var before := SettleLots(s, day, picked, lots[..n]).value;
            Sound(before) && LotRows(before, day, Where(picked, OfMerchant(lots[n].merchant)), lots[n].merchant)
    ensures SettleLots(s, day, picked, lots[..n+1]) ==
            SettleLot(SettleLots(s, day, picked, lots[..n]).value, day, Where(picked, OfMerchant(lots[n].merchant)), lots[n])
  {
    hide Sound, SettleLot;
    PrefixMidway(s, day, limit, picked, lots, n);
    NotYetVisited(picked, lots, n);
    MidwayLot(s, SettleLots(s, day, picked, lots[..n]).value, day, picked, lots[..n], lots[n].merchant);
    assert lots[..n+1][..n] == lots[..n];
  }

  // ---- which lots go through

  // The lot gets as far as the bank.
  predicate Reached(s: State, lot: Lot) {
    lot.known && lot.liens.Some? && !HasId(s.stls, lot.stlId)
  }

  // The ids of the first n lots.
  function StlIds(lots: seq<Lot>, n: nat): set<Id>
    requires n <= |lots|
  {
    set i | 0 <= i < n :: lots[i].stlId
  }

  function EventIds(lots: seq<Lot>, n: nat): set<Id>
    requires n <= |lots|
  {
    set i | 0 <= i < n :: lots[i].eid
  }

  // From the answers, the generated ids and the statements that work: lot k gets as far as the bank ...
  predicate Reaches(s: State, lots: seq<Lot>, k: nat)
    requires k < |lots|
  {
    lots[k].known && lots[k].liens.Some? && !HasId(s.stls, lots[k].stlId) && lots[k].stlId !in StlIds(lots, k)
  }

  // ... and goes through.
  predicate Passes(s: State, lots: seq<Lot>, k: nat)
    requires k < |lots|
  {
    Reaches(s, lots, k) && !HasId(s.outbox, lots[k].eid) && lots[k].eid !in EventIds(lots, k) && lots[k].posts && lots[k].stored
  }

  lemma LotIds(s: State, day: nat, rows: seq<R.Rcv>, lot: Lot, id: Id)
    requires Sound(s) && LotRows(s, day, rows, lot.merchant) && SettleLot(s, day, rows, lot).Ok?
    ensures HasId(SettleLot(s, day, rows, lot).value.stls, id) <==> HasId(s.stls, id) || id == lot.stlId
    ensures HasId(SettleLot(s, day, rows, lot).value.outbox, id) <==> HasId(s.outbox, id) || id == lot.eid
  {
    hide Sound, LotRows;
    LotOkOnly(s, day, rows, lot);
    if lot.accepted {
      var x, news, e := AcceptedShape(s, day, rows, lot);
      hide SettleLot;
      GrowsHasId(s.stls, x);
      GrowsHasId(s.outbox, e);
    } else {
      var x, e := RejectedShape(s, day, rows, lot);
      hide SettleLot;
      GrowsHasId(s.stls, x);
      GrowsHasId(s.outbox, e);
    }
  }

  lemma {:induction false} PrefixIds(s: State, day: nat, limit: nat, picked: seq<R.Rcv>, lots: seq<Lot>, n: nat, id: Id)
    requires Sound(s) && IsPick(s.rcvs, day, limit, picked) && IsVisit(picked, lots) && n <= |lots|
    requires SettleLots(s, day, picked, lots[..n]).Ok?
    ensures HasId(SettleLots(s, day, picked, lots[..n]).value.stls, id) <==> HasId(s.stls, id) || id in StlIds(lots, n)
    ensures HasId(SettleLots(s, day, picked, lots[..n]).value.outbox, id) <==> HasId(s.outbox, id) || id in EventIds(lots, n)
  {
    hide Sound, SettleLot, LotRows, IsPick, IsVisit, StlIds, EventIds, HasId;
    NoIds(lots);
    if n > 0 {
      assert lots[..n][..n-1] == lots[..n-1];
      PrefixIds(s, day, limit, picked, lots, n - 1, id);
      NextLot(s, day, limit, picked, lots, n - 1);
      LotIds(SettleLots(s, day, picked, lots[..n-1]).value, day, Where(picked, OfMerchant(lots[n-1].merchant)), lots[n-1], id);
      IdsNext(lots, n);
    }
  }

  lemma NoIds(lots: seq<Lot>)
    ensures StlIds(lots, 0) == {} == EventIds(lots, 0)
  {
  }

  lemma IdsNext(lots: seq<Lot>, n: nat)
    requires 0 < n <= |lots|
    ensures StlIds(lots, n) == StlIds(lots, n - 1) + {lots[n-1].stlId}
    ensures EventIds(lots, n) == EventIds(lots, n - 1) + {lots[n-1].eid}
  {
  }

  lemma LotPassesExactly(s: State, day: nat, limit: nat, picked: seq<R.Rcv>, lots: seq<Lot>, n: nat)
    requires Sound(s) && IsPick(s.rcvs, day, limit, picked) && IsVisit(picked, lots) && n < |lots|
    requires SettleLots(s, day, picked, lots[..n]).Ok?
    ensures SettleLots(s, day, picked, lots[..n+1]).Ok? <==> Passes(s, lots, n)
    ensures Reached(SettleLots(s, day, picked, lots[..n]).value, lots[n]) <==> Reaches(s, lots, n)
  {
    hide Sound, SettleLot, SettleLots, LotRows, IsPick, IsVisit, StlIds, EventIds;
    NextLot(s, day, limit, picked, lots, n);
    PrefixIds(s, day, limit, picked, lots, n, lots[n].stlId);
    PrefixIds(s, day, limit, picked, lots, n, lots[n].eid);
    LotSucceedsExactly(SettleLots(s, day, picked, lots[..n]).value, day, Where(picked, OfMerchant(lots[n].merchant)), lots[n]);
  }

  // The lots up to n go through exactly when each passes: merchants known, registry answering,
  // ids new, statements working.
  lemma {:induction false} PrefixPassesExactly(s: State, day: nat, limit: nat, picked: seq<R.Rcv>, lots: seq<Lot>, n: nat)
    requires Sound(s) && IsPick(s.rcvs, day, limit, picked) && IsVisit(picked, lots) && n <= |lots|
    ensures SettleLots(s, day, picked, lots[..n]).Ok? <==> forall k :: 0 <= k < n ==> Passes(s, lots, k)
  {
    hide Sound, SettleLot, IsPick, IsVisit, Passes;
    if n > 0 {
      PrefixPassesExactly(s, day, limit, picked, lots, n - 1);
      assert lots[..n][..n-1] == lots[..n-1];
      if SettleLots(s, day, picked, lots[..n-1]).Ok? {
        LotPassesExactly(s, day, limit, picked, lots, n - 1);
      }
    }
  }

  // The lots of a batch all go through exactly when every lot passes.
  lemma BatchCommitsExactly(s: State, day: nat, limit: nat, picked: seq<R.Rcv>, lots: seq<Lot>)
    requires Sound(s) && IsPick(s.rcvs, day, limit, picked) && IsVisit(picked, lots)
    ensures SettleLots(s, day, picked, lots).Ok? <==> forall k :: 0 <= k < |lots| ==> Passes(s, lots, k)
  {
    PrefixPassesExactly(s, day, limit, picked, lots, |lots|);
    assert lots[..|lots|] == lots;
  }

  // ---- what the bank takes

  // The settlement the bank takes for a lot, if it takes one.
  function SentLot(s: State, day: nat, rows: seq<R.Rcv>, lot: Lot): seq<S.Stl> {
    if !Reached(s, lot) || !(lot.accepted || lot.delivered) then []
    else match S.Build(lot.stlId, day, lot.merchant, rows, lot.liens.value)
         case Ok(built) => [built]
         case Err(_) => []
  }

  function LotPaid(): S.Stl -> int { (s: S.Stl) => s.data.toMerchant + s.data.toCreditors }

  // What the bank takes of a batch, in the order of its visits, until one fails. None of it
  // is taken back when the batch is.
  function BankTakes(s: State, day: nat, picked: seq<R.Rcv>, lots: seq<Lot>): seq<S.Stl> {
    if lots == [] then []
    else
      var n := |lots| - 1;
      var before := BankTakes(s, day, picked, lots[..n]);
      match SettleLots(s, day, picked, lots[..n])
      case Err(_) => before
      case Ok(t) => before + SentLot(t, day, Where(picked, OfMerchant(lots[n].merchant)), lots[n])
  }

  // What the report counts of a lot, and of a batch until one lot fails: lots the bank reports
  // as paid, once the statements up to the counters have worked.
  function CountedLot(s: State, day: nat, rows: seq<R.Rcv>, lot: Lot): seq<S.Stl> {
    if lot.accepted && lot.posts then SentLot(s, day, rows, lot) else []
  }

  function ReportCounts(s: State, day: nat, picked: seq<R.Rcv>, lots: seq<Lot>): seq<S.Stl> {
    if lots == [] then []
    else
      var n := |lots| - 1;
      var before := ReportCounts(s, day, picked, lots[..n]);
      match SettleLots(s, day, picked, lots[..n])
      case Err(_) => before
      case Ok(t) => before + CountedLot(t, day, Where(picked, OfMerchant(lots[n].merchant)), lots[n])
  }

  predicate PaysFor(x: S.Stl, id: Id) {
    id in x.data.receivableIds
  }

  ghost predicate InLot(picked: seq<R.Rcv>, merchant: Id, id: Id) {
    exists i :: 0 <= i < |picked| && picked[i].id == id && picked[i].data.merchant == merchant
  }

  // The bank takes lot k: the lot reaches it, it pays it, whatever it reports, and every earlier lot has passed.
  predicate Takes(s: State, lots: seq<Lot>, k: nat)
    requires k < |lots|
  {
    (lots[k].accepted || lots[k].delivered) && Reaches(s, lots, k) && forall i :: 0 <= i < k ==> Passes(s, lots, i)
  }

  // A lot the bank has taken pays for the rows of its merchant, and only for them.
  lemma SentLotPays(s: State, day: nat, picked: seq<R.Rcv>, lot: Lot, id: Id)
    requires Sound(s) && LotRows(s, day, Where(picked, OfMerchant(lot.merchant)), lot.merchant) && (lot.accepted || lot.delivered) && Reached(s, lot)
    ensures var sent := SentLot(s, day, Where(picked, OfMerchant(lot.merchant)), lot);
            |sent| == 1 && (PaysFor(sent[0], id) <==> InLot(picked, lot.merchant, id))
  {
    var rows := Where(picked, OfMerchant(lot.merchant));
    RowsNotNegative(s, day, rows, lot.merchant);
    S.BuildConserves(lot.stlId, day, lot.merchant, rows, lot.liens.value);
    hide Sound, S.Build, LotRows;
    var built := S.Build(lot.stlId, day, lot.merchant, rows, lot.liens.value).value;
    if PaysFor(built, id) {
      var i :| 0 <= i < |rows| && rows[i].id == id;
      WhereMember(picked, OfMerchant(lot.merchant), rows[i]);
      var j :| 0 <= j < |picked| && picked[j] == rows[i];
    }
    if InLot(picked, lot.merchant, id) {
      var j :| 0 <= j < |picked| && picked[j].id == id && picked[j].data.merchant == lot.merchant;
      WhereMember(picked, OfMerchant(lot.merchant), picked[j]);
      var i :| 0 <= i < |rows| && rows[i] == picked[j];
      assert built.data.receivableIds[i] == id;
    }
  }

  ghost predicate AddsLot(before: seq<S.Stl>, after: seq<S.Stl>, picked: seq<R.Rcv>, merchant: Id) {
    && |after| == |before| + 1 && before <= after
    && forall id :: PaysFor(after[|before|], id) <==> InLot(picked, merchant, id)
  }

  lemma SentLotAdds(before: seq<S.Stl>, s: State, day: nat, picked: seq<R.Rcv>, lot: Lot)
    requires Sound(s) && LotRows(s, day, Where(picked, OfMerchant(lot.merchant)), lot.merchant) && (lot.accepted || lot.delivered) && Reached(s, lot)
    ensures AddsLot(before, before + SentLot(s, day, Where(picked, OfMerchant(lot.merchant)), lot), picked, lot.merchant)
  {
    hide Sound, LotRows, InLot, PaysFor, SentLot, Reached;
    var sent := SentLot(s, day, Where(picked, OfMerchant(lot.merchant)), lot);
    SentLotPays(s, day, picked, lot, 0);
    assert (before + sent)[|before|] == sent[0];
    forall id
      ensures PaysFor(sent[0], id) <==> InLot(picked, lot.merchant, id)
    {
      SentLotPays(s, day, picked, lot, id);
    }
  }

  // The n-th lot adds to what the bank takes exactly when the bank takes it.
  lemma NextTaken(s: State, day: nat, limit: nat, picked: seq<R.Rcv>, lots: seq<Lot>, n: nat)
    requires Sound(s) && IsPick(s.rcvs, day, limit, picked) && IsVisit(picked, lots) && n < |lots|
    ensures BankTakes(s, day, picked, lots[..n]) <= BankTakes(s, day, picked, lots[..n+1])
    ensures var before, after := BankTakes(s, day, picked, lots[..n]), BankTakes(s, day, picked, lots[..n+1]);
            if Takes(s, lots, n) then AddsLot(before, after, picked, lots[n].merchant) else after == before
  {
    hide Sound, SettleLot, SettleLots, LotRows, IsPick, IsVisit, InLot, Passes, Reaches, PaysFor;
    assert lots[..n+1][..n] == lots[..n];
    PrefixPassesExactly(s, day, limit, picked, lots, n);
    if SettleLots(s, day, picked, lots[..n]).Ok? {
      var t := SettleLots(s, day, picked, lots[..n]).value;
      NextLot(s, day, limit, picked, lots, n);
      LotPassesExactly(s, day, limit, picked, lots, n);
      if Takes(s, lots, n) {
        SentLotAdds(BankTakes(s, day, picked, lots[..n]), t, day, picked, lots[n]);
      } else {
        assert SentLot(t, day, Where(picked, OfMerchant(lots[n].merchant)), lots[n]) == [];
      }
    }
  }

  // The bank pays for a receivable in a batch exactly when it takes the lot of its merchant.
  lemma {:induction false} PaidExactly(s: State, day: nat, limit: nat, picked: seq<R.Rcv>, lots: seq<Lot>, n: nat, id: Id)
    requires Sound(s) && IsPick(s.rcvs, day, limit, picked) && IsVisit(picked, lots) && n <= |lots|
    ensures (exists m :: 0 <= m < |BankTakes(s, day, picked, lots[..n])| && PaysFor(BankTakes(s, day, picked, lots[..n])[m], id))
            <==> exists k :: 0 <= k < n && Takes(s, lots, k) && InLot(picked, lots[k].merchant, id)
  {
    hide Sound, SettleLots, IsPick, IsVisit, InLot, Takes, PaysFor;
    if n > 0 {
      PaidExactly(s, day, limit, picked, lots, n - 1, id);
      NextTaken(s, day, limit, picked, lots, n - 1);
      var before, after := BankTakes(s, day, picked, lots[..n-1]), BankTakes(s, day, picked, lots[..n]);
      if m :| 0 <= m < |after| && PaysFor(after[m], id) {
        if m < |before| {
          assert before[m] == after[m];
        }
      }
      if k :| 0 <= k < n && Takes(s, lots, k) && InLot(picked, lots[k].merchant, id) {
        if k < n - 1 {
          var m :| 0 <= m < |before| && PaysFor(before[m], id);
          assert after[m] == before[m];
        } else {
          assert PaysFor(after[|before|], id);
        }
      }
    }
  }

  // Within one batch the bank pays for a receivable at most once.
  lemma {:induction false} PaidOncePerBatch(s: State, day: nat, limit: nat, picked: seq<R.Rcv>, lots: seq<Lot>, n: nat, id: Id)
    requires Sound(s) && IsPick(s.rcvs, day, limit, picked) && IsVisit(picked, lots) && n <= |lots|
    ensures var sent := BankTakes(s, day, picked, lots[..n]);
            forall a, b :: 0 <= a < b < |sent| ==> !(PaysFor(sent[a], id) && PaysFor(sent[b], id))
  {
    hide Sound, SettleLots, IsPick, InLot, Takes, PaysFor;
    if n > 0 {
      PaidOncePerBatch(s, day, limit, picked, lots, n - 1, id);
      NextTaken(s, day, limit, picked, lots, n - 1);
      PaidExactly(s, day, limit, picked, lots, n - 1, id);
      var before, sent := BankTakes(s, day, picked, lots[..n-1]), BankTakes(s, day, picked, lots[..n]);
      forall a, b | 0 <= a < b < |sent|
        ensures !(PaysFor(sent[a], id) && PaysFor(sent[b], id))
      {
        assert a < |before| ==> sent[a] == before[a];
        if b == |before| && PaysFor(sent[a], id) && PaysFor(sent[b], id) {
          var k :| 0 <= k < n - 1 && Takes(s, lots, k) && InLot(picked, lots[k].merchant, id);
          OneMerchant(s.rcvs, day, limit, picked, lots[k].merchant, lots[n-1].merchant, id);
        }
      }
    }
  }

  lemma OneMerchant(rcvs: seq<R.Rcv>, day: nat, limit: nat, picked: seq<R.Rcv>, m: Id, m': Id, id: Id)
    requires IsPick(rcvs, day, limit, picked) && InLot(picked, m, id) && InLot(picked, m', id)
    ensures m == m'
  {
  }

  // ---- what a committed batch does to every row

  ghost predicate Accepts(lots: seq<Lot>, n: nat, m: Id)
    requires n <= |lots|
  {
    exists k :: 0 <= k < n && lots[k].merchant == m && lots[k].accepted
  }

  // A row of the batch whose merchant's lot was accepted is settled; every other row is left.
  ghost predicate RowAfter(r: R.Rcv, r': R.Rcv, day: nat, picked: seq<R.Rcv>, lots: seq<Lot>, n: nat)
    requires n <= |lots|
  {
    if r in picked && Accepts(lots, n, r.data.merchant) then r'.data.status.Settled? && SettledOrSame(r, r', day) else r' == r
  }

  lemma LotRow(s: State, day: nat, rows: seq<R.Rcv>, lot: Lot, j: nat)
    requires Sound(s) && LotRows(s, day, rows, lot.merchant) && SettleLot(s, day, rows, lot).Ok? && j < |s.rcvs|
    ensures var rcvs' := SettleLot(s, day, rows, lot).value.rcvs;
            && |rcvs'| == |s.rcvs|
            && if s.rcvs[j] in rows && lot.accepted then rcvs'[j].data.status.Settled? && SettledOrSame(s.rcvs[j], rcvs'[j], day)
               else rcvs'[j] == s.rcvs[j]
  {
    hide Sound;
    if lot.accepted {
      LotOkOnly(s, day, rows, lot);
      var x, news, e := AcceptedShape(s, day, rows, lot);
      assert forall i :: 0 <= i < |rows| ==> rows[i].data.due == day;
      hide SettleLot, SettleAll, LotRows, Patch, SettlesRows, S.Build;
      PatchedRow(s.rcvs, day, rows, news, x, j);
    } else {
      hide LotRows;
      RejectedEffect(s, day, rows, lot);
    }
  }

  lemma PatchedRow(rcvs: seq<R.Rcv>, day: nat, rows: seq<R.Rcv>, news: seq<R.Rcv>, x: S.Stl, j: nat)
    requires SettlesRows(rcvs, rows, news, x) && j < |rcvs| && forall i :: 0 <= i < |rows| ==> rows[i].data.due == day
    ensures |Patch(rcvs, news)| == |rcvs|
    ensures if rcvs[j] in rows then Patch(rcvs, news)[j].data.status.Settled? && SettledOrSame(rcvs[j], Patch(rcvs, news)[j], day)
            else Patch(rcvs, news)[j] == rcvs[j]
  {
    assert Replaces(rcvs, rows, news);
    assert forall i :: 0 <= i < |rows| ==> news[i].data.status.Settled? && SettledOrSame(rows[i], news[i], day);
    hide SettlesRows, Replaces, SettledOrSame;
    PatchHit(rcvs, rows, news, j);
  }

  lemma {:induction false} PrefixRows(s: State, day: nat, limit: nat, picked: seq<R.Rcv>, lots: seq<Lot>, n: nat, j: nat)
    requires Sound(s) && IsPick(s.rcvs, day, limit, picked) && IsVisit(picked, lots) && n <= |lots| && j < |s.rcvs|
    requires SettleLots(s, day, picked, lots[..n]).Ok?
    ensures var rcvs' := SettleLots(s, day, picked, lots[..n]).value.rcvs;
            |rcvs'| == |s.rcvs| && RowAfter(s.rcvs[j], rcvs'[j], day, picked, lots, n)
  {
    hide Sound, SettleLot, LotRows, SettledOrSame;
    if n > 0 {
      var m := lots[n-1].merchant;
      var rows := Where(picked, OfMerchant(m));
      assert lots[..n][..n-1] == lots[..n-1];
      PrefixRows(s, day, limit, picked, lots, n - 1, j);
      NextLot(s, day, limit, picked, lots, n - 1);
      var before := SettleLots(s, day, picked, lots[..n-1]).value;
      LotRow(before, day, rows, lots[n-1], j);
      WhereMember(picked, OfMerchant(m), before.rcvs[j]);
      WhereMember(picked, OfMerchant(m), s.rcvs[j]);
      assert Accepts(lots, n, s.rcvs[j].data.merchant) <==>
             Accepts(lots, n - 1, s.rcvs[j].data.merchant) || (lots[n-1].accepted && s.rcvs[j].data.merchant == m);
      assert s.rcvs[j].data.merchant == m ==> !Accepts(lots, n - 1, m);
    }
  }

  // The rows after a committed batch, one by one.
  lemma BatchRows(s: State, day: nat, limit: nat, picked: seq<R.Rcv>, lots: seq<Lot>)
    requires Sound(s) && IsPick(s.rcvs, day, limit, picked) && IsVisit(picked, lots) && SettleLots(s, day, picked, lots).Ok?
    ensures var rcvs' := SettleLots(s, day, picked, lots).value.rcvs;
            |rcvs'| == |s.rcvs| && forall j :: 0 <= j < |s.rcvs| ==> RowAfter(s.rcvs[j], rcvs'[j], day, picked, lots, |lots|)
  {
    hide Sound, SettleLots, IsPick, IsVisit, RowAfter;
    assert lots[..|lots|] == lots;
    forall j | 0 <= j < |s.rcvs|
      ensures |SettleLots(s, day, picked, lots).value.rcvs| == |s.rcvs|
      ensures RowAfter(s.rcvs[j], SettleLots(s, day, picked, lots).value.rcvs[j], day, picked, lots, |lots|)
    {
      PrefixRows(s, day, limit, picked, lots, |lots|, j);
    }
    SameCount(s, day, limit, picked, lots);
  }

  lemma SameCount(s: State, day: nat, limit: nat, picked: seq<R.Rcv>, lots: seq<Lot>)
    requires Sound(s) && IsPick(s.rcvs, day, limit, picked) && IsVisit(picked, lots) && SettleLots(s, day, picked, lots).Ok?
    ensures |SettleLots(s, day, picked, lots).value.rcvs| == |s.rcvs|
  {
    hide Sound, SettleLots;
    assert forall i :: 0 <= i < |lots| ==> lots[i].merchant in Visited(lots);
    LotsSafe(s, day, picked, lots);
  }

  // ---- what the report counts of what the bank takes

  // The bank takes lot k and the report does not count it.
  predicate Uncounted(s: State, lots: seq<Lot>, k: nat)
    requires k < |lots|
  {
    Takes(s, lots, k) && !(lots[k].accepted && lots[k].posts)
  }

  // The report counts what the bank takes exactly when no lot is taken without being counted.
  lemma {:induction false} CountedExactly(s: State, day: nat, limit: nat, picked: seq<R.Rcv>, lots: seq<Lot>, n: nat)
    requires Sound(s) && IsPick(s.rcvs, day, limit, picked) && IsVisit(picked, lots) && n <= |lots|
    ensures var counted, sent := ReportCounts(s, day, picked, lots[..n]), BankTakes(s, day, picked, lots[..n]);
            && |counted| <= |sent|
            && ((forall k :: 0 <= k < n ==> !Uncounted(s, lots, k)) ==> counted == sent)
            && ((exists k :: 0 <= k < n && Uncounted(s, lots, k)) ==> |counted| < |sent|)
  {
    hide Sound, SettleLots, IsPick, IsVisit, Takes;
    if n > 0 {
      CountedExactly(s, day, limit, picked, lots, n - 1);
      CountedNext(s, day, limit, picked, lots, n - 1);
    }
  }

  lemma CountedNext(s: State, day: nat, limit: nat, picked: seq<R.Rcv>, lots: seq<Lot>, n: nat)
    requires Sound(s) && IsPick(s.rcvs, day, limit, picked) && IsVisit(picked, lots) && n < |lots|
    ensures var counted, sent := ReportCounts(s, day, picked, lots[..n]), BankTakes(s, day, picked, lots[..n]);
            var counted', sent' := ReportCounts(s, day, picked, lots[..n+1]), BankTakes(s, day, picked, lots[..n+1]);
            && counted <= counted' && sent <= sent'
            && if Uncounted(s, lots, n) then counted' == counted && |sent'| == |sent| + 1
               else counted'[|counted|..] == sent'[|sent|..]
  {
    hide Sound, SettleLot, SettleLots, IsPick, IsVisit, Takes, SentLot;
    NextTaken(s, day, limit, picked, lots, n);
    assert lots[..n+1][..n] == lots[..n];
  }
}
