/** What settling does to the receivables due on a day: the effect of one lot, and of no progress at all. */
module DueRows {
  import opened Results
  import opened Sums
  import opened Tables
  import R = Receivables
  import S = Settlements
  import L = Ledger
  import opened Acquirer
  import opened Reconciliation
  import opened Payouts
  import opened Safety

  // ---- what there is to settle on a day

  function DuePayable(day: nat): R.Rcv -> int {
    (r: R.Rcv) => if r.data.due == day && r.data.status.Scheduled? then r.data.net else 0
  }

  function DueRetained(day: nat): R.Rcv -> int {
    (r: R.Rcv) => if r.data.due == day && r.data.status.Anticipated? then r.data.net else 0
  }

  function DueOne(day: nat): R.Rcv -> int {
    (r: R.Rcv) => if IsDue(day)(r) then 1 else 0
  }

  // Rows of the day are settled or left; nothing else happens to any row.
  predicate SettledOrSame(r: R.Rcv, r': R.Rcv, day: nat) {
    r' == r || (IsDue(day)(r) && r'.data.settlement.Some? && R.Settle(r, r'.data.settlement.value) == Ok(r'))
  }

  ghost predicate OnlySettled(rcvs: seq<R.Rcv>, rcvs': seq<R.Rcv>, day: nat) {
    |rcvs'| == |rcvs| && forall j :: 0 <= j < |rcvs| ==> SettledOrSame(rcvs[j], rcvs'[j], day)
  }

  lemma OnlySettledTwice(a: seq<R.Rcv>, b: seq<R.Rcv>, c: seq<R.Rcv>, day: nat)
    requires OnlySettled(a, b, day) && OnlySettled(b, c, day)
    ensures OnlySettled(a, c, day)
  {
  }

  // Nothing due: nothing to pay, nothing to retain.
  lemma {:induction false} DueCount(rcvs: seq<R.Rcv>, day: nat)
    ensures Sum(rcvs, DueOne(day)) == |Where(rcvs, IsDue(day))|
    ensures Where(rcvs, IsDue(day)) == [] ==> Sum(rcvs, DuePayable(day)) == Sum(rcvs, DueRetained(day)) == 0
  {
    if rcvs != [] {
      DueCount(rcvs[..|rcvs|-1], day);
    }
  }

  // What a settled lot takes off the day's sums is what its rows weighed.
  lemma TakenOff(rcvs: seq<R.Rcv>, rows: seq<R.Rcv>, news: seq<R.Rcv>, due: R.Rcv -> int, weight: R.Rcv -> int)
    requires Replaces(rcvs, rows, news)
    requires forall i :: 0 <= i < |rows| ==> due(rows[i]) == weight(rows[i]) && due(news[i]) == 0
    ensures Sum(Patch(rcvs, news), due) == Sum(rcvs, due) - Sum(rows, weight)
  {
    PatchSum(rcvs, rows, news, due);
    SumPointwise(rows, rows, due, weight);
    SumZero(news, due);
  }

  function One(): R.Rcv -> int { (r: R.Rcv) => 1 }

  lemma {:induction false} SumOne(rows: seq<R.Rcv>)
    ensures Sum(rows, One()) == |rows|
  {
    if rows != [] {
      SumOne(rows[..|rows|-1]);
    }
  }

  // An accepted lot settles exactly its rows.
  lemma AcceptedEffect(s: State, day: nat, rows: seq<R.Rcv>, lot: Lot)
    requires Sound(s) && LotRows(s, day, rows, lot.merchant) && SettleLot(s, day, rows, lot).Ok? && lot.accepted
    ensures var rcvs' := SettleLot(s, day, rows, lot).value.rcvs;
            && OnlySettled(s.rcvs, rcvs', day)
            && Sum(rcvs', DuePayable(day)) == Sum(s.rcvs, DuePayable(day)) - Sum(rows, S.PayableNet())
            && Sum(rcvs', DueRetained(day)) == Sum(s.rcvs, DueRetained(day)) - Sum(rows, S.RetainedNet())
            && Sum(rcvs', DueOne(day)) == Sum(s.rcvs, DueOne(day)) - |rows|
  {
    LotOkOnly(s, day, rows, lot);
    var x, news, e := AcceptedShape(s, day, rows, lot);
    hide SettleLot, Sound, L.ForSettlement, L.Append, SettlesRows, Patch, OnlySettled, SettleAll;
    LotTakesOff(s.rcvs, day, rows, news, x);
  }

  lemma SettledLot(rcvs: seq<R.Rcv>, day: nat, rows: seq<R.Rcv>, news: seq<R.Rcv>, x: S.Stl)
    requires SettlesRows(rcvs, rows, news, x) && forall i :: 0 <= i < |rows| ==> rows[i].data.due == day
    ensures Replaces(rcvs, rows, news)
    ensures forall i :: 0 <= i < |rows| ==> IsDue(day)(rows[i]) && news[i].data.status.Settled? && SettledOrSame(rows[i], news[i], day)
  {
    hide Replaces, RowsOk, Sum;
  }

  lemma LotTakesOff(rcvs: seq<R.Rcv>, day: nat, rows: seq<R.Rcv>, news: seq<R.Rcv>, x: S.Stl)
    requires SettlesRows(rcvs, rows, news, x) && forall i :: 0 <= i < |rows| ==> rows[i].data.due == day
    ensures var rcvs' := Patch(rcvs, news);
            && OnlySettled(rcvs, rcvs', day)
            && Sum(rcvs', DuePayable(day)) == Sum(rcvs, DuePayable(day)) - Sum(rows, S.PayableNet())
            && Sum(rcvs', DueRetained(day)) == Sum(rcvs, DueRetained(day)) - Sum(rows, S.RetainedNet())
            && Sum(rcvs', DueOne(day)) == Sum(rcvs, DueOne(day)) - |rows|
  {
    SettledLot(rcvs, day, rows, news, x);
    hide SettlesRows, RowsOk, Replaces, R.Settle, Patch, SettledOrSame, OnlySettled, Sum;
    TakenOff(rcvs, rows, news, DuePayable(day), S.PayableNet());
    TakenOff(rcvs, rows, news, DueRetained(day), S.RetainedNet());
    TakenOff(rcvs, rows, news, DueOne(day), One());
    SumOne(rows);
    LotSettles(rcvs, day, rows, news);
  }

  lemma LotSettles(rcvs: seq<R.Rcv>, day: nat, rows: seq<R.Rcv>, news: seq<R.Rcv>)
    requires Replaces(rcvs, rows, news) && forall i :: 0 <= i < |rows| ==> SettledOrSame(rows[i], news[i], day)
    ensures OnlySettled(rcvs, Patch(rcvs, news), day)
  {
    hide Patch, R.Settle;
    forall j | 0 <= j < |rcvs|
      ensures SettledOrSame(rcvs[j], Patch(rcvs, news)[j], day)
    {
      PatchHit(rcvs, rows, news, j);
    }
  }

  // A rejected lot leaves every receivable as it was.
  lemma RejectedEffect(s: State, day: nat, rows: seq<R.Rcv>, lot: Lot)
    requires SettleLot(s, day, rows, lot).Ok? && !lot.accepted
    ensures SettleLot(s, day, rows, lot).value.rcvs == s.rcvs
  {
  }

  // A lot is settled, or its rejection recorded, exactly when the merchant is known, the
  // registry answers, the generated ids are new and every statement works.
  lemma LotSucceedsExactly(s: State, day: nat, rows: seq<R.Rcv>, lot: Lot)
    requires Sound(s) && LotRows(s, day, rows, lot.merchant)
    ensures SettleLot(s, day, rows, lot).Ok? <==>
            lot.known && lot.liens.Some? && !HasId(s.stls, lot.stlId) && !HasId(s.outbox, lot.eid) && lot.posts && lot.stored
  {
    hide Sound;
    if SettleLot(s, day, rows, lot).Ok? {
      LotOkOnly(s, day, rows, lot);
    } else if lot.known && lot.liens.Some? && !HasId(s.stls, lot.stlId) && !HasId(s.outbox, lot.eid) && lot.posts && lot.stored {
      if lot.accepted {
        var x, news, e := AcceptedShape(s, day, rows, lot);
      } else {
        var x, e := RejectedShape(s, day, rows, lot);
      }
      assert false;
    }
  }

  // A batch the bank rejects whole leaves the agenda as it was, so the next batch finds
  // the same receivables due: a bank that rejects for ever keeps the day from ending.
  lemma {:induction false} RejectedBatchRepeats(s: State, day: nat, picked: seq<R.Rcv>, lots: seq<Lot>, limit: nat, next: seq<R.Rcv>)
    requires SettleLots(s, day, picked, lots).Ok?
    requires forall i :: 0 <= i < |lots| ==> !lots[i].accepted
    ensures SettleLots(s, day, picked, lots).value.rcvs == s.rcvs
    ensures IsDuePick(SettleLots(s, day, picked, lots).value.rcvs, day, limit, next) <==> IsDuePick(s.rcvs, day, limit, next)
  {
    if lots != [] {
      RejectedBatchRepeats(s, day, picked, lots[..|lots|-1], limit, next);
    }
  }
}
