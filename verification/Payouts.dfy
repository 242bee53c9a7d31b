/** No receivable pays out twice: which anticipation and which settlement each one belongs to. */
module Payouts {
  import opened Results
  import opened Sums
  import opened Tables
  import R = Receivables
  import S = Settlements
  import A = Anticipations
  import opened Reconciliation

  function PaidOutBy(id: Id): R.Rcv -> int {
    (r: R.Rcv) => if r.data.settlement == Some(id) && r.data.anticipation.None? then r.data.net else 0
  }

  function RetainedBy(id: Id): R.Rcv -> int {
    (r: R.Rcv) => if r.data.settlement == Some(id) && r.data.anticipation.Some? then r.data.net else 0
  }

  function AnticipatedBy(id: Id): R.Rcv -> int {
    (r: R.Rcv) => if r.data.anticipation == Some(id) then r.data.net else 0
  }

  predicate Confirmed(x: S.Stl) {
    x.data.status == S.Confirmed
  }

  predicate Lists(x: S.Stl, id: Id) {
    Confirmed(x) && id in x.data.receivableIds
  }

  predicate Covers(a: A.Ant, id: Id) {
    exists i :: 0 <= i < |a.data.items| && a.data.items[i].receivableId == id
  }

  // A confirmed settlement lists exactly the receivables that name it; what it
  // paid out are the nets never anticipated, what it retained the anticipated ones.
  ghost predicate SettledOnce(rcvs: seq<R.Rcv>, stls: seq<S.Stl>) {
    && (forall j :: 0 <= j < |rcvs| && rcvs[j].data.settlement.Some? ==> HasId(stls, rcvs[j].data.settlement.value))
    && (forall j, m :: 0 <= j < |rcvs| && 0 <= m < |stls| && rcvs[j].data.settlement == Some(stls[m].id) ==> Confirmed(stls[m]))
    && (forall m :: 0 <= m < |stls| && Confirmed(stls[m]) ==> Accounts(rcvs, stls[m]))
  }

  ghost predicate Accounts(rcvs: seq<R.Rcv>, x: S.Stl) {
    && (forall j :: 0 <= j < |rcvs| ==> (rcvs[j].data.settlement == Some(x.id) <==> rcvs[j].id in x.data.receivableIds))
    && (forall i :: 0 <= i < |x.data.receivableIds| ==> HasId(rcvs, x.data.receivableIds[i]))
    && x.data.toMerchant + x.data.toCreditors == Sum(rcvs, PaidOutBy(x.id))
    && x.data.retained == Sum(rcvs, RetainedBy(x.id))
  }

  // An anticipation covers exactly the receivables that name it, at their nets.
  ghost predicate AnticipatedOnce(rcvs: seq<R.Rcv>, ants: seq<A.Ant>) {
    && (forall j :: 0 <= j < |rcvs| && rcvs[j].data.anticipation.Some? ==> HasId(ants, rcvs[j].data.anticipation.value))
    && (forall m :: 0 <= m < |ants| ==> AccountsAnt(rcvs, ants[m]))
  }

  ghost predicate AccountsAnt(rcvs: seq<R.Rcv>, a: A.Ant) {
    && a.data.status == A.Confirmed
    && (forall j :: 0 <= j < |rcvs| ==> (rcvs[j].data.anticipation == Some(a.id) <==> Covers(a, rcvs[j].id)))
    && (forall i :: 0 <= i < |a.data.items| ==> HasId(rcvs, a.data.items[i].receivableId))
    && a.data.gross == Sum(rcvs, AnticipatedBy(a.id)) == a.data.net + a.data.discount
  }

  ghost predicate PaidOnce(rcvs: seq<R.Rcv>, ants: seq<A.Ant>, stls: seq<S.Stl>) {
    SettledOnce(rcvs, stls) && AnticipatedOnce(rcvs, ants)
  }

  lemma HasIdSame(t: seq<R.Rcv>, t': seq<R.Rcv>)
    requires |t'| == |t| && forall j :: 0 <= j < |t| ==> t'[j].id == t[j].id
    ensures forall id :: HasId(t, id) ==> HasId(t', id)
  {
    forall id | HasId(t, id)
      ensures HasId(t', id)
    {
      var j :| 0 <= j < |t| && t[j].id == id;
      assert t'[j].id == id;
    }
  }

  // ---- new rows carry no links

  lemma AppendKeepsStl(rcvs: seq<R.Rcv>, list: seq<R.Rcv>, x: S.Stl)
    requires Accounts(rcvs, x) && DistinctIds(rcvs + list)
    requires forall j :: 0 <= j < |list| ==> list[j].data.settlement.None?
    ensures Accounts(rcvs + list, x)
  {
    SumAppend(rcvs, list, PaidOutBy(x.id));
    SumAppend(rcvs, list, RetainedBy(x.id));
    SumZero(list, PaidOutBy(x.id));
    SumZero(list, RetainedBy(x.id));
    NewIds(rcvs, list);
  }

  lemma NewIds(rcvs: seq<R.Rcv>, list: seq<R.Rcv>)
    requires DistinctIds(rcvs + list)
    ensures forall id :: HasId(rcvs, id) ==> HasId(rcvs + list, id)
    ensures forall j :: |rcvs| <= j < |rcvs + list| ==> !HasId(rcvs, (rcvs + list)[j].id)
  {
    var both := rcvs + list;
    forall id | HasId(rcvs, id)
      ensures HasId(both, id)
    {
      var i :| 0 <= i < |rcvs| && rcvs[i].id == id;
      assert both[i].id == id;
    }
    forall j | |rcvs| <= j < |both|
      ensures !HasId(rcvs, both[j].id)
    {
      forall i | 0 <= i < |rcvs|
        ensures rcvs[i].id != both[j].id
      {
        assert both[i] == rcvs[i];
      }
    }
  }

  lemma AppendKeepsAnt(rcvs: seq<R.Rcv>, list: seq<R.Rcv>, a: A.Ant)
    requires AccountsAnt(rcvs, a) && DistinctIds(rcvs + list)
    requires forall j :: 0 <= j < |list| ==> list[j].data.anticipation.None?
    ensures AccountsAnt(rcvs + list, a)
  {
    SumAppend(rcvs, list, AnticipatedBy(a.id));
    SumZero(list, AnticipatedBy(a.id));
    NewIds(rcvs, list);
  }

  lemma AppendKeepsPaid(rcvs: seq<R.Rcv>, list: seq<R.Rcv>, ants: seq<A.Ant>, stls: seq<S.Stl>)
    requires PaidOnce(rcvs, ants, stls) && DistinctIds(rcvs + list)
    requires forall j :: 0 <= j < |list| ==> list[j].data.settlement.None? && list[j].data.anticipation.None?
    ensures PaidOnce(rcvs + list, ants, stls)
  {
    forall m | 0 <= m < |stls| && Confirmed(stls[m])
      ensures Accounts(rcvs + list, stls[m])
    {
      AppendKeepsStl(rcvs, list, stls[m]);
    }
    forall m | 0 <= m < |ants|
      ensures AccountsAnt(rcvs + list, ants[m])
    {
      AppendKeepsAnt(rcvs, list, ants[m]);
    }
  }

  // ---- rows whose links do not change

  ghost predicate StlKept(rcvs: seq<R.Rcv>, rcvs': seq<R.Rcv>, id: Id) {
    && |rcvs'| == |rcvs|
    && forall j :: 0 <= j < |rcvs| ==>
         && rcvs'[j].id == rcvs[j].id && rcvs'[j].data.net == rcvs[j].data.net
         && (rcvs'[j].data.settlement == Some(id) <==> rcvs[j].data.settlement == Some(id))
         && (rcvs[j].data.settlement == Some(id) ==> rcvs'[j].data.anticipation == rcvs[j].data.anticipation)
  }

  ghost predicate AntKept(rcvs: seq<R.Rcv>, rcvs': seq<R.Rcv>, id: Id) {
    && |rcvs'| == |rcvs|
    && forall j :: 0 <= j < |rcvs| ==>
         && rcvs'[j].id == rcvs[j].id && rcvs'[j].data.net == rcvs[j].data.net
         && (rcvs'[j].data.anticipation == Some(id) <==> rcvs[j].data.anticipation == Some(id))
  }

  lemma KeptKeepsStl(rcvs: seq<R.Rcv>, rcvs': seq<R.Rcv>, x: S.Stl)
    requires Accounts(rcvs, x) && StlKept(rcvs, rcvs', x.id)
    ensures Accounts(rcvs', x)
  {
    SumPointwise(rcvs', rcvs, PaidOutBy(x.id), PaidOutBy(x.id));
    SumPointwise(rcvs', rcvs, RetainedBy(x.id), RetainedBy(x.id));
    HasIdSame(rcvs, rcvs');
  }

  lemma KeptKeepsAnt(rcvs: seq<R.Rcv>, rcvs': seq<R.Rcv>, a: A.Ant)
    requires AccountsAnt(rcvs, a) && AntKept(rcvs, rcvs', a.id)
    ensures AccountsAnt(rcvs', a)
  {
    SumPointwise(rcvs', rcvs, AnticipatedBy(a.id), AnticipatedBy(a.id));
    HasIdSame(rcvs, rcvs');
  }

  lemma LinksKeptKeepPaid(rcvs: seq<R.Rcv>, rcvs': seq<R.Rcv>, ants: seq<A.Ant>, stls: seq<S.Stl>)
    requires PaidOnce(rcvs, ants, stls) && |rcvs'| == |rcvs|
    requires forall j :: 0 <= j < |rcvs| ==>
               && rcvs'[j].id == rcvs[j].id && rcvs'[j].data.net == rcvs[j].data.net
               && rcvs'[j].data.settlement == rcvs[j].data.settlement && rcvs'[j].data.anticipation == rcvs[j].data.anticipation
    ensures PaidOnce(rcvs', ants, stls)
  {
    forall m | 0 <= m < |stls| && Confirmed(stls[m])
      ensures Accounts(rcvs', stls[m])
    {
      KeptKeepsStl(rcvs, rcvs', stls[m]);
    }
    forall m | 0 <= m < |ants|
      ensures AccountsAnt(rcvs', ants[m])
    {
      KeptKeepsAnt(rcvs, rcvs', ants[m]);
    }
  }

  lemma FailedKeepsPaid(rcvs: seq<R.Rcv>, ants: seq<A.Ant>, stls: seq<S.Stl>, x: S.Stl)
    requires PaidOnce(rcvs, ants, stls) && !HasId(stls, x.id) && !Confirmed(x)
    ensures PaidOnce(rcvs, ants, stls + [x])
  {
    GrowsHasId(stls, x);
  }

  lemma GrowsHasId<D>(t: seq<Row<D>>, row: Row<D>)
    ensures forall id :: HasId(t + [row], id) <==> HasId(t, id) || id == row.id
  {
    forall id
      ensures HasId(t + [row], id) <==> HasId(t, id) || id == row.id
    {
      if HasId(t, id) {
        var i :| 0 <= i < |t| && t[i].id == id;
        assert (t + [row])[i].id == id;
      }
      assert (t + [row])[|t|].id == row.id;
    }
  }

  // ---- a settlement takes its rows

  // Rows of the table either become their new version or stay.
  lemma Taken(rcvs: seq<R.Rcv>, rows: seq<R.Rcv>, news: seq<R.Rcv>, j: nat)
    requires Replaces(rcvs, rows, news) && j < |rcvs|
    ensures (exists i :: 0 <= i < |rows| && rows[i] == rcvs[j] && Patch(rcvs, news)[j] == news[i])
         || (rcvs[j] !in rows && Patch(rcvs, news)[j] == rcvs[j] && forall i :: 0 <= i < |rows| ==> rows[i].id != rcvs[j].id)
  {
    PatchHit(rcvs, rows, news, j);
    if rcvs[j] !in rows {
      forall i | 0 <= i < |rows|
        ensures rows[i].id != rcvs[j].id
      {
        assert rows[i] in rcvs;
        var m :| 0 <= m < |rcvs| && rcvs[m] == rows[i];
        assert m != j;
      }
    }
  }

  ghost predicate SettlesRows(rcvs: seq<R.Rcv>, rows: seq<R.Rcv>, news: seq<R.Rcv>, x: S.Stl) {
    && Replaces(rcvs, rows, news) && RowsOk(rcvs)
    && (forall i :: 0 <= i < |rows| ==> R.Settle(rows[i], x.id) == Ok(news[i]) && (rows[i].data.status.Scheduled? || rows[i].data.status.Anticipated?))
    && |x.data.receivableIds| == |rows| && (forall i :: 0 <= i < |rows| ==> x.data.receivableIds[i] == rows[i].id)
    && x.data.toMerchant + x.data.toCreditors == Sum(rows, S.PayableNet())
    && x.data.retained == Sum(rows, S.RetainedNet())
  }

  lemma SettlementRow(rcvs: seq<R.Rcv>, rows: seq<R.Rcv>, news: seq<R.Rcv>, x: S.Stl, j: nat)
    requires SettlesRows(rcvs, rows, news, x) && j < |rcvs| && rcvs[j].data.settlement != Some(x.id)
    ensures var r' := Patch(rcvs, news)[j];
            && r'.id == rcvs[j].id && r'.data.net == rcvs[j].data.net && r'.data.anticipation == rcvs[j].data.anticipation
            && (r'.data.settlement == Some(x.id) <==> r'.id in x.data.receivableIds)
            && (r'.data.settlement == rcvs[j].data.settlement || (r'.data.settlement == Some(x.id) && rcvs[j].data.settlement.None?))
  {
    Taken(rcvs, rows, news, j);
    hide Replaces, Patch, Sum;
    if i :| 0 <= i < |rows| && rows[i] == rcvs[j] && Patch(rcvs, news)[j] == news[i] {
      assert x.data.receivableIds[i] == rows[i].id;
      assert RowOk(rcvs[j]);
    }
  }

  lemma SettlementSums(rcvs: seq<R.Rcv>, rows: seq<R.Rcv>, news: seq<R.Rcv>, x: S.Stl)
    requires SettlesRows(rcvs, rows, news, x)
    requires forall j :: 0 <= j < |rcvs| ==> rcvs[j].data.settlement != Some(x.id)
    ensures Sum(Patch(rcvs, news), PaidOutBy(x.id)) == x.data.toMerchant + x.data.toCreditors
    ensures Sum(Patch(rcvs, news), RetainedBy(x.id)) == x.data.retained
  {
    forall i | 0 <= i < |rows|
      ensures RowOk(rows[i]) && rows[i].data.settlement != Some(x.id)
      ensures PaidOutBy(x.id)(news[i]) == S.PayableNet()(rows[i]) && RetainedBy(x.id)(news[i]) == S.RetainedNet()(rows[i])
    {
      assert rows[i] in rcvs;
    }
    assert Replaces(rcvs, rows, news);
    hide SettlesRows, RowsOk, Replaces, RowOk, R.Settle, Patch, Sum;
    PatchSum(rcvs, rows, news, PaidOutBy(x.id));
    PatchSum(rcvs, rows, news, RetainedBy(x.id));
    SumZero(rcvs, PaidOutBy(x.id));
    SumZero(rcvs, RetainedBy(x.id));
    SumZero(rows, PaidOutBy(x.id));
    SumZero(rows, RetainedBy(x.id));
    SumPointwise(news, rows, PaidOutBy(x.id), S.PayableNet());
    SumPointwise(news, rows, RetainedBy(x.id), S.RetainedNet());
  }

  lemma SettlementKeepsPaid(rcvs: seq<R.Rcv>, rows: seq<R.Rcv>, news: seq<R.Rcv>, ants: seq<A.Ant>, stls: seq<S.Stl>, x: S.Stl)
    requires PaidOnce(rcvs, ants, stls) && SettlesRows(rcvs, rows, news, x) && !HasId(stls, x.id) && Confirmed(x)
    ensures PaidOnce(Patch(rcvs, news), ants, stls + [x])
  {
    var rcvs' := Patch(rcvs, news);
    forall j | 0 <= j < |rcvs|
      ensures rcvs[j].data.settlement != Some(x.id)
    {
      assert rcvs[j].data.settlement.Some? ==> HasId(stls, rcvs[j].data.settlement.value);
    }
    forall j | 0 <= j < |rcvs|
      ensures rcvs'[j].id == rcvs[j].id && rcvs'[j].data.net == rcvs[j].data.net && rcvs'[j].data.anticipation == rcvs[j].data.anticipation
      ensures rcvs'[j].data.settlement == Some(x.id) <==> rcvs'[j].id in x.data.receivableIds
      ensures rcvs'[j].data.settlement == rcvs[j].data.settlement || (rcvs'[j].data.settlement == Some(x.id) && rcvs[j].data.settlement.None?)
    {
      SettlementRow(rcvs, rows, news, x, j);
    }
    GrowsHasId(stls, x);
    SettlementSums(rcvs, rows, news, x);
    SettlementIds(rcvs, rows, news, x);
    assert Accounts(rcvs', x);
    OldSettlementsKept(rcvs, rcvs', stls, x.id);
    forall m | 0 <= m < |ants|
      ensures AccountsAnt(rcvs', ants[m])
    {
      KeptKeepsAnt(rcvs, rcvs', ants[m]);
    }
  }

  lemma SettlementIds(rcvs: seq<R.Rcv>, rows: seq<R.Rcv>, news: seq<R.Rcv>, x: S.Stl)
    requires SettlesRows(rcvs, rows, news, x)
    ensures forall i :: 0 <= i < |x.data.receivableIds| ==> HasId(Patch(rcvs, news), x.data.receivableIds[i])
  {
    PatchKeepsIds(rcvs, rows, news);
    forall i | 0 <= i < |rows|
      ensures HasId(Patch(rcvs, news), rows[i].id)
    {
      var j :| 0 <= j < |rcvs| && rcvs[j] == rows[i];
      assert Patch(rcvs, news)[j].id == rows[i].id;
    }
  }

  lemma OldSettlementsKept(rcvs: seq<R.Rcv>, rcvs': seq<R.Rcv>, stls: seq<S.Stl>, id: Id)
    requires SettledOnce(rcvs, stls) && !HasId(stls, id) && |rcvs'| == |rcvs|
    requires forall j :: 0 <= j < |rcvs| ==>
               && rcvs'[j].id == rcvs[j].id && rcvs'[j].data.net == rcvs[j].data.net && rcvs'[j].data.anticipation == rcvs[j].data.anticipation
               && (rcvs'[j].data.settlement == rcvs[j].data.settlement || (rcvs'[j].data.settlement == Some(id) && rcvs[j].data.settlement.None?))
    ensures forall m :: 0 <= m < |stls| && Confirmed(stls[m]) ==> Accounts(rcvs', stls[m])
  {
    forall m | 0 <= m < |stls| && Confirmed(stls[m])
      ensures Accounts(rcvs', stls[m])
    {
      assert stls[m].id != id;
      KeptKeepsStl(rcvs, rcvs', stls[m]);
    }
  }

  // ---- an anticipation takes its rows

  ghost predicate AnticipatesRows(rcvs: seq<R.Rcv>, rows: seq<R.Rcv>, news: seq<R.Rcv>, a: A.Ant) {
    && Replaces(rcvs, rows, news) && RowsOk(rcvs) && a.data.status == A.Confirmed
    && (forall i :: 0 <= i < |rows| ==> R.Anticipate(rows[i], a.id) == Ok(news[i]) && rows[i].data.status.Scheduled?)
    && |a.data.items| == |rows| && (forall i :: 0 <= i < |rows| ==> a.data.items[i].receivableId == rows[i].id)
    && a.data.gross == Sum(rows, R.Net()) == a.data.net + a.data.discount
  }

  lemma AnticipationRow(rcvs: seq<R.Rcv>, rows: seq<R.Rcv>, news: seq<R.Rcv>, a: A.Ant, j: nat)
    requires AnticipatesRows(rcvs, rows, news, a) && j < |rcvs| && rcvs[j].data.anticipation != Some(a.id)
    ensures var r' := Patch(rcvs, news)[j];
            && r'.id == rcvs[j].id && r'.data.net == rcvs[j].data.net && r'.data.settlement == rcvs[j].data.settlement
            && (r'.data.anticipation == Some(a.id) <==> Covers(a, r'.id))
            && (r'.data.anticipation == rcvs[j].data.anticipation
                || (r'.data.anticipation == Some(a.id) && rcvs[j].data.anticipation.None? && rcvs[j].data.settlement.None?))
  {
    Taken(rcvs, rows, news, j);
    if i :| 0 <= i < |rows| && rows[i] == rcvs[j] && Patch(rcvs, news)[j] == news[i] {
      assert a.data.items[i].receivableId == rows[i].id;
      assert RowOk(rcvs[j]);
    }
  }

  lemma AnticipationKeepsPaid(rcvs: seq<R.Rcv>, rows: seq<R.Rcv>, news: seq<R.Rcv>, ants: seq<A.Ant>, stls: seq<S.Stl>, a: A.Ant)
    requires PaidOnce(rcvs, ants, stls) && AnticipatesRows(rcvs, rows, news, a) && !HasId(ants, a.id)
    ensures PaidOnce(Patch(rcvs, news), ants + [a], stls)
  {
    var rcvs' := Patch(rcvs, news);
    forall j | 0 <= j < |rcvs|
      ensures rcvs[j].data.anticipation != Some(a.id)
    {
      assert rcvs[j].data.anticipation.Some? ==> HasId(ants, rcvs[j].data.anticipation.value);
    }
    forall j | 0 <= j < |rcvs|
      ensures rcvs'[j].id == rcvs[j].id && rcvs'[j].data.net == rcvs[j].data.net && rcvs'[j].data.settlement == rcvs[j].data.settlement
      ensures rcvs'[j].data.anticipation == Some(a.id) <==> Covers(a, rcvs'[j].id)
      ensures rcvs'[j].data.anticipation == rcvs[j].data.anticipation
           || (rcvs'[j].data.anticipation == Some(a.id) && rcvs[j].data.anticipation.None? && rcvs[j].data.settlement.None?)
    {
      AnticipationRow(rcvs, rows, news, a, j);
    }
    hide Patch, Replaces;
    GrowsHasId(ants, a);
    AnticipationSum(rcvs, rows, news, a);
    SettlementsUntouched(rcvs, rcvs', stls, a.id);
    OldAnticipationsKept(rcvs, rcvs', ants, a.id);
  }

  lemma SettlementsUntouched(rcvs: seq<R.Rcv>, rcvs': seq<R.Rcv>, stls: seq<S.Stl>, id: Id)
    requires SettledOnce(rcvs, stls) && |rcvs'| == |rcvs|
    requires forall j :: 0 <= j < |rcvs| ==>
               && rcvs'[j].id == rcvs[j].id && rcvs'[j].data.net == rcvs[j].data.net && rcvs'[j].data.settlement == rcvs[j].data.settlement
               && (rcvs'[j].data.anticipation == rcvs[j].data.anticipation || rcvs[j].data.settlement.None?)
    ensures SettledOnce(rcvs', stls)
  {
    forall m | 0 <= m < |stls| && Confirmed(stls[m])
      ensures Accounts(rcvs', stls[m])
    {
      KeptKeepsStl(rcvs, rcvs', stls[m]);
    }
  }

  lemma OldAnticipationsKept(rcvs: seq<R.Rcv>, rcvs': seq<R.Rcv>, ants: seq<A.Ant>, id: Id)
    requires AnticipatedOnce(rcvs, ants) && !HasId(ants, id) && |rcvs'| == |rcvs|
    requires forall j :: 0 <= j < |rcvs| ==>
               && rcvs'[j].id == rcvs[j].id && rcvs'[j].data.net == rcvs[j].data.net
               && (rcvs'[j].data.anticipation == rcvs[j].data.anticipation || (rcvs'[j].data.anticipation == Some(id) && rcvs[j].data.anticipation.None?))
    ensures forall m :: 0 <= m < |ants| ==> AccountsAnt(rcvs', ants[m])
  {
    forall m | 0 <= m < |ants|
      ensures AccountsAnt(rcvs', ants[m])
    {
      assert ants[m].id != id;
      KeptKeepsAnt(rcvs, rcvs', ants[m]);
    }
  }

  lemma AnticipationSum(rcvs: seq<R.Rcv>, rows: seq<R.Rcv>, news: seq<R.Rcv>, a: A.Ant)
    requires AnticipatesRows(rcvs, rows, news, a)
    requires forall j :: 0 <= j < |rcvs| ==> rcvs[j].data.anticipation != Some(a.id)
    ensures Sum(Patch(rcvs, news), AnticipatedBy(a.id)) == a.data.gross
    ensures forall i :: 0 <= i < |a.data.items| ==> HasId(Patch(rcvs, news), a.data.items[i].receivableId)
  {
    forall i | 0 <= i < |rows|
      ensures rows[i].data.anticipation != Some(a.id) && HasId(Patch(rcvs, news), rows[i].id)
    {
      var j :| 0 <= j < |rcvs| && rcvs[j] == rows[i];
      assert Patch(rcvs, news)[j].id == rows[i].id by {
        PatchKeepsIds(rcvs, rows, news);
      }
    }
    assert Replaces(rcvs, rows, news);
    assert forall i :: 0 <= i < |rows| ==> AnticipatedBy(a.id)(news[i]) == R.Net()(rows[i]);
    hide AnticipatesRows, RowsOk, Replaces, R.Anticipate, Patch;
    PatchSum(rcvs, rows, news, AnticipatedBy(a.id));
    SumZero(rcvs, AnticipatedBy(a.id));
    SumZero(rows, AnticipatedBy(a.id));
    SumPointwise(news, rows, AnticipatedBy(a.id), R.Net());
  }

  // ---- what the invariant means

  // One receivable is in at most one confirmed settlement and in at most one anticipation.
  lemma NeverPaidTwice(rcvs: seq<R.Rcv>, ants: seq<A.Ant>, stls: seq<S.Stl>, id: Id)
    requires PaidOnce(rcvs, ants, stls)
    requires DistinctIds(ants) && DistinctIds(stls)
    ensures forall m, n :: 0 <= m < |stls| && 0 <= n < |stls| && Lists(stls[m], id) && Lists(stls[n], id) ==> m == n
    ensures forall m, n :: 0 <= m < |ants| && 0 <= n < |ants| && Covers(ants[m], id) && Covers(ants[n], id) ==> m == n
  {
    forall m, n | 0 <= m < |stls| && 0 <= n < |stls| && Lists(stls[m], id) && Lists(stls[n], id)
      ensures m == n
    {
      var j := ListedRow(rcvs, stls[m], id);
      assert rcvs[j].data.settlement == Some(stls[m].id) && rcvs[j].data.settlement == Some(stls[n].id);
    }
    forall m, n | 0 <= m < |ants| && 0 <= n < |ants| && Covers(ants[m], id) && Covers(ants[n], id)
      ensures m == n
    {
      var i :| 0 <= i < |ants[m].data.items| && ants[m].data.items[i].receivableId == id;
      assert HasId(rcvs, ants[m].data.items[i].receivableId);
      var j :| 0 <= j < |rcvs| && rcvs[j].id == id;
      assert rcvs[j].data.anticipation == Some(ants[m].id) && rcvs[j].data.anticipation == Some(ants[n].id);
    }
  }

  lemma ListedRow(rcvs: seq<R.Rcv>, x: S.Stl, id: Id) returns (j: nat)
    requires Accounts(rcvs, x) && id in x.data.receivableIds
    ensures j < |rcvs| && rcvs[j].id == id && rcvs[j].data.settlement == Some(x.id)
  {
    var i :| 0 <= i < |x.data.receivableIds| && x.data.receivableIds[i] == id;
    assert HasId(rcvs, x.data.receivableIds[i]);
    j :| 0 <= j < |rcvs| && rcvs[j].id == id;
  }
}
