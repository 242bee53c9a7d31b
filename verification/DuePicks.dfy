/** The order in which a batch picks the receivables that are due. */
module DuePicks {
  import opened Results
  import opened Sums
  import opened Tables
  import R = Receivables
  import opened Acquirer

  ghost predicate IsOrdered(list: seq<R.Rcv>) {
    forall i, j :: 0 <= i < j < |list| ==> Earlier(list[i], list[j])
  }

  lemma {:induction false} PlacedInOrder(list: seq<R.Rcv>, r: R.Rcv, x: R.Rcv)
    ensures x in PlaceInOrder(list, r) <==> x in list || x == r
    ensures |PlaceInOrder(list, r)| == |list| + 1
  {
    if list != [] && Earlier(r, list[|list|-1]) {
      PlacedInOrder(list[..|list|-1], r, x);
      assert list == list[..|list|-1] + [list[|list|-1]];
    }
  }

  lemma {:induction false} PlacingKeepsOrder(list: seq<R.Rcv>, r: R.Rcv)
    requires IsOrdered(list) && forall x :: x in list ==> x.id != r.id
    ensures IsOrdered(PlaceInOrder(list, r))
  {
    if list != [] && Earlier(r, list[|list|-1]) {
      var n := |list| - 1;
      PlacingKeepsOrder(list[..n], r);
      var before := PlaceInOrder(list[..n], r);
      forall i | 0 <= i < |before|
        ensures Earlier(before[i], list[n])
      {
        PlacedInOrder(list[..n], r, before[i]);
      }
      assert PlaceInOrder(list, r) == before + [list[n]];
    } else {
      forall i | 0 <= i < |list|
        ensures Earlier(list[i], r)
      {
        assert list[i].id != r.id;
        assert i < |list| - 1 ==> Earlier(list[i], list[|list|-1]);
      }
    }
  }

  // Ordering a list with distinct ids keeps its rows and puts each before the later ones.
  lemma {:induction false} Ordered(list: seq<R.Rcv>)
    requires DistinctIds(list)
    ensures IsOrdered(InOrder(list)) && |InOrder(list)| == |list|
    ensures forall x :: x in InOrder(list) <==> x in list
  {
    if list != [] {
      var n := |list| - 1;
      DistinctPrefix(list, n);
      Ordered(list[..n]);
      PlacingKeepsOrder(InOrder(list[..n]), list[n]);
      PlacedInOrder(InOrder(list[..n]), list[n], list[n]);
      forall x
        ensures x in InOrder(list) <==> x in list
      {
        PlacedInOrder(InOrder(list[..n]), list[n], x);
        assert list == list[..n] + [list[n]];
      }
    }
  }

  lemma {:induction false} SumPlaced(list: seq<R.Rcv>, r: R.Rcv, w: R.Rcv -> int)
    ensures Sum(PlaceInOrder(list, r), w) == Sum(list, w) + w(r)
  {
    if list != [] && Earlier(r, list[|list|-1]) {
      var n := |list| - 1;
      SumPlaced(list[..n], r, w);
      SumPush(PlaceInOrder(list[..n], r), list[n], w);
    } else {
      SumPush(list, r, w);
    }
  }

  lemma {:induction false} SumInOrder(list: seq<R.Rcv>, w: R.Rcv -> int)
    ensures Sum(InOrder(list), w) == Sum(list, w)
  {
    if list != [] {
      SumInOrder(list[..|list|-1], w);
      SumPlaced(InOrder(list[..|list|-1]), list[|list|-1], w);
    }
  }

  lemma OrderedIds(list: seq<R.Rcv>)
    requires IsOrdered(list) && (forall i, j :: 0 <= i < |list| && 0 <= j < |list| && list[i].id == list[j].id ==> list[i] == list[j])
    ensures DistinctIds(list)
  {
    forall i, j | 0 <= i < j < |list|
      ensures list[i].id != list[j].id
    {
      assert Earlier(list[i], list[j]);
    }
  }

  // What the query returns, with some rows locked, is a pick of due rows; when it returns
  // nothing, whatever is due is locked.
  lemma UnlockedPick(rcvs: seq<R.Rcv>, day: nat, limit: nat, locked: set<Id>)
    requires DistinctIds(rcvs)
    ensures IsPick(rcvs, day, limit, DuePick(Where(rcvs, Unlocked(locked)), day, limit))
    ensures forall r :: r in DuePick(Where(rcvs, Unlocked(locked)), day, limit) ==> r.id !in locked
    ensures forall r :: r in rcvs && IsDue(day)(r) && r.id !in locked && r !in DuePick(Where(rcvs, Unlocked(locked)), day, limit) ==>
              |DuePick(Where(rcvs, Unlocked(locked)), day, limit)| == limit
    ensures DuePick(Where(rcvs, Unlocked(locked)), day, limit) == [] && limit >= 1 ==>
              forall r :: r in rcvs && IsDue(day)(r) ==> r.id in locked
  {
    var free := Where(rcvs, Unlocked(locked));
    WhereDistinct(rcvs, Unlocked(locked));
    DuePickIsPick(free, day, limit);
    PickExactly(free, day, limit);
    hide DuePick, Where;
    forall r
      ensures r in free <==> r in rcvs && r.id !in locked
    {
      WhereMember(rcvs, Unlocked(locked), r);
    }
    if DuePick(free, day, limit) == [] && limit >= 1 {
      forall r | r in rcvs && IsDue(day)(r)
        ensures r.id in locked
      {
        WhereMember(free, IsDue(day), r);
      }
    }
  }

  // The query, exactly: scheduled and anticipated rows due that day, by merchant and then by id, and the
  // first of them where the limit cuts the list.
  lemma PickExactly(rcvs: seq<R.Rcv>, day: nat, limit: nat)
    requires DistinctIds(rcvs)
    ensures var picked := DuePick(rcvs, day, limit);
            && DistinctIds(picked) && |picked| <= limit
            && (forall r :: r in picked ==> r in rcvs && r.data.due == day && (r.data.status == R.Scheduled || r.data.status == R.Anticipated))
            && (forall i, j :: 0 <= i < j < |picked| ==>
                  picked[i].data.merchant < picked[j].data.merchant
                  || (picked[i].data.merchant == picked[j].data.merchant && picked[i].id < picked[j].id))
            && (forall r :: r in rcvs && r.data.due == day && (r.data.status == R.Scheduled || r.data.status == R.Anticipated) && r !in picked ==>
                  |picked| == limit && forall i :: 0 <= i < |picked| ==>
                    picked[i].data.merchant < r.data.merchant || (picked[i].data.merchant == r.data.merchant && picked[i].id < r.id))
  {
    var due := Where(rcvs, IsDue(day));
    var sorted, picked := InOrder(due), DuePick(rcvs, day, limit);
    DuePickIsPick(rcvs, day, limit);
    WhereDistinct(rcvs, IsDue(day));
    Ordered(due);
    hide InOrder, Where;
    assert forall i :: 0 <= i < |picked| ==> picked[i] == sorted[i];
    forall r | r in rcvs && IsDue(day)(r) && r !in picked
      ensures |picked| == limit && forall i :: 0 <= i < |picked| ==> Earlier(picked[i], r)
    {
      WhereMember(rcvs, IsDue(day), r);
      var k :| 0 <= k < |sorted| && sorted[k] == r;
      assert k < |picked| ==> picked[k] == r;
    }
  }

  // With nothing locked the query returns as many due rows as the limit allows.
  lemma DuePickIsPick(rcvs: seq<R.Rcv>, day: nat, limit: nat)
    requires DistinctIds(rcvs)
    ensures IsDuePick(rcvs, day, limit, DuePick(rcvs, day, limit))
  {
    var due := Where(rcvs, IsDue(day));
    WhereDistinct(rcvs, IsDue(day));
    Ordered(due);
    hide InOrder, Where;
    var sorted, picked := InOrder(due), DuePick(rcvs, day, limit);
    forall i | 0 <= i < |sorted|
      ensures sorted[i] in rcvs && IsDue(day)(sorted[i])
    {
      assert sorted[i] in due;
      WhereMember(rcvs, IsDue(day), sorted[i]);
    }
    OrderedIds(sorted);
  }
}
