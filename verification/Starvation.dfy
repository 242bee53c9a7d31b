/** Whom the order of the query starves: rows that wait behind rows that are rejected again and again. */
module Starvation {
  import opened Results
  import opened Sums
  import opened Tables
  import R = Receivables
  import opened Acquirer
  import opened Safety
  import opened DueRows
  import opened DuePicks
  import opened DayRuns

  // ---- the order of the query

  // Due rows before r.
  function DueBefore(day: nat, r: R.Rcv): R.Rcv -> int {
    (x: R.Rcv) => if IsDue(day)(x) && Earlier(x, r) then 1 else 0
  }

  function EarlierOne(r: R.Rcv): R.Rcv -> int {
    (x: R.Rcv) => if Earlier(x, r) then 1 else 0
  }

  // In an ordered list a row stands behind exactly the earlier ones.
  lemma {:induction false} Rank(list: seq<R.Rcv>, k: nat, r: R.Rcv)
    requires IsOrdered(list) && k < |list| && list[k] == r
    ensures Sum(list, EarlierOne(r)) == k
  {
    assert list == list[..k] + list[k..];
    SumAppend(list[..k], list[k..], EarlierOne(r));
    AllEarlier(list[..k], r);
    forall x | x in list[k..]
      ensures EarlierOne(r)(x) == 0
    {
      var i :| k <= i < |list| && list[i] == x;
      assert i > k ==> Earlier(list[k], list[i]);
    }
    SumZero(list[k..], EarlierOne(r));
  }

  lemma {:induction false} AllEarlier(list: seq<R.Rcv>, r: R.Rcv)
    requires forall i :: 0 <= i < |list| ==> Earlier(list[i], r)
    ensures Sum(list, EarlierOne(r)) == |list|
  {
    if list != [] {
      AllEarlier(list[..|list|-1], r);
    }
  }

  lemma OnePlace(list: seq<R.Rcv>, i: nat, k: nat)
    requires IsOrdered(list) && i < |list| && k < |list| && list[i] == list[k]
    ensures i == k
  {
  }

  // A due row is picked exactly when fewer due rows than the limit come before it.
  lemma PickedExactly(rcvs: seq<R.Rcv>, day: nat, limit: nat, r: R.Rcv)
    requires DistinctIds(rcvs) && r in rcvs && IsDue(day)(r)
    ensures r in DuePick(rcvs, day, limit) <==> Sum(rcvs, DueBefore(day, r)) < limit
  {
    var due := Where(rcvs, IsDue(day));
    var list := InOrder(due);
    WhereDistinct(rcvs, IsDue(day));
    WhereMember(rcvs, IsDue(day), r);
    Ordered(due);
    assert r in list;
    var k :| 0 <= k < |list| && list[k] == r;
    Rank(list, k, r);
    SumInOrder(due, EarlierOne(r));
    WhereSum(rcvs, IsDue(day), EarlierOne(r), DueBefore(day, r));
    hide InOrder, Where, Sum;
    assert Sum(rcvs, DueBefore(day, r)) == k;
    var picked := DuePick(rcvs, day, limit);
    if r in picked {
      var i :| 0 <= i < |picked| && picked[i] == r;
      OnePlace(list, i, k);
    }
    if k < limit {
      assert picked[k] == r;
    }
  }

  // ---- rows in the way

  // Something is wrong with a due row of this merchant.
  ghost predicate Wrong(rcvs: seq<R.Rcv>, day: nat, ok: R.Rcv -> bool, m: Id) {
    exists y :: y in rcvs && IsDue(day)(y) && !ok(y) && y.data.merchant == m
  }

  // Something is wrong with x itself or with a due row of its merchant before it: every lot with x has both.
  ghost predicate Hopeless(rcvs: seq<R.Rcv>, day: nat, ok: R.Rcv -> bool, x: R.Rcv) {
    exists y :: y in rcvs && IsDue(day)(y) && !ok(y) && y.data.merchant == x.data.merchant && (y == x || Earlier(y, x))
  }

  // Due rows before r that are hopeless, and those whose merchant has something wrong.
  ghost function HopelessBefore(rcvs: seq<R.Rcv>, day: nat, ok: R.Rcv -> bool, r: R.Rcv): R.Rcv -> int {
    (x: R.Rcv) => if IsDue(day)(x) && Hopeless(rcvs, day, ok, x) && Earlier(x, r) then 1 else 0
  }

  ghost function WrongBefore(rcvs: seq<R.Rcv>, day: nat, ok: R.Rcv -> bool, r: R.Rcv): R.Rcv -> int {
    (x: R.Rcv) => if IsDue(day)(x) && Wrong(rcvs, day, ok, x.data.merchant) && Earlier(x, r) then 1 else 0
  }

  // Due rows up to r of merchants with nothing wrong.
  ghost function FreeUpTo(rcvs: seq<R.Rcv>, day: nat, ok: R.Rcv -> bool, r: R.Rcv): R.Rcv -> int {
    (x: R.Rcv) => if IsDue(day)(x) && !Wrong(rcvs, day, ok, x.data.merchant) && (Earlier(x, r) || x == r) then 1 else 0
  }

  // A later state of the day: rows stay in place, each as it was or no longer due.
  ghost predicate OnlyFewerDue(rcvs: seq<R.Rcv>, rcvs': seq<R.Rcv>, day: nat) {
    |rcvs'| == |rcvs| && forall j :: 0 <= j < |rcvs| ==> rcvs'[j] == rcvs[j] || !IsDue(day)(rcvs'[j])
  }

  lemma {:induction false} FewerDue(s: State, day: nat, limit: nat, v: Verdict, ops: seq<Op>)
    requires Sound(s) && DayRun(s, day, limit, v, ops)
    ensures OnlyFewerDue(s.rcvs, After(s, ops).rcvs, day)
  {
    hide Sound, Apply, IsBatch, Good;
    if ops != [] {
      var before, op := ops[..|ops|-1], ops[|ops|-1];
      FewerDue(s, day, limit, v, before);
      DayRunSound(s, day, limit, v, before);
      BatchByVerdict(After(s, before), day, limit, v, op);
      assert forall j :: 0 <= j < |s.rcvs| ==> RowByVerdict(After(s, before).rcvs[j], After(s, ops).rcvs[j], day, v, op.picked);
    }
  }

  // What was due later was due, the same row, at first.
  lemma WasDue(rcvs: seq<R.Rcv>, rcvs': seq<R.Rcv>, day: nat, x: R.Rcv)
    requires OnlyFewerDue(rcvs, rcvs', day) && x in rcvs' && IsDue(day)(x)
    ensures x in rcvs
  {
    var j :| 0 <= j < |rcvs'| && rcvs'[j] == x;
    assert rcvs[j] in rcvs;
  }

  lemma SoundKeys(s: State)
    requires Sound(s)
    ensures DistinctIds(s.rcvs)
  {
  }

  // ---- hopeless rows stay

  // A pick in order that holds x holds every due row before x.
  lemma PicksEarlier(rcvs: seq<R.Rcv>, day: nat, limit: nat, y: R.Rcv, x: R.Rcv)
    requires DistinctIds(rcvs) && x in rcvs && y in rcvs && IsDue(day)(x) && IsDue(day)(y) && (y == x || Earlier(y, x))
    requires x in DuePick(rcvs, day, limit)
    ensures y in DuePick(rcvs, day, limit)
  {
    hide DuePick;
    PickedExactly(rcvs, day, limit, x);
    PickedExactly(rcvs, day, limit, y);
    SumBelow(rcvs, DueBefore(day, y), DueBefore(day, x));
  }

  lemma {:induction false} HopelessStays(s: State, day: nat, limit: nat, v: Verdict, ok: R.Rcv -> bool, ops: seq<Op>, j: nat)
    requires Sound(s) && DayRun(s, day, limit, v, ops) && OrderedRun(s, day, limit, ops) && ByRows(v, day, ok)
    requires j < |s.rcvs| && IsDue(day)(s.rcvs[j]) && Hopeless(s.rcvs, day, ok, s.rcvs[j])
    ensures |After(s, ops).rcvs| == |s.rcvs| && After(s, ops).rcvs[j] == s.rcvs[j]
  {
    hide Sound, Apply, IsBatch, ByRows, Good, DuePick, Hopeless;
    if ops != [] {
      var before, op := ops[..|ops|-1], ops[|ops|-1];
      var t, x := After(s, before), s.rcvs[j];
      HopelessStays(s, day, limit, v, ok, before, j);
      DayRunSound(s, day, limit, v, before);
      BatchByVerdict(t, day, limit, v, op);
      if x in op.picked {
        var y := WrongOneStays(s, day, limit, v, ok, before, x);
        SoundKeys(t);
        PicksEarlier(t.rcvs, day, limit, y, x);
        BatchIsPick(t, day, limit, v, op);
        GoodByRows(t, day, limit, v, ok, op.picked, x);
      }
      assert RowByVerdict(t.rcvs[j], After(s, ops).rcvs[j], day, v, op.picked);
    }
  }

  lemma WrongOneStays(s: State, day: nat, limit: nat, v: Verdict, ok: R.Rcv -> bool, ops: seq<Op>, x: R.Rcv) returns (y: R.Rcv)
    requires Sound(s) && DayRun(s, day, limit, v, ops) && ByRows(v, day, ok) && Hopeless(s.rcvs, day, ok, x)
    ensures y in After(s, ops).rcvs && IsDue(day)(y) && !ok(y) && y.data.merchant == x.data.merchant && (y == x || Earlier(y, x))
  {
    hide Sound, After, DayRun, ByRows;
    y :| y in s.rcvs && IsDue(day)(y) && !ok(y) && y.data.merchant == x.data.merchant && (y == x || Earlier(y, x));
    var k :| 0 <= k < |s.rcvs| && s.rcvs[k] == y;
    WrongStays(s, day, limit, v, ok, ops, k);
  }

  // Enough hopeless rows before r fill every pick, and r is never picked.
  lemma {:induction false} Starved(s: State, day: nat, limit: nat, v: Verdict, ok: R.Rcv -> bool, ops: seq<Op>, j: nat)
    requires Sound(s) && DayRun(s, day, limit, v, ops) && OrderedRun(s, day, limit, ops) && ByRows(v, day, ok)
    requires j < |s.rcvs| && IsDue(day)(s.rcvs[j]) && Sum(s.rcvs, HopelessBefore(s.rcvs, day, ok, s.rcvs[j])) >= limit
    ensures |After(s, ops).rcvs| == |s.rcvs| && After(s, ops).rcvs[j] == s.rcvs[j]
  {
    hide Sound, Apply, IsBatch, ByRows, Good, DuePick, Sum, Hopeless;
    if ops != [] {
      var before, op := ops[..|ops|-1], ops[|ops|-1];
      var t, r := After(s, before), s.rcvs[j];
      Starved(s, day, limit, v, ok, before, j);
      DayRunSound(s, day, limit, v, before);
      BatchByVerdict(t, day, limit, v, op);
      HopelessRemain(s, day, limit, v, ok, before, r);
      SoundKeys(t);
      PickedExactly(t.rcvs, day, limit, r);
      assert RowByVerdict(t.rcvs[j], After(s, ops).rcvs[j], day, v, op.picked);
    }
  }

  lemma HopelessRemain(s: State, day: nat, limit: nat, v: Verdict, ok: R.Rcv -> bool, ops: seq<Op>, r: R.Rcv)
    requires Sound(s) && DayRun(s, day, limit, v, ops) && OrderedRun(s, day, limit, ops) && ByRows(v, day, ok)
    ensures Sum(s.rcvs, HopelessBefore(s.rcvs, day, ok, r)) <= Sum(After(s, ops).rcvs, DueBefore(day, r))
  {
    hide Sound, After, DayRun, OrderedRun, ByRows, Sum, Hopeless;
    var t := After(s, ops);
    DayRunSound(s, day, limit, v, ops);
    forall j | 0 <= j < |s.rcvs|
      ensures HopelessBefore(s.rcvs, day, ok, r)(s.rcvs[j]) <= DueBefore(day, r)(t.rcvs[j])
    {
      if IsDue(day)(s.rcvs[j]) && Hopeless(s.rcvs, day, ok, s.rcvs[j]) {
        HopelessStays(s, day, limit, v, ok, ops, j);
      }
    }
    SumBelowAt(s.rcvs, t.rcvs, HopelessBefore(s.rcvs, day, ok, r), DueBefore(day, r));
  }

  lemma {:induction false} SumBelowAt(a: seq<R.Rcv>, b: seq<R.Rcv>, v: R.Rcv -> int, w: R.Rcv -> int)
    requires |a| == |b| && forall i :: 0 <= i < |a| ==> v(a[i]) <= w(b[i])
    ensures Sum(a, v) <= Sum(b, w)
  {
    if a != [] {
      SumBelowAt(a[..|a|-1], b[..|b|-1], v, w);
    }
  }

  // ---- the others are served

  // With fewer rows in the way than the limit, a pick holds r or a row of an undisturbed merchant before it.
  lemma PickHasFree(rcvs: seq<R.Rcv>, day: nat, limit: nat, blocked: Id -> bool, r: R.Rcv) returns (x: R.Rcv)
    requires DistinctIds(rcvs) && r in rcvs && IsDue(day)(r) && r !in DuePick(rcvs, day, limit)
    requires Sum(rcvs, BlockedBefore(day, blocked, r)) < limit
    ensures x in DuePick(rcvs, day, limit) && !blocked(x.data.merchant) && Earlier(x, r) && IsDue(day)(x)
  {
    var due := Where(rcvs, IsDue(day));
    var list, picked := InOrder(due), DuePick(rcvs, day, limit);
    WhereDistinct(rcvs, IsDue(day));
    WhereMember(rcvs, IsDue(day), r);
    Ordered(due);
    var k :| 0 <= k < |list| && list[k] == r;
    DuePickIsPick(rcvs, day, limit);
    assert forall i :: 0 <= i < |picked| ==> picked[i] == list[i] && picked[i] in picked;
    assert |picked| == limit && k >= limit;
    assert forall i :: 0 <= i < limit ==> Earlier(picked[i], r);
    if forall i :: 0 <= i < limit ==> blocked(picked[i].data.merchant) {
      BlockedPrefix(rcvs, day, limit, blocked, r, list);
      assert false;
    }
    var i :| 0 <= i < limit && !blocked(picked[i].data.merchant);
    x := picked[i];
    assert x in picked;
  }

  function BlockedBefore(day: nat, blocked: Id -> bool, r: R.Rcv): R.Rcv -> int {
    (x: R.Rcv) => if IsDue(day)(x) && blocked(x.data.merchant) && Earlier(x, r) then 1 else 0
  }

  lemma BlockedPrefix(rcvs: seq<R.Rcv>, day: nat, limit: nat, blocked: Id -> bool, r: R.Rcv, list: seq<R.Rcv>)
    requires list == InOrder(Where(rcvs, IsDue(day))) && limit <= |list|
    requires forall i :: 0 <= i < limit ==> blocked(list[i].data.merchant) && Earlier(list[i], r) && IsDue(day)(list[i])
    ensures Sum(rcvs, BlockedBefore(day, blocked, r)) >= limit
  {
    var w := BlockedBefore(day, blocked, r);
    WhereSum(rcvs, IsDue(day), w, w);
    SumInOrder(Where(rcvs, IsDue(day)), w);
    SumPrefix(list, limit, w);
    SumPointwise(list[..limit], list[..limit], w, One());
    SumOne(list[..limit]);
  }

  // The lot of a merchant with nothing wrong at first is accepted whenever it is picked.
  lemma FreeIsGood(s: State, t: State, day: nat, limit: nat, v: Verdict, ok: R.Rcv -> bool, picked: seq<R.Rcv>, x: R.Rcv)
    requires Sound(t) && OnlyFewerDue(s.rcvs, t.rcvs, day) && ByRows(v, day, ok)
    requires IsPick(t.rcvs, day, limit, picked) && x in picked && !Wrong(s.rcvs, day, ok, x.data.merchant)
    ensures Good(v, picked, x.data.merchant)
  {
    hide Sound, ByRows, Good, OnlyFewerDue;
    GoodByRows(t, day, limit, v, ok, picked, x);
    forall y | y in picked && y.data.merchant == x.data.merchant
      ensures ok(y)
    {
      WasDue(s.rcvs, t.rcvs, day, y);
    }
  }

  // One batch serves r, or a row up to r of a merchant with nothing wrong.
  lemma BatchServes(s: State, t: State, day: nat, limit: nat, v: Verdict, ok: R.Rcv -> bool, op: Op, r: R.Rcv)
    requires Sound(t) && OnlyFewerDue(s.rcvs, t.rcvs, day) && ByRows(v, day, ok)
    requires IsBatch(t, day, limit, v, op) && op.picked == DuePick(t.rcvs, day, limit)
    requires r in t.rcvs && IsDue(day)(r) && !Wrong(s.rcvs, day, ok, r.data.merchant) && Sum(s.rcvs, WrongBefore(s.rcvs, day, ok, r)) < limit
    ensures Sum(Apply(t, op).rcvs, FreeUpTo(s.rcvs, day, ok, r)) < Sum(t.rcvs, FreeUpTo(s.rcvs, day, ok, r))
  {
    hide Sound, ByRows, Good, DuePick, Sum, Wrong, Apply, IsBatch, IsPick;
    BatchIsPick(t, day, limit, v, op);
    SoundKeys(t);
    var x := r;
    if r !in op.picked {
      FewerInTheWay(s, t, day, ok, r);
      x := PickHasFree(t.rcvs, day, limit, WrongOnes(s.rcvs, day, ok), r);
    }
    FreeIsGood(s, t, day, limit, v, ok, op.picked, x);
    BatchShrinks(t, day, limit, v, op, FreeUpTo(s.rcvs, day, ok, r), x);
  }

  ghost function WrongOnes(rcvs: seq<R.Rcv>, day: nat, ok: R.Rcv -> bool): Id -> bool {
    (m: Id) => Wrong(rcvs, day, ok, m)
  }

  lemma FewerInTheWay(s: State, t: State, day: nat, ok: R.Rcv -> bool, r: R.Rcv)
    requires OnlyFewerDue(s.rcvs, t.rcvs, day)
    ensures Sum(t.rcvs, BlockedBefore(day, WrongOnes(s.rcvs, day, ok), r)) <= Sum(s.rcvs, WrongBefore(s.rcvs, day, ok, r))
  {
    hide Sum, Wrong;
    SumBelowAt(t.rcvs, s.rcvs, BlockedBefore(day, WrongOnes(s.rcvs, day, ok), r), WrongBefore(s.rcvs, day, ok, r));
  }

  // Over n batches: r is served, or n rows up to r of merchants with nothing wrong have been.
  lemma {:induction false} RowsServed(s: State, day: nat, limit: nat, v: Verdict, ok: R.Rcv -> bool, ops: seq<Op>, j: nat)
    requires Sound(s) && DayRun(s, day, limit, v, ops) && OrderedRun(s, day, limit, ops) && ByRows(v, day, ok)
    requires j < |s.rcvs| && IsDue(day)(s.rcvs[j]) && !Wrong(s.rcvs, day, ok, s.rcvs[j].data.merchant)
    requires Sum(s.rcvs, WrongBefore(s.rcvs, day, ok, s.rcvs[j])) < limit
    ensures var r, t := s.rcvs[j], After(s, ops);
            && OnlyFewerDue(s.rcvs, t.rcvs, day)
            && (t.rcvs[j] == r ==> Sum(t.rcvs, FreeUpTo(s.rcvs, day, ok, r)) + |ops| <= Sum(s.rcvs, FreeUpTo(s.rcvs, day, ok, r)))
  {
    hide Sound, Apply, IsBatch, ByRows, Good, DuePick, Sum, Wrong;
    FewerDue(s, day, limit, v, ops);
    if ops != [] {
      var before, op := ops[..|ops|-1], ops[|ops|-1];
      var t, r := After(s, before), s.rcvs[j];
      RowsServed(s, day, limit, v, ok, before, j);
      DayRunSound(s, day, limit, v, before);
      BatchByVerdict(t, day, limit, v, op);
      assert RowByVerdict(t.rcvs[j], After(s, ops).rcvs[j], day, v, op.picked);
      if t.rcvs[j] == r {
        BatchServes(s, t, day, limit, v, ok, op, r);
      }
    }
  }

  // In the order of the query, whatever the rows: a due receivable behind as many hopeless ones as the limit is
  // never picked; one of a merchant with nothing wrong, behind fewer receivables than the limit of
  // merchants with something wrong, is settled within as many batches as there are due receivables.
  lemma StarvedOrServed(s: State, day: nat, limit: nat, v: Verdict, ok: R.Rcv -> bool, ops: seq<Op>, j: nat)
    requires Sound(s) && DayRun(s, day, limit, v, ops) && OrderedRun(s, day, limit, ops) && ByRows(v, day, ok)
    requires |ops| >= Sum(s.rcvs, DueOne(day)) && j < |s.rcvs| && IsDue(day)(s.rcvs[j])
    ensures |After(s, ops).rcvs| == |s.rcvs|
    ensures Hopeless(s.rcvs, day, ok, s.rcvs[j]) ==> After(s, ops).rcvs[j] == s.rcvs[j]
    ensures Sum(s.rcvs, HopelessBefore(s.rcvs, day, ok, s.rcvs[j])) >= limit ==> After(s, ops).rcvs[j] == s.rcvs[j]
    ensures !Wrong(s.rcvs, day, ok, s.rcvs[j].data.merchant) && Sum(s.rcvs, WrongBefore(s.rcvs, day, ok, s.rcvs[j])) < limit ==>
              !IsDue(day)(After(s, ops).rcvs[j])
  {
    hide Sound, After, Sum, DayRun, OrderedRun, ByRows, Hopeless, Wrong;
    var r, t := s.rcvs[j], After(s, ops);
    FewerDue(s, day, limit, v, ops);
    if Hopeless(s.rcvs, day, ok, r) {
      HopelessStays(s, day, limit, v, ok, ops, j);
    }
    if Sum(s.rcvs, HopelessBefore(s.rcvs, day, ok, r)) >= limit {
      Starved(s, day, limit, v, ok, ops, j);
    }
    if !Wrong(s.rcvs, day, ok, r.data.merchant) && Sum(s.rcvs, WrongBefore(s.rcvs, day, ok, r)) < limit {
      RowsServed(s, day, limit, v, ok, ops, j);
      SumBelow(s.rcvs, FreeUpTo(s.rcvs, day, ok, r), DueOne(day));
      if t.rcvs[j] == r {
        OneLeft(t.rcvs, j, FreeUpTo(s.rcvs, day, ok, r));
      }
    }
  }

  // Where the first due row of every merchant with something wrong is itself wrong, as it is for a verdict on
  // the merchant alone, the two bounds meet: a receivable of a merchant with nothing wrong is
  // settled exactly when fewer hopeless ones than the limit come before it.
  lemma StarvedExactly(s: State, day: nat, limit: nat, v: Verdict, ok: R.Rcv -> bool, ops: seq<Op>, j: nat)
    requires Sound(s) && DayRun(s, day, limit, v, ops) && OrderedRun(s, day, limit, ops) && ByRows(v, day, ok)
    requires |ops| >= Sum(s.rcvs, DueOne(day)) && j < |s.rcvs| && IsDue(day)(s.rcvs[j])
    requires !Wrong(s.rcvs, day, ok, s.rcvs[j].data.merchant)
    requires forall x :: x in s.rcvs && IsDue(day)(x) && Wrong(s.rcvs, day, ok, x.data.merchant) ==> Hopeless(s.rcvs, day, ok, x)
    ensures |After(s, ops).rcvs| == |s.rcvs|
    ensures !IsDue(day)(After(s, ops).rcvs[j]) <==> Sum(s.rcvs, HopelessBefore(s.rcvs, day, ok, s.rcvs[j])) < limit
  {
    hide Sound, After, Sum, DayRun, OrderedRun, ByRows, Hopeless, Wrong;
    StarvedOrServed(s, day, limit, v, ok, ops, j);
    SumBelow(s.rcvs, WrongBefore(s.rcvs, day, ok, s.rcvs[j]), HopelessBefore(s.rcvs, day, ok, s.rcvs[j]));
  }

  // ---- the rows that are left decide

  lemma BeforeShrinks(rcvs: seq<R.Rcv>, rcvs': seq<R.Rcv>, day: nat, r: R.Rcv)
    requires OnlyFewerDue(rcvs, rcvs', day)
    ensures Sum(rcvs', DueBefore(day, r)) <= Sum(rcvs, DueBefore(day, r))
  {
    hide Sum;
    SumBelowAt(rcvs', rcvs, DueBefore(day, r), DueBefore(day, r));
  }

  lemma OneBatchFewer(s: State, day: nat, limit: nat, v: Verdict, op: Op)
    requires Sound(s) && IsBatch(s, day, limit, v, op)
    ensures OnlyFewerDue(s.rcvs, Apply(s, op).rcvs, day)
  {
    hide Sound, Apply, IsBatch, Good;
    BatchByVerdict(s, day, limit, v, op);
    assert forall j :: 0 <= j < |s.rcvs| ==> RowByVerdict(s.rcvs[j], Apply(s, op).rcvs[j], day, v, op.picked);
  }

  // A row behind as many rows as the limit in the end was behind them all the time, and was never picked.
  lemma {:induction false} BehindStays(s: State, day: nat, limit: nat, v: Verdict, ops: seq<Op>, j: nat)
    requires Sound(s) && DayRun(s, day, limit, v, ops) && OrderedRun(s, day, limit, ops)
    requires j < |s.rcvs| && IsDue(day)(s.rcvs[j]) && Sum(After(s, ops).rcvs, DueBefore(day, s.rcvs[j])) >= limit
    ensures |After(s, ops).rcvs| == |s.rcvs| && After(s, ops).rcvs[j] == s.rcvs[j]
  {
    hide Sound, Apply, IsBatch, Good, DuePick, Sum;
    if ops != [] {
      var before, op := ops[..|ops|-1], ops[|ops|-1];
      var t, r := After(s, before), s.rcvs[j];
      DayRunSound(s, day, limit, v, before);
      OneBatchFewer(t, day, limit, v, op);
      BeforeShrinks(t.rcvs, After(s, ops).rcvs, day, r);
      BehindStays(s, day, limit, v, before, j);
      SoundKeys(t);
      PickedExactly(t.rcvs, day, limit, r);
      BatchByVerdict(t, day, limit, v, op);
      assert RowByVerdict(t.rcvs[j], After(s, ops).rcvs[j], day, v, op.picked);
    }
  }

  // After enough batches, whatever is picked next is rejected whole.
  lemma EndsStuck(s: State, day: nat, limit: nat, v: Verdict, ops: seq<Op>)
    requires Sound(s) && DayRun(s, day, limit, v, ops) && OrderedRun(s, day, limit, ops) && limit >= 1 && |ops| >= Sum(s.rcvs, DueOne(day))
    ensures AllRejected(v, Next(After(s, ops), day, limit))
  {
    hide Sound, After, DayRun, OrderedRun, Stuck, AllRejected;
    DayEndsExactly(s, day, limit, v, ops);
    if i :| 0 <= i < |ops| && Stuck(s, day, limit, v, ops, i) {
      StuckRejects(s, day, limit, v, ops, i);
    } else {
      NothingIsRejected(v);
      assert InOrder([]) == [];
    }
  }

  lemma NothingIsRejected(v: Verdict)
    ensures AllRejected(v, [])
  {
  }

  // Exactly, for any rows: a receivable of a merchant with nothing wrong is settled, within as many batches
  // as there are due receivables, if and only if fewer receivables than the limit are left before it.
  lemma ServedExactly(s: State, day: nat, limit: nat, v: Verdict, ok: R.Rcv -> bool, ops: seq<Op>, j: nat)
    requires Sound(s) && DayRun(s, day, limit, v, ops) && OrderedRun(s, day, limit, ops) && ByRows(v, day, ok) && limit >= 1
    requires |ops| >= Sum(s.rcvs, DueOne(day)) && j < |s.rcvs| && IsDue(day)(s.rcvs[j])
    requires !Wrong(s.rcvs, day, ok, s.rcvs[j].data.merchant)
    ensures |After(s, ops).rcvs| == |s.rcvs|
    ensures !IsDue(day)(After(s, ops).rcvs[j]) <==> Sum(After(s, ops).rcvs, DueBefore(day, s.rcvs[j])) < limit
  {
    hide Sound, After, Sum, DayRun, OrderedRun, ByRows, Wrong, DuePick, Good;
    var r, t := s.rcvs[j], After(s, ops);
    FewerDue(s, day, limit, v, ops);
    DayRunSound(s, day, limit, v, ops);
    SoundKeys(t);
    if Sum(t.rcvs, DueBefore(day, r)) >= limit {
      BehindStays(s, day, limit, v, ops, j);
    } else if IsDue(day)(t.rcvs[j]) {
      EndsStuck(s, day, limit, v, ops);
      PickedExactly(t.rcvs, day, limit, r);
      DuePickIsPick(t.rcvs, day, limit);
      FreeIsGood(s, t, day, limit, v, ok, DuePick(t.rcvs, day, limit), r);
    }
  }

  lemma OneLeft(rcvs: seq<R.Rcv>, j: nat, w: R.Rcv -> int)
    requires j < |rcvs| && w(rcvs[j]) >= 1 && forall x :: x in rcvs ==> w(x) >= 0
    ensures Sum(rcvs, w) >= 1
  {
    SumPrefix(rcvs, j, w);
    SumPrefix(rcvs, j + 1, w);
    assert rcvs[..j+1][..j] == rcvs[..j];
  }
}
