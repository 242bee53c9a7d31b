/** The outbox relay: batches in id order, published one by one, with failures, crashes and several relays at once. */
module Relay {
  datatype OutRow = OutRow(id: nat, published: bool)

  // ---- the outbox table, in id order

  predicate ById(rows: seq<OutRow>) {
    forall i, j :: 0 <= i < j < |rows| ==> rows[i].id < rows[j].id
  }

  function Place(rows: seq<OutRow>, id: nat): seq<OutRow> {
    if rows == [] || rows[|rows|-1].id < id then rows + [OutRow(id, false)]
    else Place(rows[..|rows|-1], id) + [rows[|rows|-1]]
  }

  // The rows a relay may take: not published, and not locked by another relay.
  function Free(rows: seq<OutRow>, locked: set<nat>): seq<nat> {
    if rows == [] then []
    else
      var before, x := Free(rows[..|rows|-1], locked), rows[|rows|-1];
      if !x.published && x.id !in locked then before + [x.id] else before
  }

  function Pending(rows: seq<OutRow>, locked: set<nat>, limit: nat): seq<nat> {
    var free := Free(rows, locked);
    if |free| <= limit then free else free[..limit]
  }

  function Mark(rows: seq<OutRow>, ids: seq<nat>): seq<OutRow> {
    if rows == [] then []
    else
      var x := rows[|rows|-1];
      Mark(rows[..|rows|-1], ids) + [if x.id in ids then OutRow(x.id, true) else x]
  }

  predicate Increasing(ids: seq<nat>) {
    forall i, j :: 0 <= i < j < |ids| ==> ids[i] < ids[j]
  }

  lemma {:induction false} PlacedRows(rows: seq<OutRow>, id: nat, x: OutRow)
    ensures x in Place(rows, id) <==> x in rows || x == OutRow(id, false)
  {
    if rows != [] && rows[|rows|-1].id >= id {
      var n := |rows| - 1;
      PlacedRows(rows[..n], id, x);
      assert rows == rows[..n] + [rows[n]];
    }
  }

  lemma {:induction false} Placed(rows: seq<OutRow>, id: nat)
    requires ById(rows) && forall x :: x in rows ==> x.id != id
    ensures ById(Place(rows, id))
    ensures forall x :: x in Place(rows, id) <==> x in rows || x == OutRow(id, false)
  {
    forall x
      ensures x in Place(rows, id) <==> x in rows || x == OutRow(id, false)
    {
      PlacedRows(rows, id, x);
    }
    if rows != [] && rows[|rows|-1].id > id {
      var n := |rows| - 1;
      Placed(rows[..n], id);
      var before := Place(rows[..n], id);
      forall i | 0 <= i < |before|
        ensures before[i].id < rows[n].id
      {
        assert before[i] in before;
      }
      assert Place(rows, id) == before + [rows[n]];
    }
  }

  lemma {:induction false} FreeIds(rows: seq<OutRow>, locked: set<nat>)
    requires ById(rows)
    ensures Increasing(Free(rows, locked))
    ensures forall id :: id in Free(rows, locked) <==> OutRow(id, false) in rows && id !in locked
  {
    if rows != [] {
      var n := |rows| - 1;
      FreeIds(rows[..n], locked);
      assert rows == rows[..n] + [rows[n]];
      assert forall i :: 0 <= i < |Free(rows[..n], locked)| ==> Free(rows[..n], locked)[i] in Free(rows[..n], locked);
    }
  }

  // A batch takes the first free rows: what comes before one of them and is free is in it.
  lemma PendingIds(rows: seq<OutRow>, locked: set<nat>, limit: nat)
    requires ById(rows)
    ensures var p := Pending(rows, locked, limit);
            && Increasing(p)
            && (forall id :: id in p ==> OutRow(id, false) in rows && id !in locked)
            && (forall k, id :: 0 <= k < |p| && id < p[k] && OutRow(id, false) in rows && id !in locked ==> id in p[..k])
            && |p| <= limit && (forall id :: OutRow(id, false) in rows && id !in locked && id !in p ==> |p| == limit)
  {
    FreeIds(rows, locked);
    var p, free := Pending(rows, locked, limit), Free(rows, locked);
    forall k, id | 0 <= k < |p| && id < p[k] && OutRow(id, false) in rows && id !in locked
      ensures id in p[..k]
    {
      assert id in free;
      var i :| 0 <= i < |free| && free[i] == id;
      assert i < k;
      assert p[..k][i] == id;
    }
  }

  lemma {:induction false} Marked(rows: seq<OutRow>, ids: seq<nat>)
    ensures |Mark(rows, ids)| == |rows|
    ensures forall i :: 0 <= i < |rows| ==> Mark(rows, ids)[i] == if rows[i].id in ids then OutRow(rows[i].id, true) else rows[i]
  {
    if rows != [] {
      Marked(rows[..|rows|-1], ids);
    }
  }

  // ---- relays as interleaved steps

  datatype Batch = Batch(pending: seq<nat>, done: nat, broken: bool)

  // sent is everything the broker has received, in order; it may repeat.
  datatype World = World(rows: seq<OutRow>, sent: seq<nat>, relays: map<nat, Batch>)

  // A failed publication may have reached the broker all the same; an abort is a crash, a
  // failed UPDATE or a failed commit, at any point.
  datatype Step =
    | Appear(id: nat)
    | Begin(r: nat, limit: nat)
    | Publish(r: nat, ok: bool, delivered: bool)
    | Commit(r: nat)
    | Abort(r: nat)

  function Locked(w: World): set<nat> {
    set r, id | r in w.relays && id in w.relays[r].pending :: id
  }

  function Next(w: World, step: Step): World {
    match step
    case Appear(id) => if forall x :: x in w.rows ==> x.id != id then w.(rows := Place(w.rows, id)) else w
    case Begin(r, limit) =>
      var p := Pending(w.rows, Locked(w), limit);
      if r in w.relays || p == [] then w else w.(relays := w.relays[r := Batch(p, 0, false)])
    case Publish(r, ok, delivered) =>
      if r !in w.relays || w.relays[r].broken || w.relays[r].done >= |w.relays[r].pending| then w
      else
        var b := w.relays[r];
        var id := b.pending[b.done];
        if ok then w.(sent := w.sent + [id], relays := w.relays[r := b.(done := b.done + 1)])
        else w.(sent := if delivered then w.sent + [id] else w.sent, relays := w.relays[r := b.(broken := true)])
    case Commit(r) =>
      if r in w.relays && (w.relays[r].broken || w.relays[r].done == |w.relays[r].pending|) && w.relays[r].done <= |w.relays[r].pending|
      then w.(rows := Mark(w.rows, w.relays[r].pending[..w.relays[r].done]), relays := w.relays - {r})
      else w
    case Abort(r) => w.(relays := w.relays - {r})
  }

  function Run(steps: seq<Step>): World {
    if steps == [] then World([], [], map[]) else Next(Run(steps[..|steps|-1]), steps[|steps|-1])
  }

  // ---- with any number of relays

  ghost predicate BatchOk(w: World, b: Batch) {
    && Increasing(b.pending) && b.done <= |b.pending|
    && (forall id :: id in b.pending ==> OutRow(id, false) in w.rows)
    && (forall i :: 0 <= i < b.done ==> b.pending[i] in w.sent)
  }

  predicate HasRow(rows: seq<OutRow>, id: nat) {
    OutRow(id, false) in rows || OutRow(id, true) in rows
  }

  ghost predicate Inv(w: World) {
    && ById(w.rows)
    && (forall id :: id in w.sent ==> HasRow(w.rows, id))
    && (forall x :: x in w.rows && x.published ==> x.id in w.sent)
    && (forall r :: r in w.relays ==> BatchOk(w, w.relays[r]))
    && (forall r, q, id :: r in w.relays && q in w.relays && r != q && id in w.relays[r].pending ==> id !in w.relays[q].pending)
  }

  lemma InvAppear(w: World, id: nat)
    requires Inv(w)
    ensures Inv(Next(w, Appear(id)))
  {
    if forall x :: x in w.rows ==> x.id != id {
      Placed(w.rows, id);
    }
  }

  lemma InvBegin(w: World, r: nat, limit: nat)
    requires Inv(w)
    ensures Inv(Next(w, Begin(r, limit)))
  {
    PendingIds(w.rows, Locked(w), limit);
    var w' := Next(w, Begin(r, limit));
    if w' != w {
      forall q, id | q in w.relays && id in w.relays[q].pending
        ensures id !in w'.relays[r].pending
      {
        assert id in Locked(w);
      }
    }
  }

  lemma InvCommit(w: World, r: nat)
    requires Inv(w)
    ensures Inv(Next(w, Commit(r)))
  {
    var w' := Next(w, Commit(r));
    if w' != w && r in w.relays {
      var ids := w.relays[r].pending[..w.relays[r].done];
      Marked(w.rows, ids);
      hide Mark;
      forall id | id in w.sent
        ensures HasRow(w'.rows, id)
      {
        var i :| 0 <= i < |w.rows| && w.rows[i].id == id;
        assert w'.rows[i].id == id && w'.rows[i] == OutRow(id, w'.rows[i].published);
      }
      forall q | q in w'.relays
        ensures BatchOk(w', w'.relays[q])
      {
        forall id | id in w'.relays[q].pending
          ensures OutRow(id, false) in w'.rows
        {
          assert BatchOk(w, w.relays[q]);
          var i :| 0 <= i < |w.rows| && w.rows[i] == OutRow(id, false);
          assert id !in w.relays[r].pending;
          assert w'.rows[i] == w.rows[i];
        }
      }
    }
  }

  lemma {:induction false} RunInv(steps: seq<Step>)
    ensures Inv(Run(steps))
  {
    if steps != [] {
      var w := Run(steps[..|steps|-1]);
      RunInv(steps[..|steps|-1]);
      match steps[|steps|-1]
      case Appear(id) => InvAppear(w, id);
      case Begin(r, limit) => InvBegin(w, r, limit);
      case Commit(r) => InvCommit(w, r);
      case Publish(r, ok, delivered) =>
      case Abort(r) =>
    }
  }

  // A row is marked published only if it was sent, whatever fails and however many relays run.
  lemma MarkedWasSent(steps: seq<Step>, x: OutRow)
    requires x in Run(steps).rows && x.published
    ensures x.id in Run(steps).sent
  {
    RunInv(steps);
  }

  // Batches in flight share no row, and all their rows are still unpublished.
  lemma BatchesAreDisjoint(steps: seq<Step>, r: nat, q: nat, id: nat)
    requires r in Run(steps).relays && q in Run(steps).relays && r != q && id in Run(steps).relays[r].pending
    ensures id !in Run(steps).relays[q].pending && OutRow(id, false) in Run(steps).rows
  {
    RunInv(steps);
  }

  // A step marks nothing, or exactly a prefix of one batch, all of it sent; no mark is taken back.
  lemma CommitsMarkAPrefix(steps: seq<Step>, step: Step, x: OutRow)
    requires x in Run(steps).rows
    ensures x.published ==> x in Run(steps + [step]).rows
    ensures !x.published && OutRow(x.id, true) in Run(steps + [step]).rows <==>
            !x.published && step.Commit? && step.r in Run(steps).relays &&
            var b := Run(steps).relays[step.r]; b.done <= |b.pending| && (b.broken || b.done == |b.pending|) && x.id in b.pending[..b.done]
  {
    RunInv(steps);
    var w := Run(steps);
    assert (steps + [step])[..|steps|] == steps;
    match step
    case Appear(id) => if forall y :: y in w.rows ==> y.id != id { Placed(w.rows, id); }
    case Commit(r) =>
      if r in w.relays {
        Marked(w.rows, w.relays[r].pending[..w.relays[r].done]);
        var i :| 0 <= i < |w.rows| && w.rows[i] == x;
        assert Mark(w.rows, w.relays[r].pending[..w.relays[r].done])[i].id == x.id;
      }
    case _ =>
  }

  // ---- with one relay

  // Every send comes after the sends of all rows with a smaller id.
  ghost predicate FirstSendsInOrder(w: World) {
    forall p, x :: 0 <= p < |w.sent| && x in w.rows && x.id < w.sent[p] ==> x.id in w.sent[..p]
  }

  // The published rows are a prefix of the table in id order.
  ghost predicate PublishedIsPrefix(w: World) {
    forall x, y :: x in w.rows && y in w.rows && y.published && x.id < y.id ==> x.published
  }

  // The batch in flight is the run of rows right after the published ones.
  ghost predicate BatchIsNext(w: World) {
    forall r, k, x :: r in w.relays && 0 <= k < |w.relays[r].pending| && x in w.rows && x.id < w.relays[r].pending[k]
      ==> x.published || x.id in w.relays[r].pending[..k]
  }

  ghost predicate Steady(w: World) {
    FirstSendsInOrder(w) && PublishedIsPrefix(w) && BatchIsNext(w)
  }

  // Only one relay takes steps.
  predicate Single(step: Step) {
    step.Appear? || step.r == 0
  }

  // A row that becomes visible is new, and beyond everything sent or about to be sent.
  ghost predicate Timely(w: World, step: Step) {
    step.Appear? && (forall x :: x in w.rows ==> x.id != step.id) ==>
      && (forall id :: id in w.sent ==> id < step.id)
      && (forall r, id :: r in w.relays && id in w.relays[r].pending ==> id < step.id)
  }

  lemma SteadyBegin(w: World, limit: nat)
    requires Inv(w) && Steady(w) && w.relays.Keys <= {0}
    ensures Steady(Next(w, Begin(0, limit)))
  {
    PendingIds(w.rows, Locked(w), limit);
    var w' := Next(w, Begin(0, limit));
    if w' != w {
      assert Locked(w) == {};
      forall k, x | 0 <= k < |w'.relays[0].pending| && x in w.rows && x.id < w'.relays[0].pending[k]
        ensures x.published || x.id in w'.relays[0].pending[..k]
      {
        assert x == OutRow(x.id, x.published);
      }
    }
  }

  lemma SteadyPublish(w: World, ok: bool, delivered: bool)
    requires Inv(w) && Steady(w)
    ensures Steady(Next(w, Publish(0, ok, delivered)))
  {
    var w' := Next(w, Publish(0, ok, delivered));
    if w'.sent != w.sent {
      var b := w.relays[0];
      assert w'.sent == w.sent + [b.pending[b.done]];
      forall x | x in w.rows && x.id < b.pending[b.done]
        ensures x.id in w.sent
      {
        if !x.published {
          var i :| 0 <= i < b.done && b.pending[..b.done][i] == x.id;
        }
      }
      forall p, x | 0 <= p < |w'.sent| && x in w.rows && x.id < w'.sent[p]
        ensures x.id in w'.sent[..p]
      {
        if p == |w.sent| {
          assert w'.sent[..p] == w.sent;
        } else {
          assert w'.sent[..p] == w.sent[..p];
        }
      }
    }
  }

  // Where a row of a marked table comes from.
  lemma MarkedFrom(rows: seq<OutRow>, ids: seq<nat>, x': OutRow) returns (x: OutRow)
    requires x' in Mark(rows, ids)
    ensures x in rows && x.id == x'.id && (x'.published <==> x.published || x.id in ids)
  {
    Marked(rows, ids);
    var i :| 0 <= i < |rows| && Mark(rows, ids)[i] == x';
    x := rows[i];
  }

  lemma CommitKeepsPrefix(w: World, b: Batch)
    requires PublishedIsPrefix(w) && BatchOk(w, b)
    requires forall k, x :: 0 <= k < |b.pending| && x in w.rows && x.id < b.pending[k] ==> x.published || x.id in b.pending[..k]
    ensures PublishedIsPrefix(w.(rows := Mark(w.rows, b.pending[..b.done])))
  {
    var ids := b.pending[..b.done];
    forall x', y' | x' in Mark(w.rows, ids) && y' in Mark(w.rows, ids) && y'.published && x'.id < y'.id
      ensures x'.published
    {
      var x := MarkedFrom(w.rows, ids, x');
      var y := MarkedFrom(w.rows, ids, y');
      if !y.published {
        var k :| 0 <= k < b.done && b.pending[k] == y.id;
        assert x.published || x.id in b.pending[..k];
        if x.id in b.pending[..k] {
          var l :| 0 <= l < k && b.pending[l] == x.id;
          assert ids[l] == x.id;
        }
      }
    }
  }

  lemma CommitKeepsSends(w: World, ids: seq<nat>)
    requires FirstSendsInOrder(w)
    ensures FirstSendsInOrder(w.(rows := Mark(w.rows, ids)))
  {
    forall p, x' | 0 <= p < |w.sent| && x' in Mark(w.rows, ids) && x'.id < w.sent[p]
      ensures x'.id in w.sent[..p]
    {
      var x := MarkedFrom(w.rows, ids, x');
    }
  }

  lemma SteadyCommit(w: World)
    requires Inv(w) && Steady(w) && w.relays.Keys <= {0}
    ensures Steady(Next(w, Commit(0)))
  {
    var w' := Next(w, Commit(0));
    if 0 in w.relays && w' != w {
      var b := w.relays[0];
      assert BatchOk(w, b);
      hide Mark, Inv;
      CommitKeepsPrefix(w, b);
      CommitKeepsSends(w, b.pending[..b.done]);
      assert w'.relays == map[];
    }
  }

  // Becoming visible in time is exactly what keeps the order.
  lemma AppearKeepsOrderExactly(w: World, id: nat)
    requires Inv(w) && Steady(w)
    ensures Steady(Next(w, Appear(id))) <==> Timely(w, Appear(id))
  {
    var w' := Next(w, Appear(id));
    if forall x :: x in w.rows ==> x.id != id {
      Placed(w.rows, id);
      var late := OutRow(id, false);
      assert !HasRow(w.rows, id) && late in w'.rows;
      if Timely(w, Appear(id)) {
        AppearInTime(w, id);
      } else if p :| 0 <= p < |w.sent| && w.sent[p] >= id {
        assert w.sent[p] in w.sent && HasRow(w.rows, w.sent[p]);
        assert id in w.sent ==> HasRow(w.rows, id);
        assert late.id < w'.sent[p] && late.id !in w'.sent[..p];
      } else {
        var r, s :| r in w.relays && s in w.relays[r].pending && s >= id;
        var k :| 0 <= k < |w.relays[r].pending| && w.relays[r].pending[k] == s;
        assert BatchOk(w, w.relays[r]);
        assert forall t :: t in w.relays[r].pending ==> OutRow(t, false) in w.rows;
        assert late.id !in w.relays[r].pending[..k] && late.id < w'.relays[r].pending[k];
      }
    }
  }

  lemma AppearInTime(w: World, id: nat)
    requires Inv(w) && Steady(w) && Timely(w, Appear(id)) && forall x :: x in w.rows ==> x.id != id
    ensures Steady(Next(w, Appear(id)))
  {
    Placed(w.rows, id);
    var w' := Next(w, Appear(id));
    forall y | y in w.rows && y.published
      ensures y.id < id
    {
      assert y.id in w.sent;
    }
    forall p, x | 0 <= p < |w.sent| && x in w'.rows && x.id < w.sent[p]
      ensures x.id in w.sent[..p]
    {
      assert w.sent[p] in w.sent;
    }
    forall r, k, x | r in w.relays && 0 <= k < |w.relays[r].pending| && x in w'.rows && x.id < w.relays[r].pending[k]
      ensures x.published || x.id in w.relays[r].pending[..k]
    {
      assert w.relays[r].pending[k] in w.relays[r].pending;
    }
  }

  // After every prefix of the run.
  ghost predicate AlwaysSteady(steps: seq<Step>) {
    Steady(Run(steps)) && (steps != [] ==> AlwaysSteady(steps[..|steps|-1]))
  }

  ghost predicate AlwaysTimely(steps: seq<Step>) {
    steps != [] ==> Timely(Run(steps[..|steps|-1]), steps[|steps|-1]) && AlwaysTimely(steps[..|steps|-1])
  }

  // With one relay, a run keeps the order at every moment exactly when every row becomes visible in time.
  lemma {:induction false} OrderKeptExactly(steps: seq<Step>)
    requires forall i :: 0 <= i < |steps| ==> Single(steps[i])
    ensures AlwaysSteady(steps) <==> AlwaysTimely(steps)
    ensures Run(steps).relays.Keys <= {0}
  {
    if steps != [] {
      var before, step := steps[..|steps|-1], steps[|steps|-1];
      OrderKeptExactly(before);
      RunInv(before);
      hide Steady, Timely, Inv, Next;
      StepKeepsOrderExactly(Run(before), step);
    }
  }

  lemma StepKeepsOrderExactly(w: World, step: Step)
    requires Inv(w) && w.relays.Keys <= {0} && Single(step)
    ensures Steady(w) ==> (Steady(Next(w, step)) <==> Timely(w, step))
    ensures Next(w, step).relays.Keys <= {0}
  {
    if Steady(w) {
      match step
      case Appear(id) => AppearKeepsOrderExactly(w, id);
      case Begin(_, limit) => SteadyBegin(w, limit);
      case Publish(_, ok, delivered) => SteadyPublish(w, ok, delivered);
      case Commit(_) => SteadyCommit(w);
      case Abort(_) =>
    }
  }

  lemma RunPush(steps: seq<Step>, step: Step)
    ensures Run(steps + [step]) == Next(Run(steps), step)
  {
    assert (steps + [step])[..|steps|] == steps;
  }

  lemma RunNothing()
    ensures Run([]) == World([], [], map[])
  {
  }

  lemma FreeOfTwo(locked: set<nat>)
    ensures Free([OutRow(1, false), OutRow(2, false)], locked) == (if 1 in locked then [] else [1]) + (if 2 in locked then [] else [2])
  {
    var rows := [OutRow(1, false), OutRow(2, false)];
    assert rows[..1] == [OutRow(1, false)] && rows[..1][..0] == [];
    assert Free(rows[..1], locked) == if 1 in locked then [] else [1];
  }

  lemma OutOfOrder(w: World, x: OutRow)
    requires x in w.rows && w.sent != [] && x.id < w.sent[0]
    ensures !FirstSendsInOrder(w)
  {
    assert x.id !in w.sent[..0];
  }

  const TWO := [OutRow(1, false), OutRow(2, false)]

  lemma TwoAppear()
    ensures Run([Appear(1), Appear(2)]) == World(TWO, [], map[])
  {
    hide Run;
    RunNothing();
    RunPush([], Appear(1));
    assert [] + [Appear(1)] == [Appear(1)];
    RunPush([Appear(1)], Appear(2));
    assert [Appear(1)] + [Appear(2)] == [Appear(1), Appear(2)];
    assert Place([], 1) == [OutRow(1, false)] && Place([OutRow(1, false)], 2) == TWO;
  }

  lemma FirstBegins()
    ensures Run([Appear(1), Appear(2), Begin(0, 1)]) == World(TWO, [], map[0 := Batch([1], 0, false)])
  {
    hide Run;
    TwoAppear();
    RunPush([Appear(1), Appear(2)], Begin(0, 1));
    assert [Appear(1), Appear(2)] + [Begin(0, 1)] == [Appear(1), Appear(2), Begin(0, 1)];
    FreeOfTwo({});
    assert Locked(World(TWO, [], map[])) == {};
  }

  lemma SecondBegins()
    ensures Run([Appear(1), Appear(2), Begin(0, 1), Begin(1, 1)]) == World(TWO, [], map[0 := Batch([1], 0, false), 1 := Batch([2], 0, false)])
  {
    hide Run, Free;
    FirstBegins();
    var w := World(TWO, [], map[0 := Batch([1], 0, false)]);
    RunPush([Appear(1), Appear(2), Begin(0, 1)], Begin(1, 1));
    assert [Appear(1), Appear(2), Begin(0, 1)] + [Begin(1, 1)] == [Appear(1), Appear(2), Begin(0, 1), Begin(1, 1)];
    assert 1 in w.relays[0].pending;
    assert Locked(w) == {1};
    FreeOfTwo({1});
    assert Pending(TWO, {1}, 1) == [2];
  }

  // With two relays the order of first sends is not kept, even when rows appear in order.
  lemma TwoRelaysReorder()
    ensures var w := Run([Appear(1), Appear(2), Begin(0, 1), Begin(1, 1), Publish(1, true, true)]);
            w.sent == [2] && OutRow(1, false) in w.rows && !FirstSendsInOrder(w)
  {
    hide Run;
    SecondBegins();
    RunPush([Appear(1), Appear(2), Begin(0, 1), Begin(1, 1)], Publish(1, true, true));
    assert [Appear(1), Appear(2), Begin(0, 1), Begin(1, 1)] + [Publish(1, true, true)] ==
           [Appear(1), Appear(2), Begin(0, 1), Begin(1, 1), Publish(1, true, true)];
    var w := Run([Appear(1), Appear(2), Begin(0, 1), Begin(1, 1), Publish(1, true, true)]);
    assert w.rows[0] == OutRow(1, false) && w.sent == [2];
    OutOfOrder(w, OutRow(1, false));
  }

  lemma OneAppears()
    ensures Run([Appear(2)]) == World([OutRow(2, false)], [], map[])
  {
    hide Run;
    RunNothing();
    RunPush([], Appear(2));
    assert [] + [Appear(2)] == [Appear(2)];
  }

  lemma OneBegins()
    ensures Run([Appear(2), Begin(0, 1)]) == World([OutRow(2, false)], [], map[0 := Batch([2], 0, false)])
  {
    hide Run, Place;
    OneAppears();
    var w := World([OutRow(2, false)], [], map[]);
    RunPush([Appear(2)], Begin(0, 1));
    assert [Appear(2)] + [Begin(0, 1)] == [Appear(2), Begin(0, 1)];
    assert Locked(w) == {};
    assert Free(w.rows, {}) == [2];
    hide Free, Locked;
  }

  lemma TwoSent()
    ensures Run([Appear(2), Begin(0, 1), Publish(0, true, true)]) == World([OutRow(2, false)], [2], map[0 := Batch([2], 1, false)])
  {
    OneBegins();
    hide Run;
    RunPush([Appear(2), Begin(0, 1)], Publish(0, true, true));
    assert [Appear(2), Begin(0, 1)] + [Publish(0, true, true)] == [Appear(2), Begin(0, 1), Publish(0, true, true)];
  }

  // A writer that commits late: its row has the smaller id but becomes visible when the
  // larger has been sent; from then on the order is lost.
  lemma LateCommitReorders()
    ensures var w := Run([Appear(2), Begin(0, 1), Publish(0, true, true), Appear(1)]);
            w.sent == [2] && OutRow(1, false) in w.rows && !FirstSendsInOrder(w)
  {
    hide Run;
    TwoSent();
    RunPush([Appear(2), Begin(0, 1), Publish(0, true, true)], Appear(1));
    assert [Appear(2), Begin(0, 1), Publish(0, true, true)] + [Appear(1)] == [Appear(2), Begin(0, 1), Publish(0, true, true), Appear(1)];
    var w := Run([Appear(2), Begin(0, 1), Publish(0, true, true), Appear(1)]);
    Placed([OutRow(2, false)], 1);
    OutOfOrder(w, OutRow(1, false));
  }

  // ---- one batch as it runs

  class Outbox {
    var rows: seq<OutRow>
    var sent: seq<nat>

    constructor ()
      ensures rows == [] && sent == []
    {
      rows, sent := [], [];
    }

    // SELECT ... WHERE published_at IS NULL ORDER BY id LIMIT ... SKIP LOCKED
    method SelectPending(locked: set<nat>, limit: nat) returns (pending: seq<nat>)
      ensures pending == Pending(rows, locked, limit)
    {
      pending := [];
      for i := 0 to |rows|
        invariant pending == Free(rows[..i], locked)
      {
        assert rows[..i+1][..i] == rows[..i];
        if !rows[i].published && rows[i].id !in locked {
          pending := pending + [rows[i].id];
        }
      }
      assert rows[..|rows|] == rows;
      if limit < |pending| {
        pending := pending[..limit];
      }
    }

    // UPDATE outbox SET published_at = now() WHERE id = ANY(...)
    method MarkPublished(ids: seq<nat>)
      modifies this`rows
      ensures rows == Mark(old(rows), ids)
    {
      var marked := [];
      for i := 0 to |rows|
        invariant rows == old(rows) && marked == Mark(rows[..i], ids)
      {
        assert rows[..i+1][..i] == rows[..i];
        marked := marked + [if rows[i].id in ids then OutRow(rows[i].id, true) else rows[i]];
      }
      assert rows[..|rows|] == rows;
      rows := marked;
    }
  }

  // The publisher's answer to the n-th publication of the batch.
  datatype Outcome = Accepted | Failed(delivered: bool)

  function After(w: World, steps: seq<Step>): World {
    if steps == [] then w else Next(After(w, steps[..|steps|-1]), steps[|steps|-1])
  }

  lemma AfterNothing(w: World)
    ensures After(w, []) == w
  {
  }

  lemma AfterPush(w: World, steps: seq<Step>, step: Step)
    ensures After(w, steps + [step]) == Next(After(w, steps), step)
  {
    assert (steps + [step])[..|steps|] == steps;
  }

  // Sends the pending rows in order and stops at the first failure; what was accepted is
  // marked, unless the UPDATE or the commit fails (updates, commits). In all cases it is a run of relay r.
  method PublishBatch(o: Outbox, r: nat, locked: set<nat>, limit: nat, publish: nat -> Outcome, updates: bool, commits: bool,
                      ghost others: map<nat, Batch>)
      returns (n: nat, ok: bool, ghost accepted: nat, ghost steps: seq<Step>)
    requires r !in others && locked == Locked(World(o.rows, o.sent, others))
    modifies o
    ensures World(o.rows, o.sent, others) == After(old(World(o.rows, o.sent, others)), steps)
    ensures forall i :: 0 <= i < |steps| ==> !steps[i].Appear? && steps[i].r == r
    ensures var p := Pending(old(o.rows), locked, limit);
            && accepted <= |p| && (forall i :: 0 <= i < accepted ==> publish(i).Accepted?) && (accepted < |p| ==> publish(accepted).Failed?)
            && o.sent == old(o.sent) + p[..accepted] + (if accepted < |p| && publish(accepted) == Failed(true) then [p[accepted]] else [])
            && (ok ==> n == accepted && o.rows == Mark(old(o.rows), p[..n]))
            && (!ok ==> o.rows == old(o.rows))
            && (ok <==> p == [] || (commits && (updates || publish(0).Failed?)))
  {
    hide After, Free, Pending, Mark, Locked;
    ghost var w := World(o.rows, o.sent, others);
    AfterNothing(w);
    var pending := o.SelectPending(locked, limit);
    steps := [];
    if |pending| == 0 {
      assert Mark(o.rows, []) == o.rows by { Marked(o.rows, []); }
      return 0, true, 0, [];
    }
    steps := [Begin(r, limit)];
    AfterPush(w, [], Begin(r, limit));
    assert [] + [Begin(r, limit)] == steps;
    var published: seq<nat> := [];
    var broken := false;
    while |published| < |pending| && !broken
      invariant o.rows == w.rows && published <= pending
      invariant broken ==> |published| < |pending| && publish(|published|).Failed?
      invariant forall i :: 0 <= i < |published| ==> publish(i).Accepted?
      invariant o.sent == w.sent + published + if broken && publish(|published|) == Failed(true) then [pending[|published|]] else []
      invariant After(w, steps) == World(w.rows, o.sent, others[r := Batch(pending, |published|, broken)])
      invariant forall i :: 0 <= i < |steps| ==> !steps[i].Appear? && steps[i].r == r
      decreases |pending| - |published|, !broken
    {
      var x := pending[|published|];
      match publish(|published|) {
        case Accepted =>
          AfterPush(w, steps, Publish(r, true, true));
          steps := steps + [Publish(r, true, true)];
          o.sent := o.sent + [x];
          published := published + [x];
        case Failed(delivered) =>
          AfterPush(w, steps, Publish(r, false, delivered));
          steps := steps + [Publish(r, false, delivered)];
          if delivered {
            o.sent := o.sent + [x];
          }
          broken := true;
      }
    }
    assert published == pending[..|published|];
    assert others[r := Batch(pending, |published|, broken)] - {r} == others;
    if |published| > 0 && !updates {
      AfterPush(w, steps, Abort(r));
      steps := steps + [Abort(r)];
      return 0, false, |published|, steps;
    }
    if !commits {
      AfterPush(w, steps, Abort(r));
      steps := steps + [Abort(r)];
      return |published|, false, |published|, steps;
    }
    AfterPush(w, steps, Commit(r));
    steps := steps + [Commit(r)];
    if |published| > 0 {
      o.MarkPublished(published);
    } else {
      Marked(o.rows, []);
    }
    return |published|, true, |published|, steps;
  }
}
