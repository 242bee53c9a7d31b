/** Optimistic locking: clients that read, change and write one row in separate steps, guarded by its version. */
module VersionGuard {
  import opened Results
  import opened Tables
  import R = Receivables
  import T = Transactions

  // A client holds a copy it has read, or a change it has not written yet.
  datatype Client<D> = Idle | Loaded(base: Row<D>) | Changed(base: Row<D>, row: Row<D>)

  // Everything ever committed to the row, the last being what is stored.
  datatype World<D> = World(history: seq<Row<D>>, clients: map<nat, Client<D>>)

  datatype Event<D> = Read(c: nat) | Change(c: nat, row: Row<D>) | Write(c: nat) | Drop(c: nat)

  // Which changes of the data are legal, and by how much a change may raise the version.
  datatype Rules<!D> = Rules(legal: (D, D) -> bool, bumps: set<nat>)

  predicate IsChange<D>(rules: Rules<D>, from: Row<D>, to: Row<D>) {
    to.id == from.id && rules.legal(from.data, to.data) && to.version > from.version && to.version - from.version in rules.bumps
  }

  function Current<D>(w: World<D>): Row<D>
    requires w.history != []
  {
    w.history[|w.history|-1]
  }

  function ClientOf<D>(w: World<D>, c: nat): Client<D> {
    if c in w.clients then w.clients[c] else Idle
  }

  // One step of one client; a step that is not possible changes nothing. The write is
  // the repository's guarded UPDATE: refused, the client starts over.
  function Next<D>(rules: Rules<D>, w: World<D>, e: Event<D>): (w': World<D>)
    requires w.history != []
    ensures w'.history != []
  {
    match e
    case Read(c) => w.(clients := w.clients[c := Loaded(Current(w))])
    case Drop(c) => w.(clients := w.clients[c := Idle])
    case Change(c, row) =>
      (match ClientOf(w, c)
       case Loaded(base) => if IsChange(rules, base, row) then w.(clients := w.clients[c := Changed(base, row)]) else w
       case _ => w)
    case Write(c) =>
      (match ClientOf(w, c)
       case Changed(_, row) =>
         if Update([Current(w)], row).Ok?
         then World(w.history + [row], w.clients[c := Idle])
         else w.(clients := w.clients[c := Idle])
       case _ => w)
  }

  function Run<D>(rules: Rules<D>, first: Row<D>, events: seq<Event<D>>): (w: World<D>)
    ensures w.history != []
  {
    if events == [] then World([first], map[]) else Next(rules, Run(rules, first, events[..|events|-1]), events[|events|-1])
  }

  // A client's write goes through exactly when the row is still the one it has read.
  ghost predicate IsCas<D(!new)>(w: World<D>)
    requires w.history != []
  {
    forall c :: ClientOf(w, c).Changed? ==> (Update([Current(w)], ClientOf(w, c).row).Ok? <==> Current(w) == ClientOf(w, c).base)
  }

  // ---- one amount for every change

  ghost predicate SpacedBy<D>(rules: Rules<D>, history: seq<Row<D>>, bump: nat) {
    && (forall i :: 0 <= i < |history| ==> history[i].version == history[0].version + bump * i)
    && (forall i :: 0 <= i < |history| - 1 ==> IsChange(rules, history[i], history[i+1]))
    && (forall i :: 0 <= i < |history| ==> history[i].id == history[0].id)
  }

  ghost predicate HeldBy<D>(rules: Rules<D>, history: seq<Row<D>>, client: Client<D>) {
    match client
    case Idle => true
    case Loaded(base) => base in history
    case Changed(base, row) => base in history && IsChange(rules, base, row)
  }

  ghost predicate Good<D(!new)>(rules: Rules<D>, w: World<D>, bump: nat) {
    w.history != [] && SpacedBy(rules, w.history, bump) && forall c :: HeldBy(rules, w.history, ClientOf(w, c))
  }

  lemma GuardOne<D>(row: Row<D>, new_: Row<D>)
    requires new_.id == row.id
    ensures Update([row], new_).Ok? <==> row.version < new_.version
  {
    FindAt([row], 0);
  }

  lemma {:induction false} Spacing(bump: nat, k: nat, n: nat)
    requires k <= n && bump > 0
    ensures k < n ==> bump * n >= bump * k + bump
    decreases n
  {
    if k < n {
      assert bump * n == bump * (n - 1) + bump;
      Spacing(bump, k, n - 1);
    }
  }

  lemma SpacedPush<D>(rules: Rules<D>, history: seq<Row<D>>, bump: nat, row: Row<D>)
    requires history != [] && SpacedBy(rules, history, bump) && IsChange(rules, history[|history|-1], row) && rules.bumps == {bump}
    ensures SpacedBy(rules, history + [row], bump)
  {
    var n := |history| - 1;
    assert row.version == history[0].version + bump * n + bump == history[0].version + bump * (n + 1);
  }

  lemma GuardHits<D(!new)>(rules: Rules<D>, w: World<D>, bump: nat, base: Row<D>, row: Row<D>)
    requires rules.bumps == {bump} && Good(rules, w, bump) && base in w.history && IsChange(rules, base, row)
    ensures Update([Current(w)], row).Ok? <==> Current(w) == base
    ensures Update([Current(w)], row).Ok? ==> SpacedBy(rules, w.history + [row], bump)
  {
    var n := |w.history| - 1;
    var k :| 0 <= k <= n && w.history[k] == base;
    assert row.version - base.version == bump;
    GuardOne(Current(w), row);
    Spacing(bump, k, n);
    if k == n {
      SpacedPush(rules, w.history, bump, row);
    }
  }

  lemma {:induction false} RunIsGood<D(!new)>(rules: Rules<D>, first: Row<D>, events: seq<Event<D>>, bump: nat)
    requires rules.bumps == {bump}
    ensures Good(rules, Run(rules, first, events), bump)
  {
    if events != [] {
      var before := Run(rules, first, events[..|events|-1]);
      RunIsGood(rules, first, events[..|events|-1], bump);
      var e := events[|events|-1];
      var w := Next(rules, before, e);
      if e.Write? && ClientOf(before, e.c).Changed? {
        GuardHits(rules, before, bump, ClientOf(before, e.c).base, ClientOf(before, e.c).row);
      }
      forall c
        ensures HeldBy(rules, w.history, ClientOf(w, c))
      {
        assert HeldBy(rules, before.history, ClientOf(before, c));
      }
    }
  }

  // With one bump for every change, the guard is a compare-and-set under any interleaving.
  lemma UniformGuardIsCas<D(!new)>(rules: Rules<D>, first: Row<D>, events: seq<Event<D>>, bump: nat)
    requires rules.bumps == {bump}
    ensures IsCas(Run(rules, first, events))
  {
    var w := Run(rules, first, events);
    RunIsGood(rules, first, events, bump);
    forall c | ClientOf(w, c).Changed?
      ensures Update([Current(w)], ClientOf(w, c).row).Ok? <==> Current(w) == ClientOf(w, c).base
    {
      assert HeldBy(rules, w.history, ClientOf(w, c));
      GuardHits(rules, w, bump, ClientOf(w, c).base, ClientOf(w, c).row);
    }
  }

  // No committed change is ever overwritten: what is stored later has gone through it, one
  // legal change and one version at a time.
  lemma {:induction false} NothingIsOverwritten<D(!new)>(rules: Rules<D>, first: Row<D>, events: seq<Event<D>>, n: nat)
    requires rules.bumps == {1} && n <= |events|
    ensures Run(rules, first, events[..n]).history <= Run(rules, first, events).history
    ensures var h := Run(rules, first, events).history;
            forall i :: 0 <= i < |h| - 1 ==> rules.legal(h[i].data, h[i+1].data) && h[i+1].version == h[i].version + 1 && h[i+1].id == h[i].id
    decreases |events|
  {
    RunIsGood(rules, first, events, 1);
    var h := Run(rules, first, events).history;
    forall i | 0 <= i < |h| - 1
      ensures rules.legal(h[i].data, h[i+1].data) && h[i+1].version == h[i].version + 1 && h[i+1].id == h[i].id
    {
      assert IsChange(rules, h[i], h[i+1]);
    }
    if n < |events| {
      NothingIsOverwritten(rules, first, events[..|events|-1], n);
      assert events[..|events|-1][..n] == events[..n];
    } else {
      assert events[..n] == events;
    }
  }

  // ---- two amounts

  // Two clients read the same row; the one that raises the version more can still write
  // after the other, over a change it has not seen.
  function LostUpdate<D>(small: Row<D>, big: Row<D>): seq<Event<D>> {
    [Read(0), Read(1), Change(0, small), Change(1, big), Write(0)]
  }

  // Up to the point where both have read and changed the row.
  lemma BothChanged<D(!new)>(rules: Rules<D>, first: Row<D>, small: Row<D>, big: Row<D>)
    requires IsChange(rules, first, small) && IsChange(rules, first, big)
    ensures var w := Run(rules, first, [Read(0), Read(1), Change(0, small), Change(1, big)]);
            w.history == [first] && ClientOf(w, 0) == Changed(first, small) && ClientOf(w, 1) == Changed(first, big)
  {
    hide Run, IsChange;
    var none: seq<Event<D>>, one: Event<D>, two: Event<D> := [], Read(0), Read(1);
    RunNothing(rules, first);
    RunPush(rules, first, none, one);
    assert none + [one] == [one];
    RunPush(rules, first, [one], two);
    assert [one] + [two] == [one, two];
    RunPush(rules, first, [Read(0), Read(1)], Change(0, small));
    assert [Read(0), Read(1)] + [Change(0, small)] == [Read(0), Read(1), Change(0, small)];
    RunPush(rules, first, [Read(0), Read(1), Change(0, small)], Change(1, big));
    assert [Read(0), Read(1), Change(0, small)] + [Change(1, big)] == [Read(0), Read(1), Change(0, small), Change(1, big)];
  }

  lemma TwoBumpsLoseAnUpdate<D(!new)>(rules: Rules<D>, first: Row<D>, data: D, a: nat, b: nat)
    requires rules.legal(first.data, data) && a in rules.bumps && b in rules.bumps && 0 < a < b
    ensures var small, big := Row(first.id, first.version + a, data), Row(first.id, first.version + b, data);
            var w := Run(rules, first, LostUpdate(small, big));
            && w.history == [first, small] && ClientOf(w, 1) == Changed(first, big)
            && Update([small], big).Ok? && !IsCas(w)
            && Run(rules, first, LostUpdate(small, big) + [Write(1)]).history == [first, small, big]
  {
    var small, big := Row(first.id, first.version + a, data), Row(first.id, first.version + b, data);
    BothChanged(rules, first, small, big);
    hide Run;
    RunPush(rules, first, [Read(0), Read(1), Change(0, small), Change(1, big)], Write(0));
    assert [Read(0), Read(1), Change(0, small), Change(1, big)] + [Write(0)] == LostUpdate(small, big);
    RunPush(rules, first, LostUpdate(small, big), Write(1));
    GuardOne(first, small);
    GuardOne(small, big);
  }

  lemma RunNothing<D>(rules: Rules<D>, first: Row<D>)
    ensures Run(rules, first, []) == World([first], map[])
  {
  }

  lemma RunPush<D>(rules: Rules<D>, first: Row<D>, events: seq<Event<D>>, e: Event<D>)
    ensures Run(rules, first, events + [e]) == Next(rules, Run(rules, first, events), e)
  {
    assert (events + [e])[..|events|] == events;
  }

  // The guard protects every run exactly when all changes raise the version by one amount.
  lemma GuardIsCasExactly<D(!new)>(rules: Rules<D>, first: Row<D>, data: D)
    requires rules.legal(first.data, data)
    requires 0 !in rules.bumps && rules.bumps != {}
    ensures (forall events :: IsCas(Run(rules, first, events))) <==> (forall a, b :: a in rules.bumps && b in rules.bumps ==> a == b)
  {
    if forall a, b :: a in rules.bumps && b in rules.bumps ==> a == b {
      var bump :| bump in rules.bumps;
      assert rules.bumps == {bump};
      forall events
        ensures IsCas(Run(rules, first, events))
      {
        UniformGuardIsCas(rules, first, events, bump);
      }
    } else {
      var a, b :| a in rules.bumps && b in rules.bumps && a < b;
      TwoBumpsLoseAnUpdate(rules, first, data, a, b);
      var w := Run(rules, first, LostUpdate(Row(first.id, first.version + a, data), Row(first.id, first.version + b, data)));
      assert !IsCas(w);
    }
  }

  // ---- receivables and transactions raise the version by one

  ghost function ReceivableRules(): Rules<R.RcvData> {
    Rules((d: R.RcvData, d': R.RcvData) => d'.status in R.Transitions(d.status)
      && R.Frozen(Row(0, 0, d)) == R.Frozen(Row(0, 0, d')), {1})
  }

  ghost function TransactionRules(): Rules<T.TxData> {
    Rules((d: T.TxData, d': T.TxData) => d'.status in T.Transitions(d.status)
      && d'.(status := d.status, capturedAt := d.capturedAt, canceledAt := d.canceledAt) == d, {1})
  }

  // Every change the domain makes is one of these, so the guard protects both tables.
  lemma ReceivablesChangeByOne(r: R.Rcv, to: R.Status, id: Id)
    ensures R.Moved(r, to).Ok? ==> IsChange(ReceivableRules(), r, R.Moved(r, to).value)
    ensures R.Anticipate(r, id).Ok? ==> IsChange(ReceivableRules(), r, R.Anticipate(r, id).value)
    ensures R.Settle(r, id).Ok? ==> IsChange(ReceivableRules(), r, R.Settle(r, id).value)
  {
  }

  lemma TransactionsChangeByOne(t: T.Tx, status: T.Status, now: nat)
    ensures T.Moved(t, status).Ok? ==> IsChange(TransactionRules(), t, T.Moved(t, status).value)
    ensures T.Capture(t, now).Ok? ==> IsChange(TransactionRules(), t, T.Capture(t, now).value)
    ensures T.Cancel(t, now).Ok? ==> IsChange(TransactionRules(), t, T.Cancel(t, now).value)
  {
  }
}
