/** Idempotency keys: the key table, the request-side protocol, and any interleaving of requests, failures and crashes. */
module Idempotency {
  import opened Results

  // Keys are scoped by merchant.
  datatype Scope = Scope(merchant: Id, key: string)

  datatype Response = Response(status: nat, body: string)

  datatype KeyRow = KeyRow(hash: nat, response: Option<Response>)

  type Keys = map<Scope, KeyRow>

  datatype Begun = Started | Conflict | InProgress | Replay(response: Response)

  // ---- the SQL statements

  function InsertKey(keys: Keys, s: Scope, hash: nat): Keys {
    if s in keys then keys else keys[s := KeyRow(hash, None)]
  }

  function SelectKey(keys: Keys, s: Scope, hash: nat): Begun {
    if s !in keys then InProgress
    else if keys[s].hash != hash then Conflict
    else match keys[s].response
         case None => InProgress
         case Some(response) => Replay(response)
  }

  function CompleteKey(keys: Keys, s: Scope, response: Response): Keys {
    if s in keys then keys[s := keys[s].(response := Some(response))] else keys
  }

  function AbandonKey(keys: Keys, s: Scope): Keys {
    if s in keys && keys[s].response.None? then keys - {s} else keys
  }

  // What the row of a key says to a request: a conflict exactly for other content, in progress exactly
  // while the same content has no response yet, and the response exactly once it has.
  ghost predicate Answers(row: KeyRow, hash: nat, r: Begun) {
    && (r == Conflict <==> row.hash != hash)
    && (r == InProgress <==> row.hash == hash && row.response.None?)
    && (r.Replay? <==> row.hash == hash && row.response.Some?)
    && (r.Replay? ==> row.response == Some(r.response))
  }

  lemma SelectAnswers(keys: Keys, s: Scope, hash: nat)
    ensures s !in keys ==> SelectKey(keys, s, hash) == InProgress
    ensures s in keys ==> Answers(keys[s], hash, SelectKey(keys, s, hash))
  {
  }

  // ---- the store and the middleware, one request at a time

  class Store {
    var keys: Keys

    constructor ()
      ensures keys == map[]
    {
      keys := map[];
    }

    method Begin(s: Scope, hash: nat) returns (r: Begun)
      modifies this
      ensures s !in old(keys) ==> r == Started && keys == old(keys)[s := KeyRow(hash, None)]
      ensures s in old(keys) ==> keys == old(keys) && Answers(old(keys)[s], hash, r)
    {
      if s !in keys {
        keys := keys[s := KeyRow(hash, None)];
        return Started;
      }
      r := Select(s, hash);
    }

    method Select(s: Scope, hash: nat) returns (r: Begun)
      ensures s !in keys ==> r == InProgress
      ensures s in keys ==> Answers(keys[s], hash, r)
    {
      if s !in keys {
        return InProgress;
      }
      var row := keys[s];
      if row.hash != hash {
        return Conflict;
      }
      if row.response.None? {
        return InProgress;
      }
      return Replay(row.response.value);
    }

    method Complete(s: Scope, response: Response)
      modifies this
      ensures keys == if s in old(keys) then old(keys)[s := KeyRow(old(keys)[s].hash, Some(response))] else old(keys)
    {
      if s in keys {
        keys := keys[s := keys[s].(response := Some(response))];
      }
    }

    method Abandon(s: Scope)
      modifies this
      ensures keys == if s in old(keys) && old(keys)[s].response.None? then old(keys) - {s} else old(keys)
    {
      if s in keys && keys[s].response.None? {
        keys := keys - {s};
      }
    }
  }

  // What the client gets: a refusal, a stored response, or the handler's own.
  datatype Answer = BadKey | Unavailable | KeyReused | Busy | Replayed(response: Response) | Own(response: Response) | Lost

  // A handler writes its body in pieces; the capture keeps them all.
  class BodyCapture {
    var buf: string

    constructor ()
      ensures buf == ""
    {
      buf := "";
    }

    method Write(b: string)
      modifies this
      ensures buf == old(buf) + b
    {
      buf := buf + b;
    }
  }

  function Joined(pieces: seq<string>): string {
    if pieces == [] then "" else Joined(pieces[..|pieces|-1]) + pieces[|pieces|-1]
  }

  predicate ValidKey(key: string) {
    0 < |key| <= 128
  }

  // One request with no other in between: the handler, had it to run, would answer with
  // this status and these pieces of body.
  method Handle(store: Store, s: Scope, hash: nat, status: nat, pieces: seq<string>) returns (a: Answer, ran: bool)
    modifies store
    ensures a == BadKey <==> s.key == "" || |s.key| > 128
    ensures a == BadKey ==> !ran && store.keys == old(store.keys)
    ensures a != BadKey ==> ran == (s !in old(store.keys))
    ensures ran ==> a == Own(Response(status, Joined(pieces)))
    ensures ran && status >= 500 ==> store.keys == old(store.keys)
    ensures ran && status < 500 ==> store.keys == old(store.keys)[s := KeyRow(hash, Some(Response(status, Joined(pieces))))]
    ensures a != BadKey && s in old(store.keys) ==>
              && store.keys == old(store.keys)
              && (a == KeyReused <==> old(store.keys)[s].hash != hash)
              && (a == Busy <==> old(store.keys)[s].hash == hash && old(store.keys)[s].response.None?)
              && (forall x :: a == Replayed(x) <==> old(store.keys)[s].hash == hash && old(store.keys)[s].response == Some(x))
  {
    if s.key == "" || |s.key| > 128 {
      return BadKey, false;
    }
    var begun := store.Begin(s, hash);
    match begun {
      case Replay(response) => return Replayed(response), false;
      case Conflict => return KeyReused, false;
      case InProgress => return Busy, false;
      case Started =>
    }
    var w := new BodyCapture();
    for i := 0 to |pieces|
      invariant fresh(w) && w.buf == Joined(pieces[..i])
      invariant store.keys == old(store.keys)[s := KeyRow(hash, None)]
    {
      assert pieces[..i+1][..i] == pieces[..i];
      w.Write(pieces[i]);
    }
    assert pieces[..|pieces|] == pieces;
    a, ran := Own(Response(status, w.buf)), true;
    if status >= 500 {
      store.Abandon(s);
      assert store.keys == old(store.keys);
      return;
    }
    store.Complete(s, Response(status, w.buf));
  }

  function AnswerTo(b: Begun): Answer {
    match b
    case Replay(response) => Replayed(response)
    case Conflict => KeyReused
    case _ => Busy
  }

  // The same request again: it runs again only after a failure, and otherwise gets the
  // first response, byte for byte.
  method HandleTwice(store: Store, s: Scope, hash: nat, status: nat, pieces: seq<string>, status': nat, pieces': seq<string>)
      returns (first: Answer, second: Answer)
    requires ValidKey(s.key) && s !in store.keys
    modifies store
    ensures first == Own(Response(status, Joined(pieces)))
    ensures second == if status < 500 then Replayed(first.response) else Own(Response(status', Joined(pieces')))
  {
    var ran;
    first, ran := Handle(store, s, hash, status, pieces);
    second, ran := Handle(store, s, hash, status', pieces');
  }

  // ---- many requests at once

  // A request has a scope and the hash of its content, both fixed.
  datatype Request = Request(scope: Scope, hash: nat)

  // Where a request is: before its INSERT, between a lost INSERT and its SELECT, in the
  // handler, between the handler's response and the write that follows it, or over.
  datatype Phase = Arriving | Reading | Executing | Responded(response: Response) | Over(answer: Answer)

  datatype Completion = Completion(request: nat, response: Response)

  // completed records every Complete that took effect, ran every handler that has responded.
  datatype World = World(keys: Keys, phases: map<nat, Phase>, completed: seq<Completion>, ran: seq<Completion>)

  // A statement that fails may still have taken effect (applied).
  datatype Step =
    | Insert(q: nat)
    | InsertFails(q: nat, applied: bool)
    | Select(q: nat)
    | SelectFails(q: nat)
    | Respond(q: nat, response: Response)
    | Finish(q: nat, applied: bool)
    | Crash(q: nat)

  type Requests = nat -> Request

  function PhaseOf(w: World, q: nat): Phase {
    if q in w.phases then w.phases[q] else Arriving
  }

  function To(w: World, q: nat, p: Phase): World {
    w.(phases := w.phases[q := p])
  }

  // A step that a request is not ready for changes nothing.
  function Next(reqs: Requests, w: World, step: Step): World {
    var q := step.q;
    var s, hash := reqs(q).scope, reqs(q).hash;
    match (step, PhaseOf(w, q))
    case (Insert(_), Arriving) =>
      if s in w.keys then To(w, q, Reading) else To(w, q, Executing).(keys := InsertKey(w.keys, s, hash))
    case (InsertFails(_, applied), Arriving) =>
      To(w, q, Over(Unavailable)).(keys := if applied then InsertKey(w.keys, s, hash) else w.keys)
    case (Select(_), Reading) => To(w, q, Over(AnswerTo(SelectKey(w.keys, s, hash))))
    case (SelectFails(_), Reading) => To(w, q, Over(Unavailable))
    case (Respond(_, response), Executing) => To(w, q, Responded(response)).(ran := w.ran + [Completion(q, response)])
    case (Finish(_, applied), Responded(response)) =>
      var over := To(w, q, Over(Own(response)));
      if !applied then over
      else if response.status >= 500 then over.(keys := AbandonKey(w.keys, s))
      else over.(keys := CompleteKey(w.keys, s, response), completed := w.completed + [Completion(q, response)])
    case (Crash(_), Over(_)) => w
    case (Crash(_), _) => To(w, q, Over(Lost))
    case _ => w
  }

  function Run(reqs: Requests, steps: seq<Step>): World {
    if steps == [] then World(map[], map[], [], []) else Next(reqs, Run(reqs, steps[..|steps|-1]), steps[|steps|-1])
  }

  // The request has the key reserved and is at work on it.
  predicate Holding(w: World, q: nat) {
    PhaseOf(w, q).Executing? || PhaseOf(w, q).Responded?
  }

  ghost predicate HasCompleted(reqs: Requests, w: World, s: Scope, hash: nat, response: Response) {
    exists i :: 0 <= i < |w.completed| && reqs(w.completed[i].request) == Request(s, hash) && w.completed[i].response == response
  }

  // The key is taken and nobody will give it back.
  ghost predicate Taken(reqs: Requests, w: World, s: Scope) {
    s in w.keys && forall q :: Holding(w, q) ==> reqs(q).scope != s
  }

  // At most one request holds a key, and then the row is its own, without a response.
  ghost predicate OneHolder(reqs: Requests, w: World) {
    && (forall q :: Holding(w, q) ==> reqs(q).scope in w.keys && w.keys[reqs(q).scope] == KeyRow(reqs(q).hash, None))
    && (forall p, q :: Holding(w, p) && Holding(w, q) && p != q ==> reqs(p).scope != reqs(q).scope)
  }

  // Rows with a response are exactly the completions, one a scope.
  ghost predicate RowsAreCompletions(reqs: Requests, w: World) {
    && (forall s :: s in w.keys && w.keys[s].response.Some? ==> HasCompleted(reqs, w, s, w.keys[s].hash, w.keys[s].response.value))
    && (forall i :: 0 <= i < |w.completed| ==>
          var r := reqs(w.completed[i].request);
          && r.scope in w.keys && w.keys[r.scope] == KeyRow(r.hash, Some(w.completed[i].response))
          && PhaseOf(w, w.completed[i].request) == Over(Own(w.completed[i].response)))
    && (forall i, j :: 0 <= i < j < |w.completed| ==> reqs(w.completed[i].request).scope != reqs(w.completed[j].request).scope)
  }

  ghost predicate ReplaysAreCompletions(reqs: Requests, w: World) {
    forall q :: PhaseOf(w, q).Over? && PhaseOf(w, q).answer.Replayed? ==>
      HasCompleted(reqs, w, reqs(q).scope, reqs(q).hash, PhaseOf(w, q).answer.response)
  }

  // A handler that answered without a server error still holds the key or has left it taken.
  ghost predicate GoodRunsTake(reqs: Requests, w: World) {
    && (forall i :: 0 <= i < |w.ran| && w.ran[i].response.status < 500 ==>
          PhaseOf(w, w.ran[i].request) == Responded(w.ran[i].response) || Taken(reqs, w, reqs(w.ran[i].request).scope))
    && (forall i, j :: 0 <= i < j < |w.ran| && w.ran[i].response.status < 500 ==>
          reqs(w.ran[i].request).scope != reqs(w.ran[j].request).scope)
  }

  ghost predicate Inv(reqs: Requests, w: World) {
    OneHolder(reqs, w) && RowsAreCompletions(reqs, w) && ReplaysAreCompletions(reqs, w) && GoodRunsTake(reqs, w)
  }

  // ---- every step keeps them

  // A row taken by nobody stays as it is: no step touches it or runs a handler for its key.
  lemma TakenNext(reqs: Requests, w: World, step: Step, s: Scope)
    requires Taken(reqs, w, s)
    ensures var w' := Next(reqs, w, step);
            && Taken(reqs, w', s) && SameRow(w, w', s)
            && w.ran <= w'.ran && (|w'.ran| == |w.ran| || (|w'.ran| == |w.ran| + 1 && reqs(w'.ran[|w.ran|].request).scope != s))
  {
    var w' := Next(reqs, w, step);
    assert forall q :: q != step.q ==> PhaseOf(w', q) == PhaseOf(w, q);
  }

  lemma OneHolderNext(reqs: Requests, w: World, step: Step)
    requires OneHolder(reqs, w)
    ensures OneHolder(reqs, Next(reqs, w, step))
  {
    var w' := Next(reqs, w, step);
    assert forall q :: q != step.q ==> PhaseOf(w', q) == PhaseOf(w, q);
  }

  // A completed row has no holder, so it is taken.
  lemma CompletedIsTaken(reqs: Requests, w: World, s: Scope)
    requires OneHolder(reqs, w) && s in w.keys && w.keys[s].response.Some?
    ensures Taken(reqs, w, s)
  {
  }

  // The step stores a response.
  predicate Completes(w: World, step: Step) {
    step.Finish? && step.applied && PhaseOf(w, step.q).Responded? && PhaseOf(w, step.q).response.status < 500
  }

  lemma ResponsesNext(reqs: Requests, w: World, step: Step)
    requires OneHolder(reqs, w)
    ensures var w' := Next(reqs, w, step);
            && w'.completed == w.completed + (if Completes(w, step) then [Completion(step.q, PhaseOf(w, step.q).response)] else [])
            && (Completes(w, step) ==>
                  && w'.keys == w.keys[reqs(step.q).scope := KeyRow(reqs(step.q).hash, Some(PhaseOf(w, step.q).response))]
                  && PhaseOf(w', step.q) == Over(Own(PhaseOf(w, step.q).response)))
            && (!Completes(w, step) ==> forall s :: s in w'.keys && w'.keys[s].response.Some? ==> s in w.keys && w.keys[s] == w'.keys[s])
            && (forall q :: PhaseOf(w, q).Over? ==> PhaseOf(w', q) == PhaseOf(w, q))
  {
  }

  lemma RowsNext(reqs: Requests, w: World, step: Step)
    requires OneHolder(reqs, w) && RowsAreCompletions(reqs, w)
    ensures RowsAreCompletions(reqs, Next(reqs, w, step))
    ensures w.completed <= Next(reqs, w, step).completed
  {
    var w' := Next(reqs, w, step);
    ResponsesNext(reqs, w, step);
    forall i | 0 <= i < |w.completed|
      ensures var r := reqs(w.completed[i].request); r.scope in w'.keys && w'.keys[r.scope] == w.keys[r.scope]
    {
      CompletedIsTaken(reqs, w, reqs(w.completed[i].request).scope);
      TakenNext(reqs, w, step, reqs(w.completed[i].request).scope);
    }
    hide Next, Holding, Taken;
    if Completes(w, step) {
      assert w'.completed[|w.completed|] == Completion(step.q, PhaseOf(w, step.q).response);
      assert forall i :: 0 <= i < |w.completed| ==> reqs(w.completed[i].request).scope != reqs(step.q).scope by { HolderIsNew(reqs, w, step.q); }
    }
    hide OneHolder;
    forall s | s in w'.keys && w'.keys[s].response.Some?
      ensures HasCompleted(reqs, w', s, w'.keys[s].hash, w'.keys[s].response.value)
    {
      if !Completes(w, step) || s != reqs(step.q).scope {
        assert w.keys[s] == w'.keys[s];
        assert HasCompleted(reqs, w, s, w.keys[s].hash, w.keys[s].response.value);
        var i :| 0 <= i < |w.completed| && reqs(w.completed[i].request) == Request(s, w.keys[s].hash) && w.completed[i].response == w.keys[s].response.value;
        assert w'.completed[i] == w.completed[i];
      }
    }
  }

  lemma HolderIsNew(reqs: Requests, w: World, q: nat)
    requires OneHolder(reqs, w) && RowsAreCompletions(reqs, w) && PhaseOf(w, q).Responded?
    ensures forall i :: 0 <= i < |w.completed| ==> reqs(w.completed[i].request).scope != reqs(q).scope
  {
  }

  lemma ReplaysNext(reqs: Requests, w: World, step: Step)
    requires OneHolder(reqs, w) && RowsAreCompletions(reqs, w) && ReplaysAreCompletions(reqs, w)
    ensures ReplaysAreCompletions(reqs, Next(reqs, w, step))
  {
    var w' := Next(reqs, w, step);
    assert forall q :: q != step.q ==> PhaseOf(w', q) == PhaseOf(w, q);
    assert w.completed <= w'.completed;
    forall q | PhaseOf(w', q).Over? && PhaseOf(w', q).answer.Replayed?
      ensures HasCompleted(reqs, w', reqs(q).scope, reqs(q).hash, PhaseOf(w', q).answer.response)
    {
      var response := PhaseOf(w', q).answer.response;
      assert HasCompleted(reqs, w, reqs(q).scope, reqs(q).hash, response);
      var i :| 0 <= i < |w.completed| && reqs(w.completed[i].request) == Request(reqs(q).scope, reqs(q).hash) && w.completed[i].response == response;
      assert w'.completed[i] == w.completed[i];
    }
  }

  // What a step makes of one good run: its request still answers, or leaves the key taken.
  lemma GoodRunNext(reqs: Requests, w: World, step: Step, c: Completion)
    requires OneHolder(reqs, w) && c.response.status < 500
    requires PhaseOf(w, c.request) == Responded(c.response) || Taken(reqs, w, reqs(c.request).scope)
    ensures var w' := Next(reqs, w, step);
            && (PhaseOf(w', c.request) == Responded(c.response) || Taken(reqs, w', reqs(c.request).scope))
            && (|w'.ran| > |w.ran| ==> reqs(c.request).scope != reqs(step.q).scope)
  {
    if Taken(reqs, w, reqs(c.request).scope) {
      TakenNext(reqs, w, step, reqs(c.request).scope);
      TakenIsNotRun(reqs, w, step, reqs(c.request).scope);
    } else {
      OneHolderNext(reqs, w, step);
      var w' := Next(reqs, w, step);
      assert forall q :: q != step.q ==> PhaseOf(w', q) == PhaseOf(w, q);
    }
  }

  lemma TakenIsNotRun(reqs: Requests, w: World, step: Step, s: Scope)
    requires Taken(reqs, w, s)
    ensures |Next(reqs, w, step).ran| > |w.ran| ==> reqs(step.q).scope != s
  {
  }

  lemma RanNext(reqs: Requests, w: World, step: Step)
    ensures var w' := Next(reqs, w, step);
            w'.ran == w.ran || (w'.ran == w.ran + [w'.ran[|w.ran|]] && w'.ran[|w.ran|].request == step.q
                                && PhaseOf(w', step.q) == Responded(w'.ran[|w.ran|].response))
  {
  }

  lemma GoodRunsNext(reqs: Requests, w: World, step: Step)
    requires OneHolder(reqs, w) && GoodRunsTake(reqs, w)
    ensures GoodRunsTake(reqs, Next(reqs, w, step))
  {
    hide Next, OneHolder, Taken;
    RanNext(reqs, w, step);
    forall i | 0 <= i < |w.ran| && w.ran[i].response.status < 500
      ensures PhaseOf(Next(reqs, w, step), w.ran[i].request) == Responded(w.ran[i].response)
           || Taken(reqs, Next(reqs, w, step), reqs(w.ran[i].request).scope)
      ensures |Next(reqs, w, step).ran| > |w.ran| ==> reqs(w.ran[i].request).scope != reqs(step.q).scope
    {
      GoodRunNext(reqs, w, step, w.ran[i]);
    }
  }

  lemma {:induction false} RunInv(reqs: Requests, steps: seq<Step>)
    ensures Inv(reqs, Run(reqs, steps))
  {
    if steps != [] {
      var before := Run(reqs, steps[..|steps|-1]);
      var step := steps[|steps|-1];
      RunInv(reqs, steps[..|steps|-1]);
      OneHolderNext(reqs, before, step);
      RowsNext(reqs, before, step);
      ReplaysNext(reqs, before, step);
      GoodRunsNext(reqs, before, step);
    }
  }

  // ---- what the protocol promises, over every interleaving

  // At most one request executes a key at a time, and none once the key is completed.
  lemma OneExecution(reqs: Requests, steps: seq<Step>, p: nat, q: nat)
    requires reqs(p).scope == reqs(q).scope && Holding(Run(reqs, steps), p)
    ensures p != q ==> !Holding(Run(reqs, steps), q)
    ensures reqs(p).scope in Run(reqs, steps).keys && Run(reqs, steps).keys[reqs(p).scope] == KeyRow(reqs(p).hash, None)
  {
    RunInv(reqs, steps);
  }

  // Over the whole run a key has at most one handler that answers without a server error
  // (even when its response could not be stored or the process died), and it is the last to run.
  lemma OneGoodExecution(reqs: Requests, steps: seq<Step>, i: nat, j: nat)
    requires i < j < |Run(reqs, steps).ran|
    requires Run(reqs, steps).ran[i].response.status < 500
    ensures reqs(Run(reqs, steps).ran[i].request).scope != reqs(Run(reqs, steps).ran[j].request).scope
  {
    RunInv(reqs, steps);
  }

  // A replay is the stored response of one other request, of the same merchant, key and
  // content, that answered its own client with exactly that.
  lemma ReplayIsExact(reqs: Requests, steps: seq<Step>, q: nat, response: Response) returns (p: nat)
    requires PhaseOf(Run(reqs, steps), q) == Over(Replayed(response))
    ensures p != q && reqs(p) == reqs(q) && PhaseOf(Run(reqs, steps), p) == Over(Own(response))
    ensures reqs(q).scope in Run(reqs, steps).keys && Run(reqs, steps).keys[reqs(q).scope] == KeyRow(reqs(q).hash, Some(response))
  {
    RunInv(reqs, steps);
    var w := Run(reqs, steps);
    assert HasCompleted(reqs, w, reqs(q).scope, reqs(q).hash, response);
    var i :| 0 <= i < |w.completed| && reqs(w.completed[i].request) == Request(reqs(q).scope, reqs(q).hash) && w.completed[i].response == response;
    p := w.completed[i].request;
  }

  // A request whose key is free reserves it and runs; a server error that can be recorded frees it again.
  lemma FreeKeyRuns(reqs: Requests, steps: seq<Step>, q: nat)
    requires PhaseOf(Run(reqs, steps), q).Arriving?
    ensures var w, w' := Run(reqs, steps), Run(reqs, steps + [Insert(q)]);
            if reqs(q).scope in w.keys then PhaseOf(w', q) == Reading && w'.keys == w.keys
            else PhaseOf(w', q) == Executing && w'.keys == w.keys[reqs(q).scope := KeyRow(reqs(q).hash, None)]
  {
    assert (steps + [Insert(q)])[..|steps|] == steps;
  }

  lemma ServerErrorFrees(reqs: Requests, steps: seq<Step>, q: nat, response: Response)
    requires PhaseOf(Run(reqs, steps), q) == Responded(response)
    ensures var w, w' := Run(reqs, steps), Run(reqs, steps + [Finish(q, true)]);
            && PhaseOf(w', q) == Over(Own(response))
            && w'.keys == if response.status >= 500 then w.keys - {reqs(q).scope}
                          else w.keys[reqs(q).scope := KeyRow(reqs(q).hash, Some(response))]
  {
    RunInv(reqs, steps);
    assert (steps + [Finish(q, true)])[..|steps|] == steps;
    assert Holding(Run(reqs, steps), q);
  }

  // ---- who is refused

  // Step n of the run puts the key's row into the table, with the content of its request.
  ghost predicate Reserves(reqs: Requests, steps: seq<Step>, n: nat, s: Scope, hash: nat)
    requires n < |steps|
  {
    && reqs(steps[n].q) == Request(s, hash)
    && s !in Run(reqs, steps[..n]).keys && s in Run(reqs, steps[..n+1]).keys
  }

  lemma RowNext(reqs: Requests, w: World, step: Step, s: Scope)
    requires s in Next(reqs, w, step).keys
    ensures s in w.keys ==> Next(reqs, w, step).keys[s].hash == w.keys[s].hash
    ensures s !in w.keys ==> reqs(step.q).scope == s && Next(reqs, w, step).keys[s].hash == reqs(step.q).hash
  {
  }

  // Every row was put there by a request of that key and that content.
  lemma {:induction false} RowWasReserved(reqs: Requests, steps: seq<Step>, s: Scope) returns (n: nat)
    requires s in Run(reqs, steps).keys
    ensures n < |steps| && Reserves(reqs, steps, n, s, Run(reqs, steps).keys[s].hash)
  {
    hide Next;
    var m := |steps| - 1;
    var before := steps[..m];
    RowNext(reqs, Run(reqs, before), steps[m], s);
    if s in Run(reqs, before).keys {
      n := RowWasReserved(reqs, before, s);
      assert before[..n] == steps[..n] && before[..n+1] == steps[..n+1];
    } else {
      n := m;
      assert steps[..m+1] == steps;
    }
  }

  lemma ReusedNext(reqs: Requests, w: World, step: Step, q: nat)
    requires PhaseOf(Next(reqs, w, step), q) == Over(KeyReused) && PhaseOf(w, q) != Over(KeyReused)
    ensures reqs(q).scope in w.keys && w.keys[reqs(q).scope].hash != reqs(q).hash
  {
    SelectAnswers(w.keys, reqs(step.q).scope, reqs(step.q).hash);
    hide SelectKey;
  }

  // A request is told that its key was used with other content only when another request of the same
  // merchant and key, with other content, has reserved the key.
  lemma {:induction false} ReusedByAnother(reqs: Requests, steps: seq<Step>, q: nat) returns (n: nat)
    requires PhaseOf(Run(reqs, steps), q) == Over(KeyReused)
    ensures n < |steps| && steps[n].q != q && reqs(steps[n].q).hash != reqs(q).hash
    ensures Reserves(reqs, steps, n, reqs(q).scope, reqs(steps[n].q).hash)
  {
    hide Next;
    var m := |steps| - 1;
    var before := steps[..m];
    if PhaseOf(Run(reqs, before), q) == Over(KeyReused) {
      n := ReusedByAnother(reqs, before, q);
    } else {
      ReusedNext(reqs, Run(reqs, before), steps[m], q);
      n := RowWasReserved(reqs, before, reqs(q).scope);
    }
    assert before[..n] == steps[..n] && before[..n+1] == steps[..n+1];
  }

  // Where all requests of a key have the same content, none is ever refused for its content.
  lemma SameContentIsNotRefused(reqs: Requests, steps: seq<Step>, s: Scope, hash: nat, q: nat)
    requires (forall p :: reqs(p).scope == s ==> reqs(p).hash == hash) && reqs(q).scope == s
    ensures PhaseOf(Run(reqs, steps), q) != Over(KeyReused)
  {
    if PhaseOf(Run(reqs, steps), q) == Over(KeyReused) {
      var n := ReusedByAnother(reqs, steps, q);
    }
  }

  lemma BusyNext(reqs: Requests, w: World, step: Step, q: nat)
    requires PhaseOf(Next(reqs, w, step), q) == Over(Busy) && PhaseOf(w, q) != Over(Busy)
    ensures step == Select(q)
    ensures reqs(q).scope in w.keys ==> w.keys[reqs(q).scope] == KeyRow(reqs(q).hash, None)
  {
    SelectAnswers(w.keys, reqs(step.q).scope, reqs(step.q).hash);
    hide SelectKey;
  }

  // A request is told that the first one is still at work only when, at its SELECT, the key was
  // free again or held its own content without a response.
  lemma {:induction false} BusyMeansUnanswered(reqs: Requests, steps: seq<Step>, q: nat) returns (n: nat)
    requires PhaseOf(Run(reqs, steps), q) == Over(Busy)
    ensures n < |steps| && steps[n] == Select(q)
    ensures reqs(q).scope in Run(reqs, steps[..n]).keys ==> Run(reqs, steps[..n]).keys[reqs(q).scope] == KeyRow(reqs(q).hash, None)
  {
    hide Next;
    var m := |steps| - 1;
    var before := steps[..m];
    if PhaseOf(Run(reqs, before), q) == Over(Busy) {
      n := BusyMeansUnanswered(reqs, before, q);
      assert before[..n] == steps[..n];
    } else {
      BusyNext(reqs, Run(reqs, before), steps[m], q);
      n := m;
    }
  }

  ghost predicate SameRow(w: World, w': World, s: Scope) {
    s in w.keys && s in w'.keys && w'.keys[s] == w.keys[s]
  }

  lemma TakenNow(reqs: Requests, w: World, s: Scope)
    requires Taken(reqs, w, s)
    ensures SameRow(w, w, s)
  {
  }

  // A taken key stays taken, row and all, and no later handler runs for it: a completed row
  // never changes, and a key left behind by a crash stays in progress for ever.
  lemma {:induction false} TakenForEver(reqs: Requests, steps: seq<Step>, n: nat, s: Scope)
    requires n <= |steps| && Taken(reqs, Run(reqs, steps[..n]), s)
    ensures Taken(reqs, Run(reqs, steps), s)
    ensures SameRow(Run(reqs, steps[..n]), Run(reqs, steps), s)
    ensures Run(reqs, steps[..n]).ran <= Run(reqs, steps).ran
    ensures forall i :: |Run(reqs, steps[..n]).ran| <= i < |Run(reqs, steps).ran| ==> reqs(Run(reqs, steps).ran[i].request).scope != s
    decreases |steps|
  {
    hide Next, Taken;
    if n == |steps| {
      assert steps[..n] == steps;
      TakenNow(reqs, Run(reqs, steps), s);
    } else {
      var m := |steps| - 1;
      assert steps[..m][..n] == steps[..n];
      TakenForEver(reqs, steps[..m], n, s);
      TakenNext(reqs, Run(reqs, steps[..m]), steps[m], s);
    }
  }

  // The key of a request that crashes while it holds it stays in progress.
  lemma CrashTakesTheKey(reqs: Requests, steps: seq<Step>, q: nat)
    requires Holding(Run(reqs, steps), q)
    ensures Taken(reqs, Run(reqs, steps + [Crash(q)]), reqs(q).scope)
    ensures Run(reqs, steps + [Crash(q)]).keys[reqs(q).scope] == KeyRow(reqs(q).hash, None)
  {
    RunInv(reqs, steps);
    assert (steps + [Crash(q)])[..|steps|] == steps;
  }
}
