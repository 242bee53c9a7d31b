/** The acquirer as a state machine: the tables, and every committed unit of work as one step. */
module Acquirer {
  import opened Results
  import opened Calendar
  import opened Tables
  import opened Events
  import opened FeePlans
  import T = Transactions
  import R = Receivables
  import S = Settlements
  import A = Anticipations
  import Schedules
  import L = Ledger

  datatype CbData = CbData(txId: Id, merchant: Id, amount: int)

  type Cb = Row<CbData>

  datatype State = State(
    txs: seq<T.Tx>, rcvs: seq<R.Rcv>, ants: seq<A.Ant>, stls: seq<S.Stl>, cbs: seq<Cb>,
    ledger: seq<L.Entry>, outbox: seq<Event>, processed: set<Id>)

  function Init(): State {
    State([], [], [], [], [], [], [], {})
  }

  // What the outside world answers for one merchant's lot: whether the merchant is known, what the
  // registry says, whether the bank reports success (accepted) and, when it does not, whether it has paid
  // all the same (delivered); whether the statements after the bank's answer work, up to the report's
  // counters (posts) and after them (stored). A process that dies between two statements is one that fails.
  datatype Lot = Lot(merchant: Id, known: bool, liens: Option<seq<S.Lien>>, accepted: bool, delivered: bool, posts: bool, stored: bool,
                     stlId: Id, eid: Id)

  // A step names everything the step does not decide itself: generated ids, the
  // clock, and the answers of merchants, registry and bank.
  datatype Op =
    | Authorize(id: Id, merchant: Id, active: bool, plan: FeePlan, amount: int, product: Product, installments: int,
                brand: Id, approved: bool, eid: Id)
    | Capture(merchant: Id, id: Id, now: nat, eid: Id)
    | Cancel(merchant: Id, id: Id, now: nat, eid: Id)
    | OnCaptured(k: nat, merchantPlan: Option<FeePlan>, ids: nat -> Id, eid: Id)
    | OnCanceled(k: nat)
    | Anticipate(merchant: Id, rcvIds: seq<Id>, now: nat, rate: int, pricer: A.Pricer, liened: nat -> Option<bool>, aid: Id, eid: Id)
    | OpenChargeback(merchant: Id, id: Id, amount: int, cbId: Id, eid: Id, eid2: Id)
    | SettleBatch(day: nat, limit: nat, picked: seq<R.Rcv>, lots: seq<Lot>, commits: bool)

  // ---- transactions

  function FindTx(s: State, merchant: Id, id: Id): Result<T.Tx> {
    var i := Find(s.txs, id);
    if i < |s.txs| && s.txs[i].data.merchant == merchant then Ok(s.txs[i]) else Err(NotFound)
  }

  function AuthorizeTx(s: State, op: Op): Result<State>
    requires op.Authorize?
  {
    var tx :- T.New(op.id, op.merchant, op.active, op.plan, op.amount, op.product, op.installments, op.brand);
    var decided :- T.Moved(tx, if op.approved then T.Authorized else T.Denied);
    var txs :- Insert(s.txs, decided);
    var outbox :- InsertAll(s.outbox, [NewEvent(op.eid, if op.approved then TransactionAuthorized else TransactionDenied, op.id, op.merchant)]);
    Ok(s.(txs := txs, outbox := outbox))
  }

  // Capture and cancellation: load for update, change, write state and event together.
  function ChangeTx(s: State, changed: Result<T.Tx>, kind: Kind, eid: Id): Result<State> {
    var tx :- changed;
    var txs :- Update(s.txs, tx);
    var outbox :- InsertAll(s.outbox, [NewEvent(eid, kind, tx.id, tx.data.merchant)]);
    Ok(s.(txs := txs, outbox := outbox))
  }

  function CaptureTx(s: State, op: Op): Result<State>
    requires op.Capture?
  {
    var tx :- FindTx(s, op.merchant, op.id);
    ChangeTx(s, T.Capture(tx, op.now), TransactionCaptured, op.eid)
  }

  function CancelTx(s: State, op: Op): Result<State>
    requires op.Cancel?
  {
    var tx :- FindTx(s, op.merchant, op.id);
    ChangeTx(s, T.Cancel(tx, op.now), TransactionCanceled, op.eid)
  }

  // ---- the scheduler's handlers

  ghost function Agenda(tx: T.Tx, plan: FeePlan, ids: nat -> Id): Result<seq<R.Rcv>> {
    BrazilNeverClosedFiveDays();
    Schedules.Schedule(tx, plan, BRAZIL, ids)
  }

  predicate IsDelivery(s: State, k: nat, kind: Kind) {
    k < |s.outbox| && s.outbox[k].data.kind == kind
  }

  // The handler of a captured event; an event that is not new changes nothing.
  ghost function CapturedHandler(s: State, op: Op): Result<State>
    requires op.OnCaptured? && IsDelivery(s, op.k, TransactionCaptured)
  {
    var ev := s.outbox[op.k];
    if ev.id in s.processed then Ok(s)
    else
      var tx :- FindTx(s, ev.data.merchant, ev.data.aggregate);
      if op.merchantPlan.None? then Err(NotFound)
      else
        var list :- Agenda(tx, op.merchantPlan.value, op.ids);
        StoreAgenda(s.(processed := s.processed + {ev.id}), list, NewEvent(op.eid, ReceivablesScheduled, tx.id, tx.data.merchant))
  }

  function StoreAgenda(s: State, list: seq<R.Rcv>, event: Event): Result<State> {
    var rcvs :- InsertAll(s.rcvs, list);
    var ledger :- L.Append(s.ledger, L.ForScheduled(list));
    var outbox :- InsertAll(s.outbox, [event]);
    Ok(s.(rcvs := rcvs, ledger := ledger, outbox := outbox))
  }

  // What closing a transaction does to its receivables: the rows it changes, what
  // they become, and the reversing entries.
  datatype Closing = Closing(olds: seq<R.Rcv>, news: seq<R.Rcv>, entries: seq<L.Entry>)

  // A cancellation takes back what is still scheduled; a chargeback also what was anticipated.
  predicate Closes(r: R.Rcv, to: R.Status) {
    r.data.status.Scheduled? || (r.data.status.Anticipated? && to == R.Chargebacked)
  }

  function Reversal(r: R.Rcv): seq<L.Entry> {
    if r.data.status.Scheduled? then L.ForChargeback(r) else L.ForChargebackAnticipated(r)
  }

  function CloseOne(c: Closing, r: R.Rcv, to: R.Status): Closing
    requires to == R.Canceled || to == R.Chargebacked
  {
    if Closes(r, to) then Closing(c.olds + [r], c.news + [R.Moved(r, to).value], c.entries + Reversal(r)) else c
  }

  function CloseAll(list: seq<R.Rcv>, to: R.Status): Closing
    requires to == R.Canceled || to == R.Chargebacked
  {
    if list == [] then Closing([], [], []) else CloseOne(CloseAll(list[..|list|-1], to), list[|list|-1], to)
  }

  function ApplyClosing(s: State, c: Closing): Result<State> {
    if c.news == [] then Ok(s)
    else
      var rcvs :- UpdateAll(s.rcvs, c.news);
      var ledger :- L.Append(s.ledger, c.entries);
      Ok(s.(rcvs := rcvs, ledger := ledger))
  }

  function CanceledHandler(s: State, op: Op): Result<State>
    requires op.OnCanceled? && IsDelivery(s, op.k, TransactionCanceled)
  {
    var ev := s.outbox[op.k];
    if ev.id in s.processed then Ok(s)
    else
      ApplyClosing(s.(processed := s.processed + {ev.id}), CloseAll(Where(s.rcvs, R.OfTransaction(ev.data.aggregate)), R.Canceled))
  }

  // ---- anticipation

  function ByIds(merchant: Id, ids: seq<Id>): R.Rcv -> bool {
    (r: R.Rcv) => r.data.merchant == merchant && r.id in ids
  }

  // The registry is asked once per due date, in order; the first lien or failure decides.
  function LienCheck(rows: seq<R.Rcv>, liened: nat -> Option<bool>): Result<()> {
    if rows == [] then Ok(())
    else
      var _ :- LienCheck(rows[..|rows|-1], liened);
      match liened(rows[|rows|-1].data.due)
      case None => Err(RegistryDown)
      case Some(b) => if b then Err(ReceivableLiened) else Ok(())
  }

  function AnticipateRows(s: State, op: Op): Result<State>
    requires op.Anticipate?
  {
    var rows := Where(s.rcvs, ByIds(op.merchant, op.rcvIds));
    if |rows| != |op.rcvIds| then Err(NotFound)
    else
      var a :- A.Simulate(op.aid, op.merchant, rows, op.now, op.rate, op.pricer);
      var _ :- LienCheck(rows, op.liened);
      var news :- A.AnticipateAll(rows, op.aid);
      var confirmed := A.Confirmed1(a);
      StoreAnticipation(s, confirmed, news, NewEvent(op.eid, AnticipationConfirmed, op.aid, op.merchant))
  }

  function StoreAnticipation(s: State, confirmed: A.Ant, news: seq<R.Rcv>, event: Event): Result<State> {
    var ants :- Insert(s.ants, confirmed);
    var rcvs :- UpdateAll(s.rcvs, news);
    var ledger :- L.Append(s.ledger, L.ForAnticipation(confirmed));
    var outbox :- InsertAll(s.outbox, [event]);
    Ok(s.(rcvs := rcvs, ants := ants, ledger := ledger, outbox := outbox))
  }

  // ---- chargebacks

  function OpenCb(s: State, op: Op): Result<State>
    requires op.OpenChargeback?
  {
    var tx :- FindTx(s, op.merchant, op.id);
    if !tx.data.status.Captured? && !tx.data.status.Settled? then Err(TransactionStatus)
    else if op.amount <= 0 || op.amount > tx.data.amount then Err(InvalidAmount)
    else
      var moved :- T.Moved(tx, T.Chargebacked);
      var txs :- Update(s.txs, moved);
      var cbs :- Insert(s.cbs, Row(op.cbId, 1, CbData(tx.id, tx.data.merchant, op.amount)));
      var closed :- ApplyClosing(s.(txs := txs, cbs := cbs), CloseAll(Where(s.rcvs, R.OfTransaction(tx.id)), R.Chargebacked));
      var outbox :- InsertAll(s.outbox, [NewEvent(op.eid, TransactionChargebacked, tx.id, tx.data.merchant),
                                         NewEvent(op.eid2, ChargebackOpened, op.cbId, tx.data.merchant)]);
      Ok(closed.(outbox := outbox))
  }

  // ---- settlement

  function SettleAll(rows: seq<R.Rcv>, id: Id): Result<seq<R.Rcv>> {
    if rows == [] then Ok([])
    else
      var before :- SettleAll(rows[..|rows|-1], id);
      var r :- R.Settle(rows[|rows|-1], id);
      Ok(before + [r])
  }

  // One merchant's lot: the bank takes it and the receivables are settled, or the
  // bank rejects it and only the failed settlement is recorded; a statement that fails fails the lot.
  function SettleLot(s: State, day: nat, rows: seq<R.Rcv>, lot: Lot): Result<State> {
    if !lot.known then Err(NotFound)
    else if lot.liens.None? then Err(RegistryDown)
    else
      var built :- S.Build(lot.stlId, day, lot.merchant, rows, lot.liens.value);
      var created :- Insert(s.stls, built);
      if !lot.posts || !lot.stored then Err(StatementFailed)
      else if lot.accepted then StoreAccepted(s.(stls := created), built, rows, lot) else StoreRejected(s.(stls := created), built, lot)
  }

  function StoreRejected(s: State, built: S.Stl, lot: Lot): Result<State> {
    var failed :- S.MarkFailed(built);
    var stls :- Update(s.stls, failed);
    var outbox :- InsertAll(s.outbox, [NewEvent(lot.eid, SettlementFailed, built.id, lot.merchant)]);
    Ok(s.(stls := stls, outbox := outbox))
  }

  // Everything an accepted lot writes before the report counts it.
  function PostSettled(s: State, built: S.Stl, rows: seq<R.Rcv>): Result<State> {
    var sent :- S.MarkSent(built);
    var confirmed :- S.MarkConfirmed(sent);
    var news :- SettleAll(rows, built.id);
    var rcvs :- UpdateAll(s.rcvs, news);
    var stls :- Update(s.stls, confirmed);
    var entries := L.ForSettlement(confirmed);
    var ledger :- if entries == [] then Ok(s.ledger) else L.Append(s.ledger, entries);
    Ok(s.(rcvs := rcvs, stls := stls, ledger := ledger))
  }

  function StoreAccepted(s: State, built: S.Stl, rows: seq<R.Rcv>, lot: Lot): Result<State> {
    var posted :- PostSettled(s, built, rows);
    var outbox :- InsertAll(s.outbox, [NewEvent(lot.eid, SettlementCompleted, built.id, lot.merchant)]);
    Ok(posted.(outbox := outbox))
  }

  function OfMerchant(merchant: Id): R.Rcv -> bool { (r: R.Rcv) => r.data.merchant == merchant }

  function SettleLots(s: State, day: nat, picked: seq<R.Rcv>, lots: seq<Lot>): Result<State> {
    if lots == [] then Ok(s)
    else
      var before :- SettleLots(s, day, picked, lots[..|lots|-1]);
      var lot := lots[|lots|-1];
      SettleLot(before, day, Where(picked, OfMerchant(lot.merchant)), lot)
  }

  // The lots of one unit of work, and its COMMIT.
  function SettleDay(s: State, day: nat, picked: seq<R.Rcv>, lots: seq<Lot>, commits: bool): Result<State> {
    var settled :- SettleLots(s, day, picked, lots);
    if commits then Ok(settled) else Err(CommitFailed)
  }

  function IsDue(day: nat): R.Rcv -> bool {
    (r: R.Rcv) => r.data.due == day && (r.data.status.Scheduled? || r.data.status.Anticipated?)
  }

  // A batch query returns some of the due rows, up to the limit, in any order; rows that
  // another unit of work holds locked are left out.
  ghost predicate IsPick(rcvs: seq<R.Rcv>, day: nat, limit: nat, picked: seq<R.Rcv>) {
    && DistinctIds(picked) && |picked| <= limit
    && forall r :: r in picked ==> r in rcvs && IsDue(day)(r)
  }

  // With nothing locked it returns as many as the limit allows.
  ghost predicate IsDuePick(rcvs: seq<R.Rcv>, day: nat, limit: nat, picked: seq<R.Rcv>) {
    IsPick(rcvs, day, limit, picked) && |picked| == S.Min(limit, |Where(rcvs, IsDue(day))|)
  }

  // ORDER BY merchant_id, id.
  predicate Earlier(a: R.Rcv, b: R.Rcv) {
    a.data.merchant < b.data.merchant || (a.data.merchant == b.data.merchant && a.id < b.id)
  }

  function PlaceInOrder(list: seq<R.Rcv>, r: R.Rcv): seq<R.Rcv> {
    if list == [] || !Earlier(r, list[|list|-1]) then list + [r]
    else PlaceInOrder(list[..|list|-1], r) + [list[|list|-1]]
  }

  function InOrder(list: seq<R.Rcv>): seq<R.Rcv> {
    if list == [] then [] else PlaceInOrder(InOrder(list[..|list|-1]), list[|list|-1])
  }

  // The batch query itself: the first rows that are due, in order, up to the limit.
  function DuePick(rcvs: seq<R.Rcv>, day: nat, limit: nat): seq<R.Rcv> {
    var due := InOrder(Where(rcvs, IsDue(day)));
    if |due| <= limit then due else due[..limit]
  }

  // FOR UPDATE SKIP LOCKED: rows another unit of work holds locked are passed over.
  function Unlocked(locked: set<Id>): R.Rcv -> bool { (r: R.Rcv) => r.id !in locked }

  ghost function Merchants(picked: seq<R.Rcv>): set<Id> {
    set i | 0 <= i < |picked| :: picked[i].data.merchant
  }

  ghost function Visited(lots: seq<Lot>): set<Id> {
    set i | 0 <= i < |lots| :: lots[i].merchant
  }

  // Grouping visits every merchant of the batch exactly once, in any order.
  ghost predicate IsVisit(picked: seq<R.Rcv>, lots: seq<Lot>) {
    Visited(lots) == Merchants(picked) && forall i, j :: 0 <= i < j < |lots| ==> lots[i].merchant != lots[j].merchant
  }

  // ---- steps and runs

  // The steps that can happen: deliveries come from the outbox, queries return what is there.
  ghost predicate Enabled(s: State, op: Op) {
    match op
    case OnCaptured(k, plan, _, _) => IsDelivery(s, k, TransactionCaptured) && (plan.Some? ==> plan.value.Valid())
    case OnCanceled(k) => IsDelivery(s, k, TransactionCanceled)
    case SettleBatch(day, limit, picked, lots, _) => IsPick(s.rcvs, day, limit, picked) && IsVisit(picked, lots)
    case _ => true
  }

  ghost function Step(s: State, op: Op): Result<State>
    requires Enabled(s, op)
  {
    match op
    case Authorize(_, _, _, _, _, _, _, _, _, _) => AuthorizeTx(s, op)
    case Capture(_, _, _, _) => CaptureTx(s, op)
    case Cancel(_, _, _, _) => CancelTx(s, op)
    case OnCaptured(_, _, _, _) => CapturedHandler(s, op)
    case OnCanceled(_) => CanceledHandler(s, op)
    case Anticipate(_, _, _, _, _, _, _, _) => AnticipateRows(s, op)
    case OpenChargeback(_, _, _, _, _, _) => OpenCb(s, op)
    case SettleBatch(day, _, picked, lots, commits) => SettleDay(s, day, picked, lots, commits)
  }

  // A unit of work is all or nothing: an error rolls everything back.
  ghost function Apply(s: State, op: Op): State {
    if Enabled(s, op) && Step(s, op).Ok? then Step(s, op).value else s
  }

  // A run, from the empty tables, is any sequence of steps.
  ghost function Exec(ops: seq<Op>): State {
    if ops == [] then Init() else Apply(Exec(ops[..|ops|-1]), ops[|ops|-1])
  }
}
