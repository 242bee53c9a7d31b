/** The six ledger balances as functions of the receivable, anticipation and settlement tables. */
module Reconciliation {
  import opened Results
  import opened Sums
  import opened Tables
  import opened Acquirer
  import R = Receivables
  import S = Settlements
  import A = Anticipations
  import L = Ledger

  predicate Concerns(who: Option<Id>, merchant: Id) {
    who.None? || who.value == merchant
  }

  // A receivable the issuer still owes us for: on the agenda, anticipated or paid out.
  predicate Live(r: R.Rcv) {
    r.data.status.Scheduled? || r.data.status.Anticipated? || r.data.status.Settled?
  }

  // What one receivable adds to an account's balance (credits minus debits).
  function RowShare(account: L.Account, r: R.Rcv): int {
    match account
    case PayableToMerchant => if r.data.status.Scheduled? then r.data.net else 0
    case ReceivableFromIssuer => if Live(r) then -r.data.gross else 0
    case RevenueFees => if Live(r) then r.data.fee else 0
    case ChargebackLoss => if r.data.status.Chargebacked? && r.data.anticipation.Some? then -r.data.net else 0
    case RevenueAnticipation => 0
    case BankOutgoing => 0
  }

  function AntShare(account: L.Account, a: A.Ant): int {
    if a.data.status != A.Confirmed then 0
    else match account
         case RevenueAnticipation => a.data.discount
         case BankOutgoing => a.data.net
         case _ => 0
  }

  function StlShare(account: L.Account, s: S.Stl): int {
    if account.BankOutgoing? && s.data.status == S.Confirmed then s.data.toMerchant + s.data.toCreditors else 0
  }

  function RowWeight(account: L.Account, who: Option<Id>): R.Rcv -> int {
    (r: R.Rcv) => if Concerns(who, r.data.merchant) then RowShare(account, r) else 0
  }

  function AntWeight(account: L.Account, who: Option<Id>): A.Ant -> int {
    (a: A.Ant) => if Concerns(who, a.data.merchant) then AntShare(account, a) else 0
  }

  function StlWeight(account: L.Account, who: Option<Id>): S.Stl -> int {
    (s: S.Stl) => if Concerns(who, s.data.merchant) then StlShare(account, s) else 0
  }

  function Expected(s: State, account: L.Account, who: Option<Id>): int {
    Sum(s.rcvs, RowWeight(account, who)) + Sum(s.ants, AntWeight(account, who)) + Sum(s.stls, StlWeight(account, who))
  }

  // Every balance, per merchant and overall, is what the tables say.
  ghost predicate Reconciled(s: State) {
    forall account, who :: L.Balance(s.ledger, account, who) == Expected(s, account, who)
  }

  // What every stored receivable satisfies: amounts that add up and are not
  // negative, and links that match the status.
  predicate RowOk(r: R.Rcv) {
    && r.data.gross >= 0 && r.data.fee >= 0 && r.data.net >= 0 && r.data.net == r.data.gross - r.data.fee
    && (r.data.settlement.Some? <==> r.data.status.Settled?)
    && (r.data.status.Scheduled? || r.data.status.Canceled? ==> r.data.anticipation.None?)
    && (r.data.status.Anticipated? ==> r.data.anticipation.Some?)
  }

  ghost predicate RowsOk(rcvs: seq<R.Rcv>) {
    forall i :: 0 <= i < |rcvs| ==> RowOk(rcvs[i])
  }

  // ---- entries against rows

  lemma ScheduledShare(r: R.Rcv, account: L.Account, who: Option<Id>)
    requires r.data.status.Scheduled?
    ensures L.Balance(L.ForScheduledOne(r), account, who) == RowWeight(account, who)(r)
  {
    var es := L.ForScheduledOne(r);
    L.SumThree(es[0], es[1], es[2], L.Weight(account, who));
  }

  // Posting an agenda moves every balance by what its rows weigh.
  lemma {:induction false} ScheduledBalance(list: seq<R.Rcv>, account: L.Account, who: Option<Id>)
    requires forall i :: 0 <= i < |list| ==> list[i].data.status.Scheduled?
    ensures L.Balance(L.ForScheduled(list), account, who) == Sum(list, RowWeight(account, who))
  {
    if list != [] {
      var n := |list| - 1;
      ScheduledBalance(list[..n], account, who);
      ScheduledShare(list[n], account, who);
      L.BalanceAppend(L.ForScheduled(list[..n]), L.ForScheduledOne(list[n]), account, who);
    }
  }

  lemma ReversalShare(r: R.Rcv, to: R.Status, account: L.Account, who: Option<Id>)
    requires RowOk(r) && (to == R.Canceled || to == R.Chargebacked) && Closes(r, to)
    ensures R.Moved(r, to).Ok?
    ensures L.Balance(Reversal(r), account, who) == RowWeight(account, who)(R.Moved(r, to).value) - RowWeight(account, who)(r)
  {
    var es := Reversal(r);
    L.SumThree(es[0], es[1], es[2], L.Weight(account, who));
  }

  // The reversing entries of a closing are exactly the change of its rows.
  lemma {:induction false} ClosingBalance(list: seq<R.Rcv>, to: R.Status, account: L.Account, who: Option<Id>)
    requires RowsOk(list) && (to == R.Canceled || to == R.Chargebacked)
    ensures var c := CloseAll(list, to);
            L.Balance(c.entries, account, who) == Sum(c.news, RowWeight(account, who)) - Sum(c.olds, RowWeight(account, who))
  {
    if list != [] {
      var n := |list| - 1;
      ClosingBalance(list[..n], to, account, who);
      var before := CloseAll(list[..n], to);
      var r := list[n];
      if Closes(r, to) {
        ReversalShare(r, to, account, who);
        L.BalanceAppend(before.entries, Reversal(r), account, who);
        SumPush(before.olds, r, RowWeight(account, who));
        SumPush(before.news, R.Moved(r, to).value, RowWeight(account, who));
      }
    }
  }

  // Settling rows of one merchant moves the payable by the scheduled nets, and nothing else.
  lemma {:induction false} SettledShares(rows: seq<R.Rcv>, news: seq<R.Rcv>, id: Id, account: L.Account, who: Option<Id>, merchant: Id)
    requires |news| == |rows| && forall i :: 0 <= i < |rows| ==> R.Settle(rows[i], id) == Ok(news[i]) && rows[i].data.merchant == merchant
    ensures Sum(news, RowWeight(account, who)) - Sum(rows, RowWeight(account, who)) ==
            if account.PayableToMerchant? && Concerns(who, merchant) then -Sum(rows, S.PayableNet()) else 0
  {
    if rows != [] {
      var n := |rows| - 1;
      SettledShares(rows[..n], news[..n], id, account, who, merchant);
    }
  }

  // Anticipating scheduled rows moves the payable by their nets, and nothing else.
  lemma {:induction false} AnticipatedShares(rows: seq<R.Rcv>, news: seq<R.Rcv>, id: Id, account: L.Account, who: Option<Id>, merchant: Id)
    requires |news| == |rows| && forall i :: 0 <= i < |rows| ==>
               R.Anticipate(rows[i], id) == Ok(news[i]) && rows[i].data.merchant == merchant && rows[i].data.status.Scheduled?
    ensures Sum(news, RowWeight(account, who)) - Sum(rows, RowWeight(account, who)) ==
            if account.PayableToMerchant? && Concerns(who, merchant) then -Sum(rows, R.Net()) else 0
  {
    if rows != [] {
      var n := |rows| - 1;
      AnticipatedShares(rows[..n], news[..n], id, account, who, merchant);
    }
  }

  // ---- preservation, one shape of step at a time

  lemma AppendKeeps(s: State, s': State, list: seq<R.Rcv>)
    requires Reconciled(s)
    requires s'.rcvs == s.rcvs + list && s'.ants == s.ants && s'.stls == s.stls && s'.ledger == s.ledger + L.ForScheduled(list)
    requires forall i :: 0 <= i < |list| ==> list[i].data.status.Scheduled?
    ensures Reconciled(s')
  {
    forall account, who
      ensures L.Balance(s'.ledger, account, who) == Expected(s', account, who)
    {
      L.BalanceAppend(s.ledger, L.ForScheduled(list), account, who);
      ScheduledBalance(list, account, who);
      SumAppend(s.rcvs, list, RowWeight(account, who));
    }
  }

  lemma ClosingKeeps(s: State, s': State, list: seq<R.Rcv>, to: R.Status)
    requires Reconciled(s) && RowsOk(list) && (to == R.Canceled || to == R.Chargebacked)
    requires Replaces(s.rcvs, CloseAll(list, to).olds, CloseAll(list, to).news)
    requires s'.rcvs == Patch(s.rcvs, CloseAll(list, to).news) && s'.ants == s.ants && s'.stls == s.stls
    requires s'.ledger == s.ledger + CloseAll(list, to).entries
    ensures Reconciled(s')
  {
    var c := CloseAll(list, to);
    forall account, who
      ensures L.Balance(s'.ledger, account, who) == Expected(s', account, who)
    {
      L.BalanceAppend(s.ledger, c.entries, account, who);
      ClosingBalance(list, to, account, who);
      PatchSum(s.rcvs, c.olds, c.news, RowWeight(account, who));
    }
  }

  lemma AnticipationEntries(a: A.Ant, account: L.Account, who: Option<Id>)
    requires a.data.status == A.Confirmed && a.data.gross == a.data.net + a.data.discount
    ensures L.Balance(L.ForAnticipation(a), account, who) == AntWeight(account, who)(a) +
            if account.PayableToMerchant? && Concerns(who, a.data.merchant) then -a.data.gross else 0
  {
    var es := L.ForAnticipation(a);
    L.SumThree(es[0], es[1], es[2], L.Weight(account, who));
  }

  lemma AnticipationKeeps(s: State, s': State, a: A.Ant, rows: seq<R.Rcv>, news: seq<R.Rcv>)
    requires Reconciled(s) && Replaces(s.rcvs, rows, news)
    requires forall i :: 0 <= i < |rows| ==>
               R.Anticipate(rows[i], a.id) == Ok(news[i]) && rows[i].data.merchant == a.data.merchant && rows[i].data.status.Scheduled?
    requires a.data.status == A.Confirmed && a.data.gross == a.data.net + a.data.discount == Sum(rows, R.Net())
    requires s'.rcvs == Patch(s.rcvs, news) && s'.ants == s.ants + [a] && s'.stls == s.stls
    requires s'.ledger == s.ledger + L.ForAnticipation(a)
    ensures Reconciled(s')
  {
    forall account, who
      ensures L.Balance(s'.ledger, account, who) == Expected(s', account, who)
    {
      L.BalanceAppend(s.ledger, L.ForAnticipation(a), account, who);
      AnticipationEntries(a, account, who);
      AnticipatedShares(rows, news, a.id, account, who, a.data.merchant);
      PatchSum(s.rcvs, rows, news, RowWeight(account, who));
      SumPush(s.ants, a, AntWeight(account, who));
    }
  }

  lemma SettlementEntries(x: S.Stl, account: L.Account, who: Option<Id>)
    requires x.data.status == S.Confirmed
    ensures L.Balance(L.ForSettlement(x), account, who) == StlWeight(account, who)(x) +
            if account.PayableToMerchant? && Concerns(who, x.data.merchant) then -(x.data.toMerchant + x.data.toCreditors) else 0
  {
    var es := L.ForSettlement(x);
    if es != [] {
      L.SumThree(es[0], es[1], es[0], L.Weight(account, who));
    }
  }

  lemma SettlementKeeps(s: State, s': State, x: S.Stl, rows: seq<R.Rcv>, news: seq<R.Rcv>)
    requires Reconciled(s) && Replaces(s.rcvs, rows, news)
    requires forall i :: 0 <= i < |rows| ==> R.Settle(rows[i], x.id) == Ok(news[i]) && rows[i].data.merchant == x.data.merchant
    requires x.data.status == S.Confirmed && x.data.toMerchant + x.data.toCreditors == Sum(rows, S.PayableNet())
    requires s'.rcvs == Patch(s.rcvs, news) && s'.ants == s.ants && s'.stls == s.stls + [x]
    requires s'.ledger == s.ledger + L.ForSettlement(x)
    ensures Reconciled(s')
  {
    forall account, who
      ensures L.Balance(s'.ledger, account, who) == Expected(s', account, who)
    {
      L.BalanceAppend(s.ledger, L.ForSettlement(x), account, who);
      SettlementEntries(x, account, who);
      SettledShares(rows, news, x.id, account, who, x.data.merchant);
      PatchSum(s.rcvs, rows, news, RowWeight(account, who));
      SumPush(s.stls, x, StlWeight(account, who));
    }
  }

  // A settlement that failed moves no balance.
  lemma FailureKeeps(s: State, s': State, x: S.Stl)
    requires Reconciled(s) && x.data.status != S.Confirmed
    requires s'.rcvs == s.rcvs && s'.ants == s.ants && s'.stls == s.stls + [x] && s'.ledger == s.ledger
    ensures Reconciled(s')
  {
    forall account, who
      ensures L.Balance(s'.ledger, account, who) == Expected(s', account, who)
    {
      SumPush(s.stls, x, StlWeight(account, who));
    }
  }
}
