/** The double-entry ledger: the entries of every money step, and the guard on appending them. */
module Ledger {
  import opened Results
  import opened Sums
  import R = Receivables
  import S = Settlements
  import A = Anticipations

  datatype Account = ReceivableFromIssuer | PayableToMerchant | RevenueFees | RevenueAnticipation | BankOutgoing | ChargebackLoss

  datatype RefType = OfReceivable | OfSettlement | OfAnticipation | OfChargeback

  datatype Entry = Entry(account: Account, merchant: Id, debit: int, credit: int, refType: RefType, refId: Id)

  function Debit(account: Account, merchant: Id, v: int, refType: RefType, refId: Id): Entry {
    Entry(account, merchant, v, 0, refType, refId)
  }

  function Credit(account: Account, merchant: Id, v: int, refType: RefType, refId: Id): Entry {
    Entry(account, merchant, 0, v, refType, refId)
  }

  function ForScheduledOne(r: R.Rcv): seq<Entry> {
    [Debit(ReceivableFromIssuer, r.data.merchant, r.data.gross, OfReceivable, r.id),
     Credit(PayableToMerchant, r.data.merchant, r.data.net, OfReceivable, r.id),
     Credit(RevenueFees, r.data.merchant, r.data.fee, OfReceivable, r.id)]
  }

  function ForScheduled(list: seq<R.Rcv>): seq<Entry> {
    if list == [] then [] else ForScheduled(list[..|list|-1]) + ForScheduledOne(list[|list|-1])
  }

  method EntriesForScheduled(list: seq<R.Rcv>) returns (out: seq<Entry>)
    ensures out == ForScheduled(list)
  {
    out := [];
    for i := 0 to |list|
      invariant out == ForScheduled(list[..i])
    {
      assert list[..i+1][..i] == list[..i];
      var r := list[i];
      out := out + [Debit(ReceivableFromIssuer, r.data.merchant, r.data.gross, OfReceivable, r.id),
                    Credit(PayableToMerchant, r.data.merchant, r.data.net, OfReceivable, r.id),
                    Credit(RevenueFees, r.data.merchant, r.data.fee, OfReceivable, r.id)];
    }
    assert list[..|list|] == list;
  }

  function ForAnticipation(a: A.Ant): seq<Entry> {
    [Debit(PayableToMerchant, a.data.merchant, a.data.gross, OfAnticipation, a.id),
     Credit(BankOutgoing, a.data.merchant, a.data.net, OfAnticipation, a.id),
     Credit(RevenueAnticipation, a.data.merchant, a.data.discount, OfAnticipation, a.id)]
  }

  function ForSettlement(s: S.Stl): seq<Entry> {
    var paid := s.data.toMerchant + s.data.toCreditors;
    if paid == 0 then []
    else [Debit(PayableToMerchant, s.data.merchant, paid, OfSettlement, s.id),
          Credit(BankOutgoing, s.data.merchant, paid, OfSettlement, s.id)]
  }

  function ForChargeback(r: R.Rcv): seq<Entry> {
    [Credit(ReceivableFromIssuer, r.data.merchant, r.data.gross, OfChargeback, r.id),
     Debit(PayableToMerchant, r.data.merchant, r.data.net, OfChargeback, r.id),
     Debit(RevenueFees, r.data.merchant, r.data.fee, OfChargeback, r.id)]
  }

  function ForChargebackAnticipated(r: R.Rcv): seq<Entry> {
    [Credit(ReceivableFromIssuer, r.data.merchant, r.data.gross, OfChargeback, r.id),
     Debit(ChargebackLoss, r.data.merchant, r.data.net, OfChargeback, r.id),
     Debit(RevenueFees, r.data.merchant, r.data.fee, OfChargeback, r.id)]
  }

  function DebitOf(): Entry -> int { (e: Entry) => e.debit }

  function CreditOf(): Entry -> int { (e: Entry) => e.credit }

  predicate Balanced(entries: seq<Entry>) {
    Sum(entries, DebitOf()) == Sum(entries, CreditOf())
  }

  method IsBalanced(entries: seq<Entry>) returns (b: bool)
    ensures b == Balanced(entries)
  {
    var d, c := 0, 0;
    for i := 0 to |entries|
      invariant d == Sum(entries[..i], DebitOf()) && c == Sum(entries[..i], CreditOf())
    {
      assert entries[..i+1][..i] == entries[..i];
      d := d + entries[i].debit;
      c := c + entries[i].credit;
    }
    assert entries[..|entries|] == entries;
    return d == c;
  }

  // The table's CHECK constraints.
  predicate Storable(e: Entry) {
    e.debit >= 0 && e.credit >= 0 && (e.debit == 0 || e.credit == 0)
  }

  function Append(ledger: seq<Entry>, entries: seq<Entry>): Result<seq<Entry>> {
    if !Balanced(entries) then Err(Unbalanced)
    else if forall i :: 0 <= i < |entries| ==> Storable(entries[i]) then Ok(ledger + entries)
    else Err(CheckViolation)
  }

  // Credits minus debits of one account, for one merchant or (None) for all.
  function Weight(account: Account, who: Option<Id>): Entry -> int {
    (e: Entry) => if e.account == account && (who.None? || e.merchant == who.value) then e.credit - e.debit else 0
  }

  function Balance(ledger: seq<Entry>, account: Account, who: Option<Id>): int {
    Sum(ledger, Weight(account, who))
  }

  lemma BalanceAppend(ledger: seq<Entry>, entries: seq<Entry>, account: Account, who: Option<Id>)
    ensures Balance(ledger + entries, account, who) == Balance(ledger, account, who) + Balance(entries, account, who)
  {
    SumAppend(ledger, entries, Weight(account, who));
  }

  // Sums over the short lists every money step produces.
  lemma SumThree(a: Entry, b: Entry, c: Entry, w: Entry -> int)
    ensures Sum([a, b, c], w) == w(a) + w(b) + w(c)
    ensures Sum([a, b], w) == w(a) + w(b)
  {
    SumPush([], a, w);
    SumPush([a], b, w);
    SumPush([a, b], c, w);
    assert [] + [a] == [a] && [a] + [b] == [a, b] && [a, b] + [c] == [a, b, c];
  }

  function NetWeight(): Entry -> int { (e: Entry) => e.credit - e.debit }

  lemma {:induction false} NetWeightSum(entries: seq<Entry>)
    ensures Sum(entries, NetWeight()) == Sum(entries, CreditOf()) - Sum(entries, DebitOf())
  {
    SumOfSums(entries, NetWeight(), DebitOf(), CreditOf());
  }
}
