/** Cash conservation: what the ledger says a partner has collected against what was delivered for cash. */
module CashLedger {
  import opened Results
  import P = Payments
  import opened Protocol
  import opened Safety

  /** The sum of some entries of a table, in any order. */
  ghost function SumOver(keys: set<string>, amounts: map<string, int>): int
    requires keys <= amounts.Keys
  {
    if keys == {} then 0
    else
      var k :| k in keys;
      amounts[k] + SumOver(keys - {k}, amounts)
  }

  lemma {:induction false} SumTakesOut(keys: set<string>, amounts: map<string, int>, k: string)
    requires keys <= amounts.Keys && k in keys
    ensures SumOver(keys, amounts) == amounts[k] + SumOver(keys - {k}, amounts)
  {
    var first :| first in keys && SumOver(keys, amounts) == amounts[first] + SumOver(keys - {first}, amounts);
    if first != k {
      SumTakesOut(keys - {first}, amounts, k);
      SumTakesOut(keys - {k}, amounts, first);
      assert keys - {first} - {k} == keys - {k} - {first};
    }
  }

  lemma {:induction false} SumAgrees(keys: set<string>, a: map<string, int>, b: map<string, int>)
    requires keys <= a.Keys && keys <= b.Keys
    requires forall k :: k in keys ==> a[k] == b[k]
    ensures SumOver(keys, a) == SumOver(keys, b)
  {
    if keys != {} {
      var k :| k in keys;
      SumAgrees(keys - {k}, a, b);
      SumTakesOut(keys, a, k);
      SumTakesOut(keys, b, k);
    }
  }

  /** A part of a table without negative entries sums to no more than the whole, and to as much iff the rest is zero. */
  lemma {:induction false} PartSumsToLess(part: set<string>, whole: set<string>, amounts: map<string, int>)
    requires part <= whole <= amounts.Keys
    requires forall k :: k in whole ==> amounts[k] >= 0
    ensures SumOver(part, amounts) <= SumOver(whole, amounts)
    ensures SumOver(part, amounts) == SumOver(whole, amounts) <==> forall k :: k in whole - part ==> amounts[k] == 0
    decreases whole - part
  {
    if k :| k in whole - part {
      SumTakesOut(whole, amounts, k);
      PartSumsToLess(part, whole - {k}, amounts);
      assert whole - {k} - part == whole - part - {k};
    } else {
      assert forall k :: k in whole ==> k in whole - part || k in part;
      assert part == whole;
    }
  }

  /** The orders whose cash is on a partner's ledger. */
  ghost function OnLedger(s: State, partner: string): set<string>
  {
    set o | o in s.cash && s.cash[o].partnerId == partner
  }

  /** The cash orders a partner delivered. */
  ghost function DeliveredForCash(s: State, partner: string): set<string>
  {
    set o | o in s.orders && Owes(s, o, partner, s.orders[o].total)
  }

  ghost function Amounts(s: State): map<string, int> { map o | o in s.cash :: s.cash[o].amount }

  ghost function Totals(s: State): map<string, int> { map o | o in s.orders :: s.orders[o].total }

  ghost function Collected(s: State, partner: string): int { SumOver(OnLedger(s, partner), Amounts(s)) }

  /**
   A partner's ledger holds only orders they delivered for cash, each once and for its total: it never exceeds what was
   delivered, and falls short exactly when a recording call for a non-zero total was lost.
   */
  lemma LedgerIsBackedByDeliveries(acts: seq<Action>, partner: string)
    ensures var s := Run(START, acts);
            && OnLedger(s, partner) <= DeliveredForCash(s, partner)
            && DeliveredForCash(s, partner) <= Totals(s).Keys
            && Collected(s, partner) <= SumOver(DeliveredForCash(s, partner), Totals(s))
            && (Collected(s, partner) == SumOver(DeliveredForCash(s, partner), Totals(s)) <==>
                 forall o :: o in DeliveredForCash(s, partner) && s.orders[o].total != 0 ==> o in s.cash)
  {
    var s := Run(START, acts);
    ReachableIsGood(acts);
    var part, whole := OnLedger(s, partner), DeliveredForCash(s, partner);
    forall o | o in s.cash
      ensures Owes(s, o, s.cash[o].partnerId, s.cash[o].amount)
    {
      assert CashOk(s, o);
    }
    forall o | o in whole
      ensures 0 <= s.orders[o].total && (o in s.cash ==> o in part)
    {
      assert OrderOk(s, o);
      if o in s.cash {
        assert CashOk(s, o);
      }
    }
    SumAgrees(part, Amounts(s), Totals(s));
    PartSumsToLess(part, whole, Totals(s));
  }

  /** A listing of a partner's rows, as the repository returns it: each once, nothing else. */
  ghost predicate Lists(rows: seq<P.Collection>, s: State, orders: set<string>)
  {
    && orders <= s.cash.Keys
    && (forall i :: 0 <= i < |rows| ==> rows[i].orderId in orders && rows[i] == s.cash[rows[i].orderId])
    && (forall i, j :: 0 <= i < j < |rows| ==> rows[i].orderId != rows[j].orderId)
    && (forall o :: o in orders ==> exists i :: 0 <= i < |rows| && rows[i].orderId == o)
  }

  lemma {:induction false} ListingSums(rows: seq<P.Collection>, s: State, orders: set<string>)
    requires Lists(rows, s, orders)
    ensures P.Sum(rows) == SumOver(orders, Amounts(s))
    decreases |rows|
  {
    if rows == [] {
      assert orders == {};
    } else {
      var rest, last := rows[..|rows| - 1], rows[|rows| - 1];
      assert Lists(rest, s, orders - {last.orderId}) by {
        forall o | o in orders - {last.orderId}
          ensures exists i :: 0 <= i < |rest| && rest[i].orderId == o
        {
          var i :| 0 <= i < |rows| && rows[i].orderId == o;
          assert rest[i].orderId == o;
        }
      }
      ListingSums(rest, s, orders - {last.orderId});
      SumTakesOut(orders, Amounts(s), last.orderId);
    }
  }

  /** For every partner, outstanding plus remitted is what they collected, whatever order the rows come in. */
  lemma LedgerConserves(s: State, partner: string, rows: seq<P.Collection>)
    requires Lists(rows, s, OnLedger(s, partner))
    ensures P.Sum(P.OfStatus(rows, P.Held)) + P.Sum(P.OfStatus(rows, P.Remitted)) == Collected(s, partner)
  {
    P.HeldPlusRemitted(rows);
    ListingSums(rows, s, OnLedger(s, partner));
  }

  /** A remittance, whatever batch it names, changes nobody's total; only recording a delivery adds to one. */
  lemma RemittingConserves(s: State, a: Action, partner: string)
    requires a.HandOver?
    ensures Collected(Next(s, a), partner) == Collected(s, partner)
  {
    var u := Next(s, a);
    assert OnLedger(u, partner) == OnLedger(s, partner);
    SumAgrees(OnLedger(s, partner), Amounts(s), Amounts(u));
  }

  /** A partner's total never falls. */
  lemma CollectedNeverFalls(acts: seq<Action>, more: seq<Action>, partner: string)
    ensures Collected(Run(START, acts), partner) <= Collected(Run(Run(START, acts), more), partner)
  {
    var s := Run(START, acts);
    var u := Run(s, more);
    ReachableIsGood(acts);
    RunKeeps(s, more);
    forall o | o in s.cash
      ensures o in u.cash && u.cash[o].amount == s.cash[o].amount && u.cash[o].partnerId == s.cash[o].partnerId
    {
      assert CashLater(s.cash[o], u.cash[o]);
    }
    forall o | o in u.cash
      ensures u.cash[o].amount >= 0
    {
      assert CashOk(u, o);
    }
    assert OnLedger(s, partner) <= OnLedger(u, partner);
    SumAgrees(OnLedger(s, partner), Amounts(s), Amounts(u));
    PartSumsToLess(OnLedger(s, partner), OnLedger(u, partner), Amounts(u));
  }
}
