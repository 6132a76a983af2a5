/** Cash on its way: booked as held, outstanding until it is handed over, and handed over by nobody but who owes it. */
module Remittances {
  import opened Results
  import opened CashLedger
  import J = Jobs
  import O = Orders
  import P = Payments
  import opened Protocol
  import opened Safety

  /** The orders whose cash a partner still holds. */
  ghost function Unpaid(s: State, partner: string): set<string>
  {
    set o | o in s.cash && s.cash[o].partnerId == partner && s.cash[o].status == P.Held
  }

  ghost function Outstanding(s: State, partner: string): int { SumOver(Unpaid(s, partner), Amounts(s)) }

  /** No order is listed twice. */
  ghost predicate Once(rows: seq<P.Collection>)
  {
    forall i, j :: 0 <= i < j < |rows| ==> rows[i].orderId != rows[j].orderId
  }

  lemma {:induction false} HeldOnce(rows: seq<P.Collection>)
    requires Once(rows)
    ensures Once(P.OfStatus(rows, P.Held))
  {
    if rows != [] {
      var rest, last := rows[..|rows| - 1], rows[|rows| - 1];
      var before, held := P.OfStatus(rest, P.Held), P.OfStatus(rows, P.Held);
      assert Once(rest);
      HeldOnce(rest);
      forall i | 0 <= i < |before|
        ensures before[i].orderId != last.orderId
      {
        assert before[i] in before;
        var k :| 0 <= k < |rest| && rest[k] == before[i];
        assert rows[k] == rest[k];
      }
      assert held == if last.status == P.Held then before + [last] else before;
    }
  }

  /** What a partner's summary calls outstanding is what they owe, however their rows are listed. */
  lemma SummaryIsWhatIsOwed(s: State, partner: string, rows: seq<P.Collection>)
    requires Lists(rows, s, OnLedger(s, partner))
    ensures P.Sum(P.OfStatus(rows, P.Held)) == Outstanding(s, partner)
  {
    var held, orders := P.OfStatus(rows, P.Held), Unpaid(s, partner);
    assert Once(rows);
    HeldOnce(rows);
    forall o | o in orders
      ensures exists i :: 0 <= i < |held| && held[i].orderId == o
    {
      assert o in OnLedger(s, partner);
      var k :| 0 <= k < |rows| && rows[k].orderId == o;
      assert rows[k] in held;
      var i :| 0 <= i < |held| && held[i] == rows[k];
    }
    forall i | 0 <= i < |held|
      ensures held[i].orderId in orders && held[i] == s.cash[held[i].orderId]
    {
      assert held[i] in held;
      var k :| 0 <= k < |rows| && rows[k] == held[i];
    }
    ListingSums(held, s, orders);
  }

  // ---------------------------------------------------------------- booking

  /** A delivery's cash, booked for the first time, is held by who delivered it, and they owe that much more; nobody else does. */
  lemma RecordingRaisesWhatIsOwed(s: State, order: string, partner: string, amount: int, w: World, other: string)
    requires CallRecord(order, partner, amount) in s.flight && WindowInBounds(w)
    requires order !in s.cash && order != "" && partner != "" && amount > 0
    ensures var u := Next(s, Perform(CallRecord(order, partner, amount), w));
            && order in u.cash && u.cash[order].status == P.Held && u.cash[order].remittanceRef == ""
            && u.cash[order].partnerId == partner && u.cash[order].amount == amount && u.cash[order].orderId == order
            && (forall o :: o in s.cash ==> o in u.cash && u.cash[o] == s.cash[o])
            && Outstanding(u, other) == Outstanding(s, other) + if other == partner then amount else 0
  {
    var u := Next(s, Perform(CallRecord(order, partner, amount), w));
    P.NewCollectionMeaning(w.newId, order, partner, amount);
    hide P.NewCollection;
    assert u.cash.Keys == s.cash.Keys + {order};
    if other == partner {
      assert Unpaid(u, other) - {order} == Unpaid(s, other);
      SumTakesOut(Unpaid(u, other), Amounts(u), order);
    } else {
      assert Unpaid(u, other) == Unpaid(s, other);
    }
    SumAgrees(Unpaid(s, other), Amounts(s), Amounts(u));
  }

  /** A second booking of the same order, for whomever and whatever, changes nothing. */
  lemma RecordingIsOnce(s: State, order: string, partner: string, amount: int, w: World)
    requires order in s.cash
    ensures Next(s, Perform(CallRecord(order, partner, amount), w)).cash == s.cash
  {
  }

  // ---------------------------------------------------------------- handing over

  lemma {:induction false} SumSplits(part: set<string>, whole: set<string>, amounts: map<string, int>)
    requires part <= whole <= amounts.Keys
    ensures SumOver(whole, amounts) == SumOver(part, amounts) + SumOver(whole - part, amounts)
  {
    if part == {} {
      assert whole - part == whole;
    } else {
      var k :| k in part;
      SumSplits(part - {k}, whole - {k}, amounts);
      SumTakesOut(whole, amounts, k);
      SumTakesOut(part, amounts, k);
      assert whole - {k} - (part - {k}) == whole - part;
    }
  }

  ghost predicate Accepted(s: State, a: Action)
    requires a.HandOver?
  {
    && a.orders != [] && a.reference != ""
    && (forall i :: 0 <= i < |a.orders| ==>
         a.orders[i] in s.cash && s.cash[a.orders[i]].partnerId == a.partner && s.cash[a.orders[i]].status == P.Held)
    && (forall i, j :: 0 <= i < j < |a.orders| ==> a.orders[i] != a.orders[j])
  }

  /**
   A remittance is all or nothing: when every row it names is the partner's, held and named once, each is marked with its
   reference and the partner owes exactly that much less; otherwise nothing changes. Nobody else owes more or less.
   */
  lemma HandingOverLowersWhatIsOwed(s: State, a: Action, other: string)
    requires a.HandOver?
    ensures var u := Next(s, a); var batch := set o | o in a.orders;
            if !Accepted(s, a) then u.cash == s.cash
            else
              && u.cash.Keys == s.cash.Keys && batch <= s.cash.Keys
              && (forall o :: o in s.cash ==>
                   u.cash[o] == if o in batch
                                then s.cash[o].(status := P.Remitted, remittanceRef := a.reference, remittedAt := a.world.now)
                                else s.cash[o])
              && Outstanding(u, other) == Outstanding(s, other) - if other == a.partner then SumOver(batch, Amounts(s)) else 0
  {
    var u, batch := Next(s, a), set o | o in a.orders;
    if Accepted(s, a) {
      forall o | o in batch
        ensures o in s.cash && s.cash[o].partnerId == a.partner && s.cash[o].status == P.Held
      {
        var i :| 0 <= i < |a.orders| && a.orders[i] == o;
      }
      if other == a.partner {
        assert Unpaid(u, other) == Unpaid(s, other) - batch;
        SumSplits(batch, Unpaid(s, other), Amounts(s));
      } else {
        assert Unpaid(u, other) == Unpaid(s, other);
      }
      SumAgrees(Unpaid(u, other), Amounts(s), Amounts(u));
    }
  }

  // ---------------------------------------------------------------- who handed it over

  /** The owing partner handed the order over, under the reference and at the instant its row carries. */
  predicate HandedOverBy(a: Action, order: string, c: P.Collection)
  {
    && a.HandOver? && a.partner == c.partnerId && order in a.orders
    && a.reference == c.remittanceRef && a.reference != "" && a.world.now == c.remittedAt
  }

  lemma CashOnlyChangesByBookingOrHandingOver(s: State, a: Action)
    requires Next(s, a).cash != s.cash && !a.HandOver?
    ensures a.Perform? && a.task.CallRecord? && a.task in s.flight && WindowInBounds(a.world) && a.task.order !in s.cash
    ensures P.NewCollection(a.world.newId, a.task.order, a.task.partner, a.task.amount).Success?
    ensures Next(s, a).cash ==
            s.cash[a.task.order := P.NewCollection(a.world.newId, a.task.order, a.task.partner, a.task.amount).value]
  {
    hide Execute, ReadAndMove, SettlePayment, StartCheckout, Aftermath, Told, HasPending;
    hide O.NewOrder, O.Append, J.NewJob, P.NewCollection;
  }

  lemma RowsAreHandedOver(s: State, a: Action, order: string)
    requires order in Next(s, a).cash && !(order in s.cash && s.cash[order] == Next(s, a).cash[order])
    requires Next(s, a).cash[order].status == P.Remitted
    ensures HandedOverBy(a, order, Next(s, a).cash[order])
  {
    if a.HandOver? {
      HandingOverLowersWhatIsOwed(s, a, "");
    } else {
      CashOnlyChangesByBookingOrHandingOver(s, a);
      P.NewCollectionMeaning(a.world.newId, a.task.order, a.task.partner, a.task.amount);
    }
  }

  /** Over every run: cash counts as handed over only if its own partner named it in a remittance of the run. */
  lemma {:induction false} RemittedWasHandedOver(acts: seq<Action>, order: string)
    ensures var s := Run(START, acts);
            order in s.cash && s.cash[order].status == P.Remitted ==>
              exists i :: 0 <= i < |acts| && HandedOverBy(acts[i], order, s.cash[order])
    decreases |acts|
  {
    hide Next, HandedOverBy;
    if acts != [] {
      var shorter, a := acts[..|acts| - 1], acts[|acts| - 1];
      var s, u := Run(START, shorter), Run(START, acts);
      assert u == Next(s, a);
      RemittedWasHandedOver(shorter, order);
      if order in u.cash && u.cash[order].status == P.Remitted {
        if order in s.cash && s.cash[order] == u.cash[order] {
          var i :| 0 <= i < |shorter| && HandedOverBy(shorter[i], order, s.cash[order]);
          assert acts[i] == shorter[i];
        } else {
          RowsAreHandedOver(s, a, order);
        }
      }
    }
  }
}
