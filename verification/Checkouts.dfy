/**
 How many payments of one order can be open or settled at once.

 Checkout reads the order and then creates the payment, and the store refuses a second attempt only while one is
 pending. So an attempt that was prepared before another one settled can still land after it.
 */
module Checkouts {
  import opened Results
  import O = Orders
  import P = Payments
  import opened Protocol
  import opened Safety

  predicate Live(p: P.Payment) { p.status != P.Failed }

  /** No order has two payments that are pending, captured or refunded. */
  ghost predicate OneLivePayment(s: State)
  {
    forall q, r :: q in s.payments && r in s.payments && q != r && s.payments[q].orderId == s.payments[r].orderId ==>
      !(Live(s.payments[q]) && Live(s.payments[r]))
  }

  ghost predicate HasSettled(s: State, order: string)
  {
    exists r :: r in s.payments && s.payments[r].orderId == order && s.payments[r].status in {P.Captured, P.Refunded}
  }

  /** A checkout write that lands although its order has meanwhile been paid. */
  ghost predicate LandsLate(s: State, a: Action)
  {
    && a.Perform? && a.task in s.flight && WindowInBounds(a.world)
    && a.task.CreatePayment? && a.task.payment.id !in s.payments
    && !HasPending(s, a.task.payment.orderId) && HasSettled(s, a.task.payment.orderId)
  }

  lemma PaymentsOnlyChangeByTheirWrites(s: State, a: Action)
    ensures var u := Next(s, a);
            u.payments != s.payments ==>
              a.Perform? && a.task in s.flight && (a.task.SavePayment? || a.task.CreatePayment?)
  {
    hide Execute, ReadAndMove, SettlePayment, StartCheckout, Remit, Aftermath, Told, O.NewOrder;
  }

  lemma SavingKeepsOneLive(s: State, t: Task, w: World)
    requires t.SavePayment? && TaskOk(s, t) && OneLivePayment(s)
    ensures OneLivePayment(Performed(s, t, w))
  {
    var u := Performed(s, t, w);
    forall q, r | q in u.payments && r in u.payments && q != r && u.payments[q].orderId == u.payments[r].orderId
      ensures !(Live(u.payments[q]) && Live(u.payments[r]))
    {
      assert Live(u.payments[q]) ==> Live(s.payments[q]);
      assert Live(u.payments[r]) ==> Live(s.payments[r]);
    }
  }

  lemma CreatingKeepsOneLive(s: State, t: Task, w: World)
    requires t.CreatePayment? && TaskOk(s, t) && OneLivePayment(s)
    requires t.payment.id !in s.payments && !HasPending(s, t.payment.orderId)
    ensures OneLivePayment(Performed(s, t, w)) <==> !HasSettled(s, t.payment.orderId)
  {
    var u, p := Performed(s, t, w), t.payment;
    assert u.payments == s.payments[p.id := p];
    if HasSettled(s, p.orderId) {
      var r :| r in s.payments && s.payments[r].orderId == p.orderId && s.payments[r].status in {P.Captured, P.Refunded};
      assert Live(u.payments[r]) && Live(u.payments[p.id]);
    } else {
      forall q, r | q in u.payments && r in u.payments && q != r && u.payments[q].orderId == u.payments[r].orderId
        ensures !(Live(u.payments[q]) && Live(u.payments[r]))
      {
        if q != p.id && r != p.id {
          assert u.payments[q] == s.payments[q] && u.payments[r] == s.payments[r];
        }
      }
    }
  }

  /** From a state with one live payment an order, a step breaks that exactly when a checkout write lands late. */
  lemma DoublePaymentNeedsALateCheckout(s: State, a: Action)
    requires Inv(s) && OneLivePayment(s)
    ensures OneLivePayment(Next(s, a)) <==> !LandsLate(s, a)
  {
    hide OrderOk, JobOk, PaymentOk, CashOk;
    var u := Next(s, a);
    if u.payments != s.payments {
      PaymentsOnlyChangeByTheirWrites(s, a);
      assert TaskOk(s, a.task);
      if a.task.SavePayment? {
        SavingKeepsOneLive(s, a.task, a.world);
      } else {
        CreatingKeepsOneLive(s, a.task, a.world);
      }
    }
  }

  ghost predicate NoLateCheckout(acts: seq<Action>)
    decreases |acts|
  {
    acts == [] ||
    (NoLateCheckout(acts[..|acts| - 1]) && !LandsLate(Run(START, acts[..|acts| - 1]), acts[|acts| - 1]))
  }

  /** On every run in which each checkout reads and writes without its order being paid in between, payments are single. */
  lemma {:induction false} PromptCheckoutsNeverDouble(acts: seq<Action>)
    requires NoLateCheckout(acts)
    ensures OneLivePayment(Run(START, acts))
    decreases |acts|
  {
    if acts != [] {
      var shorter := acts[..|acts| - 1];
      PromptCheckoutsNeverDouble(shorter);
      ReachableIsGood(shorter);
      hide Inv;
      DoublePaymentNeedsALateCheckout(Run(START, shorter), acts[|acts| - 1]);
    }
  }

  lemma RunOne(s: State, acts: seq<Action>, a: Action)
    ensures Run(s, acts + [a]) == Next(Run(s, acts), a)
  {
    assert (acts + [a])[..|acts|] == acts;
  }

  const IDLE: World := World(0, 0, "EV", 0.0)

  const UNPAID: O.Order :=
    O.Order("ORD", "CUS", "SHOP", O.Online, 1000, O.PendingPayment,
            [O.Event("EV0", O.PendingPayment, O.Customer, "CUS", "", 0)], 0, 0)

  function Attempt(id: string): P.Payment
  {
    P.Payment(id, "ORD", "CUS", "manual", "", 1000, P.Pending, "", "", 0, 0)
  }

  const PAID: P.Payment := Attempt("P1").(status := P.Captured)

  const CONFIRM: Task := SavePayment("P1", P.Pending, PAID, P.Capture("", 1000))

  ghost function With(payments: map<string, P.Payment>, flight: set<Task>): State
  {
    State(map["ORD" := UNPAID], map[], payments, map[], flight)
  }

  lemma FirstPlaced()
    ensures Next(START, Place(O.Draft("ORD", "EV0", "CUS", "SHOP", O.Online, 1, "ADDR", 900, 1000, 0, 0))) == With(map[], {})
  {
  }

  lemma CheckoutPrepares(flight: set<Task>, id: string)
    ensures Next(With(map[], flight), Checkout("ORD", "CUS", "manual", "", IDLE.(newId := id))) ==
            With(map[], flight + {CreatePayment(Attempt(id))})
  {
  }

  lemma FirstCreated(flight: set<Task>)
    requires CreatePayment(Attempt("P1")) in flight
    ensures Next(With(map[], flight), Perform(CreatePayment(Attempt("P1")), IDLE)) == With(map["P1" := Attempt("P1")], flight)
  {
  }

  lemma GatewayConfirms(flight: set<Task>)
    ensures Next(With(map["P1" := Attempt("P1")], flight), Callback("P1", true, "", 1000, "", IDLE)) ==
            With(map["P1" := Attempt("P1")], flight + {CONFIRM})
  {
  }

  lemma ConfirmationSaved(flight: set<Task>)
    requires CONFIRM in flight
    ensures Next(With(map["P1" := Attempt("P1")], flight), Perform(CONFIRM, IDLE)) ==
            With(map["P1" := PAID], flight + {CallMarkPaid("ORD")})
  {
  }

  lemma SecondCreated(flight: set<Task>)
    requires CreatePayment(Attempt("P2")) in flight
    ensures Next(With(map["P1" := PAID], flight), Perform(CreatePayment(Attempt("P2")), IDLE)) ==
            With(map["P1" := PAID, "P2" := Attempt("P2")], flight)
  {
    assert map["P1" := PAID]["P2" := Attempt("P2")] == map["P1" := PAID, "P2" := Attempt("P2")];
  }

  /** Two checkouts prepared side by side, one paid before the other lands: the order ends up with two live payments. */
  lemma DoublePaymentIsReachable() returns (acts: seq<Action>)
    ensures !OneLivePayment(Run(START, acts))
  {
    assert Run(START, []) == START;
    hide Next, Run;
    var flight := {};
    FirstPlaced();
    RunOne(START, [], Place(O.Draft("ORD", "EV0", "CUS", "SHOP", O.Online, 1, "ADDR", 900, 1000, 0, 0)));
    acts := [] + [Place(O.Draft("ORD", "EV0", "CUS", "SHOP", O.Online, 1, "ADDR", 900, 1000, 0, 0))];
    CheckoutPrepares(flight, "P1");
    RunOne(START, acts, Checkout("ORD", "CUS", "manual", "", IDLE.(newId := "P1")));
    acts, flight := acts + [Checkout("ORD", "CUS", "manual", "", IDLE.(newId := "P1"))],
      flight + {CreatePayment(Attempt("P1"))};
    CheckoutPrepares(flight, "P2");
    RunOne(START, acts, Checkout("ORD", "CUS", "manual", "", IDLE.(newId := "P2")));
    acts, flight := acts + [Checkout("ORD", "CUS", "manual", "", IDLE.(newId := "P2"))],
      flight + {CreatePayment(Attempt("P2"))};
    FirstCreated(flight);
    RunOne(START, acts, Perform(CreatePayment(Attempt("P1")), IDLE));
    acts := acts + [Perform(CreatePayment(Attempt("P1")), IDLE)];
    GatewayConfirms(flight);
    RunOne(START, acts, Callback("P1", true, "", 1000, "", IDLE));
    acts, flight := acts + [Callback("P1", true, "", 1000, "", IDLE)], flight + {CONFIRM};
    ConfirmationSaved(flight);
    RunOne(START, acts, Perform(CONFIRM, IDLE));
    acts, flight := acts + [Perform(CONFIRM, IDLE)], flight + {CallMarkPaid("ORD")};
    SecondCreated(flight);
    RunOne(START, acts, Perform(CreatePayment(Attempt("P2")), IDLE));
    acts := acts + [Perform(CreatePayment(Attempt("P2")), IDLE)];
    var s := Run(START, acts);
    assert s == With(map["P1" := PAID, "P2" := Attempt("P2")], flight);
    assert "P1" in s.payments && "P2" in s.payments && Live(s.payments["P1"]) && Live(s.payments["P2"]);
  }
}
