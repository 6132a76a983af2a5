/** Whether an order whose payment failed can be paid for again. */
module Retries {
  import opened Results
  import opened Checkouts
  import O = Orders
  import P = Payments
  import opened Protocol
  import opened Safety
  import U = UseCases

  // ---------------------------------------------------------------- a callback taken whole

  /** A failure taken whole ends the order: the attempt is failed, and no customer can start another. */
  lemma FailureEndsTheOrder(b: U.Books, e: U.Event, customer: string, w: World)
    requires e.ref in b.payments && b.payments[e.ref].status == P.Pending && b.payments[e.ref].orderId in b.orders
    requires !e.succeeded && e.reason != ""
    ensures var u := U.Applied(b, e, w); var order := b.payments[e.ref].orderId;
            && u.payments[e.ref].status == P.Failed && order in u.orders
            && !U.MayPay(u.orders[order], customer)
            && (b.orders[order].status == O.PendingPayment ==> u.orders[order].status == O.Cancelled)
  {
    var order := b.payments[e.ref].orderId;
    O.TableMeaning(b.orders[order].status, O.Cancelled, O.System);
    U.TransitionsLeavePending(b.orders, order, O.Cancelled, Caller(O.System, "payment", []), e.reason, w);
  }

  /** And it stays so: over every sequence of whole use cases an order past pending payment is never payable again. */
  lemma {:induction false} NeverPayableAgain(b: U.Books, acts: seq<U.Action>, order: string, customer: string)
    requires order in b.orders && b.orders[order].status != O.PendingPayment
    ensures var u := U.Run(b, acts); order in u.orders && !U.MayPay(u.orders[order], customer)
    decreases |acts|
  {
    if acts != [] {
      match acts[0] {
        case Move(o, to, c, reason, w) => U.TransitionsLeavePending(b.orders, o, to, c, reason, w);
        case Callback(e, w) =>
          if U.Applied(b, e, w) != b {
            U.TransitionsLeavePending(b.orders, b.payments[e.ref].orderId, if e.succeeded then O.Placed else O.Cancelled,
                                      Caller(O.System, "payment", []), if e.succeeded then "" else e.reason, w);
          }
        case _ =>
      }
      NeverPayableAgain(U.Next(b, acts[0]), acts[1..], order, customer);
    }
  }

  // ---------------------------------------------------------------- the steps apart

  ghost predicate OtherPending(s: State, ref: string, order: string)
  {
    exists r :: r in s.payments && r != ref && s.payments[r].orderId == order && s.payments[r].status == P.Pending
  }

  /**
   Once a declined attempt is saved, and before or without the order being told, a checkout prepares a new attempt if and
   only if the order still awaits this customer's payment and has no other attempt open.
   */
  lemma RetryOpensWhileTheOrderWaits(s: State, t: Task, a: Action, w: World)
    requires t.SavePayment? && t.ref in s.payments && s.payments[t.ref].status == t.was && t.payment.status == P.Failed
    requires a.Checkout?
    ensures StartCheckout(Performed(s, t, w), a).Some? <==>
              && a.order in s.orders && U.MayPay(s.orders[a.order], a.customer) && !OtherPending(s, t.ref, a.order)
              && P.NewPayment(a.world.newId, a.order, a.customer, a.gateway, s.orders[a.order].total, a.world.now).Success?
  {
    hide HasPending, OtherPending, P.NewPayment;
    HasPendingAfter(s, t, w, a.order);
  }

  lemma HasPendingAfter(s: State, t: Task, w: World, order: string)
    requires t.SavePayment? && t.ref in s.payments && s.payments[t.ref].status == t.was && t.payment.status == P.Failed
    ensures HasPending(Performed(s, t, w), order) <==> OtherPending(s, t.ref, order)
  {
    var u := Performed(s, t, w);
    if r :| r in u.payments && u.payments[r].orderId == order && u.payments[r].status == P.Pending {
      assert r != t.ref && s.payments[r] == u.payments[r];
    }
    if r :| r in s.payments && r != t.ref && s.payments[r].orderId == order && s.payments[r].status == P.Pending {
      assert u.payments[r] == s.payments[r];
    }
  }

  lemma PendingPaymentIsFirst(o: O.Order)
    requires O.LegalHistory(o) && o.status == O.PendingPayment
    ensures |o.events| == 1
  {
    if |o.events| > 1 {
      O.StagesIncrease(o, 0, |o.events| - 1);
    }
  }

  /** Over every run of steps, whatever is lost or late: once an order has left pending payment no checkout of it opens. */
  lemma NoCheckoutOpensLater(acts: seq<Action>, more: seq<Action>, a: Action)
    requires a.Checkout?
    ensures var s := Run(START, acts); var u := Run(s, more);
            a.order in s.orders && s.orders[a.order].status != O.PendingPayment ==> StartCheckout(u, a).None?
  {
    hide Next, JobOk, PaymentOk, CashOk, TaskOk, JobLater, PaymentLater, CashLater, EventOk, HasPending;
    var s := Run(START, acts);
    var u := Run(s, more);
    ReachableIsGood(acts);
    RunKeeps(s, more);
    if a.order in s.orders && s.orders[a.order].status != O.PendingPayment {
      var was, now := s.orders[a.order], u.orders[a.order];
      assert OrderOk(s, a.order) && OrderOk(u, a.order) && OrderLater(was, now);
      if now.status == O.PendingPayment {
        PendingPaymentIsFirst(now);
      }
    }
  }

  // ---------------------------------------------------------------- a retry, when the order is never told

  const DECLINED: P.Payment := Attempt("P1").(status := P.Failed, failureReason := "no funds")

  const DECLINE: Task := SavePayment("P1", P.Pending, DECLINED, P.Decline("no funds"))

  lemma GatewayDeclines(flight: set<Task>)
    ensures Next(With(map["P1" := Attempt("P1")], flight), Callback("P1", false, "", 0, "no funds", IDLE)) ==
            With(map["P1" := Attempt("P1")], flight + {DECLINE})
  {
  }

  lemma DeclineSaved(flight: set<Task>)
    requires DECLINE in flight
    ensures Next(With(map["P1" := Attempt("P1")], flight), Perform(DECLINE, IDLE)) ==
            With(map["P1" := DECLINED], flight + {CallMarkFailed("ORD", "no funds")})
  {
  }

  lemma RetryPrepares(flight: set<Task>)
    ensures Next(With(map["P1" := DECLINED], flight), Checkout("ORD", "CUS", "manual", "", IDLE.(newId := "P2"))) ==
            With(map["P1" := DECLINED], flight + {CreatePayment(Attempt("P2"))})
  {
  }

  lemma RetryCreated(flight: set<Task>)
    requires CreatePayment(Attempt("P2")) in flight
    ensures Next(With(map["P1" := DECLINED], flight), Perform(CreatePayment(Attempt("P2")), IDLE)) ==
            With(map["P1" := DECLINED, "P2" := Attempt("P2")], flight)
  {
    assert map["P1" := DECLINED]["P2" := Attempt("P2")] == map["P1" := DECLINED, "P2" := Attempt("P2")];
  }

  predicate TellsTheOrder(a: Action) { a.Perform? && a.task.CallMarkFailed? }

  lemma AttemptFails() returns (acts: seq<Action>, flight: set<Task>)
    ensures forall a :: a in acts ==> !TellsTheOrder(a)
    ensures Run(START, acts) == With(map["P1" := DECLINED], flight)
  {
    assert Run(START, []) == START;
    hide Next, Run;
    var placing := Place(O.Draft("ORD", "EV0", "CUS", "SHOP", O.Online, 1, "ADDR", 900, 1000, 0, 0));
    flight := {};
    FirstPlaced();
    RunOne(START, [], placing);
    acts := [] + [placing];
    CheckoutPrepares(flight, "P1");
    RunOne(START, acts, Checkout("ORD", "CUS", "manual", "", IDLE.(newId := "P1")));
    acts, flight := acts + [Checkout("ORD", "CUS", "manual", "", IDLE.(newId := "P1"))],
      flight + {CreatePayment(Attempt("P1"))};
    FirstCreated(flight);
    RunOne(START, acts, Perform(CreatePayment(Attempt("P1")), IDLE));
    acts := acts + [Perform(CreatePayment(Attempt("P1")), IDLE)];
    GatewayDeclines(flight);
    RunOne(START, acts, Callback("P1", false, "", 0, "no funds", IDLE));
    acts, flight := acts + [Callback("P1", false, "", 0, "no funds", IDLE)], flight + {DECLINE};
    DeclineSaved(flight);
    RunOne(START, acts, Perform(DECLINE, IDLE));
    acts, flight := acts + [Perform(DECLINE, IDLE)], flight + {CallMarkFailed("ORD", "no funds")};
  }

  /** A run in which the order is never told of the failure, and the customer starts a second attempt. */
  lemma LostFailureIsRetried() returns (acts: seq<Action>)
    ensures forall a :: a in acts ==> !TellsTheOrder(a)
    ensures var s := Run(START, acts);
            && s.payments.Keys == {"P1", "P2"} && s.payments["P1"].orderId == s.payments["P2"].orderId == "ORD"
            && s.payments["P1"].status == P.Failed && s.payments["P2"].status == P.Pending
            && "ORD" in s.orders && s.orders["ORD"].status == O.PendingPayment
  {
    hide Next, Run;
    var flight;
    acts, flight := AttemptFails();
    RetryPrepares(flight);
    RunOne(START, acts, Checkout("ORD", "CUS", "manual", "", IDLE.(newId := "P2")));
    acts, flight := acts + [Checkout("ORD", "CUS", "manual", "", IDLE.(newId := "P2"))],
      flight + {CreatePayment(Attempt("P2"))};
    RetryCreated(flight);
    RunOne(START, acts, Perform(CreatePayment(Attempt("P2")), IDLE));
    acts := acts + [Perform(CreatePayment(Attempt("P2")), IDLE)];
    assert Run(START, acts) == With(map["P1" := DECLINED, "P2" := Attempt("P2")], flight);
  }
}
