/**
 The use cases and the step system are one model: a use case run whole is its steps performed one after the other, with
 nothing of anybody else's in between.
 */
module Refinement {
  import opened Results
  import D = Dispatch
  import J = Jobs
  import O = Orders
  import P = Payments
  import opened Protocol
  import U = UseCases

  function BooksOf(s: State): U.Books { U.Books(s.orders, s.payments) }

  /** A step that launches a task, and that task performed at once. */
  ghost function AtOnce(s: State, a: Action, t: Task, w: World): State { Next(Next(s, a), Perform(t, w)) }

  // ---------------------------------------------------------------- orders

  /** What a transition leaves when its write follows its read: the orders of the use case, and the calls it makes. */
  ghost predicate Executed(s: State, u: State, t: Option<Task>)
  {
    match t
    case None => u.orders == s.orders && u.flight == s.flight
    case Some(save) =>
      && save.SaveOrder? && save.order in s.orders
      && u.orders == U.After(s.orders, t)
      && u.flight == s.flight + {save} + Told(save.order, s.orders[save.order], save.event)
  }

  ghost function Follow(s: State, t: Option<Task>, w: World): State
  {
    match t
    case None => s
    case Some(task) => Next(s, Perform(task, w))
  }

  lemma TransitionLands(s: State, order: string, to: O.Status, c: Caller, reason: string, w: World)
    requires WindowInBounds(w)
    ensures var t := Execute(s.orders, order, to, c, reason, w);
            var u := Follow(Launch(s, t), t, w);
            Executed(s, u, t) && u.payments == s.payments && u.jobs == s.jobs && u.cash == s.cash
  {
    hide O.CanTransition, O.MayCustomerCancel, MayTouch;
  }

  /** A request of a customer, a shop or an admin, read and then written: what the order desk's Execute does. */
  lemma ExecuteIsReadThenWrite(s: State, order: string, to: O.Status, c: Caller, reason: string, w: World)
    requires c.actor in {O.Customer, O.Merchant, O.Admin} && WindowInBounds(w)
    ensures var t := Execute(s.orders, order, to, c, reason, w);
            Executed(s, Follow(Next(s, Ask(order, to, c, reason, w)), t, w), t)
  {
    hide Execute, Follow;
    TransitionLands(s, order, to, c, reason, w);
  }

  /** The transition a call of another module asks for. */
  function Called(s: State, call: Task, w: World): Option<Task>
    requires call.CallMarkPaid? || call.CallMarkFailed? || call.CallAdvance?
  {
    match call
    case CallMarkPaid(order) => Execute(s.orders, order, O.Placed, Caller(O.System, "payment", []), "", w)
    case CallMarkFailed(order, reason) =>
      Execute(s.orders, order, O.Cancelled, Caller(O.System, "payment", []), reason, w)
    case CallAdvance(order, to, partner, reason) => Execute(s.orders, order, to, Caller(O.Partner, partner, []), reason, w)
  }

  /** A call in flight, answered and written: MarkPaid, MarkPaymentFailed and Advance of the order desk. */
  lemma CallIsReadThenWrite(s: State, call: Task, w: World)
    requires call in s.flight && (call.CallMarkPaid? || call.CallMarkFailed? || call.CallAdvance?) && WindowInBounds(w)
    ensures var t := Called(s, call, w); var u := Follow(Next(s, Perform(call, w)), t, w);
            Executed(s, u, t) && u.payments == s.payments
  {
    hide Execute, Follow;
    match call
    case CallMarkPaid(order) => TransitionLands(s, order, O.Placed, Caller(O.System, "payment", []), "", w);
    case CallMarkFailed(order, reason) =>
      TransitionLands(s, order, O.Cancelled, Caller(O.System, "payment", []), reason, w);
    case CallAdvance(order, to, partner, reason) =>
      TransitionLands(s, order, to, Caller(O.Partner, partner, []), reason, w);
  }

  // ---------------------------------------------------------------- payments

  function CallbackOf(e: U.Event, w: World): Action
  {
    Callback(e.ref, e.succeeded, e.gatewayRef, e.amount, e.reason, w)
  }

  /** A callback: the payment read, settled and written, the order told, and the order's transition written. */
  ghost function CallbackWhole(s: State, e: U.Event, w: World): State
  {
    var save := SettlePayment(s.payments, e.ref, U.MoveOf(e), w.now);
    if save.None? then Next(s, CallbackOf(e, w))
    else
      var saved := AtOnce(s, CallbackOf(e, w), save.value, w);
      var order := save.value.payment.orderId;
      var call := if e.succeeded then CallMarkPaid(order) else CallMarkFailed(order, e.reason);
      Follow(Next(saved, Perform(call, w)), Called(saved, call, w), w)
  }

  /** Those steps in a row leave the books as the use case run whole does. */
  lemma ApplyIsItsSteps(s: State, e: U.Event, w: World)
    requires WindowInBounds(w)
    ensures BooksOf(CallbackWhole(s, e, w)) == U.Applied(BooksOf(s), e, w)
  {
    hide Execute, Follow;
    var save := SettlePayment(s.payments, e.ref, U.MoveOf(e), w.now);
    if save.Some? {
      var order := save.value.payment.orderId;
      var call := if e.succeeded then CallMarkPaid(order) else CallMarkFailed(order, e.reason);
      var saved := AtOnce(s, CallbackOf(e, w), save.value, w);
      assert saved.payments == s.payments[e.ref := save.value.payment] && saved.orders == s.orders && call in saved.flight;
      CallIsReadThenWrite(saved, call, w);
    }
  }

  /** A checkout read and then written is the use case's Start. */
  lemma StartIsReadThenWrite(s: State, order: string, customer: string, gateway: string, gatewayRef: string, w: World)
    requires WindowInBounds(w)
    ensures var a := Checkout(order, customer, gateway, gatewayRef, w);
            BooksOf(Follow(Next(s, a), StartCheckout(s, a), w)) == U.Started(BooksOf(s), order, customer, gateway, gatewayRef, w)
  {
  }

  /** A refund read and then written is the use case's reversal. */
  lemma RefundIsReadThenWrite(s: State, ref: string, reason: string, w: World)
    requires WindowInBounds(w)
    ensures var t := SettlePayment(s.payments, ref, P.Refund(reason), w.now);
            BooksOf(Follow(Next(s, GiveBack(ref, reason, w)), t, w)) == U.Reversed(BooksOf(s), ref, reason, w)
  {
  }

  /** A recording called is the use case's Record: one row for the order, or nothing. */
  lemma RecordIsItsCall(s: State, order: string, partner: string, amount: int, w: World)
    requires CallRecord(order, partner, amount) in s.flight && WindowInBounds(w)
    ensures var made := P.NewCollection(w.newId, order, partner, amount);
            Next(s, Perform(CallRecord(order, partner, amount), w)).cash ==
              if order in s.cash || made.Failure? then s.cash else s.cash[order := made.value]
  {
  }

  // ---------------------------------------------------------------- jobs

  /** A partner's action read and then written: the desk's jobs, and the calls the action makes. */
  lemma ActIsReadThenWrite(s: State, partners: map<string, D.Partner>, order: string, m: J.Move, w: World)
    requires D.PartnerMove(m) && m.who in partners && WindowInBounds(w)
    ensures var t := ReadAndMove(s.jobs, order, m, w.now); var u := Follow(Next(s, Ride(order, m, w)), t, w);
            && u.jobs == D.Acted(D.Desk(s.jobs, partners), order, m, w.now).jobs
            && u.flight == s.flight + (if t.Some? then {t.value} + Aftermath(order, t.value.next, m) else {})
  {
    hide J.After;
  }

  /** A withdrawal called, read and then written leaves the desk's jobs as the use case does. */
  lemma WithdrawIsReadThenWrite(s: State, partners: map<string, D.Partner>, order: string, reason: string, w: World)
    requires CallWithdraw(order, reason) in s.flight && WindowInBounds(w)
    ensures var t := ReadAndMove(s.jobs, order, J.Cancel(reason), w.now);
            Follow(Next(s, Perform(CallWithdraw(order, reason), w)), t, w).jobs ==
              D.Withdrawn(D.Desk(s.jobs, partners), order, reason, w.now).jobs
  {
  }

  /** An offer or its lapse, read and then written, is the desk's. */
  lemma PutIsReadThenWrite(s: State, partners: map<string, D.Partner>, order: string, m: J.Move, w: World)
    requires m.Lapse? || (m.Offer? && m.to != "")
    requires WindowInBounds(w)
    ensures var t := ReadAndMove(s.jobs, order, m, w.now);
            Follow(Next(s, Ride(order, m, w)), t, w).jobs == D.Put(D.Desk(s.jobs, partners), order, m, w.now).jobs
  {
    hide J.After;
  }

  /** A job called for and then created is the desk's. */
  lemma OpenIsCallThenCreate(s: State, partners: map<string, D.Partner>, order: string, w: World)
    requires CallOffer(order) in s.flight && WindowInBounds(w)
    ensures var job := J.NewJob(order, w.distance, w.now);
            var t := if order in s.jobs || job.Failure? then None else Some(CreateJob(order, job.value));
            Follow(Next(s, Perform(CallOffer(order), w)), t, w).jobs ==
              D.Next(D.Desk(s.jobs, partners), D.Open(order, w.distance, w.now)).jobs
  {
  }
}
