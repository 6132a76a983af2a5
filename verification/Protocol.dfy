/**
 Orders, jobs, payments and cash as one step system.

 A use case reads a row, applies a domain move, and writes the row back with a compare-and-set on the status it read;
 then it calls the other modules. Each read, each write and each call is a step of its own here. A write or a call that
 is still to come is a task in flight, and tasks never leave the flight: a run may perform one at once, late, after any
 other step, more than once, or never. What holds on every run therefore holds when calls are lost, delayed, reordered
 or retried, and when a write is based on a stale read.
 */
module Protocol {
  import opened Results
  import O = Orders
  import J = Jobs
  import P = Payments

  /** The longest free-cancellation window the configuration registry lets anybody set: 900 seconds. */
  const MAX_WINDOW: int := 900 * O.SECOND

  datatype Task =
    | SaveJob(order: string, expected: J.JobStatus, next: J.JobRow, move: J.Move)
    | CreateJob(order: string, job: J.JobRow)
    | CallAdvance(order: string, to: O.Status, partner: string, reason: string)
    | SaveOrder(order: string, from: O.Status, event: O.Event)
    | CallOffer(order: string)
    | CallWithdraw(order: string, reason: string)
    | SavePayment(ref: string, was: P.PayStatus, payment: P.Payment, settle: P.PayMove)
    | CreatePayment(payment: P.Payment)
    | CallMarkPaid(order: string)
    | CallMarkFailed(order: string, reason: string)
    | CallRecord(order: string, partner: string, amount: int)

  /** The stores: jobs and cash keyed by order (a unique index each), payments by reference. */
  datatype State = State(
    orders: map<string, O.Order>, jobs: map<string, J.JobRow>, payments: map<string, P.Payment>,
    cash: map<string, P.Collection>, flight: set<Task>)

  const START: State := State(map[], map[], map[], map[], {})

  datatype Caller = Caller(actor: O.Actor, id: string, merchantIds: seq<string>)

  /** What the outside supplies to a step: the clock, the cancellation window in force, and minted identifiers. */
  datatype World = World(now: int, window: int, newId: string, distance: real)

  datatype Action =
    | Place(draft: O.Draft)
    | Ask(order: string, to: O.Status, caller: Caller, reason: string, world: World)
    | Ride(order: string, move: J.Move, world: World)
    | Checkout(order: string, customer: string, gateway: string, gatewayRef: string, world: World)
    | Callback(ref: string, succeeded: bool, gatewayRef: string, amount: int, reason: string, world: World)
    | GiveBack(ref: string, reason: string, world: World)
    | HandOver(partner: string, orders: seq<string>, reference: string, world: World)
    | Perform(task: Task, world: World)

  // ---------------------------------------------------------------- the order side

  predicate MayTouch(o: O.Order, c: Caller)
  {
    match c.actor
    case Customer => o.customerId == c.id
    case Merchant => o.merchantId in c.merchantIds
    case _ => true
  }

  /** Execute up to its write: the transition it is about to append, if nothing refuses it. */
  function Execute(orders: map<string, O.Order>, order: string, to: O.Status, c: Caller, reason: string, w: World)
    : (t: Option<Task>)
    ensures t.Some? ==> t.value.SaveOrder? && t.value.order == order && order in orders
  {
    if order !in orders || !MayTouch(orders[order], c) then None
    else
      var o := orders[order];
      if c.actor == O.Customer && to == O.Cancelled && !O.MayCustomerCancel(o, w.window, w.now).allowed then None
      else if to == O.Rejected && reason == "" then None
      else if O.CanTransition(o.status, to, c.actor).Fail? then None
      else Some(SaveOrder(order, o.status, O.Event(w.newId, to, c.actor, c.id, reason, w.now)))
  }

  /** What Execute tells dispatch and payment once its write has landed. */
  function Told(order: string, o: O.Order, e: O.Event): (calls: set<Task>)
    ensures forall t :: t in calls ==> t.CallOffer? || t.CallWithdraw? || t.CallRecord?
  {
    if e.status == O.Ready then {CallOffer(order)}
    else if e.status in {O.Cancelled, O.Rejected, O.Failed} then {CallWithdraw(order, e.reason)}
    else if e.status == O.Delivered && o.payment == O.Cash then {CallRecord(order, e.actorId, o.total)}
    else {}
  }

  function Launch(s: State, t: Option<Task>): State
  {
    match t
    case None => s
    case Some(task) => s.(flight := s.flight + {task})
  }

  // ---------------------------------------------------------------- the dispatch side

  /** A job read and moved, about to be written back. */
  function ReadAndMove(jobs: map<string, J.JobRow>, order: string, m: J.Move, now: int): (t: Option<Task>)
    ensures t.Some? ==> t.value.SaveJob? && t.value.order == order && order in jobs
  {
    if order !in jobs then None
    else
      match J.After(jobs[order], m, now)
      case Failure(_) => None
      case Success(next) => Some(SaveJob(order, jobs[order].status, next, m))
  }

  /** The moves a partner, the sweeper or an assignment round makes; only Withdraw cancels. */
  predicate Rideable(m: J.Move)
  {
    !m.Cancel? && (m.Offer? ==> m.to != "")
  }

  /** settle: which order transition a saved partner action asks for. */
  function Aftermath(order: string, next: J.JobRow, m: J.Move): (calls: set<Task>)
    ensures forall t :: t in calls ==> t.CallAdvance?
  {
    match m
    case Collect(who) => {CallAdvance(order, O.PickedUp, who, "")}
    case Deliver(who) => {CallAdvance(order, O.Delivered, who, "")}
    case Fail(who, _) => if next.status == J.Failed then {CallAdvance(order, O.Failed, who, next.reason)} else {}
    case _ => {}
  }

  // ---------------------------------------------------------------- the payment side

  ghost predicate HasPending(s: State, order: string)
  {
    exists r :: r in s.payments && s.payments[r].orderId == order && s.payments[r].status == P.Pending
  }

  /** Start up to its write: a new attempt for an online order that is waiting for payment and has none open. */
  ghost function StartCheckout(s: State, a: Action): (t: Option<Task>)
    requires a.Checkout?
    ensures t.Some? ==> t.value.CreatePayment?
  {
    if a.order !in s.orders then None
    else
      var o := s.orders[a.order];
      if o.customerId != a.customer || o.payment != O.Online || o.status != O.PendingPayment || HasPending(s, a.order) then None
      else
        match P.NewPayment(a.world.newId, a.order, a.customer, a.gateway, o.total, a.world.now)
        case Failure(_) => None
        case Success(p) => Some(CreatePayment(p.(gatewayRef := a.gatewayRef)))
  }

  function SettlePayment(payments: map<string, P.Payment>, ref: string, m: P.PayMove, now: int): (t: Option<Task>)
    ensures t.Some? ==> t.value.SavePayment? && t.value.ref == ref && ref in payments
  {
    if ref !in payments then None
    else
      match P.Settled(payments[ref], m, now)
      case Failure(_) => None
      case Success(p) => Some(SavePayment(ref, payments[ref].status, p, m))
  }

  /** Remit's transaction: every named collection is this partner's and still held, each named once, or nothing moves. */
  predicate Remittable(cash: map<string, P.Collection>, partner: string, orders: seq<string>)
  {
    && (forall i :: 0 <= i < |orders| ==>
         orders[i] in cash && cash[orders[i]].partnerId == partner && cash[orders[i]].status == P.Held)
    && forall i, j :: 0 <= i < j < |orders| ==> orders[i] != orders[j]
  }

  function Remit(cash: map<string, P.Collection>, partner: string, orders: seq<string>, reference: string, now: int)
    : map<string, P.Collection>
  {
    if orders == [] || reference == "" || !Remittable(cash, partner, orders) then cash
    else
      map o | o in cash ::
        if o in orders then cash[o].(status := P.Remitted, remittanceRef := reference, remittedAt := now) else cash[o]
  }

  // ---------------------------------------------------------------- steps

  /** Performs a write or a call: a compare-and-set that finds another status changes nothing. */
  ghost function Performed(s: State, t: Task, w: World): State
  {
    match t
    case SaveJob(order, expected, next, m) =>
      if order in s.jobs && s.jobs[order].status == expected
      then s.(jobs := s.jobs[order := next], flight := s.flight + Aftermath(order, next, m))
      else s
    case CreateJob(order, job) => if order in s.jobs then s else s.(jobs := s.jobs[order := job])
    case CallAdvance(order, to, partner, reason) =>
      Launch(s, Execute(s.orders, order, to, Caller(O.Partner, partner, []), reason, w))
    case SaveOrder(order, from, e) =>
      if order in s.orders && s.orders[order].status == from
      then s.(orders := s.orders[order := O.Append(s.orders[order], e)],
              flight := s.flight + Told(order, s.orders[order], e))
      else s
    case CallOffer(order) =>
      if order in s.jobs then s
      else
        (match J.NewJob(order, w.distance, w.now)
         case Failure(_) => s
         case Success(job) => Launch(s, Some(CreateJob(order, job))))
    case CallWithdraw(order, reason) => Launch(s, ReadAndMove(s.jobs, order, J.Cancel(reason), w.now))
    case SavePayment(ref, expected, p, m) =>
      if ref in s.payments && s.payments[ref].status == expected
      then s.(payments := s.payments[ref := p],
              flight := s.flight + (match m
                                    case Capture(_, _) => {CallMarkPaid(p.orderId)}
                                    case Decline(reason) => {CallMarkFailed(p.orderId, reason)}
                                    case Refund(_) => {}))
      else s
    case CreatePayment(p) =>
      if p.id in s.payments || HasPending(s, p.orderId) then s else s.(payments := s.payments[p.id := p])
    case CallMarkPaid(order) => Launch(s, Execute(s.orders, order, O.Placed, Caller(O.System, "payment", []), "", w))
    case CallMarkFailed(order, reason) =>
      Launch(s, Execute(s.orders, order, O.Cancelled, Caller(O.System, "payment", []), reason, w))
    case CallRecord(order, partner, amount) =>
      match P.NewCollection(w.newId, order, partner, amount)
      case Failure(_) => s
      case Success(c) => if order in s.cash then s else s.(cash := s.cash[order := c])
  }

  predicate WindowInBounds(w: World) { 0 <= w.window <= MAX_WINDOW }

  /** One step; one that is not possible in a state leaves it unchanged. */
  ghost function Next(s: State, a: Action): State
  {
    match a
    case Place(d) =>
      if d.id in s.orders then s
      else (match O.NewOrder(d)
            case Failure(_) => s
            case Success(o) => s.(orders := s.orders[d.id := o]))
    case Ask(order, to, c, reason, w) =>
      if c.actor in {O.Customer, O.Merchant, O.Admin} && WindowInBounds(w)
      then Launch(s, Execute(s.orders, order, to, c, reason, w)) else s
    case Ride(order, m, w) => if Rideable(m) then Launch(s, ReadAndMove(s.jobs, order, m, w.now)) else s
    case Checkout(_, _, _, _, _) => Launch(s, StartCheckout(s, a))
    case Callback(ref, succeeded, gatewayRef, amount, reason, w) =>
      Launch(s, SettlePayment(s.payments, ref, if succeeded then P.Capture(gatewayRef, amount) else P.Decline(reason), w.now))
    case GiveBack(ref, reason, w) => Launch(s, SettlePayment(s.payments, ref, P.Refund(reason), w.now))
    case HandOver(partner, orders, reference, w) => s.(cash := Remit(s.cash, partner, orders, reference, w.now))
    case Perform(t, w) => if t in s.flight && WindowInBounds(w) then Performed(s, t, w) else s
  }

  ghost function Run(s: State, acts: seq<Action>): State
    decreases |acts|
  {
    if acts == [] then s else Next(Run(s, acts[..|acts| - 1]), acts[|acts| - 1])
  }

  // ---------------------------------------------------------------- facts that stay true once they are true

  ghost predicate Gone(s: State, order: string)
  {
    order in s.orders && s.orders[order].status in {O.Cancelled, O.Rejected, O.Failed}
  }

  ghost predicate HasBeenReady(s: State, order: string)
  {
    order in s.orders && O.Reached(s.orders[order], O.Ready)
  }

  /** This partner collected the goods: whatever the job does next, it stays theirs. */
  ghost predicate CollectedBy(s: State, order: string, partner: string)
  {
    && order in s.jobs && s.jobs[order].partnerId == partner
    && s.jobs[order].status in {J.Collected, J.Delivered, J.Failed, J.Cancelled}
  }

  ghost predicate EndedBy(s: State, order: string, end: J.JobStatus, partner: string)
  {
    order in s.jobs && s.jobs[order].partnerId == partner && s.jobs[order].status == end
  }

  predicate Pays(p: P.Payment, o: O.Order)
  {
    p.orderId == o.id && p.amount == o.total && p.status in {P.Captured, P.Refunded}
  }

  ghost predicate PaidFor(s: State, order: string)
  {
    order in s.orders && exists r :: r in s.payments && Pays(s.payments[r], s.orders[order])
  }

  /** A delivered cash order, and the partner who delivered it. */
  ghost predicate Owes(s: State, order: string, partner: string, amount: int)
  {
    && order in s.orders && s.orders[order].payment == O.Cash && s.orders[order].status == O.Delivered
    && |s.orders[order].events| > 0
    && s.orders[order].events[|s.orders[order].events| - 1].actorId == partner
    && s.orders[order].total == amount
  }

  /** What stands behind an event in an order's history. */
  ghost predicate EventOk(s: State, order: string, e: O.Event)
  {
    && order in s.orders
    && (e.actor == O.Partner && e.status == O.PickedUp ==> CollectedBy(s, order, e.actorId))
    && (e.actor == O.Partner && e.status == O.Delivered ==> EndedBy(s, order, J.Delivered, e.actorId))
    && (e.actor == O.Partner && e.status == O.Failed ==> EndedBy(s, order, J.Failed, e.actorId))
    && (e.actor == O.System && e.status == O.Placed ==> PaidFor(s, order))
    && (e.actor == O.Customer && e.status == O.Cancelled ==> e.at < s.orders[order].placedAt + MAX_WINDOW)
    && (e.status == O.Rejected ==> e.reason != "")
  }

  ghost predicate OrderOk(s: State, order: string)
    requires order in s.orders
  {
    && s.orders[order].id == order && 0 <= s.orders[order].total
    && O.LegalHistory(s.orders[order])
    && forall i :: 0 <= i < |s.orders[order].events| ==> EventOk(s, order, s.orders[order].events[i])
  }

  ghost predicate JobOk(s: State, order: string)
    requires order in s.jobs
  {
    && s.jobs[order].orderId == order
    && HasBeenReady(s, order)
    && (s.jobs[order].status == J.Cancelled ==> Gone(s, order))
  }

  ghost predicate AsksRight(s: State, p: P.Payment)
  {
    p.orderId in s.orders && s.orders[p.orderId].payment == O.Online && s.orders[p.orderId].total == p.amount
  }

  ghost predicate PaymentOk(s: State, ref: string)
    requires ref in s.payments
  {
    s.payments[ref].id == ref && AsksRight(s, s.payments[ref])
  }

  ghost predicate CashOk(s: State, order: string)
    requires order in s.cash
  {
    && s.cash[order].orderId == order && s.cash[order].amount > 0
    && Owes(s, order, s.cash[order].partnerId, s.cash[order].amount)
  }

  /** What is known about a write or a call for as long as it is in flight. */
  ghost predicate TaskOk(s: State, t: Task)
  {
    match t
    case SaveJob(order, expected, next, m) =>
      && order in s.jobs && next.orderId == order
      && J.Edge(expected, next.status)
      && (expected == J.Collected ==> CollectedBy(s, order, next.partnerId))
      && (next.status == J.Cancelled ==> Gone(s, order))
      && (m.Collect? ==> next.status == J.Collected && next.partnerId == m.who)
      && (m.Deliver? ==> next.status == J.Delivered && next.partnerId == m.who)
      && (m.Fail? && next.status == J.Failed ==> next.partnerId == m.who)
    case CreateJob(order, job) => HasBeenReady(s, order) && job.orderId == order && job.status == J.Waiting
    case CallAdvance(order, to, partner, _) =>
      (match to
       case PickedUp => CollectedBy(s, order, partner)
       case Delivered => EndedBy(s, order, J.Delivered, partner)
       case Failed => EndedBy(s, order, J.Failed, partner)
       case _ => false)
    case SaveOrder(order, from, e) => O.CanTransition(from, e.status, e.actor).Pass? && EventOk(s, order, e)
    case CallOffer(order) => HasBeenReady(s, order)
    case CallWithdraw(order, _) => Gone(s, order)
    case SavePayment(ref, expected, p, m) =>
      && ref in s.payments && p.id == ref && AsksRight(s, p)
      && p.orderId == s.payments[ref].orderId
      && P.PayEdge(expected, p.status)
      && (m.Capture? ==> p.status == P.Captured)
    case CreatePayment(p) => AsksRight(s, p) && p.status == P.Pending
    case CallMarkPaid(order) => PaidFor(s, order)
    case CallMarkFailed(_, _) => true
    case CallRecord(order, partner, amount) => Owes(s, order, partner, amount)
  }

  ghost predicate Inv(s: State)
  {
    && (forall o :: o in s.orders ==> OrderOk(s, o))
    && (forall o :: o in s.jobs ==> JobOk(s, o))
    && (forall r :: r in s.payments ==> PaymentOk(s, r))
    && (forall o :: o in s.cash ==> CashOk(s, o))
    && (forall t :: t in s.flight ==> TaskOk(s, t))
  }

  // ---------------------------------------------------------------- how the stores grow

  predicate OrderLater(a: O.Order, b: O.Order)
  {
    && b.id == a.id && b.payment == a.payment && b.total == a.total && b.placedAt == a.placedAt
    && b.customerId == a.customerId && b.merchantId == a.merchantId
    && a.events <= b.events
    && (O.IsTerminal(a.status) ==> b == a)
  }

  predicate JobLater(a: J.JobRow, b: J.JobRow)
  {
    && b.orderId == a.orderId
    && (a.status == J.Collected ==> b.partnerId == a.partnerId)
    && (a.status == J.Collected ==> b.status in {J.Collected, J.Delivered, J.Failed, J.Cancelled})
    && (J.IsTerminal(a.status) ==> b == a)
  }

  predicate PaymentLater(a: P.Payment, b: P.Payment)
  {
    && b.id == a.id && b.orderId == a.orderId && b.amount == a.amount
    && (a.status == P.Captured ==> b.status in {P.Captured, P.Refunded})
    && (a.status in {P.Failed, P.Refunded} ==> b.status == a.status)
  }

  predicate CashLater(a: P.Collection, b: P.Collection)
  {
    && b.orderId == a.orderId && b.partnerId == a.partnerId && b.amount == a.amount
    && (a.status == P.Remitted ==> b == a)
  }

  /** Nothing is ever deleted, and every row only moves on. */
  ghost predicate Grows(s: State, u: State)
  {
    && (forall o :: o in s.orders ==> o in u.orders && OrderLater(s.orders[o], u.orders[o]))
    && (forall o :: o in s.jobs ==> o in u.jobs && JobLater(s.jobs[o], u.jobs[o]))
    && (forall r :: r in s.payments ==> r in u.payments && PaymentLater(s.payments[r], u.payments[r]))
    && (forall o :: o in s.cash ==> o in u.cash && CashLater(s.cash[o], u.cash[o]))
    && s.flight <= u.flight
  }

  lemma ReachedLater(a: O.Order, b: O.Order, st: O.Status)
    requires OrderLater(a, b) && O.Reached(a, st)
    ensures O.Reached(b, st)
  {
    var i :| 0 <= i < |a.events| && a.events[i].status == st;
    assert b.events[i].status == st;
  }

  lemma PaidForGrows(s: State, u: State, order: string)
    requires Grows(s, u) && PaidFor(s, order)
    ensures PaidFor(u, order)
  {
    var r :| r in s.payments && Pays(s.payments[r], s.orders[order]);
    assert OrderLater(s.orders[order], u.orders[order]);
    assert PaymentLater(s.payments[r], u.payments[r]);
    assert Pays(u.payments[r], u.orders[order]);
  }

  lemma EventOkGrows(s: State, u: State, order: string, e: O.Event)
    requires Grows(s, u) && EventOk(s, order, e)
    ensures EventOk(u, order, e)
  {
    assert OrderLater(s.orders[order], u.orders[order]);
    if PaidFor(s, order) {
      PaidForGrows(s, u, order);
    }
  }

  lemma TaskOkGrows(s: State, u: State, t: Task)
    requires Grows(s, u) && TaskOk(s, t)
    ensures TaskOk(u, t)
  {
    match t
    case SaveOrder(order, from, e) => EventOkGrows(s, u, order, e);
    case CallMarkPaid(order) => PaidForGrows(s, u, order);
    case CallOffer(order) => ReachedLater(s.orders[order], u.orders[order], O.Ready);
    case CreateJob(order, job) => ReachedLater(s.orders[order], u.orders[order], O.Ready);
    case _ =>
  }

  lemma OrderOkCarries(s: State, u: State, order: string)
    requires Grows(s, u) && order in s.orders && OrderOk(s, order)
    requires order in u.orders && u.orders[order] == s.orders[order]
    ensures OrderOk(u, order)
  {
    forall i | 0 <= i < |u.orders[order].events|
      ensures EventOk(u, order, u.orders[order].events[i])
    {
      EventOkGrows(s, u, order, s.orders[order].events[i]);
    }
  }

  lemma JobOkCarries(s: State, u: State, order: string)
    requires Grows(s, u) && order in s.jobs && JobOk(s, order)
    requires order in u.jobs && u.jobs[order] == s.jobs[order]
    ensures JobOk(u, order)
  {
    assert OrderLater(s.orders[order], u.orders[order]);
    ReachedLater(s.orders[order], u.orders[order], O.Ready);
  }

  lemma GrowsItself(s: State)
    ensures Grows(s, s)
  {
  }

  lemma RecordsCarry(s: State, u: State)
    requires Grows(s, u)
    ensures forall p :: AsksRight(s, p) ==> AsksRight(u, p)
    ensures forall r :: r in s.payments && r in u.payments && u.payments[r] == s.payments[r] && PaymentOk(s, r) ==> PaymentOk(u, r)
    ensures forall o :: o in s.cash && o in u.cash && u.cash[o] == s.cash[o] && CashOk(s, o) ==> CashOk(u, o)
  {
  }

  /** Everything a step added or changed is all right. */
  ghost predicate ChangesOk(s: State, u: State)
  {
    && (forall o :: o in u.orders ==> (o in s.orders && s.orders[o] == u.orders[o]) || OrderOk(u, o))
    && (forall o :: o in u.jobs ==> (o in s.jobs && s.jobs[o] == u.jobs[o]) || JobOk(u, o))
    && (forall r :: r in u.payments ==> (r in s.payments && s.payments[r] == u.payments[r]) || PaymentOk(u, r))
    && (forall o :: o in u.cash ==> (o in s.cash && s.cash[o] == u.cash[o]) || CashOk(u, o))
    && (forall t :: t in u.flight ==> t in s.flight || TaskOk(u, t))
  }

  /** It is enough to look at what a step changed. */
  lemma InvCarries(s: State, u: State)
    requires Inv(s) && Grows(s, u) && ChangesOk(s, u)
    ensures Inv(u)
  {
    hide OrderOk, JobOk, PaymentOk, CashOk, TaskOk;
    forall o | o in u.orders
      ensures OrderOk(u, o)
    {
      if o in s.orders && s.orders[o] == u.orders[o] {
        OrderOkCarries(s, u, o);
      }
    }
    forall o | o in u.jobs
      ensures JobOk(u, o)
    {
      if o in s.jobs && s.jobs[o] == u.jobs[o] {
        JobOkCarries(s, u, o);
      }
    }
    RecordsCarry(s, u);
    forall t | t in u.flight
      ensures TaskOk(u, t)
    {
      if t in s.flight {
        TaskOkGrows(s, u, t);
      }
    }
  }

  // ---------------------------------------------------------------- every step keeps the invariant

  lemma LaunchKeeps(s: State, t: Option<Task>)
    requires Inv(s) && (t.Some? ==> TaskOk(s, t.value))
    ensures Inv(Launch(s, t)) && Grows(s, Launch(s, t))
  {
    hide OrderOk, JobOk, PaymentOk, CashOk, TaskOk;
    var u := Launch(s, t);
    if t.Some? {
      TaskOkGrows(s, u, t.value);
    }
    InvCarries(s, u);
  }

  /** Execute never asks for more than what stands behind its caller. */
  lemma ExecuteIsBacked(s: State, order: string, to: O.Status, c: Caller, reason: string, w: World)
    requires Inv(s) && WindowInBounds(w)
    requires c.actor == O.Partner ==> TaskOk(s, CallAdvance(order, to, c.id, reason))
    requires c.actor == O.System && to == O.Placed ==> PaidFor(s, order)
    ensures var t := Execute(s.orders, order, to, c, reason, w); t.Some? ==> TaskOk(s, t.value)
  {
    if Execute(s.orders, order, to, c, reason, w).Some? && c.actor == O.Customer && to == O.Cancelled {
      O.CancelDecisionMeaning(s.orders[order], w.window, w.now);
    }
  }

  lemma ReadAndMoveIsBacked(s: State, order: string, m: J.Move, now: int)
    requires Inv(s) && (m.Cancel? ==> Gone(s, order))
    ensures var t := ReadAndMove(s.jobs, order, m, now); t.Some? ==> TaskOk(s, t.value)
  {
    hide OrderOk, PaymentOk, CashOk;
    if ReadAndMove(s.jobs, order, m, now).Some? {
      assert JobOk(s, order);
      J.MovesFollowEdges(s.jobs[order], m, now);
    }
  }

  lemma SettleIsBacked(s: State, ref: string, m: P.PayMove, now: int)
    requires Inv(s)
    ensures var t := SettlePayment(s.payments, ref, m, now); t.Some? ==> TaskOk(s, t.value)
  {
    if SettlePayment(s.payments, ref, m, now).Some? {
      assert PaymentOk(s, ref);
      P.SettlingKeepsIdentity(s.payments[ref], m, now);
    }
  }

  lemma SavedJobGrows(s: State, t: Task, w: World)
    requires t.SaveJob? && TaskOk(s, t) && Performed(s, t, w) != s && JobOk(s, t.order)
    ensures Grows(s, Performed(s, t, w))
  {
    assert t.expected == s.jobs[t.order].status;
    assert !J.IsTerminal(t.expected);
    assert JobLater(s.jobs[t.order], t.next);
  }

  lemma SavedJobIsGood(s: State, t: Task, w: World)
    requires t.SaveJob? && TaskOk(s, t) && Performed(s, t, w) != s && JobOk(s, t.order)
    ensures JobOk(Performed(s, t, w), t.order)
    ensures forall x :: x in Aftermath(t.order, t.next, t.move) ==> TaskOk(Performed(s, t, w), x)
  {
    hide Grows;
  }

  lemma SavedJobIsLater(s: State, t: Task, w: World)
    requires t.SaveJob? && TaskOk(s, t) && Performed(s, t, w) != s && JobOk(s, t.order)
    ensures Grows(s, Performed(s, t, w))
    ensures JobOk(Performed(s, t, w), t.order)
    ensures forall x :: x in Aftermath(t.order, t.next, t.move) ==> TaskOk(Performed(s, t, w), x)
  {
    hide Grows, JobOk, TaskOk;
    SavedJobGrows(s, t, w);
    SavedJobIsGood(s, t, w);
  }

  lemma SaveJobKeeps(s: State, t: Task, w: World)
    requires Inv(s) && t.SaveJob? && TaskOk(s, t)
    ensures Inv(Performed(s, t, w)) && Grows(s, Performed(s, t, w))
  {
    hide OrderOk, JobOk, PaymentOk, CashOk, TaskOk, Grows;
    var u := Performed(s, t, w);
    GrowsItself(s);
    if u != s {
      assert JobOk(s, t.order);
      SavedJobIsLater(s, t, w);
      InvCarries(s, u);
    }
  }

  lemma CreatedJobIsGood(s: State, t: Task, w: World)
    requires t.CreateJob? && TaskOk(s, t) && Performed(s, t, w) != s
    ensures Grows(s, Performed(s, t, w)) && JobOk(Performed(s, t, w), t.order)
  {
  }

  lemma CreateJobKeeps(s: State, t: Task, w: World)
    requires Inv(s) && t.CreateJob? && TaskOk(s, t)
    ensures Inv(Performed(s, t, w)) && Grows(s, Performed(s, t, w))
  {
    hide OrderOk, JobOk, PaymentOk, CashOk, TaskOk, Grows;
    GrowsItself(s);
    if Performed(s, t, w) != s {
      CreatedJobIsGood(s, t, w);
      InvCarries(s, Performed(s, t, w));
    }
  }

  lemma SavedOrderGrows(s: State, t: Task, w: World)
    requires t.SaveOrder? && TaskOk(s, t) && Performed(s, t, w) != s && OrderOk(s, t.order)
    ensures Grows(s, Performed(s, t, w))
  {
    O.AppendKeepsHistory(s.orders[t.order], t.event);
  }

  lemma SavedOrderIsGood(s: State, t: Task, w: World)
    requires t.SaveOrder? && TaskOk(s, t) && Performed(s, t, w) != s && OrderOk(s, t.order)
    requires Grows(s, Performed(s, t, w))
    ensures OrderOk(Performed(s, t, w), t.order)
  {
    hide JobOk, PaymentOk, CashOk, Grows;
    var u, order, e := Performed(s, t, w), t.order, t.event;
    var was, now := s.orders[order], u.orders[order];
    O.AppendKeepsHistory(was, e);
    forall i | 0 <= i < |now.events|
      ensures EventOk(u, order, now.events[i])
    {
      EventOkGrows(s, u, order, if i < |was.events| then was.events[i] else e);
    }
  }

  lemma SavedOrderTells(s: State, t: Task, w: World)
    requires t.SaveOrder? && Performed(s, t, w) != s
    ensures forall x :: x in Told(t.order, s.orders[t.order], t.event) ==> TaskOk(Performed(s, t, w), x)
  {
    var now, n := Performed(s, t, w).orders[t.order], |s.orders[t.order].events|;
    assert now == O.Append(s.orders[t.order], t.event);
    assert |now.events| == n + 1 && now.events[n] == t.event;
  }

  lemma SavedOrderIsLater(s: State, t: Task, w: World)
    requires t.SaveOrder? && TaskOk(s, t) && Performed(s, t, w) != s && OrderOk(s, t.order)
    ensures Grows(s, Performed(s, t, w))
    ensures OrderOk(Performed(s, t, w), t.order)
    ensures forall x :: x in Told(t.order, s.orders[t.order], t.event) ==> TaskOk(Performed(s, t, w), x)
  {
    hide OrderOk, TaskOk, Grows;
    SavedOrderGrows(s, t, w);
    SavedOrderIsGood(s, t, w);
    SavedOrderTells(s, t, w);
  }

  lemma SaveOrderKeeps(s: State, t: Task, w: World)
    requires Inv(s) && t.SaveOrder? && TaskOk(s, t)
    ensures Inv(Performed(s, t, w)) && Grows(s, Performed(s, t, w))
  {
    hide OrderOk, JobOk, PaymentOk, CashOk, TaskOk, Grows;
    GrowsItself(s);
    if Performed(s, t, w) != s {
      SavedOrderIsLater(s, t, w);
      InvCarries(s, Performed(s, t, w));
    }
  }

  lemma SavedPaymentGrows(s: State, t: Task, w: World)
    requires t.SavePayment? && TaskOk(s, t) && Performed(s, t, w) != s && PaymentOk(s, t.ref)
    ensures Grows(s, Performed(s, t, w))
  {
    assert PaymentLater(s.payments[t.ref], t.payment);
  }

  lemma SavedPaymentIsLater(s: State, t: Task, w: World)
    requires t.SavePayment? && TaskOk(s, t) && Performed(s, t, w) != s
    requires PaymentOk(s, t.ref) && (t.payment.orderId in s.orders ==> OrderOk(s, t.payment.orderId))
    ensures Grows(s, Performed(s, t, w))
    ensures PaymentOk(Performed(s, t, w), t.ref)
    ensures forall x :: x in Performed(s, t, w).flight && x !in s.flight ==> TaskOk(Performed(s, t, w), x)
  {
    SavedPaymentGrows(s, t, w);
    SavedPaymentPays(s, t, w);
    hide OrderOk, CashOk, JobOk, Grows, PaidFor;
  }

  lemma SavedPaymentPays(s: State, t: Task, w: World)
    requires t.SavePayment? && TaskOk(s, t) && Performed(s, t, w) != s
    requires t.payment.orderId in s.orders ==> OrderOk(s, t.payment.orderId)
    ensures t.settle.Capture? ==> PaidFor(Performed(s, t, w), t.payment.orderId)
  {
    hide O.LegalHistory, EventOk;
    var u := Performed(s, t, w);
    assert t.settle.Capture? ==> Pays(u.payments[t.ref], u.orders[t.payment.orderId]);
  }

  lemma SavePaymentKeeps(s: State, t: Task, w: World)
    requires Inv(s) && t.SavePayment? && TaskOk(s, t)
    ensures Inv(Performed(s, t, w)) && Grows(s, Performed(s, t, w))
  {
    hide OrderOk, JobOk, PaymentOk, CashOk, TaskOk, Grows;
    GrowsItself(s);
    if Performed(s, t, w) != s {
      SavedPaymentIsLater(s, t, w);
      InvCarries(s, Performed(s, t, w));
    }
  }

  lemma RecordedIsGood(s: State, t: Task, w: World)
    requires t.CallRecord? && TaskOk(s, t) && Performed(s, t, w) != s
    ensures Grows(s, Performed(s, t, w)) && CashOk(Performed(s, t, w), t.order)
  {
  }

  lemma RecordKeeps(s: State, t: Task, w: World)
    requires Inv(s) && t.CallRecord? && TaskOk(s, t)
    ensures Inv(Performed(s, t, w)) && Grows(s, Performed(s, t, w))
  {
    hide OrderOk, JobOk, PaymentOk, CashOk, TaskOk, Grows;
    GrowsItself(s);
    if Performed(s, t, w) != s {
      RecordedIsGood(s, t, w);
      InvCarries(s, Performed(s, t, w));
    }
  }

  lemma CreatedPaymentIsGood(s: State, t: Task, w: World)
    requires t.CreatePayment? && TaskOk(s, t) && Performed(s, t, w) != s
    ensures Grows(s, Performed(s, t, w)) && PaymentOk(Performed(s, t, w), t.payment.id)
  {
  }

  lemma CreatePaymentKeeps(s: State, t: Task, w: World)
    requires Inv(s) && t.CreatePayment? && TaskOk(s, t)
    ensures Inv(Performed(s, t, w)) && Grows(s, Performed(s, t, w))
  {
    hide OrderOk, JobOk, PaymentOk, CashOk, TaskOk, Grows;
    GrowsItself(s);
    if Performed(s, t, w) != s {
      CreatedPaymentIsGood(s, t, w);
      InvCarries(s, Performed(s, t, w));
    }
  }

  lemma PerformKeeps(s: State, t: Task, w: World)
    requires Inv(s) && TaskOk(s, t) && WindowInBounds(w)
    ensures Inv(Performed(s, t, w)) && Grows(s, Performed(s, t, w))
  {
    hide OrderOk, JobOk, PaymentOk, CashOk, Grows;
    GrowsItself(s);
    match t
    case SaveJob(_, _, _, _) => SaveJobKeeps(s, t, w);
    case CreateJob(_, _) => CreateJobKeeps(s, t, w);
    case SaveOrder(_, _, _) => SaveOrderKeeps(s, t, w);
    case SavePayment(_, _, _, _) => SavePaymentKeeps(s, t, w);
    case CreatePayment(_) => CreatePaymentKeeps(s, t, w);
    case CallRecord(_, _, _) => RecordKeeps(s, t, w);
    case CallAdvance(order, to, partner, reason) =>
      var c := Caller(O.Partner, partner, []);
      ExecuteIsBacked(s, order, to, c, reason, w);
      LaunchKeeps(s, Execute(s.orders, order, to, c, reason, w));
    case CallOffer(order) =>
      if order !in s.jobs && J.NewJob(order, w.distance, w.now).Success? {
        LaunchKeeps(s, Some(CreateJob(order, J.NewJob(order, w.distance, w.now).value)));
      }
    case CallWithdraw(order, reason) =>
      ReadAndMoveIsBacked(s, order, J.Cancel(reason), w.now);
      LaunchKeeps(s, ReadAndMove(s.jobs, order, J.Cancel(reason), w.now));
    case CallMarkPaid(order) =>
      var c := Caller(O.System, "payment", []);
      ExecuteIsBacked(s, order, O.Placed, c, "", w);
      LaunchKeeps(s, Execute(s.orders, order, O.Placed, c, "", w));
    case CallMarkFailed(order, reason) =>
      var c := Caller(O.System, "payment", []);
      ExecuteIsBacked(s, order, O.Cancelled, c, reason, w);
      LaunchKeeps(s, Execute(s.orders, order, O.Cancelled, c, reason, w));
  }

  lemma PlacedOrderIsGood(s: State, d: O.Draft)
    requires Next(s, Place(d)) != s
    ensures Grows(s, Next(s, Place(d))) && OrderOk(Next(s, Place(d)), d.id)
  {
    var u := Next(s, Place(d));
    assert forall i :: 0 <= i < |u.orders[d.id].events| ==> EventOk(u, d.id, u.orders[d.id].events[i]);
  }

  lemma PlaceKeeps(s: State, d: O.Draft)
    requires Inv(s)
    ensures Inv(Next(s, Place(d))) && Grows(s, Next(s, Place(d)))
  {
    hide OrderOk, JobOk, PaymentOk, CashOk, TaskOk, Grows;
    GrowsItself(s);
    if Next(s, Place(d)) != s {
      PlacedOrderIsGood(s, d);
      InvCarries(s, Next(s, Place(d)));
    }
  }

  lemma RemitIsLater(s: State, a: Action)
    requires a.HandOver?
    ensures var u := Next(s, a);
            && Grows(s, u)
            && forall o :: o in u.cash ==> o in s.cash && (CashOk(s, o) ==> CashOk(u, o))
  {
  }

  lemma HandOverKeeps(s: State, a: Action)
    requires Inv(s) && a.HandOver?
    ensures Inv(Next(s, a)) && Grows(s, Next(s, a))
  {
    hide OrderOk, JobOk, PaymentOk, CashOk, TaskOk, Grows;
    RemitIsLater(s, a);
    InvCarries(s, Next(s, a));
  }

  /** One step of anybody, from any good state: the invariant holds after it and nothing moved backwards. */
  lemma StepKeeps(s: State, a: Action)
    requires Inv(s)
    ensures Inv(Next(s, a)) && Grows(s, Next(s, a))
  {
    hide OrderOk, JobOk, PaymentOk, CashOk, Grows, Performed;
    GrowsItself(s);
    match a
    case Place(d) => PlaceKeeps(s, d);
    case Ask(order, to, c, reason, w) =>
      if c.actor in {O.Customer, O.Merchant, O.Admin} && WindowInBounds(w) {
        ExecuteIsBacked(s, order, to, c, reason, w);
        LaunchKeeps(s, Execute(s.orders, order, to, c, reason, w));
      }
    case Ride(order, m, w) =>
      if Rideable(m) {
        ReadAndMoveIsBacked(s, order, m, w.now);
        LaunchKeeps(s, ReadAndMove(s.jobs, order, m, w.now));
      }
    case Checkout(order, _, _, _, _) =>
      LaunchKeeps(s, StartCheckout(s, a));
    case Callback(ref, succeeded, gatewayRef, amount, reason, w) =>
      var m := if succeeded then P.Capture(gatewayRef, amount) else P.Decline(reason);
      SettleIsBacked(s, ref, m, w.now);
      LaunchKeeps(s, SettlePayment(s.payments, ref, m, w.now));
    case GiveBack(ref, reason, w) =>
      SettleIsBacked(s, ref, P.Refund(reason), w.now);
      LaunchKeeps(s, SettlePayment(s.payments, ref, P.Refund(reason), w.now));
    case HandOver(_, _, _, _) => HandOverKeeps(s, a);
    case Perform(t, w) =>
      if t in s.flight && WindowInBounds(w) {
        PerformKeeps(s, t, w);
      }
  }
}
