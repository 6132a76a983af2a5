/** The order and payment use cases run one at a time against their stores. */
module UseCases {
  import opened Results
  import O = Orders
  import P = Payments
  import opened Protocol

  datatype OrderError =
    | NoSuchOrder | NotTheirs | CannotCancel(reason: O.CancelReason) | ReasonRequired
    | OrderRefused(refusal: O.Refusal) | OrderMoved | UnknownStatus | UnknownActor

  /** The order a performed transition leaves. */
  function After(orders: map<string, O.Order>, t: Option<Task>): map<string, O.Order>
    requires t.Some? ==> t.value.SaveOrder? && t.value.order in orders
  {
    match t
    case None => orders
    case Some(save) => orders[save.order := O.Append(orders[save.order], save.event)]
  }

  /** What each error of a transition says. */
  predicate Refuses(orders: map<string, O.Order>, order: string, to: O.Status, reason: string, c: Caller, w: World, e: OrderError)
  {
    match e
    case NoSuchOrder => order !in orders
    case NotTheirs => order in orders && !MayTouch(orders[order], c)
    case CannotCancel(why) =>
      order in orders && c.actor == O.Customer && to == O.Cancelled &&
      O.MayCustomerCancel(orders[order], w.window, w.now).reason == why
    case ReasonRequired => to == O.Rejected && reason == ""
    case OrderRefused(why) => order in orders && O.CanTransition(orders[order].status, to, c.actor) == Fail(why)
    case _ => false
  }

  class OrderDesk {
    var orders: map<string, O.Order>

    constructor (orders: map<string, O.Order>)
      ensures this.orders == orders
    {
      this.orders := orders;
    }

    /** A status change and its event, written only if the order is still where it was read. */
    method AppendTransition(order: string, from: O.Status, e: O.Event) returns (r: Outcome<OrderError>)
      modifies this
      ensures if order in old(orders) && old(orders)[order].status == from
              then r == Pass && orders == old(orders)[order := O.Append(old(orders)[order], e)]
              else r == Fail(OrderMoved) && orders == old(orders)
    {
      if order !in orders || orders[order].status != from {
        return Fail(OrderMoved);
      }
      orders := orders[order := O.Append(orders[order], e)];
      r := Pass;
    }

    /** The checks before an order is moved, in their order. */
    method Check(order: string, to: O.Status, reason: string, c: Caller, w: World) returns (refused: Option<OrderError>)
      ensures refused.Some? ==>
                Refuses(orders, order, to, reason, c, w, refused.value) && Protocol.Execute(orders, order, to, c, reason, w).None?
      ensures refused.None? ==>
                && order in orders
                && match O.CanTransition(orders[order].status, to, c.actor)
                   case Fail(why) =>
                     && Protocol.Execute(orders, order, to, c, reason, w).None?
                     && Refuses(orders, order, to, reason, c, w, OrderRefused(why))
                   case Pass =>
                     Protocol.Execute(orders, order, to, c, reason, w) ==
                       Some(SaveOrder(order, orders[order].status, O.Event(w.newId, to, c.actor, c.id, reason, w.now)))
    {
      hide O.CanTransition, O.MayCustomerCancel, MayTouch;
      if order !in orders {
        return Some(NoSuchOrder);
      }
      if !MayTouch(orders[order], c) {
        return Some(NotTheirs);
      }
      if c.actor == O.Customer && to == O.Cancelled {
        var decision := O.MayCustomerCancel(orders[order], w.window, w.now);
        if !decision.allowed {
          return Some(CannotCancel(decision.reason));
        }
      }
      if to == O.Rejected && reason == "" {
        return Some(ReasonRequired);
      }
      return None;
    }

    /** Execute start to finish is its read and its write of the step system, with nothing in between. */
    method Execute(order: string, to: O.Status, reason: string, c: Caller, w: World)
      returns (r: Result<O.Order, OrderError>, told: set<Task>)
      modifies this
      ensures var t := Protocol.Execute(old(orders), order, to, c, reason, w);
              && orders == After(old(orders), t)
              && (r.Success? <==> t.Some?)
              && (r.Success? ==> r.value == orders[order] && told == Told(order, old(orders)[order], t.value.event))
              && (r.Failure? ==> told == {})
      ensures r.Failure? ==> Refuses(old(orders), order, to, reason, c, w, r.error)
      ensures r.Success? ==>
                && order in old(orders) && O.Legal(old(orders)[order].status, to, c.actor)
                && orders.Keys == old(orders).Keys && (forall o :: o in orders && o != order ==> orders[o] == old(orders)[o])
                && orders[order].status == to
                && orders[order].events == old(orders)[order].events + [O.Event(w.newId, to, c.actor, c.id, reason, w.now)]
      ensures r.Success? ==>
                && (to == O.Ready ==> told == {CallOffer(order)})
                && (to in {O.Cancelled, O.Rejected, O.Failed} ==> told == {CallWithdraw(order, reason)})
                && (to == O.Delivered && old(orders)[order].payment == O.Cash ==>
                     told == {CallRecord(order, c.id, old(orders)[order].total)})
                && (to in {O.Accepted, O.Preparing, O.PickedUp, O.Placed} ==> told == {})
                && (to == O.Delivered && old(orders)[order].payment != O.Cash ==> told == {})
    {
      hide O.LegalHistory, O.CanTransition, Protocol.Execute, Refuses;
      told := {};
      var refused := Check(order, to, reason, c, w);
      if refused.Some? {
        return Failure(refused.value), {};
      }
      var row := orders[order];
      O.TableMeaning(row.status, to, c.actor);
      hide O.Legal;
      var record := new O.OrderRecord(row);
      var from := record.status;
      var moved := record.Move(to, c.actor, c.id, reason, w.now);
      if moved.Fail? {
        return Failure(OrderRefused(moved.error)), {};
      }
      var last := |record.events| - 1;
      var event := record.events[last].(id := w.newId);
      var saved := AppendTransition(order, from, event);
      record.events := record.events[last := event];
      told := Told(order, row, event);
      r := Success(record.Row());
      assert record.Row() == O.Append(row, event);
    }

    method MarkPaid(order: string, w: World) returns (r: Result<O.Order, OrderError>, told: set<Task>)
      modifies this
      ensures orders == After(old(orders), Protocol.Execute(old(orders), order, O.Placed, Caller(O.System, "payment", []), "", w))
      ensures r.Success? <==> order in old(orders) && O.Legal(old(orders)[order].status, O.Placed, O.System)
      ensures r.Success? ==> orders[order].status == O.Placed
      ensures LeavesPending(old(orders), orders, order, O.Placed)
    {
      if order in orders {
        O.TableMeaning(orders[order].status, O.Placed, O.System);
      }
      r, told := Execute(order, O.Placed, "", Caller(O.System, "payment", []), w);
    }

    method MarkPaymentFailed(order: string, reason: string, w: World) returns (r: Result<O.Order, OrderError>, told: set<Task>)
      modifies this
      ensures orders ==
              After(old(orders), Protocol.Execute(old(orders), order, O.Cancelled, Caller(O.System, "payment", []), reason, w))
      ensures r.Success? <==> order in old(orders) && O.Legal(old(orders)[order].status, O.Cancelled, O.System)
      ensures r.Success? ==> orders[order].status == O.Cancelled
      ensures LeavesPending(old(orders), orders, order, O.Cancelled)
    {
      if order in orders {
        O.TableMeaning(orders[order].status, O.Cancelled, O.System);
      }
      r, told := Execute(order, O.Cancelled, reason, Caller(O.System, "payment", []), w);
    }

    /** Another module's way in: never as the customer or the shop, and never past the table. */
    method Advance(order: string, to: O.Status, actor: O.Actor, actorId: string, reason: string, w: World)
      returns (r: Result<O.Order, OrderError>, told: set<Task>)
      modifies this
      ensures !O.Valid(to) || actor !in {O.Partner, O.Admin, O.System} ==> r.Failure? && orders == old(orders)
      ensures r.Success? ==>
                && order in old(orders) && O.Legal(old(orders)[order].status, to, actor)
                && orders == After(old(orders), Protocol.Execute(old(orders), order, to, Caller(actor, actorId, []), reason, w))
      ensures r.Success? <==>
                && O.Valid(to) && actor in {O.Partner, O.Admin, O.System} && order in old(orders)
                && O.Legal(old(orders)[order].status, to, actor) && !(to == O.Rejected && reason == "")
      ensures r.Success? ==> orders[order].status == to && orders[order].events != [] &&
                             orders[order].events[|orders[order].events| - 1].actorId == actorId
      ensures r.Failure? ==> orders == old(orders)
    {
      if !O.Valid(to) {
        return Failure(UnknownStatus), {};
      }
      if actor !in {O.Partner, O.Admin, O.System} {
        return Failure(UnknownActor), {};
      }
      if order in orders {
        O.TableMeaning(orders[order].status, to, actor);
      }
      r, told := Execute(order, to, reason, Caller(actor, actorId, []), w);
    }
  }

  // ---------------------------------------------------------------- payments, one use case at a time

  datatype Books = Books(orders: map<string, O.Order>, payments: map<string, P.Payment>)

  datatype Event = Event(ref: string, gatewayRef: string, succeeded: bool, reason: string, amount: int)

  datatype PayDeskError =
    | EventNeedsReason | NoSuchPayment | PayRefused(payError: P.PayError) | PayMoved
    | OrderSide(orderError: OrderError) | NotYours | NotOnline | NotAwaitingPayment
    | GatewayRefused | NothingToReconcile | NoReference | NotRemittable | CashRefused(cashError: P.CashError)

  function MoveOf(e: Event): P.PayMove
  {
    if e.succeeded then P.Capture(e.gatewayRef, e.amount) else P.Decline(e.reason)
  }

  /** A callback applied as one step: the payment leaves pending and the order hears of it, or nothing happens. */
  function Applied(b: Books, e: Event, w: World): Books
  {
    if e.ref !in b.payments || P.Settled(b.payments[e.ref], MoveOf(e), w.now).Failure? then b
    else
      var p := P.Settled(b.payments[e.ref], MoveOf(e), w.now).value;
      var t := Protocol.Execute(b.orders, p.orderId, if e.succeeded then O.Placed else O.Cancelled,
                                Caller(O.System, "payment", []), if e.succeeded then "" else e.reason, w);
      Books(After(b.orders, t), b.payments[e.ref := p])
  }

  ghost predicate PendingFor(b: Books, order: string)
  {
    exists r :: r in b.payments && b.payments[r].orderId == order && b.payments[r].status == P.Pending
  }

  predicate MayPay(o: O.Order, customer: string)
  {
    o.customerId == customer && o.payment == O.Online && o.status == O.PendingPayment
  }

  /** A checkout started as one step. */
  ghost function Started(b: Books, order: string, customer: string, gateway: string, gatewayRef: string, w: World): Books
  {
    if order !in b.orders || !MayPay(b.orders[order], customer) || PendingFor(b, order) || w.newId in b.payments then b
    else
      match P.NewPayment(w.newId, order, customer, gateway, b.orders[order].total, w.now)
      case Failure(_) => b
      case Success(p) => b.(payments := b.payments[w.newId := p.(gatewayRef := gatewayRef)])
  }

  function Reversed(b: Books, ref: string, reason: string, w: World): Books
  {
    if ref !in b.payments || P.Settled(b.payments[ref], P.Refund(reason), w.now).Failure? then b
    else b.(payments := b.payments[ref := P.Settled(b.payments[ref], P.Refund(reason), w.now).value])
  }

  predicate IsLatest(payments: map<string, P.Payment>, order: string, ref: string)
  {
    && ref in payments && payments[ref].orderId == order
    && forall r :: r in payments && payments[r].orderId == order ==> payments[r].createdAt <= payments[ref].createdAt
  }

  /** An order that was awaiting payment has moved to a status, and nothing else has changed. */
  predicate LeavesPending(was: map<string, O.Order>, orders: map<string, O.Order>, order: string, to: O.Status)
  {
    && orders.Keys == was.Keys
    && (forall o :: o in was && o != order ==> orders[o] == was[o])
    && (order in was ==> if was[order].status == O.PendingPayment then orders[order].status == to else orders[order] == was[order])
  }

  class PaymentDesk {
    const orders: OrderDesk
    var payments: map<string, P.Payment>
    var cash: map<string, P.Collection>

    ghost function State(): Books
      reads this, orders
    {
      Books(orders.orders, payments)
    }

    constructor (orders: OrderDesk)
      ensures this.orders == orders && payments == map[] && cash == map[]
    {
      this.orders := orders;
      payments, cash := map[], map[];
    }

    method Save(row: P.Payment, expected: P.PayStatus) returns (r: Outcome<PayDeskError>)
      modifies this`payments
      ensures if row.id in old(payments) && old(payments)[row.id].status == expected
              then r == Pass && payments == old(payments)[row.id := row]
              else r == Fail(PayMoved) && payments == old(payments)
    {
      if row.id !in payments || payments[row.id].status != expected {
        return Fail(PayMoved);
      }
      payments := payments[row.id := row];
      r := Pass;
    }

    ghost predicate KeyedById()
      reads this
    {
      forall r :: r in payments ==> payments[r].id == r
    }

    /** Turns a gateway's word into one state change; a replay after the payment has left pending answers success. */
    method Apply(e: Event, w: World) returns (r: Outcome<PayDeskError>)
      requires KeyedById()
      modifies this`payments, orders
      ensures KeyedById()
      ensures State() == if !e.succeeded && e.reason == "" then old(State()) else Applied(old(State()), e, w)
      ensures e.ref in old(payments) && old(payments)[e.ref].status != P.Pending && (e.succeeded || e.reason != "") ==>
                r == Pass && State() == old(State())
      ensures (e.ref in old(payments) && e.succeeded && old(payments)[e.ref].status == P.Pending
               && e.amount != old(payments)[e.ref].amount) ==> r == Fail(PayRefused(P.AmountMismatch))
      ensures r == Fail(NoSuchPayment) <==> e.ref !in old(payments) && (e.succeeded || e.reason != "")
      ensures e.ref in old(payments) && old(payments)[e.ref].status == P.Pending &&
              e.succeeded && e.amount == old(payments)[e.ref].amount ==>
                && payments == old(payments)[e.ref :=
                     old(payments)[e.ref].(status := P.Captured, gatewayRef := e.gatewayRef, updatedAt := w.now)]
                && LeavesPending(old(orders.orders), orders.orders, old(payments)[e.ref].orderId, O.Placed)
      ensures e.ref in old(payments) && old(payments)[e.ref].status == P.Pending && !e.succeeded && e.reason != "" ==>
                && payments == old(payments)[e.ref :=
                     old(payments)[e.ref].(status := P.Failed, failureReason := e.reason, updatedAt := w.now)]
                && LeavesPending(old(orders.orders), orders.orders, old(payments)[e.ref].orderId, O.Cancelled)
    {
      if !e.succeeded && e.reason == "" {
        return Fail(EventNeedsReason);
      }
      if e.ref !in payments {
        return Fail(NoSuchPayment);
      }
      P.SettlingMeaning(payments[e.ref], e.gatewayRef, e.amount, e.reason, w.now);
      var payment := new P.PaymentRecord(payments[e.ref]);
      var expected := payment.status;
      if e.succeeded {
        var captured := payment.Capture(e.gatewayRef, e.amount, w.now);
        if captured.Fail? {
          if captured.error == P.AmountMismatch {
            return Fail(PayRefused(captured.error));
          }
          return Pass;
        }
      } else {
        var failed := payment.Decline(e.reason, w.now);
        if failed.Fail? {
          return Pass;
        }
      }
      var saved := Save(payment.Row(), expected);
      var moved, told;
      if e.succeeded {
        moved, told := orders.MarkPaid(payment.orderId, w);
      } else {
        moved, told := orders.MarkPaymentFailed(payment.orderId, e.reason, w);
      }
      r := if moved.Success? then Pass else Fail(OrderSide(moved.error));
    }

    method PendingForOrder(order: string) returns (found: Option<P.Payment>)
      ensures found.Some? <==> PendingFor(State(), order)
      ensures found.Some? ==> found.value.orderId == order && found.value.status == P.Pending && found.value in payments.Values
    {
      if r :| r in payments && payments[r].orderId == order && payments[r].status == P.Pending {
        return Some(payments[r]);
      }
      return None;
    }

    /** Begins, or resumes, paying for an order online. */
    method Start(order: string, customer: string, gateway: string, gatewayRef: string, w: World)
      returns (r: Result<P.Payment, PayDeskError>)
      requires KeyedById() && w.newId !in payments
      modifies this`payments
      ensures KeyedById()
      ensures State() == Started(old(State()), order, customer, gateway, gatewayRef, w)
      ensures r.Success? ==> r.value.orderId == order && r.value.status == P.Pending && r.value in payments.Values
      ensures r.Success? ==> order in orders.orders && MayPay(orders.orders[order], customer)
      ensures order in orders.orders && MayPay(orders.orders[order], customer) && PendingFor(old(State()), order) ==>
                r.Success? && payments == old(payments)
      ensures r.Success? && payments != old(payments) ==>
                && payments == old(payments)[w.newId := r.value]
                && r.value.id == w.newId && r.value.customerId == customer && r.value.amount == orders.orders[order].total
                && r.value.gateway == gateway && r.value.gatewayRef == gatewayRef && r.value.createdAt == w.now
      ensures r.Success? <==>
                && order in orders.orders && MayPay(orders.orders[order], customer)
                && (PendingFor(old(State()), order) ||
                    (order != "" && customer != "" && gateway != "" && orders.orders[order].total > 0))
    {
      if order !in orders.orders {
        return Failure(OrderSide(NoSuchOrder));
      }
      var o := orders.orders[order];
      if o.customerId != customer {
        return Failure(NotYours);
      }
      if o.payment != O.Online {
        return Failure(NotOnline);
      }
      if o.status != O.PendingPayment {
        return Failure(NotAwaitingPayment);
      }
      var existing := PendingForOrder(order);
      if existing.Some? {
        return Success(existing.value);
      }
      P.NewPaymentMeaning(w.newId, order, customer, gateway, o.total, w.now);
      var made := P.NewPayment(w.newId, order, customer, gateway, o.total, w.now);
      if made.Failure? {
        return Failure(PayRefused(made.error));
      }
      var row := made.value.(gatewayRef := gatewayRef);
      payments := payments[row.id := row];
      assert payments[row.id] == row;
      r := Success(row);
    }

    /** The most recent attempt to pay for an order. */
    method LatestForOrder(order: string) returns (found: Option<string>)
      ensures found.None? <==> forall r :: r in payments ==> payments[r].orderId != order
      ensures found.Some? ==> IsLatest(payments, order, found.value)
    {
      found := None;
      var left := payments.Keys;
      while left != {}
        invariant left <= payments.Keys
        invariant found.None? ==> forall r :: r in payments && r !in left ==> payments[r].orderId != order
        invariant found.Some? ==>
                    && found.value in payments && payments[found.value].orderId == order
                    && forall r :: r in payments && r !in left && payments[r].orderId == order ==>
                         payments[r].createdAt <= payments[found.value].createdAt
        decreases left
      {
        var r :| r in left;
        left := left - {r};
        if payments[r].orderId == order && (found.None? || payments[r].createdAt > payments[found.value].createdAt) {
          found := Some(r);
        }
      }
    }

    /**
     Gives captured money back, for the latest attempt to pay and only once the gateway has agreed; a payment already
     refunded answers success without asking.
     */
    method Refund(order: string, reason: string, gatewayAgrees: bool, w: World)
      returns (r: Outcome<PayDeskError>, ghost ref: Option<string>)
      requires KeyedById()
      modifies this`payments
      ensures KeyedById()
      ensures ref.Some? ==> IsLatest(old(payments), order, ref.value)
      ensures ref.None? ==> State() == old(State()) && r.Fail? &&
                            (reason == "" || forall p :: p in old(payments) ==> old(payments)[p].orderId != order)
      ensures ref.Some? ==> State() == if gatewayAgrees then Reversed(old(State()), ref.value, reason, w) else old(State())
      ensures ref.Some? ==>
                (r == Pass <==> old(payments)[ref.value].status == P.Refunded ||
                                (gatewayAgrees && old(payments)[ref.value].status == P.Captured))
      ensures ref.Some? ==>
                if gatewayAgrees && old(payments)[ref.value].status == P.Captured
                then payments == old(payments)[ref.value :=
                       old(payments)[ref.value].(status := P.Refunded, refundReason := reason, updatedAt := w.now)]
                else payments == old(payments)
    {
      ref := None;
      if reason == "" {
        return Fail(PayRefused(P.NoReason)), None;
      }
      var latest := LatestForOrder(order);
      if latest.None? {
        return Fail(NoSuchPayment), None;
      }
      ref := latest;
      P.SettlingMeaning(payments[latest.value], "", 0, reason, w.now);
      if payments[latest.value].status == P.Refunded {
        return Pass, ref;
      }
      var payment := new P.PaymentRecord(payments[latest.value]);
      var expected := payment.status;
      var refunded := payment.Refund(reason, w.now);
      if refunded.Fail? {
        return Fail(PayRefused(refunded.error)), ref;
      }
      if !gatewayAgrees {
        return Fail(GatewayRefused), ref;
      }
      r := Save(payment.Row(), expected);
    }

    /** Books a delivered order's cash, once: a retry finds it recorded and succeeds. */
    method Record(order: string, partner: string, amount: int, w: World) returns (r: Outcome<PayDeskError>)
      modifies this`cash
      ensures order in old(cash) ==> cash == old(cash)
      ensures r == Pass <==> order != "" && partner != "" && amount > 0
      ensures r == Pass && order !in old(cash) ==>
                && cash.Keys == old(cash).Keys + {order}
                && cash[order] == P.Collection(w.newId, order, partner, amount, P.Held, "", 0)
                && forall o :: o in old(cash) ==> cash[o] == old(cash)[o]
      ensures order !in old(cash) ==>
                match P.NewCollection(w.newId, order, partner, amount)
                case Failure(e) => r == Fail(CashRefused(e)) && cash == old(cash)
                case Success(c) => r == Pass && cash == old(cash)[order := c]
    {
      P.NewCollectionMeaning(w.newId, order, partner, amount);
      var made := P.NewCollection(w.newId, order, partner, amount);
      if made.Failure? {
        return Fail(CashRefused(made.error));
      }
      if order !in cash {
        cash := cash[order := made.value];
      }
      r := Pass;
    }

    /** Remits a batch in one transaction: row by row, undone entirely at the first row that does not fit. */
    method Reconcile(partner: string, batch: seq<string>, reference: string, now: int) returns (r: Outcome<PayDeskError>)
      modifies this`cash
      ensures cash == Remit(old(cash), partner, batch, reference, now)
      ensures r == Pass <==> batch != [] && reference != "" && Remittable(old(cash), partner, batch)
      ensures r.Fail? ==> cash == old(cash)
      ensures r == Pass ==>
                && cash.Keys == old(cash).Keys
                && forall o :: o in cash ==>
                     if o in batch
                     then cash[o] == old(cash)[o].(status := P.Remitted, remittanceRef := reference, remittedAt := now) &&
                          old(cash)[o].partnerId == partner && old(cash)[o].status == P.Held
                     else cash[o] == old(cash)[o]
    {
      if batch == [] {
        return Fail(NothingToReconcile);
      }
      if reference == "" {
        return Fail(NoReference);
      }
      var undo := cash;
      for i := 0 to |batch|
        invariant RemittedSoFar(undo, cash, partner, batch, i, reference, now)
      {
        if batch[i] !in cash || cash[batch[i]].partnerId != partner || cash[batch[i]].status != P.Held {
          NotRemittableAt(undo, cash, partner, batch, i, reference, now);
          cash := undo;
          return Fail(NotRemittable);
        }
        ghost var before := cash;
        cash := cash[batch[i] := Handed(cash[batch[i]], reference, now)];
        RemitOne(undo, before, partner, batch, i, reference, now);
      }
      RemittedAll(undo, cash, partner, batch, reference, now);
      r := Pass;
    }
  }

  function Handed(c: P.Collection, reference: string, now: int): P.Collection
  {
    c.(status := P.Remitted, remittanceRef := reference, remittedAt := now)
  }

  /** The first rows of a batch are handed over, each once, and every other row is as it was. */
  predicate RemittedSoFar(undo: map<string, P.Collection>, cash: map<string, P.Collection>, partner: string,
                          batch: seq<string>, n: nat, reference: string, now: int)
  {
    && n <= |batch| && cash.Keys == undo.Keys
    && (forall k :: 0 <= k < n ==>
         && batch[k] in undo && undo[batch[k]].partnerId == partner && undo[batch[k]].status == P.Held
         && cash[batch[k]] == Handed(undo[batch[k]], reference, now))
    && (forall j, k :: 0 <= j < k < n ==> batch[j] != batch[k])
    && (forall o :: o in undo && (forall k :: 0 <= k < n ==> batch[k] != o) ==> cash[o] == undo[o])
  }

  lemma RemitOne(undo: map<string, P.Collection>, cash: map<string, P.Collection>, partner: string,
                 batch: seq<string>, n: nat, reference: string, now: int)
    requires n < |batch| && RemittedSoFar(undo, cash, partner, batch, n, reference, now)
    requires batch[n] in cash && cash[batch[n]].partnerId == partner && cash[batch[n]].status == P.Held
    ensures RemittedSoFar(undo, cash[batch[n] := Handed(cash[batch[n]], reference, now)], partner, batch, n + 1, reference, now)
  {
    assert forall k :: 0 <= k < n ==> batch[k] != batch[n];
  }

  lemma NotRemittableAt(undo: map<string, P.Collection>, cash: map<string, P.Collection>, partner: string,
                        batch: seq<string>, n: nat, reference: string, now: int)
    requires n < |batch| && RemittedSoFar(undo, cash, partner, batch, n, reference, now)
    requires batch[n] !in cash || cash[batch[n]].partnerId != partner || cash[batch[n]].status != P.Held
    ensures !Remittable(undo, partner, batch)
  {
    if forall k :: 0 <= k < n ==> batch[k] != batch[n] {
      assert batch[n] in undo ==> cash[batch[n]] == undo[batch[n]];
    }
  }

  lemma RemittedAll(undo: map<string, P.Collection>, cash: map<string, P.Collection>, partner: string,
                    batch: seq<string>, reference: string, now: int)
    requires batch != [] && reference != "" && RemittedSoFar(undo, cash, partner, batch, |batch|, reference, now)
    ensures Remittable(undo, partner, batch) && cash == Remit(undo, partner, batch, reference, now)
  {
    forall o | o in undo
      ensures cash[o] == Remit(undo, partner, batch, reference, now)[o]
    {
      if o in batch {
        var k :| 0 <= k < |batch| && batch[k] == o;
      }
    }
  }

  // ---------------------------------------------------------------- no order is paid for twice

  datatype Action =
    | Place(draft: O.Draft)
    | Move(order: string, to: O.Status, caller: Caller, reason: string, world: World)
    | Callback(event: Event, world: World)
    | Checkout(order: string, customer: string, gateway: string, gatewayRef: string, world: World)
    | GiveBack(ref: string, reason: string, world: World)

  ghost function Next(b: Books, a: Action): Books
  {
    match a
    case Place(d) =>
      if d.id in b.orders || O.NewOrder(d).Failure? then b else b.(orders := b.orders[d.id := O.NewOrder(d).value])
    case Move(order, to, c, reason, w) =>
      if c.actor == O.System then b else b.(orders := After(b.orders, Protocol.Execute(b.orders, order, to, c, reason, w)))
    case Callback(e, w) => Applied(b, e, w)
    case Checkout(order, customer, gateway, gatewayRef, w) => Started(b, order, customer, gateway, gatewayRef, w)
    case GiveBack(ref, reason, w) => Reversed(b, ref, reason, w)
  }

  ghost function Run(b: Books, acts: seq<Action>): Books
    decreases |acts|
  {
    if acts == [] then b else Run(Next(b, acts[0]), acts[1..])
  }

  /** At most one payment an order is open or settled, and an order still awaiting payment has none settled. */
  ghost predicate PaidAtMostOnce(b: Books)
  {
    && (forall r :: r in b.payments ==> b.payments[r].orderId in b.orders)
    && (forall q, r :: q in b.payments && r in b.payments && q != r && b.payments[q].orderId == b.payments[r].orderId ==>
         b.payments[q].status == P.Failed || b.payments[r].status == P.Failed)
    && (forall r :: r in b.payments && b.payments[r].status in {P.Captured, P.Refunded} ==>
         b.orders[b.payments[r].orderId].status != O.PendingPayment)
  }

  lemma TransitionsLeavePending(orders: map<string, O.Order>, order: string, to: O.Status, c: Caller, reason: string, w: World)
    ensures var u := After(orders, Protocol.Execute(orders, order, to, c, reason, w));
            && u.Keys == orders.Keys
            && forall o :: o in orders && orders[o].status != O.PendingPayment ==> u[o].status != O.PendingPayment
    ensures var u := After(orders, Protocol.Execute(orders, order, to, c, reason, w));
            order in orders && c == Caller(O.System, "payment", []) && to in {O.Placed, O.Cancelled} ==>
              u[order].status != O.PendingPayment
  {
    if order in orders {
      O.TableMeaning(orders[order].status, to, c.actor);
    }
  }

  lemma CallbackPaysOnce(b: Books, e: Event, w: World)
    requires PaidAtMostOnce(b)
    ensures PaidAtMostOnce(Applied(b, e, w))
  {
    if Applied(b, e, w) != b {
      TransitionsLeavePending(b.orders, b.payments[e.ref].orderId, if e.succeeded then O.Placed else O.Cancelled,
                              Caller(O.System, "payment", []), if e.succeeded then "" else e.reason, w);
    }
  }

  lemma StepPaysOnce(b: Books, a: Action)
    requires PaidAtMostOnce(b)
    ensures PaidAtMostOnce(Next(b, a))
  {
    hide Applied;
    match a
    case Move(order, to, c, reason, w) => TransitionsLeavePending(b.orders, order, to, c, reason, w);
    case Callback(e, w) => CallbackPaysOnce(b, e, w);
    case _ =>
  }

  /** With each use case run whole, no order ever has two payments that are pending, captured or refunded. */
  lemma {:induction false} WholeUseCasesPayOnce(b: Books, acts: seq<Action>)
    requires PaidAtMostOnce(b)
    ensures PaidAtMostOnce(Run(b, acts))
    decreases |acts|
  {
    if acts != [] {
      StepPaysOnce(b, acts[0]);
      WholeUseCasesPayOnce(Next(b, acts[0]), acts[1..]);
    }
  }
}
