/** The order: its lifecycle table, the event history it carries, and the free-cancellation window. */
module Orders {
  import opened Results

  datatype Status =
    | PendingPayment | Placed | Accepted | Preparing | Ready | PickedUp
    | Delivered | Cancelled | Rejected | Failed
    | OtherStatus(name: string)  // a string that names no status

  datatype Actor = Customer | Merchant | Partner | Admin | System | OtherActor(name: string)

  datatype Refusal = AlreadyFinished | IllegalTransition | NotYourTransition

  datatype Transition = Transition(to: Status, actors: seq<Actor>)

  datatype PaymentMethod = Cash | Online | OtherMethod(name: string)

  /** One thing that happened to an order. Instants are whole nanoseconds. */
  datatype Event = Event(id: string, status: Status, actor: Actor, actorId: string, reason: string, at: int)

  datatype Order = Order(
    id: string, customerId: string, merchantId: string, payment: PaymentMethod,
    total: int, status: Status, events: seq<Event>, placedAt: int, updatedAt: int)

  const SECOND: int := 1_000_000_000

  // ---------------------------------------------------------------- the lifecycle table

  /** The moves that exist from a status, and who may make each. */
  function Moves(from: Status): seq<Transition>
  {
    match from
    case PendingPayment => [Transition(Placed, [System]), Transition(Cancelled, [Customer, Admin, System])]
    case Placed => [Transition(Accepted, [Merchant, Admin]), Transition(Rejected, [Merchant, Admin]),
                    Transition(Cancelled, [Customer, Admin])]
    case Accepted => [Transition(Preparing, [Merchant]), Transition(Rejected, [Merchant, Admin]),
                      Transition(Cancelled, [Customer, Admin])]
    case Preparing => [Transition(Ready, [Merchant]), Transition(Cancelled, [Admin])]
    case Ready => [Transition(PickedUp, [Partner]), Transition(Cancelled, [Admin])]
    case PickedUp => [Transition(Delivered, [Partner]), Transition(Failed, [Partner, Admin])]
    case _ => []
  }

  predicate IsTerminal(s: Status) { s in {Delivered, Cancelled, Rejected, Failed} }

  predicate Valid(s: Status) { !s.OtherStatus? }

  /** The actors on the first row that leads to a status. */
  function FirstTo(moves: seq<Transition>, to: Status): Option<seq<Actor>>
  {
    if moves == [] then None
    else if moves[0].to == to then Some(moves[0].actors)
    else FirstTo(moves[1..], to)
  }

  function CanTransition(from: Status, to: Status, actor: Actor): Outcome<Refusal>
  {
    if IsTerminal(from) then Fail(AlreadyFinished)
    else if !Valid(from) then Fail(IllegalTransition)
    else
      match FirstTo(Moves(from), to)
      case None => Fail(IllegalTransition)
      case Some(actors) => if actor in actors then Pass else Fail(NotYourTransition)
  }

  /** The legal moves as one relation, without the table. */
  predicate Legal(from: Status, to: Status, actor: Actor)
  {
    match to
    case Placed => from == PendingPayment && actor == System
    case Accepted => from == Placed && actor in {Merchant, Admin}
    case Preparing => from == Accepted && actor == Merchant
    case Ready => from == Preparing && actor == Merchant
    case PickedUp => from == Ready && actor == Partner
    case Delivered => from == PickedUp && actor == Partner
    case Failed => from == PickedUp && actor in {Partner, Admin}
    case Rejected => from in {Placed, Accepted} && actor in {Merchant, Admin}
    case Cancelled =>
      || (from in {PendingPayment, Placed, Accepted} && actor in {Customer, Admin})
      || (from == PendingPayment && actor == System)
      || (from in {Preparing, Ready} && actor == Admin)
    case _ => false
  }

  lemma FirstToUnfolds(moves: seq<Transition>, to: Status)
    requires |moves| <= 3
    ensures FirstTo(moves, to) ==
            if |moves| > 0 && moves[0].to == to then Some(moves[0].actors)
            else if |moves| > 1 && moves[1].to == to then Some(moves[1].actors)
            else if |moves| > 2 && moves[2].to == to then Some(moves[2].actors)
            else None
  {
    if |moves| > 0 && moves[0].to != to {
      FirstToUnfolds(moves[1..], to);
    }
  }

  lemma EarlyMoves(from: Status, to: Status, actor: Actor)
    requires from in {PendingPayment, Placed, Accepted}
    ensures CanTransition(from, to, actor).Pass? <==> Legal(from, to, actor)
  {
    FirstToUnfolds(Moves(from), to);
    hide FirstTo;
    match from
    case PendingPayment =>
    case Placed =>
    case Accepted =>
  }

  lemma LateMoves(from: Status, to: Status, actor: Actor)
    requires from in {Preparing, Ready, PickedUp}
    ensures CanTransition(from, to, actor).Pass? <==> Legal(from, to, actor)
  {
    FirstToUnfolds(Moves(from), to);
    hide FirstTo;
    match from
    case Preparing =>
    case Ready =>
    case PickedUp =>
  }

  /** The lookup in the table allows exactly the legal moves. */
  lemma TableMeaning(from: Status, to: Status, actor: Actor)
    ensures CanTransition(from, to, actor).Pass? <==> Legal(from, to, actor)
  {
    if from in {PendingPayment, Placed, Accepted} {
      EarlyMoves(from, to, actor);
    } else if from in {Preparing, Ready, PickedUp} {
      LateMoves(from, to, actor);
    }
  }

  /** A refusal says "not yours" exactly when somebody else could make the move. */
  lemma RefusalMeaning(from: Status, to: Status, actor: Actor)
    ensures CanTransition(from, to, actor) == Fail(AlreadyFinished) <==> IsTerminal(from)
    ensures CanTransition(from, to, actor) == Fail(NotYourTransition) <==>
            !Legal(from, to, actor) && exists other :: Legal(from, to, other)
  {
    TableMeaning(from, to, actor);
    FirstToUnfolds(Moves(from), to);
    if CanTransition(from, to, actor) == Fail(NotYourTransition) {
      var actors := FirstTo(Moves(from), to).value;
      TableMeaning(from, to, actors[0]);
    } else if other :| Legal(from, to, other) {
      TableMeaning(from, to, other);
    }
  }

  predicate Fits(row: Transition, to: Status, actor: Actor) { row.to == to && actor in row.actors }

  /** Whether one of the first `n` rows lets an actor make the move. */
  ghost predicate OnARow(moves: seq<Transition>, n: nat, to: Status, actor: Actor)
    requires n <= |moves|
  {
    exists m :: 0 <= m < n && Fits(moves[m], to, actor)
  }

  lemma DistinctTargets(from: Status)
    ensures forall i, j :: 0 <= i < j < |Moves(from)| ==> Moves(from)[i].to != Moves(from)[j].to
  {
  }

  lemma RowsMeaning(from: Status, to: Status, actor: Actor)
    ensures OnARow(Moves(from), |Moves(from)|, to, actor) <==> Legal(from, to, actor)
  {
    TableMeaning(from, to, actor);
    DistinctTargets(from);
    FirstToUnfolds(Moves(from), to);
  }

  /** The rows of a table that an actor may use, in table order. */
  method Targets(moves: seq<Transition>, actor: Actor) returns (out: seq<Status>)
    requires forall i, j :: 0 <= i < j < |moves| ==> moves[i].to != moves[j].to
    ensures forall to :: to in out <==> OnARow(moves, |moves|, to, actor)
    ensures forall i, j :: 0 <= i < j < |out| ==> out[i] != out[j]
  {
    out := [];
    for k := 0 to |moves|
      invariant forall to :: to in out <==> OnARow(moves, k, to, actor)
      invariant forall i, j :: 0 <= i < j < |out| ==> out[i] != out[j]
    {
      assert !OnARow(moves, k, moves[k].to, actor);
      assert Fits(moves[k], moves[k].to, actor) <==> actor in moves[k].actors;
      if actor in moves[k].actors {
        out := out + [moves[k].to];
      }
    }
  }

  /** What an actor may do next: the moves open to them, each once. */
  method NextStatuses(from: Status, actor: Actor) returns (out: seq<Status>)
    ensures forall to :: to in out <==> Legal(from, to, actor)
    ensures forall i, j :: 0 <= i < j < |out| ==> out[i] != out[j]
  {
    DistinctTargets(from);
    out := Targets(Moves(from), actor);
    forall to
      ensures to in out <==> Legal(from, to, actor)
    {
      RowsMeaning(from, to, actor);
    }
  }

  // ---------------------------------------------------------------- placing and moving

  datatype Draft = Draft(
    id: string, eventId: string, customerId: string, merchantId: string, payment: PaymentMethod,
    lines: nat, addressId: string, subtotal: int, total: int, codLimit: int, now: int)

  datatype DraftError =
    NoCustomer | NoMerchant | NoLines | NoAddress | UnknownPayment | NegativeAmount | NoEventId | OverCodLimit

  function InitialStatus(p: PaymentMethod): Status { if p == Online then PendingPayment else Placed }

  /** Freezes a draft into an order carrying its first event. */
  function NewOrder(d: Draft): (r: Result<Order, DraftError>)
    ensures r.Success? ==> LegalHistory(r.value) && 0 <= r.value.total
    ensures r.Success? && d.payment == Cash && d.codLimit != 0 ==> r.value.total <= d.codLimit
  {
    if d.customerId == "" then Failure(NoCustomer)
    else if d.merchantId == "" then Failure(NoMerchant)
    else if d.lines == 0 then Failure(NoLines)
    else if d.addressId == "" then Failure(NoAddress)
    else if d.payment.OtherMethod? then Failure(UnknownPayment)
    else if d.total < 0 || d.subtotal < 0 then Failure(NegativeAmount)
    else if d.eventId == "" then Failure(NoEventId)
    else if d.payment == Cash && d.codLimit != 0 && d.total > d.codLimit then Failure(OverCodLimit)
    else
      var status := InitialStatus(d.payment);
      Success(Order(d.id, d.customerId, d.merchantId, d.payment, d.total, status,
                    [Event(d.eventId, status, Customer, d.customerId, "", d.now)], d.now, d.now))
  }

  /** Exactly which drafts become orders; each starts with one event, its customer's, and with its whole window ahead. */
  lemma NewOrderMeaning(d: Draft)
    ensures NewOrder(d).Success? <==>
              && d.customerId != "" && d.merchantId != "" && d.lines > 0 && d.addressId != "" && d.eventId != ""
              && d.payment in {Online, Cash} && d.total >= 0 && d.subtotal >= 0
              && (d.payment == Cash && d.codLimit != 0 ==> d.total <= d.codLimit)
    ensures var r := NewOrder(d);
            r.Success? ==>
              && r.value.id == d.id && r.value.customerId == d.customerId && r.value.merchantId == d.merchantId
              && r.value.payment == d.payment && r.value.total == d.total && r.value.placedAt == d.now
              && r.value.status == (if d.payment == Online then PendingPayment else Placed)
              && |r.value.events| == 1 && r.value.events[0].actorId == d.customerId && r.value.events[0].at == d.now
              && (forall window :: window > 0 ==> MayCustomerCancel(r.value, window, d.now).allowed)
  {
    if NewOrder(d).Success? {
      forall window | window > 0 ensures MayCustomerCancel(NewOrder(d).value, window, d.now).allowed {
        CancelDecisionMeaning(NewOrder(d).value, window, d.now);
      }
    }
  }

  /** The order after one recorded event. */
  function Append(o: Order, e: Event): Order
  {
    o.(status := e.status, events := o.events + [e], updatedAt := e.at)
  }

  function Moved(o: Order, to: Status, actor: Actor, actorId: string, reason: string, now: int): Result<Order, Refusal>
  {
    match CanTransition(o.status, to, actor)
    case Fail(refusal) => Failure(refusal)
    case Pass => Success(Append(o, Event("", to, actor, actorId, reason, now)))
  }

  /** The order as the in-memory object that Move updates. */
  class OrderRecord {
    const id: string
    const customerId: string
    const merchantId: string
    const payment: PaymentMethod
    const total: int
    const placedAt: int
    var status: Status
    var events: seq<Event>
    var updatedAt: int

    function Row(): Order
      reads this
    {
      Order(id, customerId, merchantId, payment, total, status, events, placedAt, updatedAt)
    }

    constructor (o: Order)
      ensures Row() == o
    {
      id, customerId, merchantId, payment, total := o.id, o.customerId, o.merchantId, o.payment, o.total;
      placedAt, status, events, updatedAt := o.placedAt, o.status, o.events, o.updatedAt;
    }

    /** Applies a transition and records it; a refused move changes nothing. */
    method Move(to: Status, actor: Actor, actorId: string, reason: string, now: int) returns (r: Outcome<Refusal>)
      modifies this
      ensures match Moved(old(Row()), to, actor, actorId, reason, now)
              case Success(next) => r == Pass && Row() == next
              case Failure(refusal) => r == Fail(refusal) && Row() == old(Row())
      ensures r.Pass? ==>
                && Legal(old(status), to, actor) && status == to && updatedAt == now
                && events == old(events) + [Event("", to, actor, actorId, reason, now)]
      ensures r.Fail? ==> !Legal(old(status), to, actor) && Row() == old(Row())
      ensures old(LegalHistory(Row())) ==> LegalHistory(Row())
    {
      ghost var was := Row();
      TableMeaning(status, to, actor);
      var verdict := CanTransition(status, to, actor);
      hide CanTransition, Legal;
      if verdict.Fail? {
        return verdict;
      }
      status := to;
      updatedAt := now;
      events := events + [Event("", to, actor, actorId, reason, now)];
      r := Pass;
      if LegalHistory(was) {
        AppendKeepsHistory(was, events[|events| - 1]);
      }
    }
  }

  // ---------------------------------------------------------------- histories

  /** The events form a path of the table that starts where the payment method starts and ends at the status. */
  ghost predicate LegalHistory(o: Order)
  {
    && !o.payment.OtherMethod?
    && |o.events| > 0
    && o.events[0].status == InitialStatus(o.payment)
    && o.events[0].actor == Customer
    && o.events[|o.events| - 1].status == o.status
    && forall i :: 0 < i < |o.events| ==> LegalStep(o.events, i)
  }

  ghost predicate LegalStep(events: seq<Event>, i: int)
    requires 0 < i < |events|
  {
    Legal(events[i - 1].status, events[i].status, events[i].actor)
  }

  lemma AppendKeepsHistory(o: Order, e: Event)
    requires LegalHistory(o) && CanTransition(o.status, e.status, e.actor).Pass?
    ensures LegalHistory(Append(o, e))
  {
    TableMeaning(o.status, e.status, e.actor);
    var next := Append(o, e).events;
    forall i | 0 < i < |next|
      ensures LegalStep(next, i)
    {
      if i < |o.events| {
        assert LegalStep(o.events, i);
      }
    }
  }

  /** How far along its life a status is. */
  function Stage(s: Status): nat
  {
    match s
    case PendingPayment => 0
    case Placed => 1
    case Accepted => 2
    case Preparing => 3
    case Ready => 4
    case PickedUp => 5
    case _ => 6
  }

  lemma {:induction false} StagesIncrease(o: Order, i: nat, j: nat)
    requires LegalHistory(o) && i < j < |o.events|
    ensures Stage(o.events[i].status) < Stage(o.events[j].status)
    ensures Stage(o.events[i].status) + (j - i) <= Stage(o.events[j].status)
    decreases j
  {
    assert LegalStep(o.events, j);
    if i < j - 1 {
      StagesIncrease(o, i, j - 1);
    }
  }

  /** No order visits a status twice, so none has more than seven events. */
  lemma NoStatusRepeats(o: Order)
    requires LegalHistory(o)
    ensures forall i, j :: 0 <= i < j < |o.events| ==> o.events[i].status != o.events[j].status
    ensures |o.events| <= 7
  {
    forall i, j | 0 <= i < j < |o.events|
      ensures o.events[i].status != o.events[j].status
    {
      StagesIncrease(o, i, j);
    }
    if |o.events| > 1 {
      StagesIncrease(o, 0, |o.events| - 1);
    }
  }

  /** On the way to a delivery every event sits exactly one stage after the one before. */
  lemma {:induction false} DeliveryClimbs(o: Order, back: nat)
    requires LegalHistory(o) && o.status == Delivered && back < |o.events|
    ensures Stage(o.events[|o.events| - 1 - back].status) == 6 - back
    ensures back > 0 ==> !IsTerminal(o.events[|o.events| - 1 - back].status)
  {
    if back > 0 {
      DeliveryClimbs(o, back - 1);
      assert LegalStep(o.events, |o.events| - back);
    }
  }

  function StatusesOf(events: seq<Event>): seq<Status>
  {
    seq(|events|, i requires 0 <= i < |events| => events[i].status)
  }

  const DELIVERY_PATH: seq<Status> := [Placed, Accepted, Preparing, Ready, PickedUp, Delivered]

  /** A delivered order has only one possible history, and a partner picked it up and delivered it. */
  lemma DeliveredPathIsUnique(o: Order)
    requires LegalHistory(o) && o.status == Delivered
    ensures StatusesOf(o.events) == if o.payment == Online then [PendingPayment] + DELIVERY_PATH else DELIVERY_PATH
    ensures forall e :: e in o.events && e.status in {PickedUp, Delivered} ==> e.actor == Partner
    ensures forall e :: e in o.events && e.status in {Preparing, Ready} ==> e.actor == Merchant
  {
    var n := |o.events|;
    DeliveryClimbs(o, n - 1);
    assert n == if o.payment == Online then 7 else 6;
    forall k | 0 <= k < n
      ensures o.events[k].status ==
              (if o.payment == Online then [PendingPayment] + DELIVERY_PATH else DELIVERY_PATH)[k]
      ensures k > 0 ==> Legal(o.events[k - 1].status, o.events[k].status, o.events[k].actor)
    {
      DeliveryClimbs(o, n - 1 - k);
      if k > 0 {
        assert LegalStep(o.events, k);
      }
    }
    forall e | e in o.events
      ensures e.status in {PickedUp, Delivered} ==> e.actor == Partner
      ensures e.status in {Preparing, Ready} ==> e.actor == Merchant
    {
      var k :| 0 <= k < n && o.events[k] == e;
      if k > 0 {
        assert LegalStep(o.events, k);
      }
    }
  }

  /** Whether an order has ever been at a status. */
  predicate Reached(o: Order, s: Status)
  {
    exists i :: 0 <= i < |o.events| && o.events[i].status == s
  }

  // ---------------------------------------------------------------- the cancellation window

  datatype CancelReason = NoReason | ReasonFinished | ReasonTooLate | ReasonUnderway

  datatype CancelDecision = CancelDecision(allowed: bool, reason: CancelReason, freeUntil: int, secondsLeft: int)

  /** Whether a customer may call an order off now; window and now in nanoseconds. */
  function MayCustomerCancel(o: Order, window: int, now: int): CancelDecision
  {
    var freeUntil := o.placedAt + window;
    var left := if freeUntil - now < 0 then 0 else (freeUntil - now) / SECOND;
    if IsTerminal(o.status) then CancelDecision(false, ReasonFinished, freeUntil, left)
    else if CanTransition(o.status, Cancelled, Customer).Fail? then CancelDecision(false, ReasonUnderway, freeUntil, left)
    else if now >= freeUntil then CancelDecision(false, ReasonTooLate, freeUntil, left)
    else CancelDecision(true, NoReason, freeUntil, left)
  }

  /** Allowed exactly for a move that exists while the window runs; a non-zero countdown means time is left. */
  lemma CancelDecisionMeaning(o: Order, window: int, now: int)
    ensures var d := MayCustomerCancel(o, window, now);
            && (d.allowed <==> Legal(o.status, Cancelled, Customer) && now < o.placedAt + window)
            && (d.allowed <==> d.reason == NoReason)
            && d.freeUntil == o.placedAt + window && d.secondsLeft >= 0
            && (d.reason == ReasonFinished <==> o.status in {Delivered, Cancelled, Rejected, Failed})
            && (d.reason == ReasonTooLate <==> Legal(o.status, Cancelled, Customer) && now >= o.placedAt + window)
            && (d.secondsLeft > 0 ==> now < o.placedAt + window)
            && (now + d.secondsLeft * SECOND <= o.placedAt + window || d.secondsLeft == 0)
            && (now < o.placedAt + window ==> o.placedAt + window - now < (d.secondsLeft + 1) * SECOND)
  {
    TableMeaning(o.status, Cancelled, Customer);
  }
}
