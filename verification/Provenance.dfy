/** Where the moves in an order's history come from: who asked for each, when, and what gave them the right to. */
module Provenance {
  import opened Results
  import O = Orders
  import opened Protocol
  import opened Safety

  /** A move only a person can make: a customer's cancellation, or anything a shop or an admin does. */
  predicate ByPerson(e: O.Event) { (e.actor == O.Customer && e.status == O.Cancelled) || e.actor in {O.Merchant, O.Admin} }

  /** What of an order never changes and decides who may touch it. */
  datatype Owners = Owners(customerId: string, merchantId: string, placedAt: int)

  function OwnersOf(o: O.Order): Owners { Owners(o.customerId, o.merchantId, o.placedAt) }

  /**
   The move was asked for by whom it names, for the reason and at the instant it records; a customer is the order's own
   and within the window then in force, a shop is the order's own.
   */
  predicate AskedFor(a: Action, order: string, owners: Owners, e: O.Event)
  {
    && a.Ask? && a.order == order && a.to == e.status && a.reason == e.reason && a.world.now == e.at
    && a.caller.actor == e.actor && a.caller.id == e.actorId
    && (e.actor == O.Customer ==> e.actorId == owners.customerId && e.at < owners.placedAt + a.world.window)
    && (e.actor == O.Merchant ==> owners.merchantId in a.caller.merchantIds)
  }

  ghost predicate Granted(acts: seq<Action>, order: string, owners: Owners, e: O.Event)
  {
    exists i :: 0 <= i < |acts| && AskedFor(acts[i], order, owners, e)
  }

  lemma ExecuteGrants(s: State, order: string, to: O.Status, c: Caller, reason: string, w: World)
    ensures var t := Execute(s.orders, order, to, c, reason, w);
            t.Some? ==>
              && t.value.SaveOrder? && t.value.order == order && order in s.orders && t.value.event.actor == c.actor
              && (ByPerson(t.value.event) ==>
                   AskedFor(Ask(order, to, c, reason, w), order, OwnersOf(s.orders[order]), t.value.event))
  {
    if Execute(s.orders, order, to, c, reason, w).Some? && to == O.Cancelled {
      O.CancelDecisionMeaning(s.orders[order], w.window, w.now);
    }
  }

  /** No call one module makes into another writes a move in the name of a customer, a shop or an admin. */
  lemma CallsMoveForNobody(s: State, p: Task, w: World, t: Task)
    requires t in Performed(s, p, w).flight && t !in s.flight && t.SaveOrder?
    ensures !ByPerson(t.event)
  {
    hide Execute, AskedFor;
    match p
    case CallAdvance(order, to, partner, reason) => ExecuteGrants(s, order, to, Caller(O.Partner, partner, []), reason, w);
    case CallMarkPaid(order) => ExecuteGrants(s, order, O.Placed, Caller(O.System, "payment", []), "", w);
    case CallMarkFailed(order, reason) =>
      ExecuteGrants(s, order, O.Cancelled, Caller(O.System, "payment", []), reason, w);
    case _ =>
  }

  /** The write of such a move is launched by nothing but a request with the right to it. */
  lemma LaunchedByRequest(s: State, a: Action, t: Task)
    requires t in Next(s, a).flight && t !in s.flight && t.SaveOrder? && ByPerson(t.event)
    ensures t.order in s.orders && AskedFor(a, t.order, OwnersOf(s.orders[t.order]), t.event)
  {
    hide Execute, Performed, AskedFor;
    match a
    case Ask(order, to, c, reason, w) => ExecuteGrants(s, order, to, c, reason, w);
    case Perform(p, w) =>
      if p in s.flight && WindowInBounds(w) {
        CallsMoveForNobody(s, p, w, t);
      }
    case _ =>
  }

  /** An event enters a history by placing the order, or by performing its write. */
  lemma WrittenFromFlight(s: State, a: Action, order: string, e: O.Event)
    requires order in Next(s, a).orders && e in Next(s, a).orders[order].events && ByPerson(e)
    ensures order in s.orders
    ensures e in s.orders[order].events || exists from :: SaveOrder(order, from, e) in s.flight
  {
    if Next(s, a).orders != s.orders && !a.Place? {
      OrdersOnlyChangeByTheirWrites(s, a);
      hide Next;
      if a.task.order == order && e !in s.orders[order].events {
        assert e == a.task.event;
        assert SaveOrder(order, a.task.from, e) in s.flight;
      }
    }
  }

  ghost predicate FlightGranted(acts: seq<Action>, s: State)
  {
    forall t :: t in s.flight && t.SaveOrder? && ByPerson(t.event) ==>
      t.order in s.orders && Granted(acts, t.order, OwnersOf(s.orders[t.order]), t.event)
  }

  lemma GrantedStays(acts: seq<Action>, a: Action, order: string, owners: Owners, e: O.Event)
    requires Granted(acts, order, owners, e) || AskedFor(a, order, owners, e)
    ensures Granted(acts + [a], order, owners, e)
  {
    hide AskedFor;
    if Granted(acts, order, owners, e) {
      var i :| 0 <= i < |acts| && AskedFor(acts[i], order, owners, e);
      assert (acts + [a])[i] == acts[i];
    } else {
      assert (acts + [a])[|acts|] == a;
    }
  }

  lemma OwnersStay(s: State, a: Action, order: string)
    requires Inv(s) && order in s.orders
    ensures order in Next(s, a).orders && OwnersOf(Next(s, a).orders[order]) == OwnersOf(s.orders[order])
  {
    hide Inv, Next;
    StepKeeps(s, a);
    assert OrderLater(s.orders[order], Next(s, a).orders[order]);
  }

  lemma {:induction false} EveryWriteWasGranted(acts: seq<Action>)
    ensures FlightGranted(acts, Run(START, acts))
    decreases |acts|
  {
    if acts != [] {
      var shorter, a := acts[..|acts| - 1], acts[|acts| - 1];
      var s := Run(START, shorter);
      hide Inv, Next, Granted, AskedFor;
      EveryWriteWasGranted(shorter);
      ReachableIsGood(shorter);
      var u := Next(s, a);
      assert acts == shorter + [a] && u == Run(START, acts);
      forall t | t in u.flight && t.SaveOrder? && ByPerson(t.event)
        ensures t.order in u.orders && Granted(acts, t.order, OwnersOf(u.orders[t.order]), t.event)
      {
        if t !in s.flight {
          LaunchedByRequest(s, a, t);
        }
        OwnersStay(s, a, t.order);
        GrantedStays(shorter, a, t.order, OwnersOf(s.orders[t.order]), t.event);
      }
    }
  }

  /** Every move of a person in a stored history was asked for in the run with the right to it, however late its write landed. */
  lemma {:induction false} MovesAreRequested(acts: seq<Action>, order: string, e: O.Event)
    ensures var s := Run(START, acts);
            order in s.orders && e in s.orders[order].events && ByPerson(e) ==>
              Granted(acts, order, OwnersOf(s.orders[order]), e)
    decreases |acts|
  {
    if acts != [] {
      var shorter, a := acts[..|acts| - 1], acts[|acts| - 1];
      var s, u := Run(START, shorter), Run(START, acts);
      assert acts == shorter + [a] && u == Next(s, a);
      hide Inv, Next, Granted, AskedFor;
      MovesAreRequested(shorter, order, e);
      EveryWriteWasGranted(shorter);
      ReachableIsGood(shorter);
      if order in u.orders && e in u.orders[order].events && ByPerson(e) {
        WrittenFromFlight(s, a, order, e);
        OwnersStay(s, a, order);
        if e !in s.orders[order].events {
          var from :| SaveOrder(order, from, e) in s.flight;
          assert Granted(shorter, order, OwnersOf(s.orders[order]), SaveOrder(order, from, e).event);
        }
        GrantedStays(shorter, a, order, OwnersOf(s.orders[order]), e);
      }
    }
  }

  /** A customer's cancellation was asked for before placement plus the window in force for that request. */
  lemma CancellationsMeetTheirWindow(acts: seq<Action>, order: string, e: O.Event)
    ensures var s := Run(START, acts);
            order in s.orders && e in s.orders[order].events && e.status == O.Cancelled && e.actor == O.Customer ==>
              exists i :: 0 <= i < |acts| && acts[i].Ask? && acts[i].order == order && acts[i].to == O.Cancelled &&
                acts[i].world.now == e.at && e.at < s.orders[order].placedAt + acts[i].world.window
  {
    hide Run;
    MovesAreRequested(acts, order, e);
  }

  // ---------------------------------------------------------------- whose moves they are

  /** Everything a customer did in a history, placing included, its own customer did. */
  ghost predicate CustomersOwn(o: O.Order)
  {
    forall e :: e in o.events && e.actor == O.Customer ==> e.actorId == o.customerId
  }

  lemma ExecuteIsTheirOwn(s: State, order: string, to: O.Status, c: Caller, reason: string, w: World)
    ensures var t := Execute(s.orders, order, to, c, reason, w);
            t.Some? && t.value.event.actor == O.Customer ==> t.value.event.actorId == s.orders[order].customerId
  {
  }

  lemma LaunchedByOwner(s: State, a: Action, t: Task)
    requires t in Next(s, a).flight && t !in s.flight && t.SaveOrder? && t.event.actor == O.Customer
    ensures t.order in s.orders && t.event.actorId == s.orders[t.order].customerId
  {
    hide Performed;
    match a
    case Ask(order, to, c, reason, w) => ExecuteIsTheirOwn(s, order, to, c, reason, w);
    case Perform(p, w) =>
      if p in s.flight && WindowInBounds(w) {
        CallsAreNoCustomers(s, p, w, t);
      }
    case _ =>
  }

  lemma CallsAreNoCustomers(s: State, p: Task, w: World, t: Task)
    requires t in Performed(s, p, w).flight && t !in s.flight && t.SaveOrder?
    ensures t.event.actor != O.Customer
  {
    hide Execute, AskedFor;
    match p
    case CallAdvance(order, to, partner, reason) => ExecuteGrants(s, order, to, Caller(O.Partner, partner, []), reason, w);
    case CallMarkPaid(order) => ExecuteGrants(s, order, O.Placed, Caller(O.System, "payment", []), "", w);
    case CallMarkFailed(order, reason) =>
      ExecuteGrants(s, order, O.Cancelled, Caller(O.System, "payment", []), reason, w);
    case _ =>
  }

  ghost predicate FlightOwn(s: State)
  {
    forall t :: t in s.flight && t.SaveOrder? && t.event.actor == O.Customer ==>
      t.order in s.orders && t.event.actorId == s.orders[t.order].customerId
  }

  lemma {:induction false} EveryCustomerIsTheirOwn(acts: seq<Action>)
    ensures FlightOwn(Run(START, acts))
    ensures forall o :: o in Run(START, acts).orders ==> CustomersOwn(Run(START, acts).orders[o])
    decreases |acts|
  {
    if acts != [] {
      var shorter, a := acts[..|acts| - 1], acts[|acts| - 1];
      var s, u := Run(START, shorter), Run(START, acts);
      EveryCustomerIsTheirOwn(shorter);
      ReachableIsGood(shorter);
      assert u == Next(s, a);
      forall o | o in u.orders
        ensures CustomersOwn(u.orders[o])
      {
        CustomersStayTheirOwn(s, a, o);
      }
      hide Inv, Next;
      forall t | t in u.flight && t.SaveOrder? && t.event.actor == O.Customer
        ensures t.order in u.orders && t.event.actorId == u.orders[t.order].customerId
      {
        if t !in s.flight {
          LaunchedByOwner(s, a, t);
        }
        OwnersStay(s, a, t.order);
      }
    }
  }

  lemma CustomersStayTheirOwn(s: State, a: Action, o: string)
    requires FlightOwn(s) && o in Next(s, a).orders && (o in s.orders ==> CustomersOwn(s.orders[o]))
    ensures CustomersOwn(Next(s, a).orders[o])
  {
    if a.Place? {
      O.NewOrderMeaning(a.draft);
      hide O.NewOrder;
    } else if Next(s, a).orders != s.orders {
      OrdersOnlyChangeByTheirWrites(s, a);
      hide Next;
    }
  }
}
