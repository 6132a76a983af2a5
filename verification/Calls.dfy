/** What the modules tell each other: over every run, the calls a stored row asks for have been made. */
module Calls {
  import opened Results
  import O = Orders
  import J = Jobs
  import P = Payments
  import opened Protocol
  import opened Safety

  // ---------------------------------------------------------------- the order's calls

  /** The calls an order's history asks for are in flight, to be performed at any time. */
  ghost predicate Announced(s: State, order: string)
    requires order in s.orders
  {
    forall e :: e in s.orders[order].events ==> AnnouncedEvent(s, order, s.orders[order].payment, s.orders[order].total, e)
  }

  ghost predicate AnnouncedEvent(s: State, order: string, payment: O.PaymentMethod, total: int, e: O.Event)
  {
    && (e.status == O.Ready ==> CallOffer(order) in s.flight)
    && (e.status == O.Cancelled || e.status == O.Rejected || e.status == O.Failed ==> CallWithdraw(order, e.reason) in s.flight)
    && (e.status == O.Delivered && payment == O.Cash ==> CallRecord(order, e.actorId, total) in s.flight)
  }

  lemma WritingAnnounces(s: State, t: Task, w: World)
    requires t.SaveOrder? && t.order in s.orders && s.orders[t.order].status == t.from && Announced(s, t.order)
    ensures var u := Performed(s, t, w); t.order in u.orders && Announced(u, t.order)
  {
    var u := Performed(s, t, w);
    var o := s.orders[t.order];
    assert u.orders[t.order].events == o.events + [t.event];
    forall e | e in u.orders[t.order].events
      ensures AnnouncedEvent(u, t.order, o.payment, o.total, e)
    {
      if e in o.events {
        assert AnnouncedEvent(s, t.order, o.payment, o.total, e);
      }
    }
  }

  lemma StepAnnounces(s: State, a: Action, order: string)
    requires Inv(s) && order in Next(s, a).orders && (order in s.orders ==> Announced(s, order))
    ensures Announced(Next(s, a), order)
  {
    hide Inv, Performed;
    StepKeeps(s, a);
    var u := Next(s, a);
    if order in s.orders && u.orders[order] == s.orders[order] {
      assert forall e :: e in s.orders[order].events ==>
          AnnouncedEvent(s, order, s.orders[order].payment, s.orders[order].total, e);
    } else if a.Place? {
      O.NewOrderMeaning(a.draft);
      assert u.orders[order].events == [u.orders[order].events[0]];
    } else {
      OrdersOnlyChangeByTheirWrites(s, a);
      WritingAnnounces(s, a.task, a.world);
    }
  }

  lemma {:induction false} AllAnnounced(acts: seq<Action>)
    ensures forall o :: o in Run(START, acts).orders ==> Announced(Run(START, acts), o)
    decreases |acts|
  {
    if acts != [] {
      var shorter, a := acts[..|acts| - 1], acts[|acts| - 1];
      AllAnnounced(shorter);
      ReachableIsGood(shorter);
      hide Inv, Next, Announced;
      forall o | o in Run(START, acts).orders
        ensures Announced(Run(START, acts), o)
      {
        StepAnnounces(Run(START, shorter), a, o);
      }
    }
  }

  /**
   Over every run: an order that has been ready has its job called for; one that was called off, refused or failed has its
   job withdrawn, with the reason it ended on; a delivered cash order has its total booked to who delivered it.
   */
  lemma OrdersTellTheOthers(acts: seq<Action>, order: string)
    ensures var s := Run(START, acts);
            order in s.orders ==>
              var o := s.orders[order];
              && |o.events| > 0
              && (O.Reached(o, O.Ready) ==> CallOffer(order) in s.flight)
              && (o.status in {O.Cancelled, O.Rejected, O.Failed} ==>
                   CallWithdraw(order, o.events[|o.events| - 1].reason) in s.flight)
              && (o.status == O.Delivered && o.payment == O.Cash ==>
                   CallRecord(order, o.events[|o.events| - 1].actorId, o.total) in s.flight)
  {
    var s := Run(START, acts);
    AllAnnounced(acts);
    ReachableIsGood(acts);
    hide Run;
    if order in s.orders {
      var o := s.orders[order];
      assert OrderOk(s, order) && Announced(s, order);
      assert AnnouncedEvent(s, order, o.payment, o.total, o.events[|o.events| - 1]);
      if i :| 0 <= i < |o.events| && o.events[i].status == O.Ready {
        assert AnnouncedEvent(s, order, o.payment, o.total, o.events[i]);
      }
    }
  }

  // ---------------------------------------------------------------- the job's calls

  /** A write that ends a leg is a partner's own move, and the row it writes is that partner's. */
  ghost predicate LegIsTheirs(t: Task)
  {
    t.SaveJob? ==>
      && (t.next.status == J.Collected ==> t.move == J.Collect(t.next.partnerId))
      && (t.next.status == J.Delivered ==> t.move == J.Deliver(t.next.partnerId))
      && (t.next.status == J.Failed ==> t.move == J.Move.Fail(t.next.partnerId, t.next.reason))
  }

  lemma MovingIsTheirs(jobs: map<string, J.JobRow>, order: string, m: J.Move, now: int)
    ensures var t := ReadAndMove(jobs, order, m, now); t.Some? ==> LegIsTheirs(t.value)
  {
  }

  /** Every write in flight of a job or a payment was prepared by reading the row and moving it. */
  lemma PreparedByReading(s: State, a: Action, t: Task)
    requires t in Next(s, a).flight && t !in s.flight
    ensures t.SaveJob? ==> exists m, now :: ReadAndMove(s.jobs, t.order, m, now) == Some(t)
    ensures t.SavePayment? ==> exists m, now :: SettlePayment(s.payments, t.ref, m, now) == Some(t)
  {
    hide Execute, StartCheckout, SettlePayment, ReadAndMove, Remit, Performed;
    if a.Perform? && a.task in s.flight && WindowInBounds(a.world) {
      PreparedByCalls(s, a.task, a.world, t);
    }
  }

  lemma PreparedByCalls(s: State, p: Task, w: World, t: Task)
    requires t in Performed(s, p, w).flight && t !in s.flight
    ensures t.SaveJob? ==> exists m, now :: ReadAndMove(s.jobs, t.order, m, now) == Some(t)
    ensures !t.SavePayment?
  {
    hide Execute, ReadAndMove, Aftermath, Told, HasPending;
  }

  lemma LaunchedLegIsTheirs(s: State, a: Action, t: Task)
    requires t in Next(s, a).flight && t !in s.flight
    ensures LegIsTheirs(t)
  {
    PreparedByReading(s, a, t);
    hide Next;
    if t.SaveJob? {
      var m, now :| ReadAndMove(s.jobs, t.order, m, now) == Some(t);
      MovingIsTheirs(s.jobs, t.order, m, now);
    }
  }

  /** The transition a job's leg asks of its order is in flight, in the name of the partner on the job. */
  ghost predicate LegAnnounced(s: State, order: string)
    requires order in s.jobs
  {
    var j := s.jobs[order];
    && (j.status == J.Collected ==> CallAdvance(order, O.PickedUp, j.partnerId, "") in s.flight)
    && (j.status == J.Delivered ==> CallAdvance(order, O.Delivered, j.partnerId, "") in s.flight)
    && (j.status == J.Failed ==> CallAdvance(order, O.Failed, j.partnerId, j.reason) in s.flight)
  }

  lemma SavingAnnounces(s: State, t: Task, w: World)
    requires t.SaveJob? && LegIsTheirs(t) && t.order in s.jobs && s.jobs[t.order].status == t.expected
    ensures var u := Performed(s, t, w); t.order in u.jobs && LegAnnounced(u, t.order)
  {
  }

  lemma StepAnnouncesLegs(s: State, a: Action, order: string)
    requires Inv(s) && order in Next(s, a).jobs && (order in s.jobs ==> LegAnnounced(s, order))
    requires forall t :: t in s.flight ==> LegIsTheirs(t)
    ensures LegAnnounced(Next(s, a), order)
  {
    hide Inv, Performed, TaskOk, LegIsTheirs;
    StepKeeps(s, a);
    var u := Next(s, a);
    if order !in s.jobs || u.jobs[order] != s.jobs[order] {
      JobsOnlyChangeByTheirWrites(s, a);
      FlightIsGood(s, a.task);
      if a.task.SaveJob? {
        SavingAnnounces(s, a.task, a.world);
      } else {
        JobWritesFollowEdges(s, a.task);
      }
    }
  }

  ghost predicate AllLegs(s: State)
  {
    (forall t :: t in s.flight ==> LegIsTheirs(t)) && forall o :: o in s.jobs ==> LegAnnounced(s, o)
  }

  lemma StepKeepsLegs(s: State, a: Action)
    requires Inv(s) && AllLegs(s)
    ensures AllLegs(Next(s, a))
  {
    hide Inv, Next, LegAnnounced, LegIsTheirs;
    var u := Next(s, a);
    forall o | o in u.jobs
      ensures LegAnnounced(u, o)
    {
      StepAnnouncesLegs(s, a, o);
    }
    forall t | t in u.flight
      ensures LegIsTheirs(t)
    {
      if t !in s.flight {
        LaunchedLegIsTheirs(s, a, t);
      }
    }
  }

  lemma {:induction false} AllLegsAnnounced(acts: seq<Action>)
    ensures AllLegs(Run(START, acts))
    decreases |acts|
  {
    hide Inv, Next;
    if acts != [] {
      var shorter := acts[..|acts| - 1];
      AllLegsAnnounced(shorter);
      ReachableIsGood(shorter);
      StepKeepsLegs(Run(START, shorter), acts[|acts| - 1]);
    }
  }

  /** Over every run: a job that was collected, delivered or failed has told its order so, in its partner's name. */
  lemma JobsTellTheirOrder(acts: seq<Action>, order: string)
    ensures var s := Run(START, acts);
            order in s.jobs ==>
              var j := s.jobs[order];
              && (j.status == J.Collected ==> CallAdvance(order, O.PickedUp, j.partnerId, "") in s.flight)
              && (j.status == J.Delivered ==> CallAdvance(order, O.Delivered, j.partnerId, "") in s.flight)
              && (j.status == J.Failed ==> CallAdvance(order, O.Failed, j.partnerId, j.reason) in s.flight)
  {
    hide Run;
    AllLegsAnnounced(acts);
  }

  // ---------------------------------------------------------------- the payment's calls

  /** A write that settles a payment records the word it settles it on. */
  ghost predicate SettlesAsTold(t: Task)
  {
    t.SavePayment? ==>
      && (t.payment.status == P.Captured ==> t.settle.Capture?)
      && (t.payment.status == P.Failed ==> t.settle == P.Decline(t.payment.failureReason))
  }

  lemma SettlingIsAsTold(payments: map<string, P.Payment>, ref: string, m: P.PayMove, now: int)
    ensures var t := SettlePayment(payments, ref, m, now); t.Some? ==> SettlesAsTold(t.value)
  {
  }

  lemma LaunchedSettlesAsTold(s: State, a: Action, t: Task)
    requires t in Next(s, a).flight && t !in s.flight
    ensures SettlesAsTold(t)
  {
    PreparedByReading(s, a, t);
    hide Next;
    if t.SavePayment? {
      var m, now :| SettlePayment(s.payments, t.ref, m, now) == Some(t);
      SettlingIsAsTold(s.payments, t.ref, m, now);
    }
  }

  ghost predicate SettlementAnnounced(s: State, ref: string)
    requires ref in s.payments
  {
    var p := s.payments[ref];
    && (p.status == P.Captured || p.status == P.Refunded ==> CallMarkPaid(p.orderId) in s.flight)
    && (p.status == P.Failed ==> CallMarkFailed(p.orderId, p.failureReason) in s.flight)
  }

  lemma PaymentsOnlyChangeByTheirWrites(s: State, a: Action)
    requires Next(s, a).payments != s.payments
    ensures a.Perform? && a.task in s.flight && WindowInBounds(a.world)
    ensures (a.task.SavePayment? && a.task.ref in s.payments && s.payments[a.task.ref].status == a.task.was &&
             Next(s, a).payments == s.payments[a.task.ref := a.task.payment]) ||
            (a.task.CreatePayment? && a.task.payment.id !in s.payments &&
             Next(s, a).payments == s.payments[a.task.payment.id := a.task.payment])
  {
    hide Performed, Execute, ReadAndMove, SettlePayment, StartCheckout, Remit, O.NewOrder;
    assert Next(s, a) == Performed(s, a.task, a.world);
    PaymentsArePerformed(s, a.task, a.world);
  }

  lemma PaymentsArePerformed(s: State, t: Task, w: World)
    requires Performed(s, t, w).payments != s.payments
    ensures (t.SavePayment? && t.ref in s.payments && s.payments[t.ref].status == t.was &&
             Performed(s, t, w).payments == s.payments[t.ref := t.payment]) ||
            (t.CreatePayment? && t.payment.id !in s.payments &&
             Performed(s, t, w).payments == s.payments[t.payment.id := t.payment])
  {
    hide Execute, ReadAndMove, Aftermath, Told, HasPending, O.Append, J.NewJob, P.NewCollection;
  }

  lemma SettlingAnnounces(s: State, t: Task, w: World, ref: string)
    requires t.SavePayment? && SettlesAsTold(t) && TaskOk(s, t) && ref in s.payments && SettlementAnnounced(s, ref)
    requires s.payments[t.ref].status == t.was
    ensures var u := Performed(s, t, w); ref in u.payments && SettlementAnnounced(u, ref)
  {
    hide O.LegalHistory;
  }

  lemma StepAnnouncesSettlements(s: State, a: Action, ref: string)
    requires Inv(s) && ref in Next(s, a).payments && (ref in s.payments ==> SettlementAnnounced(s, ref))
    requires forall t :: t in s.flight ==> SettlesAsTold(t)
    ensures SettlementAnnounced(Next(s, a), ref)
  {
    hide Inv, Performed, TaskOk;
    StepKeeps(s, a);
    var u := Next(s, a);
    if ref !in s.payments || u.payments[ref] != s.payments[ref] {
      PaymentsOnlyChangeByTheirWrites(s, a);
      FlightIsGood(s, a.task);
      if a.task.SavePayment? {
        assert SettlesAsTold(a.task);
        SettlingAnnounces(s, a.task, a.world, ref);
      } else {
        CreatedIsPending(s, a.task);
      }
    }
  }

  lemma CreatedIsPending(s: State, t: Task)
    requires t.CreatePayment? && TaskOk(s, t)
    ensures t.payment.status == P.Pending
  {
  }

  ghost predicate AllSettlements(s: State)
  {
    (forall t :: t in s.flight ==> SettlesAsTold(t)) && forall r :: r in s.payments ==> SettlementAnnounced(s, r)
  }

  lemma StepKeepsSettlements(s: State, a: Action)
    requires Inv(s) && AllSettlements(s)
    ensures AllSettlements(Next(s, a))
  {
    hide Inv, Next, SettlementAnnounced, SettlesAsTold;
    var u := Next(s, a);
    forall r | r in u.payments
      ensures SettlementAnnounced(u, r)
    {
      StepAnnouncesSettlements(s, a, r);
    }
    forall t | t in u.flight
      ensures SettlesAsTold(t)
    {
      if t !in s.flight {
        LaunchedSettlesAsTold(s, a, t);
      }
    }
  }

  lemma {:induction false} AllSettlementsAnnounced(acts: seq<Action>)
    ensures AllSettlements(Run(START, acts))
    decreases |acts|
  {
    hide Inv, Next;
    if acts != [] {
      var shorter := acts[..|acts| - 1];
      AllSettlementsAnnounced(shorter);
      ReachableIsGood(shorter);
      StepKeepsSettlements(Run(START, shorter), acts[|acts| - 1]);
    }
  }

  /** Over every run: a payment that was captured has told its order so, one that failed has told it why. */
  lemma PaymentsTellTheirOrder(acts: seq<Action>, ref: string)
    ensures var s := Run(START, acts);
            ref in s.payments ==>
              var p := s.payments[ref];
              && (p.status in {P.Captured, P.Refunded} ==> CallMarkPaid(p.orderId) in s.flight)
              && (p.status == P.Failed ==> CallMarkFailed(p.orderId, p.failureReason) in s.flight)
  {
    hide Run;
    AllSettlementsAnnounced(acts);
  }
}
