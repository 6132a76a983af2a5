/** What holds in every state the step system can reach, whatever is lost, late, repeated or stale. */
module Safety {
  import opened Results
  import O = Orders
  import J = Jobs
  import P = Payments
  import opened Protocol

  lemma GrowsChains(s: State, t: State, u: State)
    requires Grows(s, t) && Grows(t, u)
    ensures Grows(s, u)
  {
    forall o | o in s.orders
      ensures o in u.orders && OrderLater(s.orders[o], u.orders[o])
    {
      assert OrderLater(s.orders[o], t.orders[o]) && OrderLater(t.orders[o], u.orders[o]);
    }
    forall o | o in s.jobs
      ensures o in u.jobs && JobLater(s.jobs[o], u.jobs[o])
    {
      assert JobLater(s.jobs[o], t.jobs[o]) && JobLater(t.jobs[o], u.jobs[o]);
    }
    forall r | r in s.payments
      ensures r in u.payments && PaymentLater(s.payments[r], u.payments[r])
    {
      assert PaymentLater(s.payments[r], t.payments[r]) && PaymentLater(t.payments[r], u.payments[r]);
    }
    forall o | o in s.cash
      ensures o in u.cash && CashLater(s.cash[o], u.cash[o])
    {
      assert CashLater(s.cash[o], t.cash[o]) && CashLater(t.cash[o], u.cash[o]);
    }
  }

  /** Every run from a good state ends in a good state, and no row moved backwards on the way. */
  lemma {:induction false} RunKeeps(s: State, acts: seq<Action>)
    requires Inv(s)
    ensures Inv(Run(s, acts)) && Grows(s, Run(s, acts))
    decreases |acts|
  {
    hide Inv, Grows, Next;
    if acts == [] {
      GrowsItself(s);
    } else {
      var before := Run(s, acts[..|acts| - 1]);
      RunKeeps(s, acts[..|acts| - 1]);
      StepKeeps(before, acts[|acts| - 1]);
      GrowsChains(s, before, Run(s, acts));
    }
  }

  lemma ReachableIsGood(acts: seq<Action>)
    ensures Inv(Run(START, acts))
  {
    RunKeeps(START, acts);
  }

  // ---------------------------------------------------------------- orders and jobs

  lemma LastEventFits(s: State, order: string)
    requires order in s.orders && OrderOk(s, order)
    ensures var o := s.orders[order]; var e := o.events[|o.events| - 1];
            && e.status == o.status && EventOk(s, order, e)
            && (o.status in {O.PickedUp, O.Delivered} ==> e.actor == O.Partner)
  {
    var o := s.orders[order];
    var n := |o.events|;
    assert EventOk(s, order, o.events[n - 1]);
    if n > 1 {
      assert O.LegalStep(o.events, n - 1);
    }
  }

  /** The order never runs ahead of its job, and the board never drops a live order's job. */
  lemma OrderNeverAheadOfJob(acts: seq<Action>, order: string)
    ensures var s := Run(START, acts);
            && (order in s.orders && s.orders[order].status == O.PickedUp ==>
                 order in s.jobs && s.jobs[order].status in {J.Collected, J.Delivered, J.Failed})
            && (order in s.orders && s.orders[order].status == O.Delivered ==>
                 order in s.jobs && s.jobs[order].status == J.Delivered)
            && (order in s.jobs ==> order in s.orders && O.Reached(s.orders[order], O.Ready))
            && (order in s.jobs && s.jobs[order].status == J.Cancelled ==>
                 s.orders[order].status in {O.Cancelled, O.Rejected, O.Failed})
  {
    var s := Run(START, acts);
    ReachableIsGood(acts);
    if order in s.orders {
      assert OrderOk(s, order);
      LastEventFits(s, order);
    }
    if order in s.jobs {
      assert JobOk(s, order);
    }
  }

  /** Whoever the history says picked an order up and delivered it is the partner on its job, even after stale writes. */
  lemma OnePartnerCarriesAnOrder(acts: seq<Action>, order: string, e: O.Event)
    ensures var s := Run(START, acts);
            order in s.orders && e in s.orders[order].events && e.status in {O.PickedUp, O.Delivered} ==>
              order in s.jobs && e.actor == O.Partner && s.jobs[order].partnerId == e.actorId
  {
    var s := Run(START, acts);
    ReachableIsGood(acts);
    if order in s.orders && e in s.orders[order].events && e.status in {O.PickedUp, O.Delivered} {
      var o := s.orders[order];
      assert OrderOk(s, order);
      var i :| 0 <= i < |o.events| && o.events[i] == e;
      assert EventOk(s, order, o.events[i]);
      if i > 0 {
        assert O.LegalStep(o.events, i);
      }
    }
  }

  /** The statuses stored for an order's job, one for each write that changed the row. */
  ghost function StoredStatuses(acts: seq<Action>, order: string): seq<J.JobStatus>
    decreases |acts|
  {
    if acts == [] then []
    else
      var shorter := acts[..|acts| - 1];
      var s, u := Run(START, shorter), Run(START, acts);
      if order in u.jobs && !(order in s.jobs && s.jobs[order] == u.jobs[order])
      then StoredStatuses(shorter, order) + [u.jobs[order].status]
      else StoredStatuses(shorter, order)
  }

  ghost predicate IsJobPath(path: seq<J.JobStatus>)
  {
    && (path != [] ==> path[0] == J.Waiting)
    && forall i :: 0 < i < |path| ==> J.Edge(path[i - 1], path[i])
  }

  lemma PathExtends(path: seq<J.JobStatus>, next: J.JobStatus)
    requires IsJobPath(path)
    requires if path == [] then next == J.Waiting else J.Edge(path[|path| - 1], next)
    ensures IsJobPath(path + [next])
  {
  }

  /** A step writes a job along an edge of the job graph, or opens it waiting. */
  lemma StepFollowsJobGraph(s: State, a: Action, order: string)
    requires Inv(s)
    ensures var u := Next(s, a);
            && (order in s.jobs ==>
                 && order in u.jobs
                 && (u.jobs[order] == s.jobs[order] || J.Edge(s.jobs[order].status, u.jobs[order].status)))
            && (order in u.jobs && order !in s.jobs ==> u.jobs[order].status == J.Waiting)
  {
    hide Next, Inv, TaskOk;
    if Next(s, a).jobs != s.jobs {
      JobsOnlyChangeByTheirWrites(s, a);
      FlightIsGood(s, a.task);
      JobWritesFollowEdges(s, a.task);
    }
  }

  lemma FlightIsGood(s: State, t: Task)
    requires Inv(s) && t in s.flight
    ensures TaskOk(s, t)
  {
    hide TaskOk;
  }

  lemma JobWritesFollowEdges(s: State, t: Task)
    requires TaskOk(s, t)
    ensures t.SaveJob? ==> J.Edge(t.expected, t.next.status)
    ensures t.CreateJob? ==> t.job.status == J.Waiting
  {
  }

  /** Only two kinds of write touch the jobs, each one row. */
  lemma JobsOnlyChangeByTheirWrites(s: State, a: Action)
    requires Next(s, a).jobs != s.jobs
    ensures a.Perform? && a.task in s.flight && WindowInBounds(a.world)
    ensures (a.task.SaveJob? && a.task.order in s.jobs && s.jobs[a.task.order].status == a.task.expected &&
             Next(s, a).jobs == s.jobs[a.task.order := a.task.next]) ||
            (a.task.CreateJob? && a.task.order !in s.jobs && Next(s, a).jobs == s.jobs[a.task.order := a.task.job])
  {
    hide Execute, ReadAndMove, SettlePayment, StartCheckout, Remit, Aftermath, Told, HasPending;
    hide O.NewOrder, O.Append, J.NewJob, P.NewCollection;
  }

  /** Only placing and one kind of write touch the orders, each one row. */
  lemma OrdersOnlyChangeByTheirWrites(s: State, a: Action)
    requires Next(s, a).orders != s.orders && !a.Place?
    ensures a.Perform? && a.task in s.flight && WindowInBounds(a.world)
    ensures a.task.SaveOrder? && a.task.order in s.orders && s.orders[a.task.order].status == a.task.from
    ensures Next(s, a).orders == s.orders[a.task.order := O.Append(s.orders[a.task.order], a.task.event)]
  {
    hide Execute, ReadAndMove, SettlePayment, StartCheckout, Remit, Aftermath, Told, HasPending;
    hide O.NewOrder, O.Append, J.NewJob, P.NewCollection;
  }

  /** A path of the job graph that ends where the order's job now is. */
  ghost predicate PathOf(path: seq<J.JobStatus>, s: State, order: string)
  {
    && IsJobPath(path)
    && if order in s.jobs then path != [] && path[|path| - 1] == s.jobs[order].status else path == []
  }

  lemma PathGrows(path: seq<J.JobStatus>, s: State, a: Action, order: string)
    requires Inv(s) && PathOf(path, s, order)
    ensures var u := Next(s, a);
            if order in u.jobs && !(order in s.jobs && s.jobs[order] == u.jobs[order])
            then PathOf(path + [u.jobs[order].status], u, order) else PathOf(path, u, order)
  {
    hide Inv, Next, IsJobPath, J.Edge;
    StepFollowsJobGraph(s, a, order);
    var u := Next(s, a);
    if order in u.jobs && !(order in s.jobs && s.jobs[order] == u.jobs[order]) {
      PathExtends(path, u.jobs[order].status);
    }
  }

  /** Read and write races included, the stored sequence of a job's statuses is a path of its graph from waiting. */
  lemma {:induction false} StoredStatusesArePath(acts: seq<Action>, order: string)
    ensures IsJobPath(StoredStatuses(acts, order))
    ensures var s := Run(START, acts); var path := StoredStatuses(acts, order);
            if order in s.jobs then path != [] && path[|path| - 1] == s.jobs[order].status else path == []
    decreases |acts|
  {
    if acts == [] {
      assert IsJobPath([]);
    } else {
      hide Inv, Next, IsJobPath;
      var shorter, last := acts[..|acts| - 1], acts[|acts| - 1];
      var s, path := Run(START, shorter), StoredStatuses(shorter, order);
      StoredStatusesArePath(shorter, order);
      ReachableIsGood(shorter);
      PathGrows(path, s, last, order);
      assert PathOf(StoredStatuses(acts, order), Run(START, acts), order);
    }
  }

  /** Once goods are collected, no later step of anybody changes whose job it is or puts it back on the board. */
  lemma CollectedStaysPut(acts: seq<Action>, more: seq<Action>, order: string)
    ensures var s := Run(START, acts); var u := Run(s, more);
            order in s.jobs && s.jobs[order].status == J.Collected ==>
              && order in u.jobs && u.jobs[order].partnerId == s.jobs[order].partnerId
              && u.jobs[order].status in {J.Collected, J.Delivered, J.Failed, J.Cancelled}
  {
    var s := Run(START, acts);
    ReachableIsGood(acts);
    RunKeeps(s, more);
    if order in s.jobs {
      assert JobLater(s.jobs[order], Run(s, more).jobs[order]);
    }
  }

  // ---------------------------------------------------------------- histories

  /** Every stored order carries a legal history of at most seven events that end at its status. */
  lemma StoredHistoriesAreLegal(acts: seq<Action>, order: string)
    ensures var s := Run(START, acts);
            order in s.orders ==> O.LegalHistory(s.orders[order]) && |s.orders[order].events| <= 7
  {
    var s := Run(START, acts);
    ReachableIsGood(acts);
    if order in s.orders {
      assert OrderOk(s, order);
      O.NoStatusRepeats(s.orders[order]);
    }
  }

  /** A customer's cancellation is stamped before the longest window allowed from placement; a rejection has a reason. */
  lemma CancellationsAreInTime(acts: seq<Action>, order: string, e: O.Event)
    ensures var s := Run(START, acts);
            order in s.orders && e in s.orders[order].events ==>
              && (e.status == O.Cancelled && e.actor == O.Customer ==> e.at < s.orders[order].placedAt + MAX_WINDOW)
              && (e.status == O.Rejected ==> e.reason != "")
  {
    var s := Run(START, acts);
    ReachableIsGood(acts);
    if order in s.orders && e in s.orders[order].events {
      assert OrderOk(s, order);
      var i :| 0 <= i < |s.orders[order].events| && s.orders[order].events[i] == e;
      assert EventOk(s, order, s.orders[order].events[i]);
    }
  }

  // ---------------------------------------------------------------- payments

  /** An online order that ever was placed has a captured or refunded payment for exactly its total. */
  lemma OnlineOrdersArePaid(acts: seq<Action>, order: string)
    ensures var s := Run(START, acts);
            order in s.orders && s.orders[order].payment == O.Online && O.Reached(s.orders[order], O.Placed) ==>
              exists r :: r in s.payments && s.payments[r].orderId == order &&
                s.payments[r].amount == s.orders[order].total && s.payments[r].status in {P.Captured, P.Refunded}
  {
    var s := Run(START, acts);
    ReachableIsGood(acts);
    if order in s.orders && s.orders[order].payment == O.Online && O.Reached(s.orders[order], O.Placed) {
      var o := s.orders[order];
      assert OrderOk(s, order);
      var i :| 0 <= i < |o.events| && o.events[i].status == O.Placed;
      assert O.LegalStep(o.events, i);
      assert EventOk(s, order, o.events[i]);
      var r :| r in s.payments && Pays(s.payments[r], o);
    }
  }

  /** Once a payment has left pending, no callback, however late or conflicting, changes the outcome. */
  lemma PaymentsSettleOnce(acts: seq<Action>, more: seq<Action>, ref: string)
    ensures var s := Run(START, acts); var u := Run(s, more);
            ref in s.payments && s.payments[ref].status != P.Pending ==>
              ref in u.payments && u.payments[ref].amount == s.payments[ref].amount &&
              (u.payments[ref].status == s.payments[ref].status ||
               (s.payments[ref].status == P.Captured && u.payments[ref].status == P.Refunded))
  {
    hide Next, OrderOk, JobOk, PaymentOk, CashOk, TaskOk, OrderLater, JobLater, CashLater;
    var s := Run(START, acts);
    ReachableIsGood(acts);
    RunKeeps(s, more);
    if ref in s.payments {
      assert PaymentLater(s.payments[ref], Run(s, more).payments[ref]);
    }
  }
}
