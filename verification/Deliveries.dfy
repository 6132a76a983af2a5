/** A run that delivers: what the other modules prove of every run is proved of a system that gets the goods to the door. */
module Deliveries {
  import opened Results
  import O = Orders
  import J = Jobs
  import P = Payments
  import opened Protocol
  import opened Safety
  import opened Calls

  const NOON: World := World(0, 0, "ID", 0.0)

  const DRAFT: O.Draft := O.Draft("ORD", "EV", "CUS", "SHOP", O.Cash, 1, "ADDR", 900, 1000, 0, 0)

  lemma RunThen(acts: seq<Action>, a: Action)
    ensures Run(START, acts + [a]) == Next(Run(START, acts), a)
  {
    assert (acts + [a])[..|acts|] == acts;
  }

  lemma RunBoth(acts: seq<Action>, a: Action, b: Action)
    ensures Run(START, acts + [a] + [b]) == Next(Next(Run(START, acts), a), b)
  {
    RunThen(acts, a);
    RunThen(acts + [a], b);
  }

  /** A delivery under way: where its order and its job are, and who carries it. */
  ghost predicate At(s: State, status: O.Status, job: Option<J.JobStatus>)
  {
    && "ORD" in s.orders && s.orders["ORD"].status == status
    && s.orders["ORD"].merchantId == "SHOP" && s.orders["ORD"].payment == O.Cash && s.orders["ORD"].total == 1000
    && s.cash == map[]
    && match job
       case None => "ORD" !in s.jobs
       case Some(at) => "ORD" in s.jobs && s.jobs["ORD"].status == at && Held(s.jobs["ORD"])
  }

  predicate Held(j: J.JobRow)
  {
    (j.status != J.Waiting ==> j.partnerId == "P") && (j.status == J.Offered ==> j.offerExpiresAt == 1)
  }

  lemma Moves(s: State, to: O.Status, c: Caller, job: Option<J.JobStatus>, a: Action) returns (save: Task)
    requires "ORD" in s.orders && At(s, s.orders["ORD"].status, job)
    requires O.Legal(s.orders["ORD"].status, to, c.actor) && to in {O.Accepted, O.Preparing, O.Ready, O.PickedUp, O.Delivered}
    requires (c == Caller(O.Merchant, "M", ["SHOP"]) && a == Ask("ORD", to, c, "", NOON)) ||
             (c == Caller(O.Partner, "P", []) && a == Perform(CallAdvance("ORD", to, "P", ""), NOON) && a.task in s.flight)
    ensures At(Next(Next(s, a), Perform(save, NOON)), to, job)
  {
    O.TableMeaning(s.orders["ORD"].status, to, c.actor);
    hide O.CanTransition, O.Legal, O.MayCustomerCancel;
    save := Execute(s.orders, "ORD", to, c, "", NOON).value;
  }

  lemma ShopMoves(acts: seq<Action>, to: O.Status, job: Option<J.JobStatus>) returns (more: seq<Action>)
    requires "ORD" in Run(START, acts).orders && At(Run(START, acts), Run(START, acts).orders["ORD"].status, job)
    requires O.Legal(Run(START, acts).orders["ORD"].status, to, O.Merchant) && to in {O.Accepted, O.Preparing, O.Ready}
    ensures At(Run(START, more), to, job)
  {
    hide Next, Run, At;
    var c := Caller(O.Merchant, "M", ["SHOP"]);
    var save := Moves(Run(START, acts), to, c, job, Ask("ORD", to, c, "", NOON));
    more := acts + [Ask("ORD", to, c, "", NOON)] + [Perform(save, NOON)];
    RunBoth(acts, Ask("ORD", to, c, "", NOON), Perform(save, NOON));
  }

  lemma PartnerTells(acts: seq<Action>, to: O.Status, job: Option<J.JobStatus>) returns (more: seq<Action>)
    requires "ORD" in Run(START, acts).orders && At(Run(START, acts), Run(START, acts).orders["ORD"].status, job)
    requires O.Legal(Run(START, acts).orders["ORD"].status, to, O.Partner) && to in {O.PickedUp, O.Delivered}
    requires CallAdvance("ORD", to, "P", "") in Run(START, acts).flight
    ensures At(Run(START, more), to, job)
  {
    hide Next, Run, At;
    var call := Perform(CallAdvance("ORD", to, "P", ""), NOON);
    var save := Moves(Run(START, acts), to, Caller(O.Partner, "P", []), job, call);
    more := acts + [call] + [Perform(save, NOON)];
    RunBoth(acts, call, Perform(save, NOON));
  }

  lemma Rides(s: State, m: J.Move, status: O.Status, from: J.JobStatus, to: J.JobStatus) returns (save: Task)
    requires At(s, status, Some(from))
    requires (m, from, to) in {(J.Offer("P", 1), J.Waiting, J.Offered), (J.Accept("P"), J.Offered, J.Assigned),
                               (J.Collect("P"), J.Assigned, J.Collected), (J.Deliver("P"), J.Collected, J.Delivered)}
    ensures At(Next(Next(s, Ride("ORD", m, NOON)), Perform(save, NOON)), status, Some(to))
  {
    var t := ReadAndMove(s.jobs, "ORD", m, 0);
    save := t.value;
    assert Next(s, Ride("ORD", m, NOON)) == Launch(s, t);
  }

  lemma PartnerRides(acts: seq<Action>, m: J.Move, status: O.Status, from: J.JobStatus, to: J.JobStatus)
    returns (more: seq<Action>)
    requires At(Run(START, acts), status, Some(from))
    requires (m, from, to) in {(J.Offer("P", 1), J.Waiting, J.Offered), (J.Accept("P"), J.Offered, J.Assigned),
                               (J.Collect("P"), J.Assigned, J.Collected), (J.Deliver("P"), J.Collected, J.Delivered)}
    ensures At(Run(START, more), status, Some(to))
  {
    hide Next, Run, At;
    var save := Rides(Run(START, acts), m, status, from, to);
    more := acts + [Ride("ORD", m, NOON)] + [Perform(save, NOON)];
    RunBoth(acts, Ride("ORD", m, NOON), Perform(save, NOON));
  }

  lemma Opens(s: State)
    requires At(s, O.Ready, None) && CallOffer("ORD") in s.flight
    ensures var job := J.NewJob("ORD", 0.0, 0);
            job.Success? &&
            At(Next(Next(s, Perform(CallOffer("ORD"), NOON)), Perform(CreateJob("ORD", job.value), NOON)), O.Ready, Some(J.Waiting))
  {
  }

  lemma Placed()
    ensures At(Run(START, [Place(DRAFT)]), O.Placed, None)
  {
    assert [Place(DRAFT)][..0] == [];
    assert Run(START, []) == START;
  }

  /** The shop gets the order ready, which calls for a job; the job is opened. */
  lemma Prepared() returns (acts: seq<Action>)
    ensures At(Run(START, acts), O.Ready, Some(J.Waiting))
  {
    Placed();
    acts := ShopMoves([Place(DRAFT)], O.Accepted, None);
    acts := ShopMoves(acts, O.Preparing, None);
    acts := ShopMoves(acts, O.Ready, None);
    hide Next, Run;
    var s := Run(START, acts);
    OrdersTellTheOthers(acts, "ORD");
    ReachableIsGood(acts);
    assert OrderOk(s, "ORD");
    hide Inv;
    assert s.orders["ORD"].events[|s.orders["ORD"].events| - 1].status == O.Ready;
    Opens(s);
    var job := J.NewJob("ORD", 0.0, 0).value;
    RunBoth(acts, Perform(CallOffer("ORD"), NOON), Perform(CreateJob("ORD", job), NOON));
    acts := acts + [Perform(CallOffer("ORD"), NOON)] + [Perform(CreateJob("ORD", job), NOON)];
  }

  /** The partner is offered the job, takes it and collects, which tells the order. */
  lemma PickedUp() returns (acts: seq<Action>)
    ensures At(Run(START, acts), O.PickedUp, Some(J.Collected))
  {
    hide Next, Run;
    acts := Prepared();
    acts := PartnerRides(acts, J.Offer("P", 1), O.Ready, J.Waiting, J.Offered);
    acts := PartnerRides(acts, J.Accept("P"), O.Ready, J.Offered, J.Assigned);
    acts := PartnerRides(acts, J.Collect("P"), O.Ready, J.Assigned, J.Collected);
    JobsTellTheirOrder(acts, "ORD");
    acts := PartnerTells(acts, O.PickedUp, Some(J.Collected));
  }

  ghost predicate Arrived(s: State)
  {
    && "ORD" in s.orders && s.orders["ORD"].status == O.Delivered && s.orders["ORD"].total == 1000
    && "ORD" in s.jobs && s.jobs["ORD"].status == J.Delivered && s.jobs["ORD"].partnerId == "P"
    && "ORD" in s.cash && s.cash["ORD"].partnerId == "P" && s.cash["ORD"].status == P.Held && s.cash["ORD"].amount == 1000
  }

  lemma Books(s: State)
    requires At(s, O.Delivered, Some(J.Delivered)) && CallRecord("ORD", "P", 1000) in s.flight
    ensures Arrived(Next(s, Perform(CallRecord("ORD", "P", 1000), NOON)))
  {
  }

  /** The delivered order tells the ledger who owes its cash. */
  lemma PartnerOwes(acts: seq<Action>)
    requires At(Run(START, acts), O.Delivered, Some(J.Delivered))
    ensures CallRecord("ORD", "P", 1000) in Run(START, acts).flight
  {
    var s := Run(START, acts);
    hide Run;
    OrdersTellTheOthers(acts, "ORD");
    StoredHistoriesAreLegal(acts, "ORD");
    var o := s.orders["ORD"];
    var last := o.events[|o.events| - 1];
    O.DeliveredPathIsUnique(o);
    assert last in o.events && last.actor == O.Partner;
    OnePartnerCarriesAnOrder(acts, "ORD", last);
  }

  /** The goods arrive: a run ends with a delivered cash order, and its collection on the partner's ledger. */
  lemma DeliveryIsReachable() returns (acts: seq<Action>)
    ensures Arrived(Run(START, acts))
  {
    hide Next, Run;
    acts := PickedUp();
    acts := PartnerRides(acts, J.Deliver("P"), O.PickedUp, J.Collected, J.Delivered);
    JobsTellTheirOrder(acts, "ORD");
    acts := PartnerTells(acts, O.Delivered, Some(J.Delivered));
    PartnerOwes(acts);
    Books(Run(START, acts));
    RunThen(acts, Perform(CallRecord("ORD", "P", 1000), NOON));
    acts := acts + [Perform(CallRecord("ORD", "P", 1000), NOON)];
  }
}
