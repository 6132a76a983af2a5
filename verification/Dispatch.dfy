/** The dispatch desk: partners acting on jobs, withdrawal, assignment rounds and the sweep. */
module Dispatch {
  import opened Results
  import opened Reals
  import J = Jobs
  import O = Orders
  import A = Assignment
  import opened Text
  import Protocol

  datatype Availability = Offline | Available | Busy | OtherAvailability(name: string)

  datatype Partner = Partner(id: string, availability: Availability, carrying: nat, offered: int, accepted: int)

  datatype DeskError = NoSuchPartner | NoSuchJob | JobMoved | Refused(why: J.JobError)

  datatype TakeRefusal = NotWorking | AtCapacity

  function AcceptanceRate(p: Partner): (rate: real)
    requires p.accepted >= 0
    ensures 0.0 <= rate <= 1.0
    ensures p.offered <= 0 || p.accepted >= p.offered ==> rate == 1.0
    ensures 0 <= p.accepted <= p.offered && p.offered > 0 ==> rate * p.offered as real == p.accepted as real
  {
    if p.offered <= 0 then 1.0
    else
      var rate := p.accepted as real / p.offered as real;
      DivideGrows(0.0, p.accepted as real, p.offered as real);
      QuotientAtMost(p.accepted as real, p.offered as real, 1.0);
      QuotientAtMost(p.offered as real, p.offered as real, 1.0);
      QuotientIs(0.0, p.offered as real, 0.0);
      QuotientIs(p.offered as real, p.offered as real, 1.0);
      Quotient(p.accepted as real, p.offered as real);
      if p.accepted >= p.offered then
        DivideGrows(p.offered as real, p.accepted as real, p.offered as real);
        1.0
      else if rate > 1.0 then 1.0 else rate
  }

  function CanTake(p: Partner, maxConcurrent: int): Outcome<TakeRefusal>
  {
    if p.availability != Available then Fail(NotWorking)
    else if maxConcurrent > 0 && p.carrying >= maxConcurrent then Fail(AtCapacity)
    else Pass
  }

  /** Working, and below the limit where there is one. */
  predicate Free(p: Partner, maxConcurrent: int)
  {
    p.availability == Available && (maxConcurrent <= 0 || p.carrying < maxConcurrent)
  }

  lemma CanTakeMeaning(p: Partner, maxConcurrent: int)
    ensures CanTake(p, maxConcurrent).Pass? <==> p.availability == Available && (maxConcurrent <= 0 || p.carrying < maxConcurrent)
    ensures CanTake(p, maxConcurrent) == Fail(NotWorking) <==> p.availability != Available
  {
  }

  /** Only going off or on shift is a partner's to say. */
  function WithAvailability(p: Partner, a: Availability): (r: Option<Partner>)
    ensures r.Some? <==> a == Offline || a == Available
    ensures r.Some? ==> r.value.availability == a && r.value.id == p.id && r.value.carrying == p.carrying
    ensures r.Some? ==> r.value.offered == p.offered && r.value.accepted == p.accepted
  {
    if a in {Offline, Available} then Some(p.(availability := a)) else None
  }

  // ---------------------------------------------------------------- what one act leaves behind

  datatype Desk = Desk(jobs: map<string, J.JobRow>, partners: map<string, Partner>)

  predicate PartnerMove(m: J.Move) { m.Accept? || m.Decline? || m.Collect? || m.Deliver? || m.Fail? }

  /** settle's share of the partner row: the load, and busy is not declared. */
  function Settled(p: Partner, m: J.Move): Partner
  {
    var carrying := if m.Accept? then p.carrying + 1
                    else if (m.Deliver? || m.Fail?) && p.carrying > 0 then p.carrying - 1
                    else p.carrying;
    p.(carrying := carrying, availability := if p.availability == Offline then Offline else Available)
  }

  /** A partner's action as one step: job and partner written, or nothing. */
  function Acted(d: Desk, order: string, m: J.Move, now: int): Desk
    requires PartnerMove(m)
  {
    if m.who !in d.partners || order !in d.jobs || J.After(d.jobs[order], m, now).Failure? then d
    else Desk(d.jobs[order := J.After(d.jobs[order], m, now).value], d.partners[m.who := Settled(d.partners[m.who], m)])
  }

  /** release's share of a withdrawal: one job fewer, and no longer busy. */
  function Relieved(p: Partner): Partner
  {
    p.(carrying := if p.carrying > 0 then p.carrying - 1 else 0,
       availability := if p.availability == Busy then Available else p.availability)
  }

  /** A withdrawal as one step: a live job is cancelled and whoever it named is relieved. */
  function Withdrawn(d: Desk, order: string, reason: string, now: int): Desk
  {
    if order !in d.jobs || J.IsTerminal(d.jobs[order].status) then d
    else
      var held := d.jobs[order].partnerId;
      Desk(d.jobs[order := J.After(d.jobs[order], J.Cancel(reason), now).value],
           if held in d.partners && held != "" then d.partners[held := Relieved(d.partners[held])] else d.partners)
  }

  // ---------------------------------------------------------------- assignment rounds

  datatype Near = Near(partner: Partner, distance: real)

  datatype Rules = Rules(partnerRadius: real, offerTimeout: int, maxConcurrent: int)

  function CandidateOf(n: Near, rules: Rules): (c: A.Candidate)
    requires n.partner.accepted >= 0
    ensures c.partnerId == n.partner.id && c.distance == n.distance && c.carrying == n.partner.carrying
    ensures c.maxConcurrent == rules.maxConcurrent && 0.0 <= c.acceptanceRate <= 1.0
  {
    A.Candidate(n.partner.id, n.distance, n.partner.carrying, rules.maxConcurrent, AcceptanceRate(n.partner))
  }

  predicate CountsAreNatural(nearby: seq<Near>) { forall n :: n in nearby ==> n.partner.accepted >= 0 }

  /** Somebody nearby who can take the job, other than a partner to skip. */
  ghost predicate Eligible(c: A.Candidate, nearby: seq<Near>, rules: Rules, skip: Option<string>)
    requires CountsAreNatural(nearby)
  {
    && (exists n :: n in nearby && Free(n.partner, rules.maxConcurrent) && c == CandidateOf(n, rules))
    && skip != Some(c.partnerId)
  }

  /** The partner a round asks: the best of those who can take it and did not just pass, else the best of all who can. */
  ghost predicate RoundAsks(to: string, job: J.JobRow, nearby: seq<Near>, rules: Rules)
    requires CountsAreNatural(nearby)
  {
    var others := exists c :: Eligible(c, nearby, rules, Some(job.passedBy));
    var skip := if others then Some(job.passedBy) else None;
    exists best: A.Candidate :: best.partnerId == to && Eligible(best, nearby, rules, skip) &&
      forall c :: Eligible(c, nearby, rules, skip) ==>
        A.AtMost(A.Scored(best, A.Score(best, rules.partnerRadius)), A.Scored(c, A.Score(c, rules.partnerRadius)))
  }

  ghost predicate NobodyCan(nearby: seq<Near>, rules: Rules)
  {
    forall n :: n in nearby ==> !Free(n.partner, rules.maxConcurrent)
  }

  /** A partner with this id is nearby, working, and below the limit where there is one. */
  predicate AsksSomebodyFree(to: string, nearby: seq<Near>, rules: Rules)
  {
    exists n :: n in nearby && n.partner.id == to && n.partner.availability == Available &&
      (rules.maxConcurrent <= 0 || n.partner.carrying < rules.maxConcurrent)
  }

  predicate NobodyFreeBut(passedBy: string, nearby: seq<Near>, rules: Rules)
  {
    forall n :: n in nearby && Free(n.partner, rules.maxConcurrent) ==> n.partner.id == passedBy
  }

  lemma AskedIsFree(to: string, job: J.JobRow, nearby: seq<Near>, rules: Rules)
    requires CountsAreNatural(nearby) && RoundAsks(to, job, nearby, rules)
    ensures AsksSomebodyFree(to, nearby, rules)
    ensures to == job.passedBy ==> NobodyFreeBut(job.passedBy, nearby, rules)
  {
    hide A.Score, A.AtMost;
    forall n | n in nearby && Free(n.partner, rules.maxConcurrent) && n.partner.id != job.passedBy
      ensures Eligible(CandidateOf(n, rules), nearby, rules, Some(job.passedBy))
    {
    }
  }

  /**
   Whoever a round asks scores no worse than any other free partner who did not just pass, and of those with their score
   is not after any by id; so a partner at the counter is never passed over for one at the edge of the radius.
   */
  lemma RoundAsksTheBest(to: string, job: J.JobRow, nearby: seq<Near>, rules: Rules) returns (n: Near)
    requires CountsAreNatural(nearby) && RoundAsks(to, job, nearby, rules)
    ensures n in nearby && n.partner.id == to && Free(n.partner, rules.maxConcurrent)
    ensures forall m :: m in nearby && Free(m.partner, rules.maxConcurrent) && m.partner.id != job.passedBy ==>
              var mine, theirs := A.Score(CandidateOf(n, rules), rules.partnerRadius), A.Score(CandidateOf(m, rules), rules.partnerRadius);
              mine < theirs || (mine == theirs && !TextLess(m.partner.id, to))
    ensures rules.partnerRadius > 0.0 && n.distance >= rules.partnerRadius ==>
              forall m :: m in nearby && Free(m.partner, rules.maxConcurrent) && m.partner.id != job.passedBy ==> m.distance > 0.0
  {
    hide A.Score, A.AtMost, TextLess, Free;
    var others := exists c :: Eligible(c, nearby, rules, Some(job.passedBy));
    var skip := if others then Some(job.passedBy) else None;
    var best: A.Candidate :| best.partnerId == to && Eligible(best, nearby, rules, skip) &&
      forall c :: Eligible(c, nearby, rules, skip) ==>
        A.AtMost(A.Scored(best, A.Score(best, rules.partnerRadius)), A.Scored(c, A.Score(c, rules.partnerRadius)));
    n :| n in nearby && Free(n.partner, rules.maxConcurrent) && best == CandidateOf(n, rules);
    forall m | m in nearby && Free(m.partner, rules.maxConcurrent) && m.partner.id != job.passedBy
      ensures var mine, theirs := A.Score(best, rules.partnerRadius), A.Score(CandidateOf(m, rules), rules.partnerRadius);
              mine < theirs || (mine == theirs && !TextLess(m.partner.id, to))
      ensures rules.partnerRadius > 0.0 && n.distance >= rules.partnerRadius ==> m.distance > 0.0
    {
      var c := CandidateOf(m, rules);
      assert Eligible(c, nearby, rules, Some(job.passedBy));
      A.AtMostMeaning(A.Scored(best, A.Score(best, rules.partnerRadius)), A.Scored(c, A.Score(c, rules.partnerRadius)));
      A.ScorePrefers(c, best, rules.partnerRadius);
    }
  }

  lemma EligibleExtends(nearby: seq<Near>, n: Near, rules: Rules)
    requires CountsAreNatural(nearby + [n])
    ensures CountsAreNatural(nearby) && n.partner.accepted >= 0
    ensures forall c, skip :: Eligible(c, nearby + [n], rules, skip) <==>
              || Eligible(c, nearby, rules, skip)
              || (Free(n.partner, rules.maxConcurrent) && c == CandidateOf(n, rules) && skip != Some(c.partnerId))
  {
    assert n in nearby + [n];
    assert forall x :: x in nearby ==> x in nearby + [n];
  }

  ghost predicate IsBest(best: A.Candidate, pool: seq<A.Candidate>, radius: real)
  {
    && best in pool
    && forall c :: c in pool ==> A.AtMost(A.Scored(best, A.Score(best, radius)), A.Scored(c, A.Score(c, radius)))
  }

  lemma ThatIsTheAsk(best: A.Candidate, pool: seq<A.Candidate>, job: J.JobRow, nearby: seq<Near>, rules: Rules)
    requires CountsAreNatural(nearby) && IsBest(best, pool, rules.partnerRadius)
    requires var others := exists c :: Eligible(c, nearby, rules, Some(job.passedBy));
             forall c :: c in pool <==> Eligible(c, nearby, rules, if others then Some(job.passedBy) else None)
    ensures RoundAsks(best.partnerId, job, nearby, rules)
  {
  }

  lemma PoolIsScored(pool: seq<A.Candidate>, radius: real)
    ensures forall c :: c in pool ==> A.Scored(c, A.Score(c, radius)) in A.AllScored(pool, radius)
    ensures forall s :: s in A.AllScored(pool, radius) ==> s.candidate in pool
  {
    var all := A.AllScored(pool, radius);
    forall c | c in pool
      ensures A.Scored(c, A.Score(c, radius)) in all
    {
      var i :| 0 <= i < |pool| && pool[i] == c;
      assert all[i] == A.Scored(c, A.Score(c, radius));
    }
  }

  class DispatchDesk {
    var jobs: map<string, J.JobRow>      // one job an order
    var partners: map<string, Partner>

    ghost function State(): Desk
      reads this
    {
      Desk(jobs, partners)
    }

    constructor ()
      ensures jobs == map[] && partners == map[]
    {
      jobs, partners := map[], map[];
    }

    /** The compare-and-set every job write goes through. */
    method SaveJob(order: string, row: J.JobRow, expected: J.JobStatus) returns (r: Outcome<DeskError>)
      modifies this`jobs
      ensures if order in old(jobs) && old(jobs)[order].status == expected
              then r == Pass && jobs == old(jobs)[order := row]
              else r == Fail(JobMoved) && jobs == old(jobs)
    {
      if order !in jobs || jobs[order].status != expected {
        return Fail(JobMoved);
      }
      jobs := jobs[order := row];
      r := Pass;
    }

    /** act and settle: load, move, save, then the partner's load and the calls the order module gets. */
    method Act(order: string, m: J.Move, now: int) returns (r: Result<J.JobRow, DeskError>, calls: set<Protocol.Task>)
      requires PartnerMove(m)
      modifies this
      ensures State() == Acted(old(State()), order, m, now)
      ensures r.Success? <==> m.who in old(partners) && order in old(jobs) && J.After(old(jobs)[order], m, now).Success?
      ensures r.Success? ==> r.value == jobs[order] && calls == Protocol.Aftermath(order, jobs[order], m)
      ensures r.Failure? ==> calls == {}
    {
      calls := {};
      if m.who !in partners {
        return Failure(NoSuchPartner), {};
      }
      var partner := partners[m.who];
      if order !in jobs {
        return Failure(NoSuchJob), {};
      }
      var expected := jobs[order].status;
      var job := new J.Job(jobs[order]);
      var moved;
      match m {
        case Accept(who) => moved := job.Accept(who, now);
        case Decline(who) => moved := job.Decline(who, now);
        case Collect(who) => moved := job.Collect(who, now);
        case Deliver(who) => moved := job.Deliver(who, now);
        case Fail(who, why) => moved := job.Fail(who, why, now);
      }
      if moved.Fail? {
        return Failure(Refused(moved.error)), {};
      }
      var saved := SaveJob(order, job.Row(), expected);
      calls := Settle(order, job.Row(), partner, m);
      r := Success(job.Row());
    }

    method Settle(order: string, row: J.JobRow, partner: Partner, m: J.Move) returns (calls: set<Protocol.Task>)
      requires PartnerMove(m)
      modifies this`partners
      ensures partners == old(partners)[m.who := Settled(partner, m)]
      ensures forall p :: p in old(partners) && p != m.who ==> p in partners && partners[p] == old(partners)[p]
      ensures m.who in partners &&
              var p := partners[m.who];
              && p.carrying == (if m.Accept? then partner.carrying + 1
                                else if (m.Deliver? || m.Fail?) && partner.carrying > 0 then partner.carrying - 1
                                else partner.carrying)
              && p.availability == (if partner.availability == Offline then Offline else Available)
              && p.id == partner.id && p.offered == partner.offered && p.accepted == partner.accepted
      ensures m.Collect? ==> calls == {Protocol.CallAdvance(order, O.PickedUp, m.who, "")}
      ensures m.Deliver? ==> calls == {Protocol.CallAdvance(order, O.Delivered, m.who, "")}
      ensures m.Fail? ==> calls == if row.status == J.Failed then {Protocol.CallAdvance(order, O.Failed, m.who, row.reason)} else {}
      ensures m.Accept? || m.Decline? ==> calls == {}
      ensures calls == Protocol.Aftermath(order, row, m)
    {
      var p := partner;
      match m {
        case Accept(_) => p := p.(carrying := p.carrying + 1);
        case Deliver(_) => if p.carrying > 0 { p := p.(carrying := p.carrying - 1); }
        case Fail(_, _) => if p.carrying > 0 { p := p.(carrying := p.carrying - 1); }
        case _ =>
      }
      if p.availability != Offline {
        p := p.(availability := Available);
      }
      partners := partners[m.who := p];
      match m {
        case Collect(who) => calls := {Protocol.CallAdvance(order, O.PickedUp, who, "")};
        case Deliver(who) => calls := {Protocol.CallAdvance(order, O.Delivered, who, "")};
        case Fail(who, _) =>
          calls := if row.status == J.Failed then {Protocol.CallAdvance(order, O.Failed, who, row.reason)} else {};
        case _ => calls := {};
      }
    }

    /** Takes a job off the board because the order behind it went away; a missing or finished job is not an error. */
    method Withdraw(order: string, reason: string, now: int) returns (r: Outcome<DeskError>)
      modifies this
      ensures State() == Withdrawn(old(State()), order, reason, now)
      ensures r == Pass
      ensures order in old(jobs) && old(jobs)[order].status !in {J.Delivered, J.Failed, J.Cancelled} ==>
                && jobs == old(jobs)[order := old(jobs)[order].(status := J.Cancelled, reason := reason, updatedAt := now)]
                && var held := old(jobs)[order].partnerId;
                   && (held != "" && held in old(partners) && old(partners)[held].carrying > 0 ==>
                        held in partners && partners[held].carrying == old(partners)[held].carrying - 1)
                   && forall p :: p in old(partners) && p != held ==> p in partners && partners[p] == old(partners)[p]
      ensures order !in old(jobs) || old(jobs)[order].status in {J.Delivered, J.Failed, J.Cancelled} ==>
                jobs == old(jobs) && partners == old(partners)
    {
      if order !in jobs || J.IsTerminal(jobs[order].status) {
        return Pass;
      }
      var job := new J.Job(jobs[order]);
      var expected, held := job.status, job.partnerId;
      var cancelled := job.Cancel(reason, now);
      r := SaveJob(order, job.Row(), expected);
      if held != "" {
        Release(held);
      }
    }

    method Release(partnerId: string)
      modifies this`partners
      ensures partners == if partnerId in old(partners)
                          then old(partners)[partnerId := Relieved(old(partners)[partnerId])] else old(partners)
      ensures partnerId in old(partners) ==>
                var was, p := old(partners)[partnerId], partners[partnerId];
                && p.carrying == (if was.carrying > 0 then was.carrying - 1 else 0)
                && p.availability == (if was.availability == Busy then Available else was.availability)
                && p.id == was.id && p.offered == was.offered && p.accepted == was.accepted
    {
      if partnerId !in partners {
        return;
      }
      var p := partners[partnerId];
      if p.carrying > 0 {
        p := p.(carrying := p.carrying - 1);
      }
      if p.availability == Busy {
        p := p.(availability := Available);
      }
      partners := partners[partnerId := p];
    }

    /** The first candidate the assigner hands out of a pool. */
    static method BestOf(pool: seq<A.Candidate>, radius: real) returns (best: A.Candidate)
      requires pool != []
      ensures IsBest(best, pool, radius)
    {
      var assigner := new A.Assigner(pool, radius);
      PoolIsScored(pool, radius);
      assert pool[0] in pool;
      assert forall s :: s in assigner.heap <==> s in multiset(A.AllScored(pool, radius));
      var next := assigner.Next();
      best := next.value;
    }

    /** Those who can take a job: without the partner who just passed, and everybody. */
    static method Pools(passedBy: string, nearby: seq<Near>, rules: Rules)
      returns (pool: seq<A.Candidate>, everybody: seq<A.Candidate>)
      requires CountsAreNatural(nearby)
      ensures forall c :: c in everybody <==> Eligible(c, nearby, rules, None)
      ensures forall c :: c in pool <==> Eligible(c, nearby, rules, Some(passedBy))
    {
      pool, everybody := [], [];
      for i := 0 to |nearby|
        invariant forall c :: c in everybody <==> Eligible(c, nearby[..i], rules, None)
        invariant forall c :: c in pool <==> Eligible(c, nearby[..i], rules, Some(passedBy))
      {
        var n := nearby[i];
        assert nearby[..i + 1] == nearby[..i] + [n];
        EligibleExtends(nearby[..i], n, rules);
        CanTakeMeaning(n.partner, rules.maxConcurrent);
        if CanTake(n.partner, rules.maxConcurrent).Pass? {
          var c := CandidateOf(n, rules);
          everybody := everybody + [c];
          if n.partner.id != passedBy {
            pool := pool + [c];
          }
        }
      }
      assert nearby[..|nearby|] == nearby;
    }

    /** Offers a job to the best partner available; with nobody to ask the job is left as it is. */
    method Round(order: string, nearby: seq<Near>, rules: Rules, now: int) returns (offered: bool)
      requires order in jobs && CountsAreNatural(nearby)
      modifies this`jobs
      ensures NobodyCan(nearby, rules) ==> !offered
      ensures !offered ==> jobs == old(jobs)
      ensures !offered ==> NobodyCan(nearby, rules) || J.After(old(jobs)[order], J.Offer("", 0), now).Failure?
      ensures order in jobs
      ensures offered ==> AsksSomebodyFree(jobs[order].partnerId, nearby, rules)
      ensures offered && jobs[order].partnerId == old(jobs)[order].passedBy ==> NobodyFreeBut(old(jobs)[order].passedBy, nearby, rules)
      ensures (forall n :: n in nearby ==>
                n.partner.availability != Available || (rules.maxConcurrent > 0 && n.partner.carrying >= rules.maxConcurrent)) ==>
                !offered
      ensures offered ==> exists to ::
                && RoundAsks(to, old(jobs)[order], nearby, rules)
                && J.After(old(jobs)[order], J.Offer(to, rules.offerTimeout), now).Success?
                && jobs == old(jobs)[order := J.After(old(jobs)[order], J.Offer(to, rules.offerTimeout), now).value]
    {
      var job := new J.Job(jobs[order]);
      var pool, everybody := Pools(job.passedBy, nearby, rules);
      if pool == [] {
        pool := everybody;
      }
      if pool == [] {
        forall n | n in nearby
          ensures !Free(n.partner, rules.maxConcurrent)
        {
          assert Free(n.partner, rules.maxConcurrent) ==> CandidateOf(n, rules) in everybody;
        }
        return false;
      }
      var best := BestOf(pool, rules.partnerRadius);
      ThatIsTheAsk(best, pool, jobs[order], nearby, rules);
      AskedIsFree(best.partnerId, jobs[order], nearby, rules);
      var expected := job.status;
      var put := job.Offer(best.partnerId, now, rules.offerTimeout);
      if put.Fail? {
        return false;
      }
      var saved := SaveJob(order, job.Row(), expected);
      offered := true;
    }

    /** Puts an order on the board once and tries to offer it straight away; an order that has a job keeps it. */
    method OfferOrder(order: string, distance: real, nearby: seq<Near>, rules: Rules, now: int)
      requires CountsAreNatural(nearby)
      modifies this`jobs
      ensures order in old(jobs) || J.NewJob(order, distance, now).Failure? ==> jobs == old(jobs)
      ensures order !in old(jobs) && J.NewJob(order, distance, now).Success? ==>
                && order in jobs && jobs[order].status in {J.Waiting, J.Offered}
                && jobs - {order} == old(jobs)
                && (jobs[order].status == J.Waiting <==> NobodyCan(nearby, rules))
                && (jobs[order].status == J.Offered ==>
                     RoundAsks(jobs[order].partnerId, J.NewJob(order, distance, now).value, nearby, rules) &&
                     AsksSomebodyFree(jobs[order].partnerId, nearby, rules))
      ensures (forall n :: n in nearby ==>
                n.partner.availability != Available || (rules.maxConcurrent > 0 && n.partner.carrying >= rules.maxConcurrent)) ==>
                order in old(jobs) || order !in jobs || jobs[order].status == J.Waiting
    {
      if order in jobs {
        return;
      }
      var job := J.NewJob(order, distance, now);
      if job.Failure? {
        return;
      }
      jobs := jobs[order := job.value];
      var offered := Round(order, nearby, rules, now);
      assert jobs - {order} == old(jobs);
    }

    /** Some of the orders whose job passes a test, each once. */
    method Pick(test: J.JobRow -> bool, limit: nat) returns (orders: seq<string>)
      ensures |orders| <= limit
      ensures forall o :: o in orders ==> o in jobs && test(jobs[o])
      ensures forall i, j :: 0 <= i < j < |orders| ==> orders[i] != orders[j]
      ensures |orders| < limit ==> forall o :: o in jobs && test(jobs[o]) ==> o in orders
    {
      orders := [];
      var left := jobs.Keys;
      while left != {} && |orders| < limit
        invariant |orders| <= limit && left <= jobs.Keys
        invariant forall o :: o in orders ==> o in jobs && o !in left && test(jobs[o])
        invariant forall i, j :: 0 <= i < j < |orders| ==> orders[i] != orders[j]
        invariant forall o :: o in jobs && test(jobs[o]) && o !in left ==> o in orders
        decreases left
      {
        var o :| o in left;
        left := left - {o};
        if test(jobs[o]) {
          orders := orders + [o];
        }
      }
    }

    /** The heartbeat: expire the offers nobody answered, then put the waiting jobs to somebody. */
    method Sweep(limit: nat, nearby: map<string, seq<Near>>, rules: Rules, now: int) returns (expired: nat, offered: nat)
      requires ListsAreNatural(nearby)
      modifies this`jobs
      ensures exists between ::
                && OffersExpired(old(jobs), between, limit, now, expired)
                && WaitingOffered(between, jobs, limit, nearby, rules, now, offered)
      ensures forall o :: o in jobs ==> o in old(jobs) && SweptFrom(old(jobs)[o], jobs[o], now)
    {
      expired := ExpireOffers(limit, now);
      ghost var between := jobs;
      offered := OfferWaiting(limit, nearby, rules, now);
      SweepTouchesLittle(old(jobs), between, jobs, limit, nearby, rules, now, expired, offered);
    }

    /** The first half of the sweep: offers that ran out go back on the board. */
    method ExpireOffers(limit: nat, now: int) returns (expired: nat)
      modifies this`jobs
      ensures OffersExpired(old(jobs), jobs, limit, now, expired)
    {
      expired := 0;
      var lapsed := Pick((j: J.JobRow) => J.OfferLapsed(j, now), limit);
      ghost var was := jobs;
      for i := 0 to |lapsed|
        invariant ExpiredSoFar(was, jobs, lapsed, i, now)
        invariant expired == i
      {
        var job := new J.Job(jobs[lapsed[i]]);
        var expected := job.status;
        var r := job.Lapse(now);
        var saved := SaveJob(lapsed[i], job.Row(), expected);
        expired := expired + 1;
      }
      AllExpired(was, jobs, lapsed, limit, now);
    }

    /** The second half: each waiting job gets an assignment round. */
    method OfferWaiting(limit: nat, nearby: map<string, seq<Near>>, rules: Rules, now: int) returns (offered: nat)
      requires ListsAreNatural(nearby)
      modifies this`jobs
      ensures WaitingOffered(old(jobs), jobs, limit, nearby, rules, now, offered)
      ensures forall o :: o in jobs && jobs[o] != old(jobs)[o] ==>
                o in nearby && AsksSomebodyFree(jobs[o].partnerId, nearby[o], rules)
    {
      offered := 0;
      var waiting := Pick((j: J.JobRow) => j.status == J.Waiting, limit);
      assert Changed(jobs, jobs) == {};
      ghost var was := jobs;
      hide RoundAsks, NobodyCan, CountsAreNatural, Changed, FreshlyOffered, OfferedSoFar;
      NoneOfferedYet(was, waiting, nearby, rules, now);
      for i := 0 to |waiting|
        invariant OfferedSoFar(was, jobs, waiting, i, nearby, rules, now, offered)
      {
        ghost var before := jobs;
        var put := false;
        WaitsForItsRound(was, before, waiting, i, nearby, rules, now, offered);
        if waiting[i] in nearby {
          put := Round(waiting[i], nearby[waiting[i]], rules, now);
          RoundLeaves(before, jobs, waiting[i], nearby, rules, now, put);
        }
        NextRound(was, before, jobs, waiting, i, nearby, rules, now, offered, put);
        if put {
          offered := offered + 1;
        }
      }
      AllOffered(was, jobs, waiting, limit, nearby, rules, now, offered);
      OfferedToTheFree(was, jobs, limit, nearby, rules, now, offered);
    }
  }

  ghost function Changed(was: map<string, J.JobRow>, jobs: map<string, J.JobRow>): set<string>
  {
    set o | o in jobs && !(o in was && was[o] == jobs[o])
  }

  ghost function Waiting(jobs: map<string, J.JobRow>): set<string> { set o | o in jobs && jobs[o].status == J.Waiting }

  lemma {:induction false} DistinctCount(orders: seq<string>)
    requires forall i, j :: 0 <= i < j < |orders| ==> orders[i] != orders[j]
    ensures |set o | o in orders| == |orders|
  {
    if orders != [] {
      var init, last := orders[..|orders| - 1], orders[|orders| - 1];
      DistinctCount(init);
      assert (set o | o in orders) == (set o | o in init) + {last};
    }
  }

  predicate ListsAreNatural(nearby: map<string, seq<Near>>) { forall o :: o in nearby ==> CountsAreNatural(nearby[o]) }

  /** Offers that ran out are back on the board, as many as counted and no more than the limit; below it, all of them. */
  ghost predicate OffersExpired(was: map<string, J.JobRow>, jobs: map<string, J.JobRow>, limit: nat, at: int, expired: nat)
  {
    && jobs.Keys == was.Keys
    && (forall o :: o in Changed(was, jobs) ==> J.OfferLapsed(was[o], at) && jobs[o] == J.Released(was[o], at))
    && expired == |Changed(was, jobs)| <= limit
    && (expired < limit ==> forall o :: o in jobs ==> !J.OfferLapsed(jobs[o], at))
  }

  /** The first n picked offers are back on the board, every other row is as it was. */
  ghost predicate ExpiredSoFar(was: map<string, J.JobRow>, jobs: map<string, J.JobRow>, lapsed: seq<string>, n: nat, at: int)
  {
    && n <= |lapsed| && jobs.Keys == was.Keys
    && (forall k :: 0 <= k < |lapsed| ==> lapsed[k] in was && J.OfferLapsed(was[lapsed[k]], at))
    && (forall i, j :: 0 <= i < j < |lapsed| ==> lapsed[i] != lapsed[j])
    && (forall k :: n <= k < |lapsed| ==> jobs[lapsed[k]] == was[lapsed[k]])
    && (forall k :: 0 <= k < n ==> jobs[lapsed[k]] == J.Released(was[lapsed[k]], at))
    && (forall o :: o in jobs && o !in lapsed ==> jobs[o] == was[o])
  }

  lemma AllExpired(was: map<string, J.JobRow>, jobs: map<string, J.JobRow>, lapsed: seq<string>, limit: nat, at: int)
    requires ExpiredSoFar(was, jobs, lapsed, |lapsed|, at) && |lapsed| <= limit
    requires |lapsed| < limit ==> forall o :: o in was && J.OfferLapsed(was[o], at) ==> o in lapsed
    ensures OffersExpired(was, jobs, limit, at, |lapsed|)
  {
    DistinctCount(lapsed);
    assert Changed(was, jobs) == set o | o in lapsed;
  }

  /** What a round leaves a job at: offered to whom the round asks, or as it was when nobody can take it. */
  ghost predicate RoundLeft(was: J.JobRow, job: J.JobRow, nearby: map<string, seq<Near>>, order: string, rules: Rules, at: int)
    requires ListsAreNatural(nearby)
  {
    if job == was then order !in nearby || NobodyCan(nearby[order], rules)
    else order in nearby && FreshlyOffered(was, job, at) && RoundAsks(job.partnerId, was, nearby[order], rules)
  }

  /** The rounds held so far: the jobs they were held for are as a round leaves them, every other as it was. */
  ghost predicate OfferedSoFar(was: map<string, J.JobRow>, jobs: map<string, J.JobRow>, waiting: seq<string>, n: nat,
                               nearby: map<string, seq<Near>>, rules: Rules, at: int, offered: nat)
    requires ListsAreNatural(nearby)
  {
    && n <= |waiting| && jobs.Keys == was.Keys
    && (forall k :: 0 <= k < |waiting| ==> waiting[k] in was && was[waiting[k]].status == J.Waiting)
    && (forall i, j :: 0 <= i < j < |waiting| ==> waiting[i] != waiting[j])
    && (forall k :: n <= k < |waiting| ==> jobs[waiting[k]] == was[waiting[k]])
    && (forall o :: o in was && o !in waiting ==> jobs[o] == was[o])
    && (forall k :: 0 <= k < n ==> RoundLeft(was[waiting[k]], jobs[waiting[k]], nearby, waiting[k], rules, at))
    && offered == |Changed(was, jobs)| <= n
  }

  /** What one more write does to the number of rows that differ. */
  lemma OneChange(was: map<string, J.JobRow>, before: map<string, J.JobRow>, jobs: map<string, J.JobRow>, order: string)
    requires order in before && order in was && order in jobs && was.Keys == before.Keys && before[order] == was[order]
    requires jobs == before[order := jobs[order]]
    ensures |Changed(was, jobs)| == |Changed(was, before)| + (if jobs[order] == was[order] then 0 else 1)
  {
    if jobs[order] == was[order] {
      assert Changed(was, jobs) == Changed(was, before);
    } else {
      assert Changed(was, jobs) == Changed(was, before) + {order};
    }
  }

  lemma NoneOfferedYet(was: map<string, J.JobRow>, waiting: seq<string>, nearby: map<string, seq<Near>>, rules: Rules, at: int)
    requires ListsAreNatural(nearby)
    requires forall o :: o in waiting ==> o in was && was[o].status == J.Waiting
    requires forall i, j :: 0 <= i < j < |waiting| ==> waiting[i] != waiting[j]
    ensures OfferedSoFar(was, was, waiting, 0, nearby, rules, at, 0)
  {
    assert Changed(was, was) == {};
  }

  lemma WaitsForItsRound(was: map<string, J.JobRow>, jobs: map<string, J.JobRow>, waiting: seq<string>, n: nat,
                         nearby: map<string, seq<Near>>, rules: Rules, at: int, offered: nat)
    requires ListsAreNatural(nearby) && OfferedSoFar(was, jobs, waiting, n, nearby, rules, at, offered) && n < |waiting|
    ensures waiting[n] in jobs && jobs[waiting[n]].status == J.Waiting
  {
  }

  lemma NextRound(was: map<string, J.JobRow>, before: map<string, J.JobRow>, jobs: map<string, J.JobRow>, waiting: seq<string>,
                  n: nat, nearby: map<string, seq<Near>>, rules: Rules, at: int, offered: nat, put: bool)
    requires ListsAreNatural(nearby) && OfferedSoFar(was, before, waiting, n, nearby, rules, at, offered) && n < |waiting|
    requires waiting[n] in before && waiting[n] in jobs && jobs == before[waiting[n] := jobs[waiting[n]]]
    requires put <==> jobs[waiting[n]] != before[waiting[n]]
    requires RoundLeft(before[waiting[n]], jobs[waiting[n]], nearby, waiting[n], rules, at)
    ensures OfferedSoFar(was, jobs, waiting, n + 1, nearby, rules, at, offered + if put then 1 else 0)
  {
    hide RoundLeft, CountsAreNatural, Changed;
    OneChange(was, before, jobs, waiting[n]);
  }

  lemma RoundLeaves(before: map<string, J.JobRow>, jobs: map<string, J.JobRow>, order: string,
                    nearby: map<string, seq<Near>>, rules: Rules, at: int, put: bool)
    requires ListsAreNatural(nearby) && order in nearby && order in before && before[order].status == J.Waiting
    requires !put ==> jobs == before && NobodyCan(nearby[order], rules)
    requires put ==> exists to :: RoundAsks(to, before[order], nearby[order], rules) &&
                       jobs == before[order := J.After(before[order], J.Offer(to, rules.offerTimeout), at).value]
    ensures jobs == before[order := jobs[order]] && (put <==> jobs[order] != before[order])
    ensures RoundLeft(before[order], jobs[order], nearby, order, rules, at)
  {
    hide RoundAsks, NobodyCan, CountsAreNatural;
    assert before == before[order := before[order]];
  }

  lemma AllOffered(was: map<string, J.JobRow>, jobs: map<string, J.JobRow>, waiting: seq<string>, limit: nat,
                   nearby: map<string, seq<Near>>, rules: Rules, at: int, offered: nat)
    requires ListsAreNatural(nearby) && OfferedSoFar(was, jobs, waiting, |waiting|, nearby, rules, at, offered)
    requires |waiting| <= limit && forall i, j :: 0 <= i < j < |waiting| ==> waiting[i] != waiting[j]
    requires |waiting| < limit ==> forall o :: o in was && was[o].status == J.Waiting ==> o in waiting
    ensures WaitingOffered(was, jobs, limit, nearby, rules, at, offered)
  {
    hide RoundLeft, CountsAreNatural;
    DistinctCount(waiting);
    assert (set o | o in waiting) <= Waiting(was);
    Subset((set o | o in waiting), Waiting(was));
  }

  lemma Subset(a: set<string>, b: set<string>)
    requires a <= b
    ensures |a| <= |b|
  {
    assert b == a + (b - a);
  }

  /** Waiting jobs are offered to whom their round asks, as many as counted; below the limit, every one that anybody can take. */
  ghost predicate WaitingOffered(was: map<string, J.JobRow>, jobs: map<string, J.JobRow>, limit: nat,
                                 nearby: map<string, seq<Near>>, rules: Rules, at: int, offered: nat)
    requires ListsAreNatural(nearby)
  {
    && jobs.Keys == was.Keys
    && (forall o :: o in Changed(was, jobs) ==>
         was[o].status == J.Waiting && RoundLeft(was[o], jobs[o], nearby, o, rules, at))
    && offered == |Changed(was, jobs)| <= limit
    && (|Waiting(was)| < limit ==> forall o :: o in Waiting(was) ==> RoundLeft(was[o], jobs[o], nearby, o, rules, at))
  }

  lemma OfferedToTheFree(was: map<string, J.JobRow>, jobs: map<string, J.JobRow>, limit: nat,
                         nearby: map<string, seq<Near>>, rules: Rules, at: int, offered: nat)
    requires ListsAreNatural(nearby) && WaitingOffered(was, jobs, limit, nearby, rules, at, offered)
    ensures forall o :: o in jobs && jobs[o] != was[o] ==> o in nearby && AsksSomebodyFree(jobs[o].partnerId, nearby[o], rules)
  {
    forall o | o in jobs && jobs[o] != was[o]
      ensures o in nearby && AsksSomebodyFree(jobs[o].partnerId, nearby[o], rules)
    {
      assert o in Changed(was, jobs);
      assert RoundLeft(was[o], jobs[o], nearby, o, rules, at);
      AskedIsFree(jobs[o].partnerId, was[o], nearby[o], rules);
    }
  }

  lemma SweepTouchesLittle(was: map<string, J.JobRow>, between: map<string, J.JobRow>, jobs: map<string, J.JobRow>, limit: nat,
                           nearby: map<string, seq<Near>>, rules: Rules, at: int, expired: nat, offered: nat)
    requires ListsAreNatural(nearby)
    requires OffersExpired(was, between, limit, at, expired) && WaitingOffered(between, jobs, limit, nearby, rules, at, offered)
    ensures forall o :: o in jobs ==> o in was && SweptFrom(was[o], jobs[o], at)
  {
    hide RoundAsks, NobodyCan, CountsAreNatural;
    forall o | o in jobs
      ensures o in was && SweptFrom(was[o], jobs[o], at)
    {
      assert o in Changed(was, between) || was[o] == between[o];
      assert o in Changed(between, jobs) || between[o] == jobs[o];
    }
  }

  /** A sweep touches only waiting jobs and offers that have run out: it takes nothing from anybody who may still accept. */
  predicate SweptFrom(was: J.JobRow, now: J.JobRow, at: int)
  {
    || now == was
    || (J.OfferLapsed(was, at) && now == J.Released(was, at))
    || ((was.status == J.Waiting || J.OfferLapsed(was, at)) && FreshlyOffered(was, now, at))
  }

  predicate FreshlyOffered(was: J.JobRow, now: J.JobRow, at: int)
  {
    now.status == J.Offered && now.offeredAt == at && now.attempts == was.attempts + 1
  }

  // ---------------------------------------------------------------- what a partner is carrying

  /** The jobs a partner has accepted and not finished. */
  ghost function Holding(jobs: map<string, J.JobRow>, p: string): set<string>
  {
    set o | o in jobs && jobs[o].partnerId == p && jobs[o].status in {J.Assigned, J.Collected}
  }

  datatype Action =
    | Join(partner: Partner)
    | Open(order: string, distance: real, now: int)
    | Ask(order: string, to: string, timeout: int, now: int)
    | Expire(order: string, now: int)
    | Act(order: string, move: J.Move, now: int)
    | Withdraw(order: string, reason: string, now: int)
    | Shift(who: string, availability: Availability)

  /** One thing that happens at the desk, taken as a single step. */
  function Next(d: Desk, a: Action): Desk
  {
    match a
    case Join(p) => if p.id in d.partners then d else d.(partners := d.partners[p.id := p.(carrying := 0)])
    case Open(order, distance, now) =>
      if order in d.jobs || J.NewJob(order, distance, now).Failure? then d
      else d.(jobs := d.jobs[order := J.NewJob(order, distance, now).value])
    case Ask(order, to, timeout, now) => Put(d, order, J.Offer(to, timeout), now)
    case Expire(order, now) => Put(d, order, J.Lapse, now)
    case Act(order, m, now) => if PartnerMove(m) then Acted(d, order, m, now) else d
    case Withdraw(order, reason, now) => Withdrawn(d, order, reason, now)
    case Shift(p, to) =>
      if p in d.partners && WithAvailability(d.partners[p], to).Some?
      then d.(partners := d.partners[p := WithAvailability(d.partners[p], to).value]) else d
  }

  function Put(d: Desk, order: string, m: J.Move, now: int): Desk
  {
    if order !in d.jobs || J.After(d.jobs[order], m, now).Failure? then d
    else d.(jobs := d.jobs[order := J.After(d.jobs[order], m, now).value])
  }

  function Run(d: Desk, acts: seq<Action>): Desk
    decreases |acts|
  {
    if acts == [] then d else Run(Next(d, acts[0]), acts[1..])
  }

  const EMPTY: Desk := Desk(map[], map[])

  /** A withdrawal that finds the job merely offered, to a partner who is carrying something else. */
  predicate Undercounts(d: Desk, a: Action)
  {
    && a.Withdraw? && a.order in d.jobs && d.jobs[a.order].status == J.Offered
    && d.jobs[a.order].partnerId != "" && d.jobs[a.order].partnerId in d.partners
    && d.partners[d.jobs[a.order].partnerId].carrying > 0
  }

  predicate NeverUndercounts(d: Desk, acts: seq<Action>)
    decreases |acts|
  {
    acts == [] || (!Undercounts(d, acts[0]) && NeverUndercounts(Next(d, acts[0]), acts[1..]))
  }

  ghost predicate DeskOk(d: Desk)
  {
    && (forall p :: p in d.partners ==> d.partners[p].carrying <= |Holding(d.jobs, p)|)
    && (forall o :: o in d.jobs && d.jobs[o].status in {J.Assigned, J.Collected} ==>
         d.jobs[o].partnerId in d.partners && d.jobs[o].partnerId != "")
    && (forall o :: o in d.jobs && d.jobs[o].status == J.Waiting ==> d.jobs[o].partnerId == "")
  }

  ghost predicate LoadsExact(d: Desk)
  {
    forall p :: p in d.partners ==> d.partners[p].carrying == |Holding(d.jobs, p)|
  }

  /** How writing one row changes what a partner holds. */
  lemma HoldingAfter(jobs: map<string, J.JobRow>, order: string, row: J.JobRow, p: string)
    ensures var holds := row.partnerId == p && row.status in {J.Assigned, J.Collected};
            Holding(jobs[order := row], p) ==
            if holds then Holding(jobs, p) + {order} else Holding(jobs, p) - {order}
  {
  }

  predicate Holds(jobs: map<string, J.JobRow>, order: string, p: string)
  {
    order in jobs && jobs[order].partnerId == p && jobs[order].status in {J.Assigned, J.Collected}
  }

  lemma HeldCounts(jobs: map<string, J.JobRow>, order: string, row: J.JobRow, p: string)
    ensures var u := jobs[order := row];
            |Holding(u, p)| == |Holding(jobs, p)| +
              (if Holds(u, order, p) then 1 else 0) - (if Holds(jobs, order, p) then 1 else 0)
  {
    HoldingAfter(jobs, order, row, p);
  }

  lemma RowKeepsLoads(d: Desk, order: string, row: J.JobRow)
    requires DeskOk(d) && forall p :: p in d.partners ==> Holds(d.jobs, order, p) == Holds(d.jobs[order := row], order, p)
    requires row.status in {J.Assigned, J.Collected} ==> row.partnerId in d.partners && row.partnerId != ""
    requires row.status == J.Waiting ==> row.partnerId == ""
    ensures DeskOk(d.(jobs := d.jobs[order := row]))
    ensures LoadsExact(d) ==> LoadsExact(d.(jobs := d.jobs[order := row]))
  {
    forall p | p in d.partners
      ensures |Holding(d.jobs[order := row], p)| == |Holding(d.jobs, p)|
    {
      HeldCounts(d.jobs, order, row, p);
    }
  }

  /** A partner's move changes only what that partner holds, by exactly what settle counts. */
  lemma MoveChangesHolding(j: J.JobRow, m: J.Move, now: int)
    requires PartnerMove(m) && J.After(j, m, now).Success?
    ensures var next := J.After(j, m, now).value;
            && j.partnerId == m.who != ""
            && (next.status != J.Waiting ==> next.partnerId == m.who)
            && (next.status == J.Waiting ==> next.partnerId == "")
            && (m.Accept? ==> j.status == J.Offered && next.status == J.Assigned)
            && (m.Decline? ==> j.status == J.Offered && next.status == J.Waiting)
            && (m.Collect? ==> j.status == J.Assigned && next.status == J.Collected)
            && (m.Deliver? || m.Fail? ==> j.status in {J.Assigned, J.Collected})
            && (m.Deliver? || m.Fail? ==> next.status !in {J.Assigned, J.Collected})
  {
  }

  lemma ActKeepsLoads(d: Desk, order: string, m: J.Move, now: int)
    requires DeskOk(d) && PartnerMove(m)
    ensures DeskOk(Acted(d, order, m, now))
    ensures LoadsExact(d) ==> LoadsExact(Acted(d, order, m, now))
  {
    hide J.After, Holding, Settled;
    var u := Acted(d, order, m, now);
    if u != d {
      MoveChangesHolding(d.jobs[order], m, now);
      forall p | p in d.partners
        ensures |Holding(u.jobs, p)| >= u.partners[p].carrying
        ensures |Holding(d.jobs, p)| == d.partners[p].carrying ==> |Holding(u.jobs, p)| == u.partners[p].carrying
      {
        ActKeepsLoad(d, order, m, now, p);
      }
    }
  }

  lemma ActKeepsLoad(d: Desk, order: string, m: J.Move, now: int, p: string)
    requires PartnerMove(m) && Acted(d, order, m, now) != d && p in d.partners
    requires d.partners[p].carrying <= |Holding(d.jobs, p)|
    ensures var u := Acted(d, order, m, now);
            && p in u.partners && u.partners[p].carrying <= |Holding(u.jobs, p)|
            && (|Holding(d.jobs, p)| == d.partners[p].carrying ==> |Holding(u.jobs, p)| == u.partners[p].carrying)
  {
    hide J.After, Holding;
    MoveChangesHolding(d.jobs[order], m, now);
    HeldCounts(d.jobs, order, Acted(d, order, m, now).jobs[order], p);
  }

  lemma WithdrawKeepsLoads(d: Desk, order: string, reason: string, now: int)
    requires DeskOk(d)
    ensures DeskOk(Withdrawn(d, order, reason, now))
    ensures LoadsExact(d) ==> (LoadsExact(Withdrawn(d, order, reason, now)) <==> !Undercounts(d, Withdraw(order, reason, now)))
  {
    hide Holding, J.After;
    var u := Withdrawn(d, order, reason, now);
    if u != d {
      CancelLeaves(d.jobs[order], reason, now);
      forall p | p in d.partners
        ensures |Holding(u.jobs, p)| == |Holding(d.jobs, p)| - (if Holds(d.jobs, order, p) then 1 else 0)
      {
        HeldCounts(d.jobs, order, u.jobs[order], p);
      }
    }
  }

  lemma CancelLeaves(j: J.JobRow, reason: string, now: int)
    requires !J.IsTerminal(j.status)
    ensures J.After(j, J.Cancel(reason), now).Success?
    ensures var next := J.After(j, J.Cancel(reason), now).value; next.status == J.Cancelled && next.partnerId == j.partnerId
  {
  }

  /** Loads never run over; and from exact loads, a step leaves them exact unless it withdraws an offer from a loaded partner. */
  lemma StepKeepsLoads(d: Desk, a: Action)
    requires DeskOk(d)
    ensures DeskOk(Next(d, a))
    ensures LoadsExact(d) ==> (LoadsExact(Next(d, a)) <==> !Undercounts(d, a))
  {
    match a
    case Act(order, m, now) =>
      if PartnerMove(m) {
        ActKeepsLoads(d, order, m, now);
      }
    case Withdraw(order, reason, now) => WithdrawKeepsLoads(d, order, reason, now);
    case Join(p) =>
      assert p.id !in d.partners ==> Holding(d.jobs, p.id) == {};
    case Shift(_, _) =>
    case Open(order, distance, now) =>
      if Next(d, a) != d {
        RowKeepsLoads(d, order, J.NewJob(order, distance, now).value);
      }
    case Ask(order, to, timeout, now) =>
      if Next(d, a) != d {
        RowKeepsLoads(d, order, J.After(d.jobs[order], J.Offer(to, timeout), now).value);
      }
    case Expire(order, now) =>
      if Next(d, a) != d {
        RowKeepsLoads(d, order, J.After(d.jobs[order], J.Lapse, now).value);
      }
  }

  /** No partner's load ever exceeds the jobs they hold, and it is exact unless a merely offered job was withdrawn from a loaded partner. */
  lemma {:induction false} LoadNeverExceedsJobsHeld(d: Desk, acts: seq<Action>)
    requires DeskOk(d)
    ensures DeskOk(Run(d, acts))
    ensures LoadsExact(d) && NeverUndercounts(d, acts) ==> LoadsExact(Run(d, acts))
    decreases |acts|
  {
    if acts != [] {
      StepKeepsLoads(d, acts[0]);
      LoadNeverExceedsJobsHeld(Next(d, acts[0]), acts[1..]);
    }
  }

  /** From an empty desk, over any run of joining, offering, accepting, giving up, delivering and withdrawing. */
  lemma LoadsFromTheStart(acts: seq<Action>, p: string)
    ensures var d := Run(EMPTY, acts);
            p in d.partners ==>
              && d.partners[p].carrying <= |Holding(d.jobs, p)|
              && (NeverUndercounts(EMPTY, acts) ==> d.partners[p].carrying == |Holding(d.jobs, p)|)
  {
    LoadNeverExceedsJobsHeld(EMPTY, acts);
  }

  const RIDER: Partner := Partner("P", Available, 0, 0, 0)

  lemma {:induction false} RunSplits(d: Desk, acts: seq<Action>, more: seq<Action>)
    ensures Run(d, acts + more) == Run(Run(d, acts), more)
    decreases |acts|
  {
    if acts == [] {
      assert acts + more == more;
    } else {
      assert (acts + more)[0] == acts[0] && (acts + more)[1..] == acts[1..] + more;
      RunSplits(Next(d, acts[0]), acts[1..], more);
    }
  }

  lemma RunOne(d: Desk, a: Action)
    ensures Run(d, [a]) == Next(d, a)
  {
    assert [a][1..] == [];
  }

  lemma RunTwo(d: Desk, a: Action, b: Action)
    ensures Run(d, [a, b]) == Next(Next(d, a), b)
  {
    assert [a, b] == [a] + [b];
    RunSplits(d, [a], [b]);
    RunOne(d, a);
    RunOne(Next(d, a), b);
  }

  predicate Loaded(d: Desk)
  {
    && "P" in d.partners && d.partners["P"].carrying == 1 && d.partners["P"].id == "P"
    && d.jobs.Keys == {"A"} && d.jobs["A"].status == J.Assigned && d.jobs["A"].partnerId == "P"
  }

  lemma TakesA() returns (d: Desk)
    ensures d == Next(Next(Next(Next(EMPTY, Join(RIDER)), Open("A", 0.0, 0)), Ask("A", "P", 1, 0)), Act("A", J.Accept("P"), 0))
    ensures Loaded(d)
  {
    var d0 := Next(Next(EMPTY, Join(RIDER)), Open("A", 0.0, 0));
    assert d0.partners == map["P" := RIDER] && d0.jobs.Keys == {"A"} && d0.jobs["A"].status == J.Waiting;
    d := Next(Next(d0, Ask("A", "P", 1, 0)), Act("A", J.Accept("P"), 0));
  }

  lemma LosesB(d: Desk) returns (u: Desk)
    requires Loaded(d)
    ensures u == Next(Next(Next(d, Open("B", 0.0, 0)), Ask("B", "P", 1, 0)), Withdraw("B", "", 0))
    ensures "P" in u.partners && u.partners["P"].carrying == 0 && Holding(u.jobs, "P") == {"A"}
  {
    var posted := Next(d, Open("B", 0.0, 0));
    assert posted.jobs["B"].status == J.Waiting && posted.jobs["A"] == d.jobs["A"] && posted.partners == d.partners;
    var asked := Next(posted, Ask("B", "P", 1, 0));
    assert asked.jobs["B"].status == J.Offered && asked.jobs["B"].partnerId == "P" && asked.jobs["A"] == d.jobs["A"];
    u := Next(asked, Withdraw("B", "", 0));
    assert u.jobs.Keys == {"A", "B"} && u.jobs["B"].status == J.Cancelled;
  }

  /** A partner carrying one job and merely offered another: withdrawing the other leaves them a load of nought. */
  lemma UndercountIsReachable() returns (acts: seq<Action>)
    ensures var d := Run(EMPTY, acts);
            "P" in d.partners && d.partners["P"].carrying == 0 && Holding(d.jobs, "P") == {"A"}
  {
    var loaded := TakesA();
    var d := LosesB(loaded);
    var joins, takes := [Join(RIDER), Open("A", 0.0, 0)], [Ask("A", "P", 1, 0), Act("A", J.Accept("P"), 0)];
    var posts, loses := [Open("B", 0.0, 0), Ask("B", "P", 1, 0)], [Withdraw("B", "", 0)];
    hide Next, Run, Holding;
    RunTwo(EMPTY, joins[0], joins[1]);
    RunSplits(EMPTY, joins, takes);
    RunTwo(Run(EMPTY, joins), takes[0], takes[1]);
    RunTwo(loaded, posts[0], posts[1]);
    RunSplits(EMPTY, joins + takes, posts);
    RunOne(Run(loaded, posts), loses[0]);
    RunSplits(EMPTY, joins + takes + posts, loses);
    acts := joins + takes + posts + loses;
  }
}
