/** The delivery job: waiting, offered with a clock running, assigned, collected, and how it ends. */
module Jobs {
  import opened Results

  datatype JobStatus = Waiting | Offered | Assigned | Collected | Delivered | Failed | Cancelled

  datatype JobError =
    NoOrder | NegativeDistance | IllegalMove | NotYours | Finished | Unassigned | OfferExpired | NoFailureReason

  /** One stored delivery. An empty partner id is nobody; ZERO_TIME is an instant that is not set. */
  datatype JobRow = JobRow(
    orderId: string, distance: real, status: JobStatus, partnerId: string, passedBy: string, reason: string,
    attempts: nat, offeredAt: int, offerExpiresAt: int, updatedAt: int)

  const ZERO_TIME: int := 0

  predicate IsTerminal(s: JobStatus) { s in {Delivered, Failed, Cancelled} }

  function NewJob(orderId: string, distance: real, now: int): Result<JobRow, JobError>
  {
    if orderId == "" then Failure(NoOrder)
    else if distance < 0.0 then Failure(NegativeDistance)
    else Success(JobRow(orderId, distance, Waiting, "", "", "", 0, ZERO_TIME, ZERO_TIME, now))
  }

  predicate OfferLapsed(j: JobRow, at: int) { j.status == Offered && at >= j.offerExpiresAt }

  function HeldBy(j: JobRow, partnerId: string): Outcome<JobError>
  {
    if IsTerminal(j.status) then Outcome.Fail(Finished)
    else if j.partnerId == "" then Outcome.Fail(Unassigned)
    else if j.partnerId != partnerId then Outcome.Fail(NotYours)
    else Pass
  }

  function Released(j: JobRow, at: int): JobRow
  {
    j.(passedBy := j.partnerId, status := Waiting, partnerId := "",
       offeredAt := ZERO_TIME, offerExpiresAt := ZERO_TIME, updatedAt := at)
  }

  /** What can be asked of a job: by the platform (offer, lapse, cancel) or by a partner. */
  datatype Move =
    | Offer(to: string, timeout: int)
    | Accept(who: string)
    | Decline(who: string)
    | Lapse
    | Collect(who: string)
    | Deliver(who: string)
    | Fail(who: string, why: string)
    | Cancel(why: string)

  /** The row a move at an instant leaves, or why it is refused. */
  function After(j: JobRow, m: Move, at: int): Result<JobRow, JobError>
  {
    match m
    case Offer(to, timeout) =>
      if IsTerminal(j.status) then Failure(Finished)
      else if j.status != Waiting && !OfferLapsed(j, at) then Failure(IllegalMove)
      else Success(j.(status := Offered, partnerId := to, passedBy := "", offeredAt := at,
                      offerExpiresAt := at + timeout, attempts := j.attempts + 1, updatedAt := at))
    case Lapse => if OfferLapsed(j, at) then Success(Released(j, at)) else Failure(IllegalMove)
    case Cancel(why) =>
      if IsTerminal(j.status) then Failure(Finished)
      else Success(j.(status := Cancelled, reason := why, updatedAt := at))
    case _ =>
      var held := HeldBy(j, m.who);
      if held.Fail? then Failure(held.error)
      else
        match m
        case Accept(_) =>
          if j.status != Offered then Failure(IllegalMove)
          else if OfferLapsed(j, at) then Failure(OfferExpired)
          else Success(j.(status := Assigned, offerExpiresAt := ZERO_TIME, updatedAt := at))
        case Decline(_) => if j.status != Offered then Failure(IllegalMove) else Success(Released(j, at))
        case Collect(_) =>
          if j.status != Assigned then Failure(IllegalMove) else Success(j.(status := Collected, updatedAt := at))
        case Deliver(_) =>
          if j.status != Collected then Failure(IllegalMove) else Success(j.(status := Delivered, updatedAt := at))
        case Fail(_, why) =>
          if why == "" then Failure(NoFailureReason)
          else if j.status == Assigned then Success(Released(j.(reason := why), at))
          else if j.status == Collected then Success(j.(status := Failed, reason := why, updatedAt := at))
          else Failure(IllegalMove)
  }

  /** What a move on the object must do: end as After says with Pass, or refuse and change nothing. */
  predicate Answers(was: JobRow, m: Move, at: int, r: Outcome<JobError>, now: JobRow)
  {
    match After(was, m, at)
    case Success(next) => r == Pass && now == next
    case Failure(e) => r == Outcome.Fail(e) && now == was
  }

  /** The job as the in-memory object its methods update. */
  class Job {
    const orderId: string
    const distance: real
    var status: JobStatus
    var partnerId: string
    var passedBy: string
    var reason: string
    var attempts: nat
    var offeredAt: int
    var offerExpiresAt: int
    var updatedAt: int

    function Row(): JobRow
      reads this
    {
      JobRow(orderId, distance, status, partnerId, passedBy, reason, attempts, offeredAt, offerExpiresAt, updatedAt)
    }

    constructor (j: JobRow)
      ensures Row() == j
    {
      orderId, distance, status, partnerId := j.orderId, j.distance, j.status, j.partnerId;
      passedBy, reason, attempts := j.passedBy, j.reason, j.attempts;
      offeredAt, offerExpiresAt, updatedAt := j.offeredAt, j.offerExpiresAt, j.updatedAt;
    }

    method Offer(to: string, at: int, timeout: int) returns (r: Outcome<JobError>)
      modifies this
      ensures Answers(old(Row()), Move.Offer(to, timeout), at, r, Row())
    {
      if IsTerminal(status) {
        return Outcome.Fail(Finished);
      }
      if status != Waiting && !OfferLapsed(Row(), at) {
        return Outcome.Fail(IllegalMove);
      }
      status := Offered;
      partnerId := to;
      passedBy := "";
      offeredAt := at;
      offerExpiresAt := at + timeout;
      attempts := attempts + 1;
      updatedAt := at;
      r := Pass;
    }

    method Accept(who: string, at: int) returns (r: Outcome<JobError>)
      modifies this
      ensures Answers(old(Row()), Move.Accept(who), at, r, Row())
    {
      r := HeldBy(Row(), who);
      if r.Fail? {
        return;
      }
      if status != Offered {
        return Outcome.Fail(IllegalMove);
      }
      if OfferLapsed(Row(), at) {
        return Outcome.Fail(OfferExpired);
      }
      status := Assigned;
      offerExpiresAt := ZERO_TIME;
      updatedAt := at;
    }

    method Decline(who: string, at: int) returns (r: Outcome<JobError>)
      modifies this
      ensures Answers(old(Row()), Move.Decline(who), at, r, Row())
    {
      r := HeldBy(Row(), who);
      if r.Fail? {
        return;
      }
      if status != Offered {
        return Outcome.Fail(IllegalMove);
      }
      Release(at);
    }

    method Lapse(at: int) returns (r: Outcome<JobError>)
      modifies this
      ensures Answers(old(Row()), Move.Lapse, at, r, Row())
    {
      if !OfferLapsed(Row(), at) {
        return Outcome.Fail(IllegalMove);
      }
      Release(at);
      r := Pass;
    }

    method Release(at: int)
      modifies this
      ensures Row() == Released(old(Row()), at)
    {
      passedBy := partnerId;
      status := Waiting;
      partnerId := "";
      offeredAt := ZERO_TIME;
      offerExpiresAt := ZERO_TIME;
      updatedAt := at;
    }

    /** A straightforward transition by the partner holding the job. */
    method Shift(who: string, from: JobStatus, to: JobStatus, at: int) returns (r: Outcome<JobError>)
      modifies this
      ensures HeldBy(old(Row()), who).Fail? ==> r == HeldBy(old(Row()), who)
      ensures HeldBy(old(Row()), who).Pass? ==> r == if old(status) == from then Pass else Outcome.Fail(IllegalMove)
      ensures Row() == if r.Pass? then old(Row()).(status := to, updatedAt := at) else old(Row())
    {
      r := HeldBy(Row(), who);
      if r.Fail? {
        return;
      }
      if status != from {
        return Outcome.Fail(IllegalMove);
      }
      status := to;
      updatedAt := at;
    }

    method Collect(who: string, at: int) returns (r: Outcome<JobError>)
      modifies this
      ensures Answers(old(Row()), Move.Collect(who), at, r, Row())
    {
      r := Shift(who, Assigned, Collected, at);
    }

    method Deliver(who: string, at: int) returns (r: Outcome<JobError>)
      modifies this
      ensures Answers(old(Row()), Move.Deliver(who), at, r, Row())
    {
      r := Shift(who, Collected, Delivered, at);
    }

    /** Giving up before collection puts the job back; after it, the delivery has failed. */
    method Fail(who: string, why: string, at: int) returns (r: Outcome<JobError>)
      modifies this
      ensures Answers(old(Row()), Move.Fail(who, why), at, r, Row())
    {
      r := HeldBy(Row(), who);
      if r.Fail? {
        return;
      }
      if why == "" {
        return Outcome.Fail(NoFailureReason);
      }
      match status
      case Assigned =>
        reason := why;
        Release(at);
      case Collected =>
        status := Failed;
        reason := why;
        updatedAt := at;
      case _ =>
        r := Outcome.Fail(IllegalMove);
    }

    method Cancel(why: string, at: int) returns (r: Outcome<JobError>)
      modifies this
      ensures Answers(old(Row()), Move.Cancel(why), at, r, Row())
    {
      if IsTerminal(status) {
        return Outcome.Fail(Finished);
      }
      status := Cancelled;
      reason := why;
      updatedAt := at;
      r := Pass;
    }
  }

  // ---------------------------------------------------------------- the job graph

  predicate Edge(from: JobStatus, to: JobStatus)
  {
    match from
    case Waiting => to in {Offered, Cancelled}
    case Offered => to in {Offered, Waiting, Assigned, Cancelled}
    case Assigned => to in {Waiting, Collected, Cancelled}
    case Collected => to in {Delivered, Failed, Cancelled}
    case _ => false
  }

  /** Every successful move follows an edge, and after collection nothing changes who holds the job. */
  lemma MovesFollowEdges(j: JobRow, m: Move, at: int)
    requires After(j, m, at).Success?
    ensures Edge(j.status, After(j, m, at).value.status)
    ensures j.status == Collected ==> After(j, m, at).value.partnerId == j.partnerId
    ensures After(j, m, at).value.orderId == j.orderId
    ensures m.Collect? || m.Deliver? || m.Fail? ==> j.partnerId == m.who
  {
  }

  // ---------------------------------------------------------------- what each move is for

  /** A job opens for an order, however far, with nobody on it and nothing offered yet. */
  lemma NewJobMeaning(orderId: string, distance: real, now: int)
    ensures NewJob(orderId, distance, now).Success? <==> orderId != "" && distance >= 0.0
    ensures var r := NewJob(orderId, distance, now);
            r.Success? ==>
              && r.value.orderId == orderId && r.value.distance == distance && r.value.updatedAt == now
              && r.value.status == Waiting && r.value.partnerId == "" && r.value.passedBy == "" && r.value.attempts == 0
  {
  }

  /** An offer names one partner and runs its clock: only they can take it, and only before the timeout is over. */
  lemma OfferRunsItsClock(j: JobRow, to: string, timeout: int, at: int, who: string, later: int)
    requires After(j, Offer(to, timeout), at).Success?
    ensures j.status == Waiting || (j.status == Offered && at >= j.offerExpiresAt)
    ensures var o := After(j, Offer(to, timeout), at).value;
            && o.status == Offered && o.partnerId == to && o.passedBy == "" && o.offeredAt == at
            && (After(o, Accept(who), later).Success? <==> who == to && who != "" && later < at + timeout)
            && (After(o, Decline(who), later).Success? <==> who == to && who != "")
            && (After(o, Lapse, later).Success? <==> later >= at + timeout)
            && (After(o, Offer(who, timeout), later).Success? <==> later >= at + timeout)
  {
  }

  /** A job can be offered whenever it waits, and when the offer before has run out. */
  lemma OfferIsOpen(j: JobRow, to: string, timeout: int, at: int)
    ensures After(j, Offer(to, timeout), at).Success? <==>
            j.status == Waiting || (j.status == Offered && at >= j.offerExpiresAt)
  {
  }

  /** Whoever gives a job back, or lets an offer run out, is remembered for the next round; nobody holds the job then. */
  lemma GivingBackRemembersWho(j: JobRow, m: Move, at: int, who: string, later: int)
    requires (m.Decline? || m.Lapse? || (m.Fail? && j.status == Assigned)) && After(j, m, at).Success?
    ensures var next := After(j, m, at).value;
            && next.status == Waiting && next.partnerId == "" && next.passedBy == j.partnerId
            && (m.Fail? ==> next.reason == m.why)
            && After(next, Accept(who), later).Failure? && After(next, Lapse, later).Failure?
  {
  }

  /** Who may take each step of a delivery, from where, and where it leads. */
  lemma StepsOfADelivery(j: JobRow, who: string, why: string, at: int)
    ensures var mine := who != "" && j.partnerId == who;
            && (After(j, Accept(who), at).Success? <==> mine && j.status == Offered && at < j.offerExpiresAt)
            && (After(j, Collect(who), at).Success? <==> mine && j.status == Assigned)
            && (After(j, Deliver(who), at).Success? <==> mine && j.status == Collected)
            && (After(j, Move.Fail(who, why), at).Success? <==> mine && why != "" && j.status in {Assigned, Collected})
            && (After(j, Cancel(why), at).Success? <==> j.status !in {Delivered, Failed, Cancelled})
    ensures After(j, Accept(who), at).Success? ==> After(j, Accept(who), at).value.status == Assigned
    ensures After(j, Collect(who), at).Success? ==> After(j, Collect(who), at).value.status == Collected
    ensures After(j, Deliver(who), at).Success? ==> After(j, Deliver(who), at).value.status == Delivered
    ensures After(j, Move.Fail(who, why), at).Success? && j.status == Collected ==>
              After(j, Move.Fail(who, why), at).value.status == Failed && After(j, Move.Fail(who, why), at).value.reason == why
    ensures After(j, Cancel(why), at).Success? ==>
              After(j, Cancel(why), at).value.status == Cancelled && After(j, Cancel(why), at).value.reason == why
  {
  }

  /** Every refusal says what is wrong. */
  lemma RefusalsMeaning(j: JobRow, m: Move, at: int)
    ensures var r := After(j, m, at);
            r.Failure? ==>
              match r.error
              case Finished => IsTerminal(j.status)
              case Unassigned => j.partnerId == "" && !IsTerminal(j.status)
              case NotYours => !m.Offer? && !m.Lapse? && !m.Cancel? && j.partnerId != "" && j.partnerId != m.who
              case OfferExpired => m.Accept? && j.status == Offered && at >= j.offerExpiresAt
              case NoFailureReason => m.Fail? && m.why == ""
              case IllegalMove => true
              case _ => false
  {
  }

  /** No move changes what the job is for; each is stamped; partner, count and clock change only as an offer or a release asks. */
  lemma MovesKeepTheRest(j: JobRow, m: Move, at: int)
    requires After(j, m, at).Success?
    ensures var next := After(j, m, at).value;
            && next.orderId == j.orderId && next.distance == j.distance && next.updatedAt == at
            && next.attempts == j.attempts + (if m.Offer? then 1 else 0)
            && (!m.Offer? && next.status != Waiting ==> next.partnerId == j.partnerId && next.passedBy == j.passedBy)
            && (!m.Fail? && !m.Cancel? ==> next.reason == j.reason)
  {
  }

  /** An offer that stands can be accepted by its holder exactly while it can neither lapse nor be made again. */
  lemma AcceptOrLapse(j: JobRow, to: string, timeout: int, at: int)
    requires j.status == Offered && j.partnerId != ""
    ensures After(j, Accept(j.partnerId), at).Success? <==> After(j, Lapse, at).Failure?
    ensures After(j, Accept(j.partnerId), at).Success? <==> After(j, Offer(to, timeout), at).Failure?
  {
  }

  // ---------------------------------------------------------------- runs of moves

  datatype Timed = Timed(move: Move, at: int)

  /** One request against a job: a refused move leaves it as it was. */
  function Take(j: JobRow, t: Timed): JobRow
  {
    match After(j, t.move, t.at)
    case Success(next) => next
    case Failure(_) => j
  }

  function Run(j: JobRow, ts: seq<Timed>): JobRow
    decreases |ts|
  {
    if ts == [] then j else Run(Take(j, ts[0]), ts[1..])
  }

  predicate OffersNameSomebody(ts: seq<Timed>)
  {
    forall t :: t in ts && t.move.Offer? ==> t.move.to != ""
  }

  /** How many of the offers in a run were taken up by the job. */
  function OffersMade(j: JobRow, ts: seq<Timed>): nat
    decreases |ts|
  {
    if ts == [] then 0
    else (if ts[0].move.Offer? && After(j, ts[0].move, ts[0].at).Success? then 1 else 0) +
         OffersMade(Take(j, ts[0]), ts[1..])
  }

  ghost predicate HolderFits(j: JobRow)
  {
    !IsTerminal(j.status) ==> (j.partnerId == "" <==> j.status == Waiting)
  }

  /** A live job has nobody on it exactly when it is waiting, and Attempts counts the offers made. */
  lemma {:induction false} RunKeepsHolderAndAttempts(j: JobRow, ts: seq<Timed>)
    requires HolderFits(j) && OffersNameSomebody(ts)
    ensures HolderFits(Run(j, ts))
    ensures Run(j, ts).attempts == j.attempts + OffersMade(j, ts)
    decreases |ts|
  {
    if ts != [] {
      assert ts[0] in ts;
      assert forall t :: t in ts[1..] ==> t in ts;
      RunKeepsHolderAndAttempts(Take(j, ts[0]), ts[1..]);
    }
  }

  /** Whether, somewhere in a run, this partner gives the job up before collecting it. */
  predicate GivesUp(j: JobRow, ts: seq<Timed>, p: string)
    decreases |ts|
  {
    ts != [] &&
    (|| (ts[0].move.Fail? && ts[0].move.who == p && j.status == Assigned && After(j, ts[0].move, ts[0].at).Success?)
     || GivesUp(Take(j, ts[0]), ts[1..], p))
  }

  /** From acceptance the holder stays the holder until they give it up before collection, or for good. */
  lemma {:induction false} HolderStays(j: JobRow, ts: seq<Timed>)
    requires j.status !in {Waiting, Offered} && !GivesUp(j, ts, j.partnerId)
    ensures Run(j, ts).partnerId == j.partnerId
    ensures Run(j, ts).status !in {Waiting, Offered}
    decreases |ts|
  {
    if ts != [] {
      HolderStays(Take(j, ts[0]), ts[1..]);
    }
  }

  /** Collected goods never go back on the board, and a finished job never moves. */
  lemma {:induction false} CollectedNeverWaits(j: JobRow, ts: seq<Timed>)
    requires j.status == Collected || IsTerminal(j.status)
    ensures Run(j, ts).status == Collected || IsTerminal(Run(j, ts).status)
    ensures Run(j, ts).partnerId == j.partnerId
    ensures IsTerminal(j.status) ==> Run(j, ts) == j
    decreases |ts|
  {
    if ts != [] {
      CollectedNeverWaits(Take(j, ts[0]), ts[1..]);
    }
  }
}
