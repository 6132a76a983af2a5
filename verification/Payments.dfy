/** Gateway payments and cash collections: their own rules, and a partner's cash ledger. */
module Payments {
  import opened Results

  datatype PayStatus = Pending | Captured | Failed | Refunded

  datatype PayError = NoOrder | NoCustomer | NoGateway | NotPositive | NotPending | NotCaptured | NoReason | AmountMismatch

  /** One attempt to collect an order's total; its id doubles as the reference handed to the gateway. */
  datatype Payment = Payment(
    id: string, orderId: string, customerId: string, gateway: string, gatewayRef: string, amount: int,
    status: PayStatus, failureReason: string, refundReason: string, createdAt: int, updatedAt: int)

  function NewPayment(id: string, orderId: string, customerId: string, gateway: string, amount: int, now: int)
    : Result<Payment, PayError>
  {
    if orderId == "" then Failure(NoOrder)
    else if customerId == "" then Failure(NoCustomer)
    else if gateway == "" then Failure(NoGateway)
    else if amount <= 0 then Failure(NotPositive)
    else Success(Payment(id, orderId, customerId, gateway, "", amount, Pending, "", "", now, now))
  }

  datatype PayMove =
    | Capture(gatewayRef: string, amount: int)
    | Decline(reason: string)  // the gateway reporting failure
    | Refund(reason: string)

  function Settled(p: Payment, m: PayMove, at: int): Result<Payment, PayError>
  {
    match m
    case Capture(ref, amount) =>
      if p.status != Pending then Failure(NotPending)
      else if p.amount != amount then Failure(AmountMismatch)
      else Success(p.(status := Captured, gatewayRef := ref, updatedAt := at))
    case Decline(reason) =>
      if p.status != Pending then Failure(NotPending)
      else if reason == "" then Failure(NoReason)
      else Success(p.(status := Failed, failureReason := reason, updatedAt := at))
    case Refund(reason) =>
      if p.status != Captured then Failure(NotCaptured)
      else if reason == "" then Failure(NoReason)
      else Success(p.(status := Refunded, refundReason := reason, updatedAt := at))
  }

  predicate PayEdge(from: PayStatus, to: PayStatus)
  {
    (from == Pending && to in {Captured, Failed}) || (from == Captured && to == Refunded)
  }

  /** A payment settles along its own graph, only for the amount asked for, and keeps who and what it is about. */
  lemma SettlingKeepsIdentity(p: Payment, m: PayMove, at: int)
    requires Settled(p, m, at).Success?
    ensures var q := Settled(p, m, at).value;
            && PayEdge(p.status, q.status)
            && q.id == p.id && q.orderId == p.orderId && q.amount == p.amount
            && (q.status == Captured ==> m.Capture? && m.amount == p.amount)
  {
  }

  /** Which attempts can be opened; one opens pending, for what was asked, and nothing else is known of it yet. */
  lemma NewPaymentMeaning(id: string, orderId: string, customerId: string, gateway: string, amount: int, now: int)
    ensures var r := NewPayment(id, orderId, customerId, gateway, amount, now);
            && (r.Success? <==> orderId != "" && customerId != "" && gateway != "" && amount > 0)
            && (r.Success? ==>
                 && r.value.id == id && r.value.orderId == orderId && r.value.customerId == customerId
                 && r.value.gateway == gateway && r.value.amount == amount && r.value.createdAt == now
                 && r.value.status == Pending && r.value.gatewayRef == "" && r.value.failureReason == "")
  {
  }

  /** When each settlement succeeds, where it leads and what it records; everything else of the attempt stays. */
  lemma SettlingMeaning(p: Payment, ref: string, sum: int, reason: string, at: int)
    ensures var r := Settled(p, Capture(ref, sum), at);
            && (r.Success? <==> p.status == Pending && sum == p.amount)
            && (r == Failure(AmountMismatch) <==> p.status == Pending && sum != p.amount)
            && (r.Success? ==> r.value == p.(status := Captured, gatewayRef := ref, updatedAt := at))
    ensures var r := Settled(p, Decline(reason), at);
            && (r.Success? <==> p.status == Pending && reason != "")
            && (r.Success? ==> r.value == p.(status := Failed, failureReason := reason, updatedAt := at))
    ensures var r := Settled(p, Refund(reason), at);
            && (r.Success? <==> p.status == Captured && reason != "")
            && (r.Success? ==> r.value == p.(status := Refunded, refundReason := reason, updatedAt := at))
  {
  }

  class PaymentRecord {
    const id: string
    const orderId: string
    const customerId: string
    const gateway: string
    const amount: int
    const createdAt: int
    var gatewayRef: string
    var status: PayStatus
    var failureReason: string
    var refundReason: string
    var updatedAt: int

    function Row(): Payment
      reads this
    {
      Payment(id, orderId, customerId, gateway, gatewayRef, amount, status, failureReason, refundReason, createdAt, updatedAt)
    }

    constructor (p: Payment)
      ensures Row() == p
    {
      id, orderId, customerId, gateway, amount, createdAt :=
        p.id, p.orderId, p.customerId, p.gateway, p.amount, p.createdAt;
      gatewayRef, status, failureReason, refundReason, updatedAt :=
        p.gatewayRef, p.status, p.failureReason, p.refundReason, p.updatedAt;
    }

    method Capture(ref: string, sum: int, at: int) returns (r: Outcome<PayError>)
      modifies this
      ensures Answers(old(Row()), PayMove.Capture(ref, sum), at, r, Row())
    {
      if status != Pending {
        return Fail(NotPending);
      }
      if amount != sum {
        return Fail(AmountMismatch);
      }
      status, gatewayRef, updatedAt := Captured, ref, at;
      r := Pass;
    }

    method Decline(reason: string, at: int) returns (r: Outcome<PayError>)
      modifies this
      ensures Answers(old(Row()), PayMove.Decline(reason), at, r, Row())
    {
      if status != Pending {
        return Fail(NotPending);
      }
      if reason == "" {
        return Fail(NoReason);
      }
      status, failureReason, updatedAt := Failed, reason, at;
      r := Pass;
    }

    method Refund(reason: string, at: int) returns (r: Outcome<PayError>)
      modifies this
      ensures Answers(old(Row()), PayMove.Refund(reason), at, r, Row())
    {
      if status != Captured {
        return Fail(NotCaptured);
      }
      if reason == "" {
        return Fail(NoReason);
      }
      status, refundReason, updatedAt := Refunded, reason, at;
      r := Pass;
    }
  }

  predicate Answers(was: Payment, m: PayMove, at: int, r: Outcome<PayError>, now: Payment)
  {
    match Settled(was, m, at)
    case Success(next) => r == Pass && now == next
    case Failure(e) => r == Fail(e) && now == was
  }

  // ---------------------------------------------------------------- cash collections

  datatype CashStatus = Held | Remitted

  datatype CashError = CashNoOrder | CashNoPartner | CashNotPositive | WrongPartner | AlreadyRemitted | NoRemittanceRef

  datatype Collection = Collection(
    id: string, orderId: string, partnerId: string, amount: int, status: CashStatus, remittanceRef: string, remittedAt: int)

  function NewCollection(id: string, orderId: string, partnerId: string, amount: int): Result<Collection, CashError>
  {
    if orderId == "" then Failure(CashNoOrder)
    else if partnerId == "" then Failure(CashNoPartner)
    else if amount <= 0 then Failure(CashNotPositive)
    else Success(Collection(id, orderId, partnerId, amount, Held, "", 0))
  }

  /** Which collections can be booked; one is booked as held by its partner, for its order and amount, handed to nobody yet. */
  lemma NewCollectionMeaning(id: string, orderId: string, partnerId: string, amount: int)
    ensures var r := NewCollection(id, orderId, partnerId, amount);
            && (r.Success? <==> orderId != "" && partnerId != "" && amount > 0)
            && (r.Success? ==>
                 && r.value.id == id && r.value.orderId == orderId && r.value.partnerId == partnerId
                 && r.value.amount == amount && r.value.status == Held && r.value.remittanceRef == "" && r.value.remittedAt == 0)
  {
  }

  function HandedOver(c: Collection, partnerId: string, reference: string, at: int): Result<Collection, CashError>
  {
    if c.partnerId != partnerId then Failure(WrongPartner)
    else if c.status != Held then Failure(AlreadyRemitted)
    else if reference == "" then Failure(NoRemittanceRef)
    else Success(c.(status := Remitted, remittanceRef := reference, remittedAt := at))
  }

  /** Cash is handed over once, by whoever owes it, with a reference; whose it is and how much it is stay. */
  lemma HandedOverMeaning(c: Collection, partnerId: string, reference: string, at: int)
    ensures var r := HandedOver(c, partnerId, reference, at);
            && (r.Success? <==> c.partnerId == partnerId && c.status == Held && reference != "")
            && (r.Success? ==> r.value == c.(status := Remitted, remittanceRef := reference, remittedAt := at))
  {
  }

  class CollectionRecord {
    const id: string
    const orderId: string
    const partnerId: string
    const amount: int
    var status: CashStatus
    var remittanceRef: string
    var remittedAt: int

    function Row(): Collection
      reads this
    {
      Collection(id, orderId, partnerId, amount, status, remittanceRef, remittedAt)
    }

    constructor (c: Collection)
      ensures Row() == c
    {
      id, orderId, partnerId, amount := c.id, c.orderId, c.partnerId, c.amount;
      status, remittanceRef, remittedAt := c.status, c.remittanceRef, c.remittedAt;
    }

    method Remit(partner: string, reference: string, at: int) returns (r: Outcome<CashError>)
      modifies this
      ensures match HandedOver(old(Row()), partner, reference, at)
              case Success(next) => r == Pass && Row() == next
              case Failure(e) => r == Fail(e) && Row() == old(Row())
    {
      if partnerId != partner {
        return Fail(WrongPartner);
      }
      if status != Held {
        return Fail(AlreadyRemitted);
      }
      if reference == "" {
        return Fail(NoRemittanceRef);
      }
      status, remittanceRef, remittedAt := Remitted, reference, at;
      r := Pass;
    }
  }

  datatype Ledger = Ledger(partnerId: string, outstanding: int, remitted: int, held: seq<Collection>)

  function Sum(cs: seq<Collection>): int
  {
    if cs == [] then 0 else Sum(cs[..|cs| - 1]) + cs[|cs| - 1].amount
  }

  function OfStatus(cs: seq<Collection>, s: CashStatus): (rows: seq<Collection>)
    ensures forall c :: c in rows <==> c in cs && c.status == s
  {
    if cs == [] then []
    else
      var rest, last := cs[..|cs| - 1], cs[|cs| - 1];
      assert cs == rest + [last];
      if last.status == s then OfStatus(rest, s) + [last] else OfStatus(rest, s)
  }

  lemma SumSnoc(cs: seq<Collection>, c: Collection)
    ensures Sum(cs + [c]) == Sum(cs) + c.amount
  {
    assert (cs + [c])[..|cs|] == cs;
  }

  lemma OfStatusStep(cs: seq<Collection>, i: nat, s: CashStatus)
    requires i < |cs|
    ensures OfStatus(cs[..i + 1], s) ==
            if cs[i].status == s then OfStatus(cs[..i], s) + [cs[i]] else OfStatus(cs[..i], s)
  {
    assert cs[..i + 1][..i] == cs[..i];
  }

  /** Held cash and remitted cash together are all the cash. */
  lemma {:induction false} HeldPlusRemitted(cs: seq<Collection>)
    ensures Sum(OfStatus(cs, Held)) + Sum(OfStatus(cs, Remitted)) == Sum(cs)
  {
    if cs != [] {
      var rest, last := cs[..|cs| - 1], cs[|cs| - 1];
      HeldPlusRemitted(rest);
      SumSnoc(OfStatus(rest, last.status), last);
    }
  }

  /** A partner's cash position: what is held, what was handed over, and the two together are everything collected. */
  method Summarize(partnerId: string, cs: seq<Collection>) returns (ledger: Ledger)
    ensures ledger.partnerId == partnerId
    ensures ledger.held == OfStatus(cs, Held)
    ensures ledger.outstanding == Sum(ledger.held) && ledger.remitted == Sum(OfStatus(cs, Remitted))
    ensures ledger.outstanding + ledger.remitted == Sum(cs)
  {
    var outstanding, remitted, held := 0, 0, [];
    for i := 0 to |cs|
      invariant held == OfStatus(cs[..i], Held)
      invariant outstanding == Sum(held) && remitted == Sum(OfStatus(cs[..i], Remitted))
    {
      OfStatusStep(cs, i, Held);
      OfStatusStep(cs, i, Remitted);
      SumSnoc(OfStatus(cs[..i], cs[i].status), cs[i]);
      match cs[i].status
      case Held =>
        outstanding := outstanding + cs[i].amount;
        held := held + [cs[i]];
      case Remitted =>
        remitted := remitted + cs[i].amount;
    }
    assert cs[..|cs|] == cs;
    HeldPlusRemitted(cs);
    ledger := Ledger(partnerId, outstanding, remitted, held);
  }
}
