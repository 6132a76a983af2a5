# A verified model of the delivery platform's core

The platform takes orders from customers, has shops prepare them, puts them in front of delivery partners, and settles
payment by gateway or in cash. This project models the backend logic that keeps those parts consistent and proves what
it keeps. `dafny verify dfyconfig.toml` checks everything.

## How it is laid out

**The delivery protocol.** `Orders`, `Jobs` and `Payments` hold the three state machines: a specification function for
each move, and a class whose methods update the object's fields in place as the source does and are proved against it.

`Protocol` puts them together as one step system. A use case is not one step: reading a row and moving it is a step, its
compare-and-set write is another, and each call it then makes into another module is another. A write or call still to
come is a task in flight. Tasks never leave the flight, so a run may perform one at once, late, after anything else,
repeatedly, or never: everything proved of all runs holds when calls are lost, delayed, reordered or retried and when a
write rests on a stale read. `Safety` states what every run keeps, `Provenance` that every move of a person was asked for
by whom it names, `Calls` that what one module must tell another is launched, `CashLedger` the conservation of cash,
`Remittances` what raises and lowers what a partner owes, `Checkouts` exactly when an order can end up paid twice.
`Deliveries` is a run that ends with a delivered order, so none of this speaks of a system that can deliver nothing.

`UseCases` and `Dispatch` are the use cases as imperative code over stores, each run whole: `Execute`, `apply`, `Start`,
`Refund`, `Record`, `Reconcile`, `act`, `settle`, `Offer`, `Round`, `Withdraw`, `Sweep`. `Refinement` ties the two
halves together: a use case run whole leaves exactly what its steps in the protocol leave when they are performed one
after the other with nothing of anybody else's between. `Retries` says when an order whose payment failed can be paid
for again. `Assignment` is the min-heap the rounds draw from.

**Configuration.** `Config` has the registry and the one-pass resolver; `ConfigStore` the guarded writers, the tuner and
the audit log.

**Algorithms.** `Geo` (point in polygon), `Discovery` (radius ladder) and `Pricing` (delivery tariff), `Schedule` (weekly
timetable and its stored form), `Cart` (lines merged by selection), `Ids` (time-ordered identifiers). `Text` and
`Results` are the pieces of the language's library they need, `Reals` the arithmetic of products and quotients.

## What came out differently from what the source says or suggests

- **Two live payments.** The unique index covers pending payments only, so a checkout prepared before the order was paid
  and written afterwards leaves the order with two live payments. `Checkouts.DoublePaymentIsReachable` gives the run;
  `DoublePaymentNeedsALateCheckout` shows that a step breaks the rule if and only if it is such a write;
  `UseCases.WholeUseCasesPayOnce` shows it never happens while use cases run one at a time.
- **A failed payment cannot be retried.** The comment in `checkout.go` says a failed attempt leaves the order payable,
  but `apply` tells the order of the failure and the order is cancelled. `Retries.FailureEndsTheOrder` shows it of every
  failed callback taken whole, `NeverPayableAgain` and `NoCheckoutOpensLater` that it stays so. With the steps apart, a
  checkout opens a second attempt if and only if the order still awaits payment and no other attempt is open
  (`RetryOpensWhileTheOrderWaits`); `LostFailureIsRetried` is a run in which the order is never told and that happens.
- **`Carrying` can run under.** Withdrawing a job that was merely offered relieves a partner who was not yet carrying it.
  `Dispatch.StepKeepsLoads` gives the exact condition under which a step breaks the equality, `UndercountIsReachable` a
  run that does.
- **The bounding box rejects slightly more than the walk.** `onSegment` tolerates an epsilon and the box does not. Box
  first and full walk answer alike if and only if the point is in the box or on no edge (`Geo.BoxFirstIsTheWalk`), so
  everywhere more than epsilon outside (`BoxRejectionIsSafe`); `GrazingPointsAreRejected` is a point on which they differ.
- **Where a closed list is trimmed matters within epsilon.** Dropping the closing vertex drops an edge without length,
  which `onSegment` would still have found points on. `Geo.ContainsIgnoresListing` says that rotating and reversing the
  vertex list changes no answer but for points on such a corner; `TrimmedCornersDiffer` is one on which it does.
- **`NextStart` can have no answer for a timetable that opens.** It looks at today and the six days after, not at today's
  weekday a week on. `Schedule.NoNextStart` says exactly when there is none.
- **Option keys are joined by a slash.** `Cart.SameMeaning` shows that the key tells options apart where no group's id
  holds one; `SlashesCollide` gives two different choices that count as the same where one does.
- **Fifty bits, not 48.** The ten time characters of an identifier hold fifty bits; `Ids.ParseUndoesNew` shows that
  reading gives the time back exactly for times that fit them.
- **`Parse` is not total.** Its length is checked before upper-casing. A text of 26 bytes that upper-cases to symbols and
  holds a long s, whose capital is one byte shorter, is indexed past its end: `Ids.OverrunsOnTheLongS` shows it is exactly
  those texts, `OverrunIsReachable` gives one.

## Model

| member | source | states |
|---|---|---|
| Orders.TableMeaning | backend/internal/modules/order/domain/status.go:89-182 | the table lookup allows exactly the legal moves, written as one relation without the table |
| Orders.RefusalMeaning | backend/internal/modules/order/domain/status.go:162-182 | a finished order answers "already finished"; "not yours" is answered exactly when another actor could make the move |
| Orders.NextStatuses | backend/internal/modules/order/domain/status.go:190-201 | the statuses offered to an actor are those the transition check would accept from them, each once |
| Orders.NewOrder | backend/internal/modules/order/domain/order.go:202-239 | an accepted draft carries a legal history and a total within the cash limit |
| Orders.OrderRecord.Move | backend/internal/modules/order/domain/order.go:246-256 | a legal move sets status, time and appends the event; a refused one changes nothing |
| Orders.AppendKeepsHistory | backend/internal/modules/order/domain/order.go:246-256 | appending an allowed event to a legal history keeps it legal |
| Orders.StagesIncrease | backend/internal/modules/order/domain/status.go:89-133 | along any legal history the stage of the statuses strictly rises |
| Orders.NoStatusRepeats | backend/internal/modules/order/domain/status.go:89-133 | no order visits a status twice, so it has at most seven events |
| Orders.DeliveredPathIsUnique | backend/internal/modules/order/domain/status.go:89-133 | a delivered order has one possible sequence of statuses, with pickup and delivery by a partner |
| Orders.CancelDecisionMeaning | backend/internal/modules/order/domain/cancel.go:46-70 | a customer may cancel exactly when the move exists and the window runs; what the reason and the countdown mean |
| Jobs.Job.Offer | backend/internal/modules/dispatch/domain/job.go:146-161 | when an offer may be made, and the whole job it leaves |
| Jobs.Job.Accept | backend/internal/modules/dispatch/domain/job.go:169-183 | only the partner offered to, before the clock runs out |
| Jobs.Job.Decline | backend/internal/modules/dispatch/domain/job.go:187-195 | puts the job back and remembers who passed |
| Jobs.Job.Lapse | backend/internal/modules/dispatch/domain/job.go:198-214 | an offer that has run out puts the job back; one still running is refused |
| Jobs.Job.Collect | backend/internal/modules/dispatch/domain/job.go:217-219 | the holder of an assigned job collects it |
| Jobs.Job.Deliver | backend/internal/modules/dispatch/domain/job.go:222-224 | the holder of a collected job delivers it |
| Jobs.Job.Fail | backend/internal/modules/dispatch/domain/job.go:233-254 | before collection the job goes back on the board; after it the delivery has failed, with a reason |
| Jobs.Job.Cancel | backend/internal/modules/dispatch/domain/job.go:260-268 | any live job can be called off, a finished one cannot |
| Jobs.OfferRunsItsClock | backend/internal/modules/dispatch/domain/job.go:146-214 | after an offer only the partner named accepts, only before the timeout is over, and only then can it neither lapse nor be made again |
| Jobs.GivingBackRemembersWho | backend/internal/modules/dispatch/domain/job.go:187-254 | whoever declines, lets lapse or gives up is the one passed by, and the job has nobody |
| Jobs.MovesKeepTheRest | backend/internal/modules/dispatch/domain/job.go:146-281 | what every successful move leaves as it was |
| Jobs.MovesFollowEdges | backend/internal/modules/dispatch/domain/job.go:146-281 | every successful move is an edge of the job graph, and after collection none changes the holder |
| Jobs.AcceptOrLapse | backend/internal/modules/dispatch/domain/job.go:146-214 | at each instant an offered job can be accepted by its holder exactly when it can neither lapse nor be offered again |
| Jobs.RunKeepsHolderAndAttempts | backend/internal/modules/dispatch/domain/job.go:146-300 | over every run a live job has nobody exactly when it is waiting, and Attempts is the number of offers made |
| Jobs.HolderStays | backend/internal/modules/dispatch/domain/job.go:169-300 | from acceptance the holder stays until they give the job up before collection, or for good |
| Jobs.CollectedNeverWaits | backend/internal/modules/dispatch/domain/job.go:217-281 | a collected job never returns to the board and a finished one never moves |
| Payments.PaymentRecord.Capture | backend/internal/modules/payment/domain/payment.go:109-120 | only a pending payment, and only for the exact amount |
| Payments.PaymentRecord.Decline | backend/internal/modules/payment/domain/payment.go:123-134 | only a pending payment fails; the whole row it leaves |
| Payments.PaymentRecord.Refund | backend/internal/modules/payment/domain/payment.go:137-148 | only a captured payment is refunded; the whole row it leaves |
| Payments.SettlingKeepsIdentity | backend/internal/modules/payment/domain/payment.go:109-148 | settling follows the payment graph, for the amount asked for, and keeps order, customer and amount |
| Payments.CollectionRecord.Remit | backend/internal/modules/payment/domain/collection.go:73-88 | only the owing partner, once, with a reference |
| Payments.HeldPlusRemitted | backend/internal/modules/payment/domain/collection.go:105-121 | for any rows, what is held and what is remitted sum to all of them |
| Payments.Summarize | backend/internal/modules/payment/domain/collection.go:105-121 | outstanding and remitted are those two sums, and together everything collected |
| Protocol.ExecuteIsBacked | backend/internal/modules/order/application/transitions.go:91-140 | a transition that passes every check is backed by the facts its event claims |
| Protocol.SaveJobKeeps | backend/internal/modules/dispatch/application/partner.go:264-333 | a compare-and-set of a job, however stale the read, keeps the invariant and moves no row backwards |
| Protocol.SaveOrderKeeps | backend/internal/modules/order/application/transitions.go:91-191 | appending a transition keeps the invariant, and what it tells the other modules is true then and stays true |
| Protocol.SavePaymentKeeps | backend/internal/modules/payment/application/webhook.go:85-137 | settling a payment keeps the invariant |
| Protocol.PerformKeeps | backend/internal/modules/order/application/service.go:43-82 | every write and every cross-module call, performed at any time and any number of times, keeps the invariant |
| Protocol.StepKeeps | backend/internal/modules/order/application/transitions.go:91-191 | every step of anybody keeps the invariant over orders, jobs, payments, cash and all that is in flight |
| Safety.RunKeeps | backend/internal/modules/dispatch/application/partner.go:264-333 | every run keeps the invariant, deletes nothing and moves no row backwards |
| Safety.OrderNeverAheadOfJob | backend/internal/modules/dispatch/application/partner.go:264-333 | picked up implies collected or ended; delivered implies the job is delivered; a cancelled job's order is over; a job implies the order was ready |
| Safety.OnePartnerCarriesAnOrder | backend/internal/modules/dispatch/application/partner.go:298-333 | the partner a history says picked up and delivered is the one on the job, stale writes included |
| Safety.StepFollowsJobGraph | backend/internal/modules/dispatch/application/offer.go:108-197 | any one step leaves a stored job alone or moves it along an edge, and opens it waiting |
| Safety.StoredStatusesArePath | backend/internal/modules/dispatch/application/offer.go:108-197 | over every interleaving the stored statuses of a job are a path of its graph |
| Safety.CollectedStaysPut | backend/internal/modules/dispatch/application/partner.go:264-289 | after collection no later step changes whose job it is or puts it back |
| Safety.StoredHistoriesAreLegal | backend/internal/modules/order/application/transitions.go:91-140 | every stored order carries a legal history of at most seven events ending at its status |
| Safety.CancellationsAreInTime | backend/internal/modules/order/application/transitions.go:100-114 | a customer's cancellation lies within the longest window the registry allows; a rejection has a reason |
| Provenance.CallsMoveForNobody | backend/internal/modules/order/application/service.go:43-82 | no call of another module writes a customer's cancellation or a move of a shop or an admin |
| Provenance.LaunchedByRequest | backend/internal/modules/order/application/transitions.go:91-140 | only a person's own request, granted then, leads to the write of their move |
| Provenance.MovesAreRequested | backend/internal/modules/order/application/transitions.go:91-140 | over every run each stored move of a shop or an admin, and each customer cancellation, was asked for by whom it names, with its reason, at its instant; shops moved only their own orders, customers cancelled only theirs |
| Provenance.CancellationsMeetTheirWindow | backend/internal/modules/order/application/transitions.go:100-114 | every stored customer cancellation is stamped with the instant of a request before placement plus the window in force for it |
| Provenance.EveryCustomerIsTheirOwn | backend/internal/modules/order/application/transitions.go:91-114 | over every run each customer event of an order is by the customer who placed it |
| Calls.OrdersTellTheOthers | backend/internal/modules/order/application/transitions.go:135-191 | over every run an order that got ready has the call for a job in flight, one that ended early the call that takes it off the board with its reason, and a delivered cash order the call that books its total to who delivered it |
| Calls.JobsTellTheirOrder | backend/internal/modules/dispatch/application/partner.go:298-333 | over every run a job collected, delivered or failed has the call in flight that tells its order so, in its partner's name |
| Calls.PaymentsTellTheirOrder | backend/internal/modules/payment/application/webhook.go:131-137 | over every run a payment captured or failed has the call in flight that tells its order so |
| Deliveries.DeliveryIsReachable | backend/internal/modules/order/application/transitions.go:91-191 | a concrete run from the empty system that ends with a delivered cash order, its job delivered and its cash held by who brought it |
| Safety.OnlineOrdersArePaid | backend/internal/modules/payment/application/webhook.go:85-137 | an online order that was ever placed has a captured or refunded payment for exactly its total |
| Safety.PaymentsSettleOnce | backend/internal/modules/payment/application/webhook.go:85-137 | once a payment has left pending, no callback, late, repeated or conflicting, changes the outcome |
| CashLedger.LedgerIsBackedByDeliveries | backend/internal/modules/order/application/transitions.go:183-191 | every collection is one delivered cash order's total owed by its deliverer, so a partner's sum is at most what they delivered, with equality exactly when nothing owed is unrecorded |
| CashLedger.ListingSums | backend/internal/modules/payment/domain/collection.go:105-121 | the rows of a listing sum to the partner's collections, whatever their order |
| CashLedger.LedgerConserves | backend/internal/modules/payment/domain/collection.go:105-121 | outstanding plus remitted is what the partner has collected |
| CashLedger.RemittingConserves | backend/internal/modules/payment/application/collection.go:83-99 | a remittance, whatever batch it names, changes no partner's total |
| CashLedger.CollectedNeverFalls | backend/internal/modules/payment/application/collection.go:37-52 | over every run a partner's collected total never falls |
| Remittances.RecordingRaisesWhatIsOwed | backend/internal/modules/payment/application/collection.go:37-52 | a first recording leaves a held row with nothing handed over, and raises what that partner owes by its amount and nobody else's |
| Remittances.SummaryIsWhatIsOwed | backend/internal/modules/payment/domain/collection.go:105-121 | what a summary calls outstanding is the sum of what the partner still holds, however the rows are listed |
| Remittances.HandingOverLowersWhatIsOwed | backend/internal/modules/payment/application/collection.go:83-99 | an accepted batch lowers what its partner owes by exactly its rows, and nobody else's |
| Remittances.RemittedWasHandedOver | backend/internal/modules/payment/application/collection.go:83-99 | over every run a row that is remitted was named, under its own partner and with its own reference, by some handing over of the run |
| Checkouts.DoublePaymentNeedsALateCheckout | backend/internal/modules/payment/application/checkout.go:35-84 | a step leaves an order with two live payments if and only if it writes a checkout whose order has meanwhile been paid |
| Checkouts.PromptCheckoutsNeverDouble | backend/internal/modules/payment/application/checkout.go:35-84 | runs without such a write never have two live payments for an order |
| Checkouts.DoublePaymentIsReachable | backend/internal/modules/payment/application/checkout.go:35-84 | a concrete run from the empty system that ends with two live payments |
| UseCases.OrderDesk.AppendTransition | backend/internal/modules/order/application/transitions.go:115-132 | the compare-and-set: the event lands exactly when the order is still where it was read |
| UseCases.OrderDesk.Execute | backend/internal/modules/order/application/transitions.go:91-140 | the orders after one whole transition, which error each refusal gives, and what is told to whom |
| UseCases.OrderDesk.MarkPaid | backend/internal/modules/order/application/service.go:43-47 | places a paid order as the system |
| UseCases.OrderDesk.MarkPaymentFailed | backend/internal/modules/order/application/service.go:50-54 | cancels an unpaid order as the system |
| UseCases.OrderDesk.Advance | backend/internal/modules/order/application/service.go:60-82 | only partner, system and admin come in this way, and never past the table |
| UseCases.PaymentDesk.Apply | backend/internal/modules/payment/application/webhook.go:85-137 | payment and order after one callback; an unknown reference, a wrong amount and a replay change nothing |
| UseCases.PaymentDesk.Start | backend/internal/modules/payment/application/checkout.go:35-84 | who may pay for what; an open attempt is resumed, otherwise one new pending payment for the order's total |
| UseCases.PaymentDesk.LatestForOrder | backend/internal/modules/payment/infrastructure/persistence/postgres/repository.go:129-144 | an attempt of the order than which none was created later, or none when the order has none |
| UseCases.PaymentDesk.Refund | backend/internal/modules/payment/application/refund.go:37-65 | the latest attempt to pay is refunded once, and only when the gateway agrees; a refunded one answers success without asking; nothing else changes |
| UseCases.PaymentDesk.Record | backend/internal/modules/payment/application/collection.go:37-52 | one collection an order; a retry succeeds and changes nothing |
| UseCases.PaymentDesk.Reconcile | backend/internal/modules/payment/application/collection.go:83-99 | a batch is remitted entirely or not at all, exactly when each row is the partner's, held and named once |
| UseCases.TransitionsLeavePending | backend/internal/modules/order/domain/status.go:89-133 | no transition brings an order back to pending payment, and the payment module's own always leaves it |
| UseCases.StepPaysOnce | backend/internal/modules/payment/application/webhook.go:85-137 | each whole use case keeps at most one live payment an order |
| UseCases.WholeUseCasesPayOnce | backend/internal/modules/payment/application/checkout.go:35-84 | over every sequence of whole use cases no order has two payments that are pending, captured or refunded |
| Refinement.ExecuteIsReadThenWrite | backend/internal/modules/order/application/transitions.go:91-140 | a request's read step and its write step in a row leave the orders of the whole transition and the calls it makes |
| Refinement.CallIsReadThenWrite | backend/internal/modules/order/application/service.go:43-82 | the same of the calls of the payment and dispatch modules |
| Refinement.ApplyIsItsSteps | backend/internal/modules/payment/application/webhook.go:85-137 | callback, payment write, call and order write in a row leave the books as the whole callback does |
| Refinement.StartIsReadThenWrite | backend/internal/modules/payment/application/checkout.go:35-84 | a checkout's read and write in a row are the whole checkout |
| Refinement.RefundIsReadThenWrite | backend/internal/modules/payment/application/refund.go:37-65 | a refund's read and write in a row are the whole refund |
| Refinement.RecordIsItsCall | backend/internal/modules/payment/application/collection.go:37-52 | a recording performed is the whole recording |
| Refinement.ActIsReadThenWrite | backend/internal/modules/dispatch/application/partner.go:264-333 | a partner's read and write in a row leave the jobs of the whole action and the calls it makes |
| Refinement.WithdrawIsReadThenWrite | backend/internal/modules/dispatch/application/offer.go:170-197 | a withdrawal's call, read and write in a row leave the jobs of the whole withdrawal |
| Refinement.PutIsReadThenWrite | backend/internal/modules/dispatch/application/offer.go:108-167 | an offer's or a lapse's read and write in a row leave the jobs of the desk |
| Refinement.OpenIsCallThenCreate | backend/internal/modules/dispatch/application/offer.go:47-102 | a job called for and then created is the desk's |
| Retries.FailureEndsTheOrder | backend/internal/modules/payment/application/webhook.go:85-137 | a failed callback taken whole leaves an order that no customer may pay for, cancelled if it was awaiting payment |
| Retries.NeverPayableAgain | backend/internal/modules/payment/application/checkout.go:29-84 | over every sequence of whole use cases an order past pending payment is never payable again |
| Retries.RetryOpensWhileTheOrderWaits | backend/internal/modules/payment/application/checkout.go:35-84 | once a declined attempt is saved, a checkout prepares another if and only if the order still awaits this customer's payment and no other attempt is open |
| Retries.NoCheckoutOpensLater | backend/internal/modules/payment/application/checkout.go:35-84 | over every run of steps, once an order has left pending payment no checkout of it opens |
| Retries.LostFailureIsRetried | backend/internal/modules/payment/application/webhook.go:131-137 | a run in which the order is never told of the failure and a second attempt is opened |
| Dispatch.AcceptanceRate | backend/internal/modules/dispatch/domain/partner.go:161-170 | between nought and one, and one for somebody never asked |
| Dispatch.DispatchDesk.SaveJob | backend/internal/modules/dispatch/application/offer.go:152-156 | the compare-and-set on the job's status |
| Dispatch.DispatchDesk.Act | backend/internal/modules/dispatch/application/partner.go:264-289 | job, partner and outgoing calls after one action of a partner, or nothing |
| Dispatch.DispatchDesk.Settle | backend/internal/modules/dispatch/application/partner.go:298-333 | load, busy flag and which order transition each action asks for |
| Dispatch.DispatchDesk.Withdraw | backend/internal/modules/dispatch/application/offer.go:170-197 | a live job is cancelled and whoever it names relieved; a missing or finished one is no error |
| Dispatch.DispatchDesk.Release | backend/internal/modules/dispatch/application/offer.go:200-212 | one job fewer, never below nought, and no longer busy |
| Dispatch.DispatchDesk.Round | backend/internal/modules/dispatch/application/offer.go:108-167 | the job goes to the least candidate who can take it, skipping whoever just passed unless nobody else can; no candidate, no change |
| Dispatch.AskedIsFree | backend/internal/modules/dispatch/application/offer.go:108-167 | whoever is asked is nearby, available and below the limit; whoever just passed is asked only when nobody else is free |
| Dispatch.RoundAsksTheBest | backend/internal/modules/dispatch/application/offer.go:108-167 | of the free partners nearby who did not just pass, nobody scores better than the one asked, and nobody of the same score comes before |
| Dispatch.OfferedToTheFree | backend/internal/modules/dispatch/application/offer.go:258-277 | every job a sweep offers goes to somebody nearby, available and below the limit |
| Dispatch.DispatchDesk.OfferOrder | backend/internal/modules/dispatch/application/offer.go:47-102 | an order is put on the board once; one that has a job keeps it |
| Dispatch.DispatchDesk.Sweep | backend/internal/modules/dispatch/application/offer.go:232-277 | lapsed offers are released, then waiting jobs go to whom their round asks; both counted exactly and within the limit; nothing is taken from anybody who may still accept |
| Dispatch.DispatchDesk.ExpireOffers | backend/internal/modules/dispatch/application/offer.go:232-257 | exactly as many lapsed offers as counted go back on the board, no more than the limit; below it all of them |
| Dispatch.DispatchDesk.OfferWaiting | backend/internal/modules/dispatch/application/offer.go:258-277 | each waiting job changed is offered to whom its round asks, exactly as many as counted; below the limit every one that anybody can take |
| Dispatch.StepKeepsLoads | backend/internal/modules/dispatch/application/offer.go:170-212 | loads never exceed the jobs held; from exact loads a step leaves them exact if and only if it does not withdraw a mere offer from a loaded partner |
| Dispatch.LoadNeverExceedsJobsHeld | backend/internal/modules/dispatch/application/partner.go:298-333 | over every run, and exact on every run without such a withdrawal |
| Dispatch.LoadsFromTheStart | backend/internal/modules/dispatch/application/partner.go:298-333 | the same from an empty desk |
| Dispatch.UndercountIsReachable | backend/internal/modules/dispatch/application/offer.go:170-212 | a run from the empty desk that ends with a load of nought and a job held |
| Assignment.Score | backend/internal/modules/dispatch/domain/assignment.go:44-48 | the score lies between nought and one |
| Assignment.ScorePrefers | backend/internal/modules/dispatch/domain/assignment.go:12-78 | nearer, less loaded and more willing never scores worse, and a partner at the counter beats one at the edge of the radius whatever their load and record |
| Assignment.ScoreShares | backend/internal/modules/dispatch/domain/assignment.go:12-78 | a share of the radius, of the limit or of refusals costs that share of 0.55, 0.25 and 0.20 |
| Assignment.ScoreEnds | backend/internal/modules/dispatch/domain/assignment.go:44-78 | where the score is nought and one, and that a radius or limit of nought counts for nothing |
| Assignment.Assigner.constructor | backend/internal/modules/dispatch/domain/assignment.go:124-130 | a heap holding exactly the scored candidates |
| Assignment.Assigner.Push | backend/internal/modules/dispatch/domain/assignment.go:103-103 | adds one candidate and restores the heap order |
| Assignment.Assigner.Next | backend/internal/modules/dispatch/domain/assignment.go:134-139 | takes a candidate nobody left comes before, and keeps everybody else |
| Assignment.RootIsLeast | backend/internal/modules/dispatch/domain/assignment.go:94-99 | in a heap the root comes before everybody |
| Assignment.Drain | backend/internal/modules/dispatch/domain/assignment.go:124-139 | draining gives a permutation of the candidates sorted by score, then partner id |
| Assignment.BestFirstIsUnique | backend/internal/modules/dispatch/domain/assignment.go:94-99 | with distinct ids there is one best-first order |
| Assignment.InsertionOrderIsIrrelevant | backend/internal/modules/dispatch/domain/assignment.go:124-139 | the order handed out does not depend on the order of insertion |
| Config.Define | backend/internal/modules/config/domain/registry.go:113-244 | every registered default is within its own bounds |
| Config.Chain | backend/internal/modules/config/domain/scope.go:121-133 | each scope once, ending with the global one |
| Config.ChainMeaning | backend/internal/modules/config/domain/scope.go:121-133 | exactly the scopes the placement names and the global one, each narrower than the next |
| Config.IrrelevantOverride | backend/internal/modules/config/domain/resolve.go:27-69 | an override of another key, off the chain or not to be counted changes nothing |
| Config.RelevantOverride | backend/internal/modules/config/domain/resolve.go:27-69 | a further override wins exactly when its scope comes before the one that decided so far |
| Config.Resolve | backend/internal/modules/config/domain/resolve.go:27-69 | the one pass gives every key what the plain rule gives: the first scope of the chain with an override, else the default from the global scope |
| Config.OrderIsIrrelevant | backend/internal/modules/config/domain/resolve.go:27-69 | with one override a key and scope the order of the list does not matter |
| Config.EffectiveMeaning | backend/internal/modules/config/domain/resolve.go:27-69 | the narrowest scope of the chain with an override of the key's own kind decides; with none, or for the key nobody may override, the default does |
| ConfigStore.ConfigDesk.Set | backend/internal/modules/config/application/set_override.go:47-105 | which check refuses first; otherwise the new table and the audit entry with old and new value |
| ConfigStore.ConfigDesk.Clear | backend/internal/modules/config/application/set_override.go:184-235 | removes an override and records it, or says why not |
| ConfigStore.ConfigDesk.AutoTune | backend/internal/modules/config/application/autotune.go:51-103 | one pass over the tunable keys, decided on the snapshot it started from, written through the same guard |
| ConfigStore.TuneMovesGently | backend/internal/modules/config/domain/autotune.go:39-91 | a pass moves a radius by at most a tenth, in the direction the signal asks for, within bounds |
| ConfigStore.TuneMeaning | backend/internal/modules/config/domain/autotune.go:39-91 | the exact radius after a pass: a tenth wider or narrower, stopped at the bounds, and when it stays |
| ConfigStore.PassMovesBothRadii | backend/internal/modules/config/application/autotune.go:51-103 | what a pass leaves at the area for each radius, pinned or not, both decided on the settings before it |
| ConfigStore.ListingAgrees | backend/internal/modules/config/domain/resolve.go:27-69 | resolving the listed overrides is reading the table |
| ConfigStore.ConfigDesk.Snapshot | backend/internal/modules/config/domain/resolve.go:27-69 | listing and resolving gives every registered key the setting in force in the table |
| ConfigStore.ResolvedListingIsASnapshot | backend/internal/modules/config/domain/resolve.go:27-69 | whatever listing of the overrides along the chain is resolved, the result is that snapshot |
| ConfigStore.RunsKeepOrderAndAudit | backend/internal/modules/config/application/set_override.go:47-235 | over every run of Set, Clear and AutoTune the table stays in bounds and the audit log chains |
| ConfigStore.AuditFromTheStart | backend/internal/modules/config/application/set_override.go:78-104 | for each key and scope the entries lead from the default to what applies now |
| ConfigStore.LeadsMeaning | backend/internal/modules/config/application/set_override.go:153-165 | leading means: the first old value, each old value the previous new one, the last new value |
| ConfigStore.PinsHold | backend/internal/modules/config/application/set_override.go:108-132 | no tuner step changes a pinned setting |
| ConfigStore.PinnedSetHolds | backend/internal/modules/config/application/set_override.go:47-132 | a change asked for as a pin is stored as one, and no number of tuner steps moves it |
| ConfigStore.TunerWritesOnlyRadii | backend/internal/modules/config/application/autotune.go:19-32 | a tuning pass changes nothing but the tunable keys at its own scope |
| ConfigStore.InForceIsInBounds | backend/internal/modules/config/domain/registry.go:292-315 | every setting in force is within its definition's bounds |
| ConfigStore.SnapshotsAreSound | backend/internal/modules/config/domain/registry.go:292-315 | a snapshot holds an in-bounds value for every registered key, the immutable ones at their default |
| ConfigStore.PolicyIsUsable | backend/internal/modules/discovery/domain/policy.go:42-62 | such a snapshot is accepted by NewPolicy |
| ConfigStore.TariffIsUsable | backend/internal/modules/pricing/domain/delivery.go:54-64 | such a snapshot is accepted by NewTariff |
| ConfigStore.SnapshotsAreUsable | backend/internal/modules/config/application/set_override.go:47-132 | whatever was set, cleared and tuned, any snapshot resolved at any placement builds discovery's policy and pricing's tariff and holds a cancellation window in range |
| ConfigStore.UntouchedSettings | backend/internal/modules/config/domain/registry.go:113-244 | an untouched store gives discovery and pricing exactly the registry's opening policy and tariff |
| Discovery.NewPolicy | backend/internal/modules/discovery/domain/policy.go:42-62 | exactly which settings make a policy |
| Discovery.LadderMeaning | backend/internal/modules/discovery/domain/policy.go:91-109 | the base radius at the foot, one step per level, and levels off the ladder read as its ends |
| Discovery.LevelForIsLeast | backend/internal/modules/discovery/application/reach.go:61-97 | the solved level is the least that covers the distance, so a shop lies within a level's radius exactly when it needs no more |
| Discovery.Settle | backend/internal/modules/discovery/application/search.go:157-174 | the first level at or above the clamped request with enough shops, else the last; a failed count is passed on |
| Discovery.CartPaysByItsOwnDistance | backend/internal/modules/cart/application/cart.go:238-260 | a reachable cart pays the expanded fee exactly beyond the base radius |
| Discovery.DeliveryGrowsWithDistance | backend/internal/modules/cart/application/cart.go:238-260 | of two shops in reach the nearer never costs more to deliver from, across bands, expansion, rounding and the waiver |
| Discovery.CartNeverExceedsCard | backend/internal/modules/discovery/application/search.go:228-237 | the cart never charges more than the card of any search that showed the shop |
| Pricing.NewTariff | backend/internal/modules/pricing/domain/delivery.go:54-64 | exactly which amounts make a tariff |
| Pricing.FeeIsTheTariffs | backend/internal/modules/pricing/domain/delivery.go:70-118 | base at the counter, one rate for each thousand metres begun; expanded, the multiplied fee to the nearest minor unit with the difference as surcharge |
| Pricing.FeeGrows | backend/internal/modules/pricing/domain/delivery.go:70-118 | the fee never falls with distance, and expanding never lowers it |
| Pricing.QuoteAddsUp | backend/internal/modules/pricing/domain/quote.go:66-107 | total, surcharge and waiver fit together, and the nudge is the least further spend that earns the waiver |
| Geo.NewPolygon | backend/internal/modules/geo/domain/polygon.go:26-51 | refuses fewer than three vertices after dropping a closing one; otherwise the box is exactly the ring's extent |
| Geo.Contains | backend/internal/modules/geo/domain/polygon.go:72-95 | the loop with its parity flag decides: within the box, and on an edge or with an odd number of crossings |
| Geo.CrossesMeaning | backend/internal/modules/geo/domain/polygon.go:80-93 | an edge counts exactly when its ends lie on different sides and some point of it is on the latitude and east of the point |
| Geo.TriangleIsItsInside | backend/internal/modules/geo/domain/polygon.go:72-95 | for every triangle, however turned: the walk has exactly its border and the points with some weight on every corner |
| Geo.TriangleContains | backend/internal/modules/geo/domain/polygon.go:72-95 | a point inside a triangle is in its box and found; one beyond a side is not, unless on an edge |
| Geo.StraddlingEdgesAreEven | backend/internal/modules/geo/domain/polygon.go:72-95 | whatever the ring and the latitude, an even number of edges straddle it |
| Geo.OutsideTheBoxOnlyEdgesCount | backend/internal/modules/geo/domain/polygon.go:72-95 | outside the box the full walk has a point exactly when it lies on an edge |
| Geo.BoxFirstIsTheWalk | backend/internal/modules/geo/domain/polygon.go:72-95 | testing the box first gives the walk's answer if and only if the point is in the box or on no edge |
| Geo.BoxRejectionIsSafe | backend/internal/modules/geo/domain/polygon.go:72-95 | more than epsilon outside the box the full walk says outside too |
| Geo.GrazingPointsAreRejected | backend/internal/modules/geo/domain/polygon.go:72-109 | within epsilon the two can differ, by a concrete point |
| Geo.RotationKeepsWalk | backend/internal/modules/geo/domain/polygon.go:72-95 | starting the ring at another vertex changes no answer |
| Geo.ReversalKeepsWalk | backend/internal/modules/geo/domain/polygon.go:72-95 | walking the ring the other way round changes no answer |
| Geo.ContainsIgnoresWriting | backend/internal/modules/geo/domain/polygon.go:26-95 | Contains agrees on polygons built from rotations and reversals of one ring |
| Geo.TrimmingDropsACorner | backend/internal/modules/geo/domain/polygon.go:26-51 | the walk of a vertex list is that of its trimmed ring, or the point is on the corner dropped |
| Geo.ContainsIgnoresListing | backend/internal/modules/geo/domain/polygon.go:26-95 | polygons built from rotations and reversals of one vertex list agree, up to points on a corner at which a list was trimmed |
| Geo.TrimmedCornersDiffer | backend/internal/modules/geo/domain/polygon.go:26-109 | two rotations of one closed list and a point on which their polygons differ |
| Geo.ClosingVertexIsIgnored | backend/internal/modules/geo/domain/polygon.go:26-51 | repeating the first vertex at the end builds the same ring |
| Geo.BorderIsInside | backend/internal/modules/geo/domain/polygon.go:97-109 | every point of every edge is inside |
| Schedule.NewTimeOfDay | backend/internal/shared/schedule/schedule.go:52-57 | exactly the clock times from 00:00 to 24:00, with hour and minute recoverable |
| Schedule.TimeReadsBack | backend/internal/shared/schedule/schedule.go:60-79 | a printed clock time parses to itself |
| Schedule.AcceptedTimes | backend/internal/shared/schedule/schedule.go:60-74 | exactly which texts are clock times: blanks at the ends aside, two figures, a colon, two figures, in range |
| Schedule.WindowReadsBack | backend/internal/shared/schedule/schedule.go:94-125 | a printed window parses to itself |
| Schedule.NeighboursDecide | backend/internal/shared/schedule/schedule.go:141-168 | comparing neighbours of a sorted day decides whether any two windows collide |
| Schedule.NewDay | backend/internal/shared/schedule/schedule.go:141-168 | a day is accepted exactly when it is a day, keeps to the cap and no two windows share an instant; otherwise what the error blames |
| Schedule.New | backend/internal/shared/schedule/schedule.go:141-168 | accepted exactly when every day is; the result holds the given windows sorted and pairwise disjoint |
| Schedule.TimetableIsUnique | backend/internal/shared/schedule/schedule.go:141-168 | neither the order of days nor the sort's choice among equals can change the timetable |
| Schedule.Encode | backend/internal/shared/schedule/schedule.go:252-265 | the stored form has exactly the days that open, under their numbers, as text |
| Schedule.Decode | backend/internal/shared/schedule/schedule.go:268-286 | fails on an unreadable key or window, otherwise builds the days read, re-checking every rule |
| Schedule.DecodeUndoesEncode | backend/internal/shared/schedule/schedule.go:252-286 | whatever a timetable is stored as reads back as that timetable under the same cap |
| Schedule.StoreAndRead | backend/internal/shared/schedule/schedule.go:252-286 | the round trip on the two methods themselves |
| Schedule.LocalMeaning | backend/internal/shared/schedule/schedule.go:203-206 | the instant of a local day and minute, six hours ahead and counted from a Thursday, reads as that weekday and minute |
| Schedule.Covers | backend/internal/shared/schedule/schedule.go:209-217 | true exactly when some window of the local day contains the local minute |
| Schedule.EndsAfter | backend/internal/shared/schedule/schedule.go:220-228 | answers exactly when Covers does, with the close of the one window containing the instant |
| Schedule.OneWindowAtATime | backend/internal/shared/schedule/schedule.go:220-228 | an instant has one closing time |
| Schedule.StaysOpenUntilThen | backend/internal/shared/schedule/schedule.go:203-228 | from an instant to the answered closing time the timetable stays open with the same answer |
| Schedule.NextStart | backend/internal/shared/schedule/schedule.go:234-245 | the first opening later today or in the six days after, earliest day and window first |
| Schedule.NextStartIsTheNextOpening | backend/internal/shared/schedule/schedule.go:230-245 | in instants: the answer is yet to come, a window opens there, and until then the timetable is open only as long as a window already open lasts |
| Schedule.NoNextStart | backend/internal/shared/schedule/schedule.go:230-245 | there is none if and only if every opening of the week is today, now or earlier |
| Schedule.OpensButHasNoNextStart | backend/internal/shared/schedule/schedule.go:230-245 | a timetable that opens and still has no answer |
| Cart.SameSelection | backend/internal/modules/cart/domain/cart.go:113-132 | the counting loop decides equality of kind, target, note and the bag of option keys |
| Cart.SameIsAnEquivalence | backend/internal/modules/cart/domain/cart.go:108-132 | being the same selection is reflexive, symmetric and transitive |
| Cart.SwappedOptionsAreTheSame | backend/internal/modules/cart/domain/cart.go:108-132 | neither the order of the options nor the quantity is part of a selection |
| Cart.SameMeaning | backend/internal/modules/cart/domain/cart.go:108-132 | where no group's id holds a slash, two lines are the same exactly when they choose the same options of the same groups |
| Cart.SlashesCollide | backend/internal/modules/cart/domain/cart.go:108-132 | with a slash in a group's id two different choices can be the same |
| Cart.Basket.Add | backend/internal/modules/cart/domain/cart.go:192-217 | which error comes first; otherwise the first line of the same selection grows, or a line is appended |
| Cart.Basket.SetQuantity | backend/internal/modules/cart/domain/cart.go:221-235 | the first line with the id is changed, nought removes it, out of range is refused |
| Cart.Basket.Remove | backend/internal/modules/cart/domain/cart.go:238-247 | the first line with the id goes, the others keep their order |
| Cart.Basket.Count | backend/internal/modules/cart/domain/cart.go:167-173 | the sum of the quantities of all lines |
| Cart.ActKeeps | backend/internal/modules/cart/domain/cart.go:192-250 | each act keeps the limits and keeps selections distinct |
| Cart.EveryCartIsSound | backend/internal/modules/cart/domain/cart.go:192-250 | every cart reached has at most 60 lines, quantities 1 to 20 and no two lines of one selection |
| Cart.AddRaisesItsSelection | backend/internal/modules/cart/domain/cart.go:192-217 | a successful add raises what is held of its own selection, and the count, by exactly what was added; a refused one changes nothing |
| Cart.AddKeepsTheLines | backend/internal/modules/cart/domain/cart.go:192-217 | an add changes nothing of the lines there but the quantity of one of its own selection; a new selection is written at the end as given |
| Cart.OtherActsChangeOneLine | backend/internal/modules/cart/domain/cart.go:221-247 | changing and removing move the count by what the one line named gains or loses |
| Ids.New | backend/internal/shared/id/id.go:60-85 | the loops print prefix, time and randomness, most significant bits first |
| Ids.Parse | backend/internal/shared/id/id.go:89-112 | the loops read the value of the ten time characters, refuse a wrong byte length or character, or run past the end |
| Ids.ParseUndoesNew | backend/internal/shared/id/id.go:60-112 | under every prefix an identifier parses, and to its own time if and only if that time fits fifty bits |
| Ids.AcceptsWhatIsPrinted | backend/internal/shared/id/id.go:89-112 | Parse accepts, after any prefix and in any case, exactly the ASCII texts New can print |
| Ids.OverrunsOnTheLongS | backend/internal/shared/id/id.go:89-112 | the index runs past the end exactly for 26 bytes that upper-case to symbols and hold a long s |
| Ids.OverrunIsReachable | backend/internal/shared/id/id.go:89-112 | twenty-four symbols and a long s |
| Ids.CaseIsIgnored | backend/internal/shared/id/id.go:87-112 | upper-casing changes an answer if and only if a long s is among the symbols |
| Ids.IdentifiersSortByTime | backend/internal/shared/id/id.go:3-6 | of two identifiers of one kind the earlier sorts first, whatever the randomness |
| Ids.EqualIdentifiers | backend/internal/shared/id/id.go:60-85 | equal identifiers come from one millisecond and bytes agreeing in their low five bits |

## Left out

- HTTP handlers, JSON, SQL, caches, adapters and wiring: stores are maps with the contracts the callers rely on (compare-and-set on status, unique job and collection per order, unique pending payment per order, all-or-nothing remittance).
- Storage failures inside a use case run whole; in the protocol a write or call that fails is one that is never performed.
- Notifications, labels, notices, reason and error texts, in both languages; the tuner's reason is one constant text.
- 64-bit overflow of money, times and counts: integers are unbounded.
- Floating point: distances, ratios, coordinates and scores are exact reals, so NaN, infinities and rounding error are not modelled; `tuningStep` is taken as a whole-number tenth, at least one.
- Great-circle distance and the spatial query: distances and nearby partners are inputs.
- The gateway's own calls and signatures: its reference, its word and its consent to a refund are inputs.
- Texts that are not valid UTF-8: a text is a sequence of characters, its byte length that of their UTF-8 encoding.
- Liveness: a lost call may leave a captured payment whose order was never told; only safety is claimed.
- Offer and acceptance counters, whose storage is in code that is not part of this model.
- Dispatch.DispatchDesk.Sweep: which jobs are picked when there are more than the limit is any choice; the repository's oldest-first order is not modelled.
- Safety.CancellationsAreInTime: bounds a cancellation by the longest window allowed; the window in force for the request itself is `Provenance.CancellationsMeetTheirWindow`.
- Cart prices, addresses and timestamps; order lines beyond the total, which does not equal the sum of its lines in the source either.
- Ids.New: the clock, the entropy source and the lock; milliseconds and sixteen bytes are inputs.
- Schedule.Decode: when two keys name one day (as "3" and "+3" do) either may win, as the iteration order of the source's map decides.
- EveryDay, Windows and IsEmpty of the timetable, which would only add easy members.
- Merchant approval, address book, reviews, tracking, identity and migrations: smaller state machines that would only add easy members.
