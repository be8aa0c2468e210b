# JetSim: payment, order and eSIM issue, verified

JetSim sells eSIMs. A checkout writes a transaction, an order and its SIM rows; the bank confirms the
payment through a webhook, and a polling job asks the bank in case the webhook is lost; the confirmed
payment starts the issue of the eSIMs at JoyTel, BillionConnect or Mobiline; their callbacks complete the
SIMs; a recovery job restarts issues that were lost, and another job cancels orders nobody paid for. All
of them run concurrently and coordinate only through guarded updates of database rows. This project models
that protocol and proves what it keeps in every interleaving, and it models five smaller parts of the
backend: the shared SkyBlue session, the coalescing of balance checks and their bounded diagnostics map,
the arithmetic of checkout and reports, the balance normaliser, and the bank's token.

`dafny verify dfyconfig.toml` checks everything.

## How the protocol is modelled

- `Tables` holds the database rows, `Protocol` the state machine. An actor is one running call of the
  backend; its constructor is its program counter. One Prisma call, or one `$transaction`, is one step, and
  any other actor may move between two steps. Answers of other systems and of queries are inputs. An actor
  that never moves again is one that crashed.
- `Backends.Backend` is the same protocol in the form the services have: tables updated in place, one
  method for each stretch of code between two awaits. Each method does to the tables what the state
  machine says, `Serve` runs any allowed sequence of events, and so every theorem below holds of it.
- `Invariant` states the inductive invariant and what one actor's step guarantees to all others; the
  modules `SimSteps` to `JobSteps` prove it step by step, `Machine` puts them together. `Safety`,
  `Verdicts`, `Deliveries`, `Recovery`, `Cancellations`, `Callbacks` and `Baskets` state the theorems about
  every run. `Causes` traces each value in a row back to the event of the run that brought it; `Answers` and
  `ProviderAnswers` say the converse: what an answer or a callback makes the call that got it write next,
  however long the call waits and whatever all others do meanwhile.
  `Findings` and `Witness` state what does not hold, exactly when, and concrete runs.
- Each row has a trace part: counters of outgoing calls and the winners of guarded updates. No branch of
  the protocol reads it. The theorems about calls, payments, launches, webhook wins and confirmations count
  them on the events of the run; the trace only carries their proofs.
- The methods of `Backends.Backend` for single stretches of code each equal one step of the state machine.
  The table below names the lemma that says what such a step keeps, and of the methods those that decide a
  race or serve whole runs.

Assumptions, each a clause of `Protocol.Enabled` or of the type of a row: the bank confirms only a
transaction whose Init it accepted; an order is a day old only after its checkout has written all its rows;
BillionConnect calls back only for a SIM it was sent; transactions always have a user; promo codes, tariffs
and partners are not edited during a run; `OrderEventsService.record` and the Telegram notifications never
throw. The boolean re-entrancy guards of the jobs are not relied on: two ticks of a job may overlap.

For SkyBlue, a Redis command takes effect at one instant and its caller goes on at most `latency`
milliseconds later, tokens of two calls differ, and a request takes at most 12 seconds. The amounts of a
promo code come from settings whose validation refuses negative ones
(src/modules/promocode/dto/promo-settings.dto.ts:12-19).

## Where the code does less than one might expect

- COMPLETED is not final for BillionConnect: the update that follows the submission names no status, so it
  overwrites an early callback. A COMPLETED SIM stays COMPLETED in every continuation exactly when no call
  stands before that update (`Findings.CompletedIsFinalExactlyWhen`, `Witness.CompletedIsOverwritten`).
- A paid transaction need not have its usage CONFIRMED: a refusal cancels the usage even when its own
  update lost. At any instant the usage of a paid transaction can still become CONFIRMED exactly when the
  launched confirmation has not read it yet and it is PENDING, or is about to apply it, and the promo is
  active and below its limit (`Findings.ConfirmedExactlyIfConfirmable`, and the same concrete run).
- The SkyBlue lock keeps logins apart exactly while three Redis commands and two requests fit into its life
  (`SkyBlue.LockSufficesExactlyWhen`). Only with four commands is no login sent needlessly, and no session
  stored without the lock (`SkyBlue.LoginsAreNeededExactlyWhen`, `SkyBlue.StoresAreGuardedExactlyWhen`).
- A stored balance does not keep every call from refreshing it again within the minute: a call may start
  another refresh before the minute is over exactly when it has read the SIM already and what it has read is
  older (`Coalescing.RefreshesAgainExactlyWhen`, with a concrete run in `Coalescing.OldReadRefreshesAgain`).
- An order can be COMPLETED although its only SIM is FAILED (`Witness.CompletedWithFailedSim`). It comes to that
  in exactly two ways (`Findings.MisleadsExactlyAfter`), and a COMPLETED order is safe from it in every
  continuation exactly when none of its SIMs is FAILED, none is about to be submitted to or refused by JoyTel
  or BillionConnect, and none of Mobiline is PENDING or NOTIFY_COUPON
  (`Findings.CompletedOrderIsTrueExactlyWhen`).
- Only Mobiline delivers a SIM once: the callbacks of JoyTel and BillionConnect look at no status, so each of
  them writes COMPLETED and sends the eSIM to its owner again. No run delivers a SIM twice exactly for the
  other providers (`Deliveries.DeliveredOnceExactlyFor`, with a run for each of the two), and once a callback
  can find the SIM, any number of deliveries is possible (`Deliveries.DeliversAnyNumber`).
- The flag that blocks SkyBlue logins stops every call but those that have read it for the last time already
  (`SkyBlue.LoginsDespiteFlagExactlyWhen`; `SkyBlue.PastFlagReached` is such a state).

## Model

| member | source | states |
|---|---|---|
| `Safety.EachCallAtMostOnce` | src/modules/order/create-sim/create-sim.service.ts:290-303 | in every run each SIM is submitted at most once and its QR requested at most once, and a SIM of Mobiline is delivered at most once, counted on the events |
| `Deliveries.DeliveredAsOftenAsCompleted` | src/modules/order/order.service.ts:1278-1312 | in every run a SIM of JoyTel or BillionConnect is delivered exactly as often as a callback completes it, but for callbacks that still stand before their delivery; both counted on the events |
| `Deliveries.DeliversAnyNumber` | src/modules/order/order.service.ts:1371-1424 | once a callback can find a SIM of JoyTel or BillionConnect, some continuation delivers it any given number of times |
| `Deliveries.DeliveredOnceExactlyFor` | src/modules/order/order.service.ts:1278-1312 | no run from empty tables delivers a SIM of a provider twice exactly when the provider is neither JoyTel nor BillionConnect |
| `Witness.FindableRun` | src/modules/order/order.service.ts:1266-1277 | for JoyTel and BillionConnect a concrete run after which a callback finds the SIM |
| `Safety.CallsAreCounted` | src/modules/order/create-sim/create-sim.service.ts:22-203 | the calls of a run are exactly the change of the row counters |
| `Safety.SubmittedOnlyWhenPaid` | src/modules/payment/payment.service.ts:504-546 | a SIM is submitted only by the winner of its claim, and only while its order's transaction is SUCCESS, linked both ways and not cancelled |
| `Safety.SimsMoveAlongEdges` | src/modules/order/create-sim/create-sim.service.ts:55-66 | every event moves a SIM along an edge of its provider's status machine; none leads back to CREATED |
| `Safety.CouponMeansClaimed` | src/modules/order/order.service.ts:1210-1238 | a JoyTel SIM with a coupon is NOTIFY_COUPON or COMPLETED, and it has order ids exactly from REDEEM_COUPON on |
| `Safety.QrRequestedOrAboutTo` | src/modules/order/create-sim/create-sim.service.ts:148-181 | a JoyTel SIM has passed REDEEM_COUPON exactly when its QR was requested or one actor is about to, never both |
| `Safety.DeliveredOrAboutTo` | src/modules/order/mobiline-activation.service.ts:132-217 | a Mobiline SIM is COMPLETED exactly when it was delivered or the winning callback is about to, never both, and then has ICCID and QR that are not blank |
| `Safety.MobilineIsFinal` | src/modules/order/mobiline-activation.service.ts:122-152 | after COMPLETED or FAILED no column of a Mobiline row changes in any continuation of the run |
| `Safety.PaidAndLaunchedOnce` | src/modules/payment/payment.service.ts:504-548 | a transaction turns SUCCESS, and its issue is launched, once if it ends SUCCESS and else never; the webhooks that won plus the poll counts are the number of SUCCESS transactions; all counted on the events |
| `Safety.LaunchesExactlyWithPayment` | src/modules/payment/payment.service.ts:544-548 | an event starts a confirmation of a transaction exactly when it is the winning update, and then one |
| `Safety.WinnerPaysAndLaunches` | src/modules/payment/payment.service.ts:544-548 | the winning update pays the transaction and starts processConfirmedPayment for it |
| `Safety.PaymentsAreCounted` | src/modules/payment/payment.service.ts:599-620 | the winning updates of a run are exactly the change of being SUCCESS |
| `Safety.TransactionsMoveAlongEdges` | src/modules/payment/payment.service.ts:415-427 | no event leads back to PENDING, SUCCESS is final, and otherwise only a failed checkout still writes ERROR |
| `Safety.PromoAccounting` | src/modules/promocode/promocode.service.ts:715-773 | in every run used_count is the number of CONFIRMED usages and within the limit, and the ledger holds exactly one row for each CONFIRMED usage with a credit, for that amount and agent |
| `Safety.CancelledForGood` | src/modules/jobs/jobs.service.ts:128-163 | after an order was cancelled, in every continuation it stays FAILED, no transaction of it is paid and no SIM of it is claimed or submitted |
| `Safety.PaidIsNotCancelled` | src/modules/jobs/jobs.service.ts:131-140 | the order of a paid transaction has not been cancelled and is not cancelled by any next event |
| `Cancellations.TickDecides` | src/modules/jobs/jobs.service.ts:82-126 | once a tick of the stale-order job is worked off, every order it had listed is cancelled or paid for, never both, whatever else happens meanwhile |
| `Cancellations.TickCanEnd` | src/modules/jobs/jobs.service.ts:102-120 | from every reachable world such a tick can be worked off by its own moves alone |
| `Cancellations.StaleOrderDecides` | src/modules/jobs/jobs.service.ts:128-163 | the job cancels the order it is at exactly if it is CREATED without SUCCESS or WAITING transaction: order and CREATED SIMs FAILED, PENDING transactions CANCELED, all other rows as they were |
| `Cancellations.CancelledUsagesEnd` | src/modules/jobs/jobs.service.ts:106-112 | in every run the usage of a cancelled order is CANCELED or still on the list of a running job |
| `Verdicts.OrderStatusMeans` | src/modules/order/order.service.ts:811-818 | in every run the status of an order is what was written last, a verdict or FAILED by a cancellation, and else CREATED; an order is CREATED, cancelled and FAILED, or paid; a COMPLETED one has no SIM left in CREATED |
| `Verdicts.OrderGetsItsVerdict` | src/modules/order/order.service.ts:777-818 | a run of create that reaches its end writes FAILED exactly when one of its SIMs failed in that run, whatever happens meanwhile, and else COMPLETED |
| `Verdicts.FailuresAreRemembered` | src/modules/order/order.service.ts:794-804 | within one run hasFailedSims is set exactly when a failure happened since, whatever other actors do |
| `Verdicts.LastWriterWins` | src/modules/order/order.service.ts:811-818 | an event changes the status of an order exactly when it is the end of a run of create or a cancellation, and to their status |
| `Safety.OrdersLeaveCreatedForGood` | src/modules/jobs/jobs.service.ts:142-149 | no event leads an order back to CREATED |
| `Recovery.TickTakesTwenty` | src/modules/jobs/jobs.service.ts:45-74 | a tick that is worked off while no transaction is paid takes up to 20 transactions out of the backlog and puts none in, whatever is answered and whatever else happens |
| `Recovery.RecoveryDrains` | src/modules/jobs/jobs.service.ts:45-74 | without new payments, ceil(n/20) ticks empty a backlog of n |
| `Recovery.MovesDescend` | src/modules/order/order.service.ts:780-818 | each move of a running issue, whatever is answered, brings it nearer to its end |
| `Recovery.TickCanEnd` | src/modules/jobs/jobs.service.ts:68-74 | from every reachable world a tick can be worked off by its own moves alone |
| `Recovery.TickExists` | src/modules/jobs/jobs.service.ts:46-66 | in every reachable world there is a tick, and it can end |
| `Recovery.BacklogShrinks` | src/modules/jobs/jobs.service.ts:46-57 | a paid transaction never enters the backlog again |
| `Recovery.LaunchedIssueEnds` | src/modules/payment/payment.service.ts:544-548 | once the call launched by a payment has ended, whatever happened meanwhile, no SIM of that order is left CREATED |
| `Callbacks.CallbackResolves` | src/modules/order/mobiline-activation.service.ts:114-121 | in every run no two SIMs share a correlation id |
| `Callbacks.AllNamed` | src/modules/order/mobiline-activation.service.ts:50-57 | in every run each correlation id was built for the SIM that carries it |
| `Correlation.CorrelationIsInjective` | src/http/mobiline.gateway.ts:12-27 | two correlation ids are equal exactly when they are of the same SIM and second, for ids of any number of digits |
| `Correlation.DecimalRoundTrip` | src/http/mobiline.gateway.ts:27 | the decimal text of an id denotes the id |
| `Correlation.PaddedValue` | src/http/mobiline.gateway.ts:27 | padding to six digits keeps the number |
| `Correlation.ChannelOrderIdMeans` | src/http/mobiline.gateway.ts:12-27 | a correlation id is group, stamp and the number of the SIM in at least six digits, with leading zeros only up to six |
| `Findings.CompletedIsFinalExactlyWhen` | src/modules/order/create-sim/create-sim.service.ts:242-250 | a COMPLETED SIM stays COMPLETED in every continuation exactly when no actor stands before the unguarded answer update of BillionConnect for it |
| `Findings.CompletedIsLeftExactlyBy` | src/modules/order/create-sim/create-sim.service.ts:242-250 | an event takes a SIM out of COMPLETED exactly when it is that update |
| `Findings.CompletedOrderIsTrueExactlyWhen` | src/modules/order/order.service.ts:811-818 | a COMPLETED order has no FAILED SIM in any continuation in which it is COMPLETED exactly when none is FAILED now, none is about to be submitted to or refused by JoyTel or BillionConnect, and none of Mobiline is PENDING or NOTIFY_COUPON |
| `Findings.MisleadsExactlyAfter` | src/modules/order/order.service.ts:811-818 | an event makes an order COMPLETED with a FAILED SIM exactly when a run without failures of its own concludes over a FAILED SIM, or a SIM of the COMPLETED order is refused |
| `Findings.ConfirmationsAreCounted` | src/modules/promocode/promocode.service.ts:725-772 | a usage becomes CONFIRMED only by a promo transaction that the database lets through while the promo is active and below its limit, at most once in a run, and stays CONFIRMED |
| `Findings.ConfirmedExactlyIfConfirmable` | src/modules/promocode/promocode.service.ts:716-723 | the usage of a paid transaction can still become CONFIRMED in some continuation exactly when its launched confirmation is yet to read it as PENDING or to apply it, and the promo is active and below its limit |
| `Witness.CompletedIsOverwritten` | src/modules/payment/payment.service.ts:428 | a concrete run from empty tables: COMPLETED goes back to NOTIFY_COUPON, and a paid transaction's usage is CANCELED |
| `Witness.CompletedWithFailedSim` | src/modules/order/order.service.ts:811-818 | a concrete run: the recovery job starts a second run of create, the first writes FAILED, the second claims nothing and writes COMPLETED over it |
| `Causes.TransactionStatusHasCause` | src/modules/payment/payment.service.ts:599-617 | in every run a transaction is SUCCESS only if the run holds a webhook CONFIRMED for it or the answer CONFIRMED to a poll that stood at it, FAILED only after a refusal of it, ERROR only after its Init failed, CANCELED only after the stale-order job found its order CREATED and unpaid |
| `Causes.EsimIsFromCallback` | src/modules/order/mobiline-activation.service.ts:132-150 | in every run the ICCID and the QR of a COMPLETED SIM are both those of one callback of its provider in the run, for Mobiline a successful one |
| `Causes.PaymentIdIsGiven` | src/modules/payment/payment.service.ts:314-319 | in every run the payment id of a transaction is one the bank gave it, in the answer to Init or in a webhook |
| `Causes.CodesAreGiven` | src/modules/order/create-sim/create-sim.service.ts:55-66 | in every run the order ids of a SIM are those JoyTel answered its submission with, and its coupon is one JoyTel gave for it |
| `Causes.SimStatusHasCause` | src/modules/order/create-sim/create-sim.service.ts:38-66 | in every run a SIM has left PENDING only by an answer or callback for it that says so, or is FAILED because its activation could not be built or its order was given up |
| `Causes.NothingWithoutCause` | src/modules/order/order.service.ts:1266-1300 | nothing shows in a row, or is on its way to one, that did not before the run and that no event of it has said |
| `Answers.PollAnswerDecides` | src/modules/payment/payment.service.ts:599-617 | on the answer CONFIRMED the next move of the poll pays the transaction asked about if it is PENDING then, with its payment id, and else writes none; on any other answer the poll only goes on |
| `Answers.PollAsksAboutAll` | src/modules/payment/payment.service.ts:598-601 | a poll that has ended has asked about each transaction its query returned |
| `Answers.ConfirmationDecides` | src/modules/payment/payment.service.ts:504-548 | the webhook CONFIRMED pays the transaction it names if it is PENDING when its update comes, with its payment id, and else writes none |
| `Answers.RefusalDecides` | src/modules/payment/payment.service.ts:415-428 | a refusal makes a transaction that is PENDING then FAILED and no other, and with the next move its usage is CANCELED if still PENDING, whether the update won or not |
| `Answers.InitDecides` | src/modules/payment/payment.service.ts:314-319 | an accepted Init opens the transaction, and its payment id is stored next, whatever the status is by then |
| `Answers.InitFailureDecides` | src/modules/payment/payment.service.ts:266-312 | a failed Init makes the transaction ERROR, and then its usage CANCELED if still PENDING |
| `Answers.PromoTransactionDecides` | src/modules/promocode/promocode.service.ts:715-773 | a launched confirmation that found the usage PENDING counts the use, confirms the usage and credits the agent exactly when the code is active and below its limit at that moment, and else cancels the usage |
| `ProviderAnswers.ClaimDecides` | src/modules/order/order.service.ts:780-801 | the next SIM of a run is claimed and submitted next if it is CREATED, one of Mobiline under its own id or made FAILED if that cannot be built, and else left as it is |
| `ProviderAnswers.JoyAnswerDecides` | src/modules/order/create-sim/create-sim.service.ts:50-66 | JoyTel's order ids are stored with REDEEM_COUPON and its coupon asked for next; without them the SIM is FAILED and the run knows |
| `ProviderAnswers.QueryAnswerDecides` | src/modules/order/create-sim/create-sim.service.ts:127-181 | a coupon the query brings is stored, and the QR requested next, exactly if the SIM is REDEEM_COUPON by then |
| `ProviderAnswers.CouponCallbackDecides` | src/modules/order/order.service.ts:1210-1235 | the callback with the coupon does the same under the same condition |
| `ProviderAnswers.BcAnswerDecides` | src/modules/order/create-sim/create-sim.service.ts:237-250 | BillionConnect's answer makes the SIM NOTIFY_COUPON or FAILED, whatever its status is by then |
| `ProviderAnswers.MobReplyDecides` | src/modules/order/mobiline-activation.service.ts:61-82 | Mobiline's reply makes a SIM that is still PENDING NOTIFY_COUPON or FAILED, and no other |
| `ProviderAnswers.MobCallbackDecides` | src/modules/order/mobiline-activation.service.ts:122-152 | a callback of Mobiline makes a SIM that is PENDING or NOTIFY_COUPON COMPLETED with its ICCID and QR, or FAILED, and writes nothing when it is final or a success lacks usable data |
| `ProviderAnswers.EsimCallbackDecides` | src/modules/order/order.service.ts:1278-1300 | the callback with the eSIM makes the SIM COMPLETED with the ICCID and QR it brought, whatever the status, and delivers it next |
| `Baskets.CheckoutWritesItsBasket` | src/modules/payment/payment.service.ts:161-215 | when a checkout comes to ask the bank, and for ever after, its transaction is the user's and linked with one order both ways, that order has exactly the SIMs of the basket, and the usage has the columns of the offer |
| `Machine.NextKeeps` | src/modules/order/order.service.ts:720-838 | every event, whoever moves and whatever is answered, keeps the invariant of all tables and actors |
| `Machine.RunKeeps` | src/modules/order/order.service.ts:720-838 | every world an allowed run reaches satisfies the invariant |
| `ProvisionSteps.ClaimingKeeps` | src/modules/order/order.service.ts:780-801 | claiming a SIM of a paid order keeps the invariant, whatever provider |
| `ProvisionSteps.JoyClaimKeeps` | src/modules/order/create-sim/create-sim.service.ts:148-171 | the proactive claim of a coupon keeps it |
| `ProvisionSteps.JoyPinCallbackKeeps` | src/modules/order/order.service.ts:1210-1235 | the callback's claim of a coupon keeps it |
| `ProvisionSteps.CompleteKeeps` | src/modules/order/order.service.ts:1388-1412 | the unguarded completing updates keep it |
| `ProvisionSteps.MobAnswerKeeps` | src/modules/order/mobiline-activation.service.ts:74-82 | the guarded answer of Mobiline keeps it |
| `ProvisionSteps.MobCallbackKeeps` | src/modules/order/mobiline-activation.service.ts:132-152 | the guarded callback of Mobiline keeps it, and writes the ICCID and the QR the callback brought |
| `PaymentSteps.PaidKeeps` | src/modules/payment/payment.service.ts:504-546 | a winning confirmation keeps it |
| `PaymentSteps.MarkErrorKeeps` | src/modules/payment/payment.service.ts:270-276 | the unguarded ERROR write keeps it |
| `PromoSteps.ApplyUsageKeeps` | src/modules/promocode/promocode.service.ts:725-772 | the promo transaction on a row read before keeps it |
| `JobSteps.StaleKeeps` | src/modules/jobs/jobs.service.ts:106-112 | cancelling a stale order keeps it |
| `ProvisionSteps.JoySubmitKeeps` | src/modules/order/create-sim/create-sim.service.ts:38-53 | submitting to JoyTel keeps the invariant: it is the one submission of that SIM, by the winner of its claim |
| `ProvisionSteps.JoyAcceptKeeps` | src/modules/order/create-sim/create-sim.service.ts:55-66 | the unguarded write of order ids and REDEEM_COUPON keeps it: the row is still PENDING and the submitter's |
| `ProvisionSteps.FailKeeps` | src/modules/order/create-sim/create-sim.service.ts:318-338 | the unguarded FAILED of a refused submission keeps it |
| `ProvisionSteps.JoyQueryKeeps` | src/modules/order/create-sim/create-sim.service.ts:119-141 | the proactive query keeps it, whatever JoyTel answers |
| `ProvisionSteps.BcSubmitKeeps` | src/modules/order/create-sim/create-sim.service.ts:217-240 | submitting to BillionConnect keeps it |
| `ProvisionSteps.BcAcceptKeeps` | src/modules/order/create-sim/create-sim.service.ts:242-250 | the unguarded NOTIFY_COUPON keeps it, even over an early COMPLETED |
| `ProvisionSteps.MobClaimingKeeps` | src/modules/order/mobiline-activation.service.ts:32-58 | claiming a Mobiline SIM with its correlation id, or failing it when the activation cannot be built, keeps it |
| `ProvisionSteps.NoClaimKeeps` | src/modules/order/order.service.ts:780-804 | passing over a SIM whose claim is lost keeps it |
| `ProvisionSteps.MobSubmitKeeps` | src/modules/order/mobiline-activation.service.ts:61-73 | submitting to Mobiline keeps it, with or without an answer |
| `ProvisionSteps.MobCheckKeeps` | src/modules/order/mobiline-activation.service.ts:109-111 | reading the row back after the answer keeps it |
| `ProvisionSteps.DeliverKeeps` | src/modules/order/mobiline-activation.service.ts:153-217 | delivering keeps it: at Mobiline it uses up the right its winner holds, elsewhere it follows a completing callback |
| `JobSteps.MobCallbackStarts` | src/modules/order/mobiline-activation.service.ts:114-131 | a Mobiline callback keeps the invariant for any body, and starts the guarded update exactly when the SIM is not final and the data, of a success, is usable |
| `JobSteps.ReadOrderKeeps` | src/modules/order/order.service.ts:723-755 | a run that starts lists every CREATED SIM of its paid order, or ends with none left |
| `JobSteps.ConcludeKeeps` | src/modules/order/order.service.ts:811-818 | the verdict is written into a paid order that is not cancelled and has no SIM left in CREATED |
| `PaymentSteps.MakeTxKeeps` | src/modules/payment/payment.service.ts:164-170 | a new transaction keeps the invariant |
| `PaymentSteps.MakeOrderKeeps` | src/modules/payment/payment.service.ts:172-179 | a new order keeps it: no other order names the transaction |
| `PaymentSteps.LinkOrderKeeps` | src/modules/payment/payment.service.ts:181-184 | the link of the transaction to its order keeps it: both point to each other |
| `PaymentSteps.MakeUsageKeeps` | src/modules/promocode/promocode.service.ts:694-713 | a new PENDING usage keeps it: the transaction had none |
| `PaymentSteps.NewSimKeeps` | src/modules/payment/payment.service.ts:200-215 | a new SIM row keeps it: its order is not prepared and its transaction not paid |
| `PaymentSteps.InitPaymentKeeps` | src/modules/payment/payment.service.ts:266-314 | Init keeps it: the bank gets to know only transactions whose rows are all written |
| `PaymentSteps.SavePaymentIdKeeps` | src/modules/payment/payment.service.ts:314-319 | storing the payment id keeps it, whatever the status is by then |
| `PaymentSteps.RefuseTxKeeps` | src/modules/payment/payment.service.ts:415-428 | a refusal keeps it, whether its guarded update wins or not |
| `PaymentSteps.PollConfirmKeeps` | src/modules/payment/payment.service.ts:604-612 | the confirming update of the poll, after the answer CONFIRMED, keeps it, and the poll counts exactly its own wins |
| `PaymentSteps.CancelUsageKeeps` | src/modules/promocode/promocode.service.ts:775-786 | cancelling a usage keeps it: only PENDING ones, so no count and no ledger row changes |
| `PromoSteps.ReadUsageKeeps` | src/modules/promocode/promocode.service.ts:716-723 | reading usage and promo ahead of the promo transaction keeps it |
| `JobSteps.StaleUsagesKeeps` | src/modules/jobs/jobs.service.ts:106-112 | cancelling the usages of a cancelled order keeps it |
| `Backends.Backend.Serve` | src/modules/order/order.service.ts:720-838 | a backend that serves an allowed run event by event ends where the run ends; its tables then say: at most one submission and QR request for each SIM and one delivery for each of Mobiline, claimed SIMs are paid for, cancelled orders are FAILED and not paid, used_count counts the CONFIRMED usages within the limit, and the ledger matches them |
| `Backends.Backend.Advance` | src/modules/order/order.service.ts:720-838 | a call goes on to its next await exactly as the state machine says; a poll goes on to pay exactly on the answer CONFIRMED, and a callback writes COMPLETED with its own ICCID and QR |
| `Backends.Backend.ClaimSim` | src/modules/order/create-sim/create-sim.service.ts:290-303 | wins exactly when the SIM is CREATED, and then it is PENDING |
| `Backends.Backend.ClaimCoupon` | src/modules/order/create-sim/create-sim.service.ts:148-160 | wins exactly when the SIM is REDEEM_COUPON, and then it is NOTIFY_COUPON with its coupon |
| `Backends.Backend.ConfirmTransaction` | src/modules/payment/payment.service.ts:496-549 | wins exactly when the transaction is PENDING, and then it is SUCCESS and its issue launched |
| `Backends.Backend.CancelStaleOrder` | src/modules/jobs/jobs.service.ts:128-163 | cancels exactly a CREATED order without paid transaction, with its CREATED SIMs and PENDING transactions |
| `SkyBlue.OneLoginAtATime` | src/http/skyblue.gateway.ts:77-119 | at most one login request is out, and its call holds the lock, while three commands and two requests fit into the lock's life |
| `SkyBlue.LockSufficesExactlyWhen` | src/http/skyblue.gateway.ts:77 | the lock keeps logins apart in every run exactly under that bound |
| `SkyBlue.TwoLogins` | src/http/skyblue.gateway.ts:12-17 | a run with two login requests at the same time for every latency beyond the bound |
| `SkyBlue.LoginOnlyWhenStale` | src/http/skyblue.gateway.ts:79-89 | while four commands and two requests fit into the lock's life, a login request is out only while the stored session is absent or the caller's stale one |
| `SkyBlue.LoginsAreNeededExactlyWhen` | src/http/skyblue.gateway.ts:79-89 | that bound is exact: for every slower Redis a run reaches a login request that the stored session makes needless |
| `SkyBlue.StoresUnderLock` | src/http/skyblue.gateway.ts:109 | under the same bound nobody changes the stored session to another one without holding the lock |
| `SkyBlue.StoresAreGuardedExactlyWhen` | src/http/skyblue.gateway.ts:109 | and that bound is exact: for every slower Redis a run reaches a call that stores its session after its lock has died |
| `SkyBlue.LocksAreSafe` | src/http/skyblue.gateway.ts:111-117 | no event of another call takes away or replaces a living lock |
| `SkyBlue.LoginsDespiteFlagExactlyWhen` | src/http/skyblue.gateway.ts:76-82 | while the flag stands, some continuation has a login request of the call out before the flag falls exactly when the call has read it for the last time already |
| `SkyBlue.RefusalIsFlagged` | src/http/skyblue.gateway.ts:63-67 | one command after a login was refused, its call has stopped or the flag stands until ten minutes after the refusal at least; the call deletes the stored session and ends without one |
| `SkyBlue.LoginGivesItsSession` | src/http/skyblue.gateway.ts:101-110 | the session a login stores and returns is the cookie of the login response, and that of the page only if the response brings none, in every continuation unless the call stops |
| `SkyBlue.CookieIsOfPage` | src/http/skyblue.gateway.ts:85-98 | in every run the cookie a login request goes out with is the one the login page set |
| `SkyBlue.SessionHasOrigin` | src/http/skyblue.gateway.ts:75-110 | in every run a call ends with a session only if its own login gave it, or it read it in the store and it was not its stale one |
| `SkyBlue.StoredSessionHasOrigin` | src/http/skyblue.gateway.ts:109 | in every run the stored session was there before, or some login in the run gave it |
| `SkyBlue.FlagHasCause` | src/http/skyblue.gateway.ts:102-108 | in every run the flag changes only by getEsimDetail or a refused login |
| `SkyBlue.FailureHasCause` | src/http/skyblue.gateway.ts:73-122 | in every run a call ends without session only after 15 seconds, while blocked, without usable answer, or refused |
| `SkyBlue.AtMostHundredRounds` | src/http/skyblue.gateway.ts:72-121 | the wait loop makes at most 100 rounds, however slow Redis is |
| `SkyBlue.RunKeeps` | src/http/skyblue.gateway.ts:69-123 | the invariant of lock, session and deadlines holds in every run |
| `SkyBlue.Gateway.Advance` | src/http/skyblue.gateway.ts:69-123 | a call goes on to its next await exactly as the state machine says; after a login it goes on to store the cookie of the response, and that of the page only if the response brings none |
| `SkyBlue.Gateway.TakeLock` | src/http/skyblue.gateway.ts:77 | wins exactly when no living lock is there |
| `SkyBlue.Gateway.DropLock` | src/http/skyblue.gateway.ts:112-117 | deletes the lock only when it is the caller's |
| `Coalescing.OneRefreshPerSim` | src/modules/usage/usage.service.ts:63-67 | at most one refresh of a SIM is under way, and the map has its entry exactly then |
| `Coalescing.RepliesAreRight` | src/modules/usage/usage.service.ts:51-68 | every reply is about a SIM of the caller, or any SIM for staff, NotFound only about another, and a waiting call gets the reply of the refresh it waited for |
| `Coalescing.DirectReplies` | src/modules/usage/usage.service.ts:57-62 | in every run a reply without a refresh is Unsupported, NotReady or the stored balance, each by what the call has read |
| `Coalescing.FailureHasOrigin` | src/modules/usage/usage.service.ts:128-141 | in every run a reply from a refresh that is no balance is what that refresh failed with |
| `Coalescing.BalanceHasOrigin` | src/modules/usage/usage.service.ts:118-127 | in every run a balance replied was stored for that SIM before, or is what its provider answered in the run, checked at that instant |
| `Coalescing.WaitersShare` | src/modules/usage/usage.service.ts:63-64 | calls waiting for a refresh of one SIM under way wait for the same one |
| `Coalescing.RefreshesAgainExactlyWhen` | src/modules/usage/usage.service.ts:53-67 | while a stored balance is younger than a minute, some continuation has the call start another refresh within that minute exactly when the call has read the SIM already and its row is older |
| `Coalescing.OneRefreshAMinute` | src/modules/usage/usage.service.ts:60-67 | a call whose read is not older, or that reads afterwards, starts no refresh within the minute; it is answered with a balance at least as new |
| `Coalescing.OldReadRefreshesAgain` | src/modules/usage/usage.service.ts:53-67 | a concrete run: a call that read the SIM before the balance was stored starts a second refresh within the minute |
| `Coalescing.UsageService.Serve` | src/modules/usage/usage.service.ts:51-68 | a service that serves an allowed run ends where the run ends, with at most one unfinished refresh for each SIM |
| `Diagnostics.Diagnostics.Record` | src/modules/usage/usage.service.ts:142-147 | the map is always the last 200 SIMs of the refresh log, in order of their last refresh, each with its last report |
| `Diagnostics.RecordedIsLast` | src/modules/usage/usage.service.ts:144-146 | delete, set and evict on 200 entries come to the same as on all of them |
| `Diagnostics.LastOfEachAppend` | src/modules/usage/usage.service.ts:144-145 | a refresh moves its SIM to the end |
| `Diagnostics.LastOfEachMeans` | src/modules/usage/usage.service.ts:144-145 | an entry is kept exactly when no later refresh of its SIM follows |
| `Diagnostics.Diagnostics.Get` | src/modules/usage/usage.service.ts:31-33 | the report shown is the kept one, and none exactly when there is none |
| `Checkouts.PreparePayment` | src/modules/payment/payment.service.ts:127-215 | charge, discount, stored amount, receipt and SIM rows of a basket, or the right refusal; charge plus discount is the sum over the items of their own price, else the tariff's, else 0, times the quantity; the charge is positive with a promo, and what the receipt lines add up to |
| `Checkouts.AcceptedExactlyWhen` | src/modules/promocode/promocode.service.ts:639-692 | a code is accepted exactly when it may be used and leaves something to pay, and gives its whole discount |
| `Checkouts.RefusedWith` | src/modules/promocode/promocode.service.ts:639-682 | each refusal with its reason, the first that applies; no code is no refusal |
| `Checkouts.TotalIsWorth` | src/modules/payment/payment.service.ts:131-134 | the total is the sum over the items of their own price, else the tariff's, else 0, times the quantity |
| `Checkouts.BuildReceipt` | src/modules/payment/payment.service.ts:660-683 | one line with the charge when there is a discount, else one line for each item at its own price, else the tariff's, else 0; and their sum |
| `Checkouts.MakeUnits` | src/modules/payment/payment.service.ts:200-215 | the nested loops make the rows of all units in order |
| `Checkouts.OneRowPerUnit` | src/modules/payment/payment.service.ts:200-215 | as many rows as units, each for an item and a supported provider |
| `Checkouts.UnitsAsOrdered` | src/modules/payment/payment.service.ts:200-215 | of each tariff and provider as many rows as the basket asks for |
| `Checkouts.TextRoundTrip` | src/modules/payment/payment.service.ts:166 | the amount stored as text reads back as the amount |
| `PromoReport.AggregateRows` | src/modules/promocode/promocode.service.ts:922-968 | one row for each agent or code, with count, clients, paid, discount, credit and gross summed over exactly its usages; rows sorted by credit, then paid, with stable ties; counts and sums equal those over all usages |
| `PromoReport.ReportIsSorted` | src/modules/promocode/promocode.service.ts:1001-1003 | sorting by credit and paid sorts, keeps the sums, and keeps the order of ties |
| `Sorting.SortSorts` | src/modules/promocode/promocode.service.ts:1001-1003 | a stable sort with any comparison: sorted, every item as often as before, ties in their order |
| `PromoReport.GroupStep` | src/modules/promocode/promocode.service.ts:988-999 | adding a usage changes exactly the row of its key |
| `PromoReport.RowOfMeans` | src/modules/promocode/promocode.service.ts:988-999 | the columns of a row are the sums over the usages with its key, and its clients their users |
| `PromoReport.GrossIsPaidPlusDiscount` | src/modules/promocode/promocode.service.ts:1022-1042 | gross is paid plus discount in every sum |
| `SalesReport.BuildSummary` | src/modules/reports/reports.service.ts:57-92 | grouped revenue and counts equal the row-by-row ones, and the three status counts add up to all rows |
| `SalesReport.GroupsSumToRows` | src/modules/reports/reports.service.ts:74-77 | a weighted sum over any grouping is the sum over the rows |
| `Normalizer.UsedPlusRemaining` | src/modules/usage/usage.normalizer.ts:37-40 | used plus remaining is the larger of total and used; unlimited plans have neither total nor remaining |
| `Normalizer.DaysLeft` | src/modules/usage/usage.normalizer.ts:41-63 | an activated plan with known expiry and no days given shows the begun days of 86400000 ms until then, none exactly when it is expired; without expiry or activation it shows none at all |
| `Normalizer.StateMeans` | src/modules/usage/usage.normalizer.ts:47-55 | not activated, expired, depleted and active, each exactly when it should be |
| `Normalizer.AmountsAreOk` | src/modules/usage/usage.normalizer.ts:38-40 | total and used to the cent, used never negative, and remaining what is left of the total |
| `Normalizer.DailyIsClose` | src/modules/usage/usage.normalizer.ts:67-69 | the days shown are sorted and add up to the dated counters within 0.005 for each |
| `Normalizer.EachDateIsOk` | src/modules/usage/usage.normalizer.ts:67-69 | for each date as many days are shown as it has counters, and they add up to them within 0.005 for each |
| `Normalizer.DailyIsSortedPermutation` | src/modules/usage/usage.normalizer.ts:67-69 | the daily rows come out sorted and are the dated rows, each as often as before |
| `Normalizer.RoundedDaysAreClose` | src/modules/usage/usage.normalizer.ts:21-22 | the rounded days add up to the true sum within 0.005 for each row |
| `Normalizer.JoytelAmounts` | src/modules/usage/usage.normalizer.ts:72-91 | refused exactly when JoyTel failed or gave no valid counter; amounts of tariff and counter to the cent; the dated rows in order, with their sum |
| `Normalizer.JoytelDates` | src/modules/usage/usage.normalizer.ts:77-95 | activated exactly with a usable start; the length is the nearest number of days between start and end, else the tariff's; the days left are those begun until the expiry |
| `Normalizer.SelectedPlan` | src/modules/usage/usage.normalizer.ts:97-106 | the first plan of the SIM's own sub-order, else the first in use, else the first; refused exactly without plans |
| `Normalizer.BcAmounts` | src/modules/usage/usage.normalizer.ts:107-128 | refused exactly without any counter; amounts of plan and of the larger counter; the dated rows in order |
| `Normalizer.BcState` | src/modules/usage/usage.normalizer.ts:123-141 | a plan in use is expired, depleted or active by clock and remainder, one that is over depleted or expired by its end, any other not activated; length as given or of the tariff; days left as given, never negative, or those begun until the end |
| `Normalizer.MobilineAmounts` | src/modules/usage/usage.normalizer.ts:142-163 | refused exactly for another ICCID or without counters; amounts of the quota or else of plan and rows; the dated rows in order |
| `Normalizer.MobilineDays` | src/modules/usage/usage.normalizer.ts:158-179 | exactly a day pass shows what the rows of today add up to within 0.005 for each, and its quota when given; length of plan or tariff; the days left are those begun until the expiry |
| `BankToken.GenerateToken` | src/http/tbank.gateway.ts:57-81 | the token is the hash of the signed fields and the password in the order of their keys |
| `BankToken.OrderDoesNotMatter` | src/http/tbank.gateway.ts:75-78 | the sorted keys do not depend on the order in which they were set |
| `Sorting.SortedIsUnique` | src/http/tbank.gateway.ts:75-78 | there is only one sorted order when different items never compare equal |
| `BankToken.SameFieldsSameRoot` | src/http/tbank.gateway.ts:60-71 | payloads are signed alike exactly when they carry the same signed fields: key order, nested fields and Token make no difference |
| `BankToken.RootMeans` | src/http/tbank.gateway.ts:60-71 | a key is signed with a text exactly if the payload has a root field of that key, not Token, that is this text, this number, or true or false so written |
| `BankToken.ReceivedMeans` | src/http/tbank.gateway.ts:39-43 | a payload carries a token exactly if its field Token is a text that is not empty |
| `BankToken.AtMostMeans` | src/http/tbank.gateway.ts:75-76 | keys are ordered by their UTF-16 units at the first difference, a prefix first |
| `BankToken.VerifyNotification` | src/http/tbank.gateway.ts:38-54 | accepted exactly when the token is, but for upper case, that of the payload |
| `BankToken.BuildPayload` | src/http/tbank.gateway.ts:83-95 | every payload built has its terminal, hook and success page, carries the token its verification expects, and keeps all other fields |

## Left out

- Database errors other than in the promo transaction, lost database replies, and actors that come back after a crash.
- A JoyTel callback without `coupon` or `orderTid`, which Prisma would treat as no condition at all.
- The order in which `take: 20` selects rows: any 20 are allowed.
- Promo, tariff and partner edits during a run, and the admin routes that change orders by hand.
- HTTP clients, signatures, QR images, Telegram, e-mail, sockets and logging: only outcomes and counted calls remain.
- The response, PIN, PUK and date columns, which no branch reads.
- `OrderEventsService.record`, the debug route of the order controller, authentication, users, staff, regions, tariffs, support and the dashboard: CRUD with easy properties.
- The Russian texts, the date filters, the Excel and PDF output and the descriptive columns of the reports.
- In the balance checks, whether a SIM is issued and has a provider is an input of the read, and the balance itself is one number.
- `getEsimDetail` around the SkyBlue login: its detail requests are not modelled, its blocking of logins is an event.
- SkyBlue.AtMostHundredRounds: takes for granted that a timer never fires early, so that a pause lasts at least 150 ms.
- Recovery.RecoveryDrains: counts ticks that have worked off their batch; when the scheduler starts the next one is not modelled.
- JavaScript floating point, `Intl`, time zones and the parsing of date texts: exact reals and given instants.
- `paginate` and `sanitizeProviderData`.
- Lower-casing beyond ASCII in the verification of tokens; no other character lower-cases to a hexadecimal digit.
