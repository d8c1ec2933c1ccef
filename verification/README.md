# Agentiko: verified models of its state machines

This project models the stateful parts of the Agentiko application and proves
what they promise. The application sells plans through coupons, authenticates
users against a soft-deleting table, provisions agents over a streamed
response, connects Telegram bots through a webhook protocol, and keeps tenants,
invites and phone numbers consistent. Each module models one of these.

| module | subject |
|---|---|
| `Coupons` | the tables, one redemption (`CouponDb.Redeem`, statement by statement), the preview |
| `CouponTimeline` | which plan is in force when; disjoint windows; the time a run covers |
| `CouponLedger` | audit rows, counts and append-only history |
| `CouponRaces` | any number of redemptions interleaved statement by statement under row locks |
| `CouponSolo` | an uninterrupted transaction of that machine is the sequential redemption |
| `CouponLocks` | what a transaction's locks secure until it ends |
| `CouponHistory` | what becomes of a tenant's active rows over any interleaving |
| `CouponAlone` | exactly when a redemption decides as if alone, whatever else goes on |
| `CouponSerial` | closed groups that found the same subscription running |
| `CouponIdle` | closed groups that found nothing running: who decides as if alone, whose windows overlap |
| `CouponUpgradeRace`, `CouponRenewalRace`, `CouponIdleRace` | runs of two redemptions whose windows overlap |
| `AuthGate` | SELECT, INSERT ... ON CONFLICT, re-SELECT, run by many requests at once with soft deletes |
| `ProvisionStream` | the newline-delimited JSON printer on the server and the incremental parser in the browser |
| `TelegramConnect` | the nonce and attempt ledger driven by webhooks delivered at least once |
| `Tenancy` | ownership, membership and invites behind their route guards |
| `RateLimiter` | the sliding-window limiter |
| `PhoneRegistry` | phone routes against live agents |
| `Readiness` | the back-off loop that waits for Telegram polling |
| `Options`, `Text` | optional values, and the string operations several modules share |

Conventions. Tables are sequences or maps of rows, in the order of insertion.
Instants are integers (microseconds for subscriptions, seconds for Telegram)
or reals where only a clock is compared. A database object is a class whose
methods run the statements in order and whose contracts equate its new contents
with a function of the old ones; the theorems are lemmas about those functions
and about runs. What a foreign call, a clock or the scheduler may do is a
parameter, so that a theorem covers every outcome. What an operation answers and
when it takes effect is also stated on the stored rows, without the definitions
it is computed by (lemmas such as `RefusedFor`, `LookupAnswers`, `TransferDoes`,
`ClosingIs`). Concurrent code is a machine
over single statements: an event that has to wait changes nothing, and every
sequence of events is a run.

## What came out

Where the code and its comments disagree, the model follows the code.

- A different plan at an equal price takes the upgrade branch, although the
  module's matrix reserves it for a higher price (`CouponTimeline.GrantShape`).
- Active windows can overlap. An upgrade supersedes only the running row, so a
  window queued earlier stays: `UpgradeOverlaps` is a run of three redemptions
  that does it, and `UpgradeDisjointIff` says exactly when an upgrade does not.
- Concurrent redemptions for one tenant serialize only in part. In every reachable
  world, whatever other redemptions of the tenant have found, and even if they
  begin later, one that has been scheduled and not committed decides as a
  redemption alone on the tables of the moment exactly as follows, m being what is
  in force there at the instant it was scheduled at (`CouponAlone.AloneIffOn`). An
  upgrade must have found m. Any other redemption must not be an upgrade to m and
  must start at the tail; or, there being no m, at that instant. In terms of what
  has committed since it was scheduled: an upgrade of r fails once an active window
  takes over from r (`UpgradeAlone`); a renewal or downgrade fails once a window
  committed since ends past its tail, the tail's windows are superseded, or its
  plan upgrades what has taken over (`QueueAlone`); one that found nothing fails
  once an active window holds its instant, unless it would follow on from it
  (`NothingAlone`). One that does decide so commits what the sequential decision
  grants (`CommitAlone`). Three kinds of run end with overlapping windows: two
  upgrades of one subscription (`CouponUpgradeRace.UpgradeRace`), two grants to a
  tenant with nothing running (`CouponIdleRace.IdleRace`, `TwoCheapMonths`), and
  two renewals, one queued just before the month's end and one begun just after it
  (`CouponRenewalRace.RenewalRace`). For closed groups, all of whose redemptions
  found the same subscription or all of which found nothing, the condition is
  simpler (`CouponSerial.MetDecide`, `CouponIdle.IdleDecide`). The ledger stays
  right in every interleaving.
- Replay of a managed-bot update is a no-op if and only if the Telegram user has
  at most one pending attempt; it is not keyed on the bot (`RedeliveryIff`, and
  the trace of `RedeliveryDoesMore`).
- After a failed configuration patch the status endpoint shows the bot as
  connected, because the row is enabled by then (`StatusAfterHandling`).
- Email uniqueness in the user table is case-sensitive while the lookup after a
  violation ignores case. A new account whose email differs only in case from
  an existing one is created (`AuthGate.SoloOutcome`; the run of `CaseTwins`),
  and a live account can then be refused, exactly when the lookup fetches the
  other row (`RefusedIff`, `RefusableIff`; the run of `LiveRefused`).
- The mock provisioner keeps the phone registry consistent exactly when the
  agent id is fresh, or live without another number (`ProvisionValidIff`). The
  id onboarding builds has no random part, and a reused one can end with two
  numbers or hold one while deleted (`TwoNumbers`, `DeadNumber`). Onboarding admits
  a submission only while the user's status is plan_active, a gate these runs leave
  out; it lets the id be used again when two submissions come at once, or when a
  stream is cut off after the provision and before the status is set.
- A user without a tenant does not always get a default one: the slug may still
  be held by a default tenant handed on to somebody else
  (`EnsureDefaultTenant`; the run of `DefaultRefused`).
- An invite can be revoked by an administrator of any tenant, since the route
  checks the tenant it is asked of and not the invite's own (`RevokedBy`; the run
  of `RevokedFromElsewhere`).

## Model

| member | source | states |
|---|---|---|
| Coupons.InForceLatest | lib/coupons.py:321-340 | The subscription in force at an instant is an active row whose window, closed at both ends, holds it, with the latest start; there is none exactly when no active row covers the instant |
| Coupons.TailEndIsMax | lib/coupons.py:460-469 | The tail is the greatest end among the tenant's active rows, attained, and absent exactly when there is no active row |
| CouponTimeline.SupersedeMember | lib/coupons.py:535-540 | A row is in the table after a supersession exactly when it was there and is not the one superseded, or is that one with its new status |
| CouponTimeline.LiveAfterCommit | lib/coupons.py:495-540 | The active rows after a commit are the new one and the old active ones but the superseded |
| Coupons.CouponDb.Redeem | lib/coupons.py:346-613 | The transaction, run statement by statement, returns what the decision on the old tables says and commits exactly its grant; its error, if any, is the first ground for refusal the rows hold, and then every table is as before |
| Coupons.CouponDb.Write | lib/coupons.py:495-594 | Insert, supersede, audit and count together amount to the one committed effect of a grant |
| Coupons.CommitWrites | lib/coupons.py:495-594 | Read off the tables: a commit adds one subscription and one audit row, changes the status of the superseded row alone, and the count of the redeemed coupon alone, by one |
| Coupons.RefusedFor | lib/coupons.py:186-230 | The decision is an error exactly as the rows give ground for it, in the order the source looks: a bad call, no such coupon, disabled, not yet or no longer valid, used up, redeemed by this very user, no such plan, tenant gone, start taken; without a ground it succeeds |
| Coupons.CouponRedeemedIff | lib/coupons.py:346-533 | A coupon is redeemed if and only if it exists, is enabled, within its dates and below its maximum, has no audit row of this user if it is one-per-user, its plan is known, the tenant lives, and no row of the tenant has the start |
| Coupons.SpellingForgotten | lib/coupons.py:179-183 | Spaces around a code and the case of its letters make no difference to what is decided |
| Coupons.PreviewIs | lib/coupons.py:619-740 | A preview fails on exactly the coupon's own grounds, the user's earlier redemption being only a flag, and announces the kind that plan in force and prices call for, with the window of that kind |
| Coupons.PreviewForetellsRedeem | lib/coupons.py:619-740 | At a frozen clock a redemption succeeds exactly when the preview succeeds without the already-redeemed flag, the tenant is live and the announced start is free; it then has the announced start, end and superseded id, and is immediate exactly for the two immediate kinds |
| CouponTimeline.GrantShape | lib/coupons.py:240-283 | A grant starts at the scheduling clock with nothing in force, or there superseding the running row for a different plan that is no cheaper, or at the tail for the same or a cheaper plan; its window is its duration, its start was free, and the row copies the plan's terms with the exhaustion behaviour its billing mode and overage flag call for |
| CouponTimeline.GrantTerms | lib/coupons.py:397-424 | Plan and days granted are those of the coupon stored under the trimmed, capitalised code, or the admin's for a direct grant, and the window lasts that many times twenty-four hours |
| CouponTimeline.CommitKeepsValid | lib/coupons.py:495-540 | A redemption keeps row ids and the pairs of tenant and start unique, at any clock readings |
| CouponTimeline.QueuedInForce | lib/coupons.py:248-278 | Whatever the history and the clock readings, a queued redemption starts after every active start, changes nothing in force before the old tail, is itself in force from the tail through its end, and nothing is in force after that |
| CouponTimeline.ImmediateInForce | lib/coupons.py:261-283 | Whatever the history, an immediate redemption is in force at once, and at an instant of its window exactly when no later active start covers that instant |
| CouponTimeline.QuietStep | lib/coupons.py:261-278 | A redemption that supersedes nothing keeps a disjoint and contiguous timeline so and adds exactly its duration to the time covered |
| CouponTimeline.TimelineOfRun | lib/coupons.py:438-477 | From a disjoint contiguous timeline, such as an empty one, any sequential run without upgrades for the tenant, each redemption with its own three clock readings and other tenants' redemptions in between, keeps its windows disjoint, every coming one starting where another ends, and the time covered grows by the sum of the durations redeemed |
| CouponTimeline.ForeignStep | lib/coupons.py:438-540 | A redemption for one tenant leaves the timeline and the covered time of every other tenant unchanged |
| CouponTimeline.UpgradeDisjointIff | lib/coupons.py:280-283 | From a disjoint contiguous timeline an upgrade, with its own clock readings, keeps the windows disjoint if and only if nothing is queued, or the new window ends no later than the running one would have; or, if the running one ended between the two readings, all that was queued has ended too |
| CouponTimeline.FirstQueued | lib/coupons.py:270-278 | On a contiguous timeline with something queued, some queued window starts exactly where the running one ends |
| CouponTimeline.UpgradeOverlaps | lib/coupons.py:280-283 | A concrete run, a month, a second month queued, then a dearer month, leaves two active windows that overlap |
| CouponTimeline.RunKeepsValid | lib/coupons.py:346-613 | Every sequential run keeps the keys and the unique starts |
| CouponLedger.CommitBooks | lib/coupons.py:535-594 | One commit, anywhere in a run, keeps each count equal to its audit rows, new subscriptions paired with equal audit rows, and history append-only |
| CouponLedger.RunKeepsBooks | lib/coupons.py:10-15 | After any sequential run counts equal audit rows, new rows pair off with equal tenant, plan and window, only statuses change and only from active to superseded, and a failed redemption changes nothing |
| CouponRaces.InvAlways | lib/coupons.py:29-37 | Every interleaving of redemptions, coupon edits, new coupons and tenant deletions keeps the lock and row invariant |
| CouponRaces.CountWithinMax | lib/coupons.py:207-217 | Whenever an event of any interleaving changes a coupon's count, it grows by one and stays within the maximum then in force |
| CouponRaces.NoDoubleRedemption | lib/coupons.py:219-229 | While a coupon stays one-per-user no two of its audit rows name the same user, however the redemptions interleave |
| CouponRaces.BooksAlways | lib/coupons.py:542-594 | The ledger laws hold after every interleaving: valid keys, counts equal to audit rows, paired rows, append-only history |
| CouponRaces.SomeoneCanStep | lib/coupons.py:397-454 | While some redemption is unfinished, some redemption can execute its next statement: the coupon locks, the subscription locks and the waits on the unique index never deadlock |
| CouponRaces.Unblocked | lib/coupons.py:433-454 | From any reachable state the chain of waits leads from a waiting redemption to one that can step |
| CouponRaces.WaitsIff | lib/coupons.py:397-454 | After any events an unfinished redemption waits if and only if another unfinished one has locked its coupon row or its candidate subscription row, or has inserted a row for the same tenant and start: nothing else delays it |
| CouponRaces.EditSets | lib/db.py:467-491 | After any events an edit waits exactly while a redemption has the coupon row locked, and otherwise sets the four columns it names and no other |
| CouponRaces.ExecEffect | lib/coupons.py:495-594 | One event either commits exactly one validated grant or leaves subscriptions, audit rows and counts alone |
| CouponRaces.LockedJudges | lib/coupons.py:433-454 | With the lock in hand the running subscription is the newest version of the candidate exactly when that is still active and in the window; otherwise the latest remaining candidate is locked next, and with none left nothing is in force |
| CouponRaces.LockedOk | lib/coupons.py:433-454 | Subscription rows are locked in the order of their starts, latest first, and a lock is taken only when free |
| CouponRaces.CommitKeeps | lib/coupons.py:594-594 | A commit disturbs no other transaction's locks, validated coupon or uncommitted row |
| CouponRaces.EditKeeps | lib/db.py:467-484 | Editing a coupon waits for its lock, so it never invalidates a redemption under way |
| CouponSolo.SoloIsRedeem | lib/coupons.py:394-594 | A transaction that runs without interruption finishes, and commits exactly the sequential grant or aborts with the sequential error and leaves the tables alone |
| CouponLocks.SecuredAlways | lib/coupons.py:433-454 | In every interleaving a transaction's running subscription stays active and unchanged until the transaction ends, only that row will be superseded, and plan and duration are those of a request whose coupon was valid when validated |
| CouponLocks.CommitSecures | lib/coupons.py:535-540 | A commit supersedes a row its transaction holds locked, so no row another transaction has read as running |
| CouponLocks.AskedDecides | lib/coupons.py:397-424 | Past validation, deciding again on the tables of the moment comes down to the plan and duration the transaction carries |
| CouponSerial.ForeignCommit | lib/coupons.py:438-454 | A commit for one tenant leaves the active rows of every other tenant alone, in every interleaving |
| CouponHistory.HistoryAlways | lib/coupons.py:495-540 | After any events from any reachable world, the tenant's active rows are exactly those active before and those committed since, less those superseded since |
| CouponHistory.ScheduleAlways | lib/coupons.py:471-477 | Once scheduled, a transaction keeps its request, what it found and its schedule through any events |
| CouponAlone.SchedulesAlways | lib/coupons.py:259-283 | In every interleaving a scheduled transaction that found nothing, or upgrades what it found, starts at the instant it was scheduled at, superseding just what it upgrades; any other one supersedes nothing |
| CouponAlone.AloneIffOn | lib/coupons.py:433-477 | In every reachable world, with any other redemptions under way or still to begin, a scheduled redemption decides as one alone on the tables of the moment if and only if, for an upgrade, it found what is in force at its instant, and otherwise its plan does not upgrade what is in force there and it starts at the tail, or at its instant with nothing in force |
| CouponAlone.UpgradeAlone | lib/coupons.py:280-283 | After any events since it was scheduled, an upgrade of r decides as if alone if and only if r holds its instant and no active window, from before or committed since, began later and holds it |
| CouponAlone.QueueAlone | lib/coupons.py:272-278 | After any events since it was scheduled, a renewal or downgrade decides as if alone if and only if no active window committed since ends past its tail, some active window still ends there, and its plan does not upgrade what is in force at its instant, which is what it found unless that is over or taken over; with nothing in force there, its tail must be that instant |
| CouponAlone.NothingAlone | lib/coupons.py:261-264 | After any events since it was scheduled, a redemption that found nothing decides as if alone if and only if no active window holds its instant, or one it does not upgrade is the last and ends there |
| CouponAlone.SchedulingStatement | lib/coupons.py:471-477 | In every run the statement that computes the schedule leaves the transaction scheduled from the tables of that moment, the starting point of the three above |
| CouponAlone.CommitAlone | lib/coupons.py:394-594 | A redemption that decides as if alone on the tables it commits into commits exactly the sequential decision's grant on them, coupon validation included, up to the row's number and the word immediate in the response |
| CouponAlone.InsertAlone | lib/coupons.py:495-533 | One about to insert that decides as if alone fails or goes on exactly as that decision says |
| CouponRenewalRace.RenewalRace | lib/coupons.py:433-477 | A concrete run from an initial state: two renewals of one month, one queued before its end and one begun after it, both commit and overlap, the first no longer deciding as if alone though what it found was running |
| CouponSerial.MetDecide | lib/coupons.py:433-477 | In a closed group, every redemption of the tenant having ended or picked the same running subscription, one that is scheduled decides as a redemption alone on the tables the others left if and only if no upgrade among them committed before it, while that subscription is still to run |
| CouponSerial.SecondDecides | lib/coupons.py:29-33 | In such a closed group of which one has committed since, the next decides as if alone on the tables it left if and only if that one asked for the same plan or a cheaper one |
| CouponSerial.MetDecideAll | lib/coupons.py:394-533 | In such a closed group, while nothing has upgraded, the waiting redemption about to insert fails or goes on exactly as the whole sequential decision says, the word immediate included |
| CouponSerial.MetAfterUpgrade | lib/coupons.py:453-477 | In such a closed group, after an upgrade each of the others starts at the instant it is scheduled at and supersedes nothing |
| CouponSerial.SinceAlways | lib/coupons.py:433-540 | In every interleaving of such a closed group only windows behind the running one are added while it is active, and it is active exactly while no upgrade has committed |
| CouponSerial.PickWaits | lib/coupons.py:433-454 | On a disjoint timeline a redemption that picks the running subscription, strictly after that began, has no other candidate to fall back on |
| CouponUpgradeRace.UpgradeRace | lib/coupons.py:433-477 | A concrete run from an initial state: two redemptions pick the same month, both upgrade, both commit, and the two new windows overlap |
| CouponIdle.IdleDecide | lib/coupons.py:259-264 | In a closed group, every redemption of the tenant having ended or found nothing running, one that is scheduled decides as a redemption alone on the tables the others left if and only if no window committed before it holds the instant it was scheduled at, or ends there with this one to follow |
| CouponIdle.IdleDisjointIff | lib/coupons.py:259-264 | After any interleaving of such a closed group the tenant's windows are disjoint if and only if those committed, each from the instant it was scheduled at, are clear of one another and of the earlier ones |
| CouponIdleRace.IdleRace | lib/coupons.py:261-264 | For any two clock readings there is a run, two grants interleaved for a tenant without subscriptions, in which both commit a window from their own reading on; the windows are disjoint exactly if the first ends by the second reading |
| CouponIdleRace.RaceIdles | lib/coupons.py:438-454 | In that run both have, after their reads, found nothing running |
| CouponIdleRace.TwoCheapMonths | lib/coupons.py:261-264 | A concrete run from an initial state: two cheap months granted to a tenant without subscriptions overlap |
| AuthGate.InvAlways | lib/db.py:254-335 | Every interleaving of authentications and soft deletes keeps at most one row, committed or not, per uid and per email |
| AuthGate.GateIsSafe | lib/db.py:254-335 | In every run: unique uids and emails; the fall-through error and the unknown violation never occur; a granted row has the caller's uid and was live; two grants to one uid are one account; a request that arrives after revocation can only learn so |
| AuthGate.GrantIsLive | lib/db.py:266-335 | A granted row is in the table as the granting statement read or committed it, and no statement of a request whose uid is revoked adds a row |
| AuthGate.DeleteKeeps | lib/db.py:337-348 | A soft delete marks one row, and the invariant holds whatever requests are under way |
| AuthGate.SomeoneCanStep | lib/db.py:278-284 | While a request is unfinished some request can execute a statement |
| AuthGate.SoloOutcome | lib/db.py:260-335 | Alone, a known uid gets its account, or revocation if that is deleted; a new uid gets a new row unless its exact email is taken, and then the answer is for a row whose email matches up to case: revoked if that is deleted, already registered if it lives |
| AuthGate.SoloTaken | lib/db.py:299-327 | Alone, a new uid whose email one account alone holds, case aside, is told that it is registered if the account lives and revoked if it is deleted |
| AuthGate.LookupAnswers | lib/db.py:299-327 | The email lookup answers for a row whose email matches up to case: the account or its revocation if the uid is the caller's, otherwise revoked for a deleted row and already registered for a live one |
| AuthGate.InsertAnswers | lib/db.py:271-300 | An unknown uid goes on to the insert, which reports a conflict with a row that is there, waits exactly for an uncommitted row with its uid or email, and otherwise writes a live row |
| AuthGate.FoundBySelect | lib/db.py:260-270 | A select that meets the caller's row answers by its deletion mark |
| AuthGate.ArrivesLate | lib/db.py:260-270 | A request counts as late exactly if a deleted row has its uid as it arrives |
| AuthGate.RefusedIff | lib/db.py:299-327 | A request whose uid has a live row is refused exactly by the email lookup, when the row it fetches belongs to another uid |
| AuthGate.RefusableIff | lib/db.py:299-327 | At the lookup it can be refused if and only if another account's email equals its own up to case |
| AuthGate.CaseTwins | lib/db.py:276-327 | A concrete run from the empty table: two sign-ins whose emails differ only in case both get an account |
| AuthGate.LiveRefused | lib/db.py:286-327 | A concrete run from the empty table: the loser of an insert race is told its live account is revoked, the lookup having fetched a deleted row whose email differs in case |
| ProvisionStream.SplitIsSplit | frontend/src/lib/api.ts:883-886 | Splitting yields pieces without newlines that rebuild the text |
| ProvisionStream.SplitAppend | frontend/src/lib/api.ts:883-886 | The lines of a concatenation are those of the first part, then those of its last fragment followed by the second part |
| ProvisionStream.EventStream | api/routes/tenants.py:706-814 | The generator emits exactly the forwarded events with the total rewritten, then the welcome step if due, then one outcome; onboarding is marked complete exactly when nothing was raised and the last result succeeded |
| ProvisionStream.ClosingIs | api/routes/tenants.py:732-814 | How a stream ends: an exception gives a failure with its text whatever came before; no result a failure; a last result that failed its own error; one that succeeded the welcome step if a phone is bound and a success with its fields |
| ProvisionStream.ForwardedIs | api/routes/tenants.py:714-734 | Event by event: progress goes through with the total replaced, results are held back, anything else goes through as it came, in order |
| ProvisionStream.OneOutcomeLast | api/routes/onboarding.py:116-214 | Whatever the provisioner yields or raises, exactly one result is emitted and it is the last event |
| ProvisionStream.ScanLines | frontend/src/lib/api.ts:888-909 | The inner loop continues the reading of the lines seen so far, fires the callbacks in order and stops at the first result |
| ProvisionStream.ReadStream | frontend/src/lib/api.ts:873-916 | For every way of cutting a text into chunks, callbacks and final outcome are those of splitting the whole text at newlines, dropping the last fragment and stopping at the first result |
| ProvisionStream.ReadTextIs | frontend/src/lib/api.ts:888-916 | The outcome is that of the first complete line that parses to a result or to null, with the client's own texts for a missing or empty error, or the early end if there is no such line |
| ProvisionStream.ShownIs | frontend/src/lib/api.ts:888-899 | A line adds to what is shown exactly if it is progress and no line before it settled the outcome |
| ProvisionStream.TrimIs | frontend/src/lib/api.ts:889-890 | A line is read without the white space at its ends, all of it and nothing else |
| ProvisionStream.PrefixLines | api/routes/tenants.py:730-734 | A prefix of the printed stream completes a number of its lines, all of them only if nothing is missing |
| ProvisionStream.TicksForwarded | api/routes/tenants.py:714-734 | The progress forwarded is the provisioner's, in order, with the total replaced |
| ProvisionStream.RewrittenIs | api/routes/tenants.py:714-734 | Event by event what is shown of a run: each progress event its step and caption with the new total, and nothing else |
| ProvisionStream.ReadEmitted | frontend/src/lib/api.ts:179-220 | Reading the server's own stream shows its progress events and the verdict of its one result |
| ProvisionStream.EndToEnd | frontend/src/lib/api.ts:873-916 | For every provisioner run and every chunking the client shows the provisioner's progress with a total of five with a phone and four without, plus the welcome step after success with a phone; it succeeds if and only if nothing was raised and the last result succeeded, and otherwise throws the exception's text, the last result's error or the text for none |
| ProvisionStream.CutShort | frontend/src/lib/api.ts:915-916 | A stream cut anywhere before its end shows a first part of the progress that the whole would show and ends in the early-end error |
| TelegramConnect.TelegramDb.IssueNonce | services/telegram_deeplink.py:47-84 | The agent carries the new nonce, not started, until fifteen minutes have passed; its flag and bot stay, the poller sees the bot still connected or an attempt pending with the last error gone, and no other row changes |
| TelegramConnect.TelegramDb.HandleStart | api/routes/telegram_webhook.py:87-126 | A start resolves only to a row that holds the nonce in time, and to none only if the nonce is malformed, unknown or expired on some row; it records the Telegram identity on that row only |
| TelegramConnect.TelegramDb.HandleManagedBot | api/routes/telegram_webhook.py:152-252 | The update handles an attempt of its user with the latest start stamp, none exactly if no pending attempt was last started by that user, and leaves the ledger as the outcomes of its foreign calls dictate |
| TelegramConnect.TelegramDb.NewestAttempt | api/routes/telegram_webhook.py:320-345 | The attempt found has the latest start stamp of those the user last started; there is none exactly when there are none |
| TelegramConnect.TelegramDb.ConnectToken | api/routes/bridges.py:230-330 | A valid and stored token leaves the agent enabled with that bot, shown as connected, and no pending attempt or live nonce; any other token changes nothing; no other row changes |
| TelegramConnect.TelegramDb.DisconnectBot | lib/db.py:1133-1156 | The agent is no longer shown as connected, a pending attempt and its nonce survive, and no other row changes |
| TelegramConnect.PendingTraced | api/routes/telegram_webhook.py:281-317 | In every trace each pending record was issued for its agent, was last started by the user it names before it expired, and nothing ended it since |
| TelegramConnect.Provenance | api/routes/telegram_webhook.py:152-206 | A managed-bot update by user u touches an agent only if a nonce issued for it was started by u before it expired, u's was the last start, and nothing re-issued, finished or token-connected the agent in between |
| TelegramConnect.NewestIsHandled | api/routes/telegram_webhook.py:320-345 | Over every trace, on the events alone: an update handles an attempt whose last start came no earlier than that of any other attempt of the user still standing |
| TelegramConnect.NoneIsHandled | api/routes/telegram_webhook.py:335-337 | Over every trace an update that handles nothing leaves no attempt standing that its user last started |
| TelegramConnect.LiveNonceResolves | services/telegram_deeplink.py:87-122 | A nonce in the alphabet that one agent alone holds, in time, resolves to that agent |
| TelegramConnect.WellFormedIff | services/telegram_deeplink.py:91-97 | A nonce is accepted exactly if it is not empty and made of letters, digits, hyphen and underscore |
| TelegramConnect.StatusIs | api/routes/bridges.py:461-473 | The status shows the bot of an enabled row first, then a stored error, and pending otherwise |
| TelegramConnect.EnabledBecause | api/routes/telegram_webhook.py:152-225 | In every trace an enabled agent has the bot of the last event that enabled it, a paste or a managed-bot update with token and secret in hand, with no disconnection since; and such an update rests on a nonce issued for that agent and last started, in time, by the same user |
| TelegramConnect.NonceUnique | services/telegram_deeplink.py:87-122 | With fresh nonces a nonce resolves to at most one agent, in every trace |
| TelegramConnect.HandledIsGone | api/routes/telegram_webhook.py:348-372 | On success and on each failure a handled attempt's pending record is gone, the user has one attempt less, and other rows are untouched |
| TelegramConnect.RedeliveryIff | api/routes/telegram_webhook.py:182-190 | A second delivery of an update, whatever its foreign calls come to, changes nothing if and only if the Telegram user had at most one pending attempt before the first |
| TelegramConnect.ManyDeliveries | api/routes/telegram_webhook.py:182-190 | With at most one pending attempt any number of deliveries, one or more, the foreign calls of each turning out as they may, leaves the ledger of the first |
| TelegramConnect.RedeliveryDoesMore | api/routes/telegram_webhook.py:182-190 | A concrete valid trace: one user starts two agents' links, and the second delivery of one update connects the bot to the other agent |
| TelegramConnect.StatusAfterHandling | api/routes/bridges.py:461-473 | The status shows the new bot whenever token and secret were in hand, even after a failed patch; an earlier failure shows as an error unless a bot was connected before |
| TelegramConnect.OneRow | api/routes/telegram_webhook.py:296-317 | An event changes no row but that of the agent it names, and only a disconnection disables an enabled row |
| Tenancy.TenantDb.TransferOwner | lib/db.py:1206-1242 | Demote, promote and rename, each accepted by the unique index on owner rows, amount to one transfer step |
| Tenancy.TransferDoes | api/routes/tenants.py:267-292 | A transfer takes effect if and only if the live tenant's owner, or a superadmin without a role in it, names a member who is not the owner; then the old owner is an administrator and that member the owner |
| Tenancy.TenantDb.SetRole | lib/db.py:1228-1235 | One role update, required to leave at most one owner row per tenant |
| Tenancy.TenantDb.CreateOwned | lib/db.py:817-857 | A new tenant appears with its creator as its one owner, unless its slug is taken, and then nothing changes |
| Tenancy.TenantDb.EnsureDefaultTenant | lib/db.py:748-815 | After the call the user owns a live tenant exactly if they did before or their default slug was free |
| Tenancy.DefaultRefused | lib/db.py:784-803 | A concrete run: a default tenant is created and handed on, and its first owner, now without a tenant, is refused another |
| Tenancy.TenantDb.ChangeMemberRole | api/routes/tenants.py:322-354 | The guarded role change keeps the ownership invariant |
| Tenancy.ChangeRoleDoes | api/routes/tenants.py:322-354 | A role change takes effect if and only if the live tenant's owner, or a superadmin without a role in it, gives a member other than the owner a role other than owner; that role alone changes |
| Tenancy.TenantDb.Remove | api/routes/tenants.py:357-379 | The guarded removal keeps the ownership invariant |
| Tenancy.RemoveDoes | api/routes/tenants.py:357-379 | A removal takes effect if and only if the live tenant's owner or an administrator, or a superadmin without a role in it, names a member other than the owner; that membership alone goes |
| Tenancy.DeleteDoes | api/routes/tenants.py:236-258 | A tenant is deleted if and only if its owner, or a superadmin without a role in it, is named owner of at least two live tenants |
| Tenancy.CreationsDo | lib/db.py:748-857 | A tenant is created exactly if no tenant, deleted or not, has the slug; a default one exactly if the caller owns no live tenant and the slug made of the address and the id is new |
| Tenancy.TenantDb.SendInvite | lib/db.py:1330-1368 | An administrator's invite, never for an owner, is added pending under a new number with its role, expiry and address trimmed and in lower case; no other invite, membership or tenant changes |
| Tenancy.InviteDoes | api/routes/tenants.py:385-408 | An invite is written if and only if the live tenant's owner or an administrator, or a superadmin without a role in it, asks, and not for an owner |
| Tenancy.TenantDb.Revoke | lib/db.py:1404-1408 | Under the guard an unaccepted invite is revoked at every later instant; an accepted one, and every other invite, membership and tenant, is as it was |
| Tenancy.RevokeDoes | api/routes/tenants.py:496-511 | A revocation takes effect if and only if a manager of the tenant it is asked of names an invite nobody has accepted |
| Tenancy.TenantDb.Accept | lib/db.py:1410-1489 | Accepting succeeds exactly for a pending invite of a live tenant whose address is the caller's up to case, and returns the role the caller then has |
| Tenancy.AcceptableIff | api/routes/invites.py:71-116 | An invite can be accepted if and only if its tenant lives, it is neither revoked nor accepted nor past its expiry, and its address is the caller's letter by letter, case aside |
| Tenancy.StatusIs | api/routes/invites.py:38-45 | Revoked comes before accepted and accepted before expired; at the instant of its expiry an invite is still pending |
| Tenancy.DemoteThenPromote | lib/db.py:1228-1237 | Neither statement of a transfer, in its order, yields two owner rows |
| Tenancy.PromoteFirstRefused | lib/db.py:1228-1231 | In the other order the first statement would violate the unique index |
| Tenancy.OwnedAlways | lib/db.py:1255-1267 | In every reachable state each tenant has exactly one owner membership and it is the tenant's owner |
| Tenancy.LoweredBy | api/routes/tenants.py:322-379 | Over every run a role that ends lower was lowered by some transfer, role change or removal that names the membership |
| Tenancy.OwnerBy | lib/db.py:1206-1242 | Over every run whoever becomes an owner created the tenant or was handed it by a transfer |
| Tenancy.RevokedBy | api/routes/tenants.py:496-511 | An invite is revoked exactly by a revocation asked of a tenant the caller administers, of an invite not yet accepted; the invite's own tenant need not be that one |
| Tenancy.RevocableIff | api/routes/tenants.py:496-511 | A caller can revoke a given unaccepted invite by some request if and only if they administer some live tenant |
| Tenancy.RevokedFromElsewhere | api/routes/tenants.py:496-511 | A concrete run: the owner of one tenant, without a role in another, revokes the other's invite |
| Tenancy.WhoIsTouched | api/deps.py:107-155 | A membership changes only by a step that names it, with the rank the step gives, asked by the owner or an administrator as the step demands, or a superadmin without a role |
| Tenancy.AcceptIsMaximum | lib/db.py:1451-1476 | Accepting gives exactly the maximum of the held and the invited role, makes no owner, changes no other membership, and spends the invite |
| Tenancy.SpentStaysSpent | lib/db.py:1404-1408 | Over every run an accepted or revoked invite never changes again, and no invite changes its tenant, address, role or expiry |
| Tenancy.AcceptedOnce | api/routes/invites.py:71-116 | In any run an invite is accepted at most once |
| RateLimiter.Limiter.CheckRate | api/routes/coupons.py:45-55 | A call is refused if and only if the thirtieth accepted call of the user, counted back, is at most sixty seconds old; the deque is then exactly the user's accepted calls of the last sixty seconds, with this one if accepted; other users' deques are untouched |
| RateLimiter.PopExpired | api/routes/coupons.py:48-49 | Popping from the front leaves exactly the accepted calls of the window that ends now |
| RateLimiter.WithinIs | api/routes/coupons.py:48-50 | Call by call, a window holds those at or after its start and at or before its end, in order |
| RateLimiter.WindowBound | api/routes/coupons.py:41-42 | If accepted calls thirty apart are more than a window apart, no closed window of sixty seconds, wherever it lies, holds more than thirty |
| RateLimiter.EveryWindow | api/routes/coupons.py:45-55 | No user ever has more than thirty accepted calls in any closed window of sixty seconds, and calls thirty apart are more than sixty seconds apart |
| PhoneRegistry.PhoneDb.PatchWhatsapp | api/routes/bridges.py:166-227 | The guarded connect, change or disconnect keeps the registry valid and its insert never meets the primary key |
| PhoneRegistry.PhoneDb.ProvisionAgent | services/provisioning.py:149-192 | The mock provision claims the number or rolls back; a failed one leaves both tables unchanged |
| PhoneRegistry.PhoneDb.DeleteAgent | lib/db.py:1158-1204 | The guarded delete leaves the agent dead and its number free, every other number leading where it did, and keeps the registry valid |
| PhoneRegistry.LookupIsExact | lib/db.py:975-998 | In a valid registry the lookup finds nothing exactly when the number is free |
| PhoneRegistry.LookupAnswers | lib/db.py:975-998 | The lookup finds an agent exactly if the digits, not being none, are routed to it and it is not marked deleted |
| PhoneRegistry.DigitsAre | lib/db.py:1055-1055 | Character by character the ten digits are kept, in order, and nothing else |
| PhoneRegistry.PatchAnswers | api/routes/bridges.py:166-227 | A patch is not found exactly for an agent missing, deleted or of another tenant, in use exactly for a number routed to another live agent, and either leaves everything; otherwise the agent's routes give way to the new number, or to none |
| PhoneRegistry.ProvisionAnswers | services/provisioning.py:149-192 | A provision fails exactly if another agent, dead or alive, has the number, and then undoes everything; otherwise the agent has the tenant named and keeps its deletion mark, and the number leads to it |
| PhoneRegistry.DeleteActs | lib/db.py:1158-1204 | A delete acts exactly on a live agent of the tenant: it is marked, and all its routes go |
| PhoneRegistry.GuardAvoidsKey | api/routes/bridges.py:204-218 | Past the guard the insert collides exactly with a route to a deleted agent, so never in a valid registry |
| PhoneRegistry.ProvisionValidIff | services/provisioning.py:149-192 | A successful provision keeps the registry valid if and only if no number was given, or the agent is new or live and has no other number |
| PhoneRegistry.PatchMoves | lib/db.py:1034-1099 | A patched agent answers at its new number and no other, and every other agent keeps its number |
| PhoneRegistry.ValidAlways | services/provisioning.py:149-192 | With fresh agent ids every run keeps each route on a live agent and each agent at one number |
| PhoneRegistry.TwoNumbers | api/routes/onboarding.py:113-113 | A concrete run from the empty registry: one id provisioned twice ends with two numbers |
| PhoneRegistry.DeadNumber | api/routes/onboarding.py:113-113 | A concrete run from the empty registry: an id provisioned again after its delete holds a number the lookup calls free |
| Readiness.WaitTelegramReady | services/provisioning.py:644-683 | Terminates for every sequence of probes; ready exactly when the last probe said so and no earlier one did; every sleep follows its probe and lasts the delay then due or what is left, whichever is less, and every probe begins before the deadline; at most as many probes as whole first delays fill the timeout; a refusal comes no earlier than the deadline, and with exact sleeps no later than it plus one probe |
| Readiness.DelayIs | services/provisioning.py:663-682 | The delays are 1.5, 1.95, 2.535, 3.2955 and 4.28415 seconds, and 5 from then on |
| Readiness.CountBound | services/provisioning.py:662-664 | A probe begun before the deadline after that many first delays is within the bound |

## Left out

- CouponTimeline.TimelineOfRun: one redemption after another, each transaction starting no earlier than the previous one was scheduled; for redemptions at once, and for clocks that run apart, `CouponAlone` says which decide as if alone. The ledger theorems hold for all clocks and all interleavings.
- CouponAlone.AloneIffOn: the sequential decision it compares with is taken with one reading, the instant the schedule was computed at, for the transaction and the schedule.
- CouponSerial.MetDecide: about a closed group only; as soon as one redemption of the tenant has yet to begin, or has found something else, it says nothing, and `CouponAlone` is what holds.
- CouponIdle.IdleDecide: about a closed group only, like the theorem above; so is `CouponIdle.IdleDisjointIff`.
- CouponRaces.SomeoneCanStep: covers the coupon locks, the subscription locks and waits on the unique index; the share locks of foreign-key checks are not modelled, nor a connection lost midway.
- CouponRaces.CountWithinMax: an edit may set a maximum below the count already reached; the bound is about redemptions.
- TelegramConnect.Provenance: each webhook is one atomic step, as is each route; a second event between the lookup and the last write of a handler is not modelled.
- TelegramConnect.NonceUnique: that minted nonces never repeat is an assumption about the random generator.
- TelegramConnect.TelegramDb.HandleStart: one clock serves the expiry check and the start stamp; the source reads its own for one and the database's for the other.
- Tenancy.OwnedAlways: each route with its guard is one atomic step; only the statements inside a transfer are separate.
- Tenancy.TenantDb.CreateOwned: the slug of an additional workspace, random suffix included, is an input; slugs are unique over deleted tenants too, which the table's definition, not part of this model, decides.
- ProvisionStream.EndToEnd: printing and parsing JSON are a codec assumed to be inverse on events, with one line per object as section 7 of RFC 8259 requires; UTF-8 decoding of chunks and fields beyond those read are not modelled, and the database calls between the last provisioner event and the result are taken to succeed.
- RateLimiter.Limiter.CheckRate: timestamps are reals, not floats.
- PhoneRegistry.PhoneDb.PatchWhatsapp: the phone-number parser in front of it is not modelled; digits are ASCII.
- AuthGate.SoloOutcome: lower-casing covers ASCII letters only, as do trimming and upper-casing of coupon codes.
- Ids that a failed insert consumes: a model id is taken only by a row that is written or in flight.
- The unique violation on the audit insert: the index behind it no longer exists.
- The onboarding gate (pending, plan_active, complete) apart from the final mark, and the onboarding step of an accepted invite.
- Display names, welcome messages, audit-log rows, agent creators, meter keys and credentials: written along the way, read by none of the modelled logic.
- The meter's own writes to subscriptions: the meter is not part of this model.
- Cryptography: token validation, device signing, token hashing and random codes.
- Foreign services (Telegram, Secret Manager, mail, the WhatsApp bridge, the container host): their outcomes are inputs.
- The React interface, translations, email templates and voice catalogue.
- Admin reporting, VM statistics, capacity heuristics and usage roll-ups.
