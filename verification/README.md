# The subscription engine, verified

This project models the part of the backend that decides who has paid: the handling of App Store and Google
Play webhooks, the verification of purchases, account deletion and the entitlement read, over two database
tables (subscription rows and processed webhook events). Deliveries arrive twice, late, out of order, or fail
half-way; the code answers with an event table, one transaction around "record the event, look up the row,
check the order, write the row", and a guard on every update. The theorems say what that buys over whole runs
and under interleaving.

## How it is laid out

- `Domain`, `Repository`: the entity, the transition table, the two tables with their constraints, and every
  statement as a method on a mutable repository (`WithTx` is `Begin`, which takes the snapshot, and `End`,
  which keeps or rolls back).
- `AppleStore`, `GooglePlay`, `StatusMapping`, `Reconciliation`, `UpdateGuard`: what the stores say and what it
  is taken to mean. The Google line-item loop and the nested reconciliation loops are loops, proved against
  one-expression specifications.
- `Jobs`: one call, its input decoded, as a *job*; `Perform` is what a job does to the tables, `Run` a sequence
  of them. A job carries the one repository call that fails, if any, the clock reading and the row id a new row
  would get.
- `Plans`: from a delivery or a verification request to its job.
- `Service`: the handlers as written, statement by statement, assigning to the fields of the object they loaded.
  Each handler is proved to leave exactly the tables, and give exactly the answer, of `Perform` on its plan.
- `Notices`: what every delivery and verification comes to, in the stores' own words and numbers: every outcome
  exactly, and every column of a change. `EndToEnd` takes that to the row that is left, the read after it and its
  entitlement, on the service.
- `Invariants`, `WebhookRuns`, `Lifecycle`, `Unguarded`, `Access`, `Ownership`: theorems about serial runs of
  jobs; `Unguarded` is about what verifications, which write past the guard, do to the lifecycle.
- `ServiceRuns`, `Entitlements`: sequences of calls on the service object. `ServiceRuns.HandleAll` proves that
  any sequence leaves the tables, and gives the answers, of the run of its jobs; with
  `Plans.PlannedRunsAreSound` every theorem about sound runs is one about every run of the service.
- `Interleaving`, `ExactlyOnce`, `Ordering`, `Provenance`: the same transactions split into begin, record, lookup, write and
  commit or abort, interleaved at will, with deletions and bare event insertions in between.
- `Counterexamples`: deliveries, as the stores send them, that show where a property needs its condition.
- `Allowlist`: the parser of the entitlement allowlist.

## Where code and prose differ

The model follows the code.

- `billing_retry` grants no access (`internal/domain/subscription/subscription.go:107-119`), although
  `README.md:153` lists it. `Service.EntitlementFor`, `EndToEnd.AppleNoticeThenRead` and `EndToEnd.GoogleNoticeThenRead` state what is granted.
- Neither the update nor the upsert writes `user_id` (`internal/repository/postgres/subscription_repository.go:211-225`
  and `:256-267`). A verification by another user hands back an object with the caller as its owner while the
  stored row keeps its owner, although `README.md:171` speaks of re-linking.
  `Ownership.VerificationIsFaithful` and `ServiceRuns.VerifyThenRead` say exactly when the two differ, and
  `ServiceRuns.RelinkingDoesNotStick` is an instance: answered pro, read back free.
- The comment at `internal/application/subscription/service.go:107-109` says that webhooks after a deletion are
  ignored. An App Store delivery whose account token names the user creates a row again.
  `Ownership.WebhookGivesRow` is the exact condition, `Counterexamples.DeletedAccountComesBack` a deletion and a
  delivery after it, `Ownership.DeletedStaysDeleted` what holds without such deliveries.
- `internal/domain/subscription/transitions.go:17` calls revoked a terminal state. Verifications do not go
  through the update guard, so they may leave it, and make other forbidden moves:
  `Counterexamples.VerificationRevives` does so for every revoked App Store row.
  `Unguarded.LifecycleIsSafeExactly` and `Unguarded.RevokedIsTerminalExactly` are the exact conditions over runs
  of every kind. The other lifecycle and expiry theorems are about runs that do not verify the purchase in
  question (and do not delete its owner); other purchases and users may be verified and deleted.
- No row lock is taken between lookup and write, so event order is not kept under interleaving.
  `Ordering.ClocksKeptExactly` is the exact condition: no transaction commits over a row whose clock has moved
  past the one it brings. `Counterexamples.DeliveryTurnsClockBack` and
  `Counterexamples.VerificationTurnsClockBack` are runs from empty tables that break it, and undo a refund.
  `Ordering.Serialisable` says when an interleaved run is a serial one after all.

## Model

| member | source | states |
|---|---|---|
| ExactlyOnce.EventsTakeEffectOnce | internal/application/subscription/service.go:208-221 | under every interleaving from empty tables, no two commits that write a row for a webhook share an event key; an event is in the table exactly if one commit inserted it or it was noted outside a transaction, never both |
| ExactlyOnce.StepsAreLogged | internal/repository/postgres/subscription_repository.go:34-59 | the log of commits leaves nothing out: events and rows change only as a logged commit, a note or a deletion says |
| ExactlyOnce.NoteRecords | internal/application/subscription/service.go:515-524 | an event noted outside a transaction is in the table at once, exactly when no open transaction holds it |
| ExactlyOnce.ExecKeepsInv | internal/repository/postgres/subscription_repository.go:34-59 | the inductive invariant behind it: committed rows well-formed, uncommitted rows fit them, open transactions hold different events, ids and keys, the event table is what the commits say |
| ExactlyOnce.AbortLeavesNothing | internal/repository/postgres/subscription_repository.go:34-59 | an aborted transaction changes neither table, and the event's next delivery records it as new |
| ExactlyOnce.DuplicateWaits | internal/repository/postgres/subscription_repository.go:286-303 | the second of two simultaneous deliveries of an event can do nothing until the first is done; once the first commits, it finds the event and commits nothing |
| ExactlyOnce.DuplicateCommitsNothing | internal/application/subscription/service.go:216-221 | a delivery of an event that is in the table, whatever else is open, goes through to its commit and leaves both tables alone |
| ExactlyOnce.InterleavedRowsAreWellFormed | migrations/000002_add_subscription_details_and_events.up.sql:14-29 | under every interleaving every row satisfies the row invariant and no two rows share a lookup key |
| ExactlyOnce.InterleavedRowsContinue | internal/repository/postgres/subscription_repository.go:209-284 | without deletions no interleaving removes a row or changes its id, owner, provider, creation time or key |
| ExactlyOnce.CommitIsSerial | internal/repository/postgres/subscription_repository.go:34-59 | a transaction that commits while its row is still the one it read leaves the tables as running alone at that moment would |
| Ordering.Serialisable | internal/repository/postgres/subscription_repository.go:34-59 | an interleaved run whose committing transactions find their row as they read it leaves the tables of the serial run of its commits, notes and deletions, in that order, all of them sound jobs |
| Ordering.InterleavedLife | internal/application/subscription/service.go:409-442 | over such a run, too, a row's statuses are a path, a revoked row is frozen, and its expiry turns back exactly where an applied change carries none, as long as no commit verifies its purchase or deletes its owner |
| Ordering.ClocksKeptExactly | internal/application/subscription/service.go:293-295 | an interleaved run turns no event clock back at any step if and only if no transaction commits over a row whose clock has passed the one it brings |
| Ordering.CommitKeepsClocksExactly | internal/application/subscription/service.go:293-295 | one commit turns a clock back exactly if the stored clock is ahead of its event time, or of the clock it read when it has none, as a verification never has |
| Provenance.StaleMeansOvertaken | internal/application/subscription/service.go:419-425 | in every state a run reaches, a commit that would turn a clock back has read its row, and the row's clock has moved on since; one that read nothing never does |
| Ordering.LastWriterWins | internal/application/subscription/service.go:229-316 | of two transactions, webhook or verification, that both looked a row up before either wrote, the second leaves the row as if the first had never been |
| Ordering.LastWriterWinsFromEmpty | internal/repository/postgres/subscription_repository.go:34-59 | such an interleaving is reached from empty tables, for every two jobs, webhooks or verifications, that contend for a new purchase |
| Counterexamples.DeliveryTurnsClockBack | internal/application/subscription/service.go:207-351 | from empty tables, three App Store deliveries: an earlier renewal commits after a later notice it overlapped, the clock goes back, and a refund is undone |
| Counterexamples.VerificationTurnsClockBack | internal/application/subscription/service.go:818-880 | the same with a verification that overlapped the later notice |
| Interleaving.StatementFits | internal/application/subscription/service.go:282-348 | a statement that gets through, whatever was committed since the lookup, leaves a well-formed row that meets no constraint |
| WebhookRuns.Erasure | internal/application/subscription/service.go:207-221 | dropping every duplicate and every failed delivery from any run gives the same tables; what is left has distinct new events and all of it succeeds |
| WebhookRuns.Independence | internal/application/subscription/service.go:207-351 | after any webhook run with distinct events a subscription's row is the fold of a one-row step over its own deliveries alone |
| WebhookRuns.IndependenceOfAnyRun | internal/application/subscription/service.go:551-636 | the same for every webhook run, duplicates and failures included, after erasing those |
| WebhookRuns.UnrelatedCommute | internal/application/subscription/service.go:207-351 | deliveries with different events and different subscriptions commute on both tables and in their answers |
| WebhookRuns.EffectIsLocal | internal/application/subscription/service.go:229-348 | a webhook changes what its own key finds by its effect and what no other key finds |
| Invariants.ReachableRowsAreWellFormed | internal/application/subscription/service.go:282-348 | from empty tables through any run with any failures: every row well-formed, keys unique, each lookup finds its row |
| Invariants.HookEffectIsWellFormed | internal/application/subscription/service.go:282-348 | a webhook turns a well-formed row, or none, into a well-formed row of the same key and identity |
| Invariants.VerifiedIsWellFormed | internal/application/subscription/service.go:824-866 | a verification turns a well-formed row, or none, into a well-formed row of the same key |
| Invariants.HookOutcome | internal/application/subscription/service.go:207-351 | a webhook transaction records its event and has its effect, or fails and does nothing, with the exact condition for failing |
| Invariants.CheckOutcome | internal/application/subscription/service.go:818-880 | a verification stores its purchase and hands the object back, or fails and does nothing, with the exact condition |
| Invariants.NoConflictInRun | internal/application/subscription/service.go:819-866 | with fresh row ids no job of a serial run ever meets a unique constraint or a missing row |
| Lifecycle.AppliedExactly | internal/application/subscription/service.go:409-442 | exactly which deliveries change the tables' row: all calls get through, new event, a user known, not revoked, not late, not shortening the expiry, permitted transition |
| Lifecycle.StatusesFormAPath | internal/domain/subscription/transitions.go:18-67 | over any run that does not verify the purchase or delete its owner the stored statuses are a path in the transition graph from the first status (inactive without a row) to the last |
| Lifecycle.PathsSpendRank | internal/domain/subscription/transitions.go:18-58 | along any path updates to other statuses than active spend rank and activations give back at most three |
| Lifecycle.BoundedChurn | internal/application/subscription/service.go:436-439 | over any such run the updates applied to a row with a status other than active number at most its rank plus three per activation |
| Lifecycle.RevokedIsFrozen | internal/application/subscription/service.go:414-417 | through any such run a revoked row keeps every column, and it never grants access |
| Unguarded.LifecycleIsSafeExactly | internal/domain/subscription/transitions.go:18-67 | over any run of webhooks, verifications and deletions, every step of a row is along the transition graph if and only if every verification of its purchase that gets through is |
| Unguarded.StepIsLawfulExactly | internal/domain/subscription/transitions.go:18-67 | the same for one job of any kind |
| Unguarded.RevokedIsTerminalExactly | internal/domain/subscription/transitions.go:17-18 | revoked is terminal over a run if and only if every verification of a revoked purchase that gets through maps to revoked |
| Unguarded.RevokedEndsExactly | internal/application/subscription/service.go:824-840 | a job takes a row out of revoked exactly if it is a verification of it that gets through and maps to another status |
| Counterexamples.VerificationRevives | internal/application/subscription/service.go:818-880 | every revoked App Store row is active, with access, after a verification of an unexpired transaction with the API absent or down |
| Lifecycle.RowsContinue | internal/application/subscription/service.go:293-295 | over any run without deletions rows stay with their identity and owner, and event clocks are never unset nor turned back |
| Lifecycle.LateEventsAreIgnored | internal/application/subscription/service.go:419-425 | deliveries for a key all strictly older than its row's clock leave the row as it was, whatever else the run does short of verifying the purchase or deleting its owner |
| Lifecycle.ExpiryStepExactly | internal/application/subscription/service.go:427-434 | an applied change that does not revoke keeps the expiry from moving back if and only if it carries one or there was none |
| Lifecycle.ExpiryOrder | internal/application/subscription/service.go:427-434 | over any such run whose deliveries for a row carry expiries, its expiry does not move back unless the row is revoked |
| Lifecycle.ExpiryOrderExactly | internal/application/subscription/service.go:427-434 | over any such run no step that leaves the row unrevoked moves its expiry back if and only if every applied change of an expiring row, other than a revocation, carries one |
| Lifecycle.RevocationIsOneStep | internal/application/subscription/service.go:412-434 | a row that a run revokes is revoked by one delivery, and after it is what it is in the end |
| Lifecycle.ExpiryOrderUntilRevoked | internal/application/subscription/service.go:427-434 | up to that one delivery the expiry has not moved back |
| Counterexamples.AppleExpiryNeedsExpiries | internal/application/subscription/service.go:257-316 | for every owned active App Store row with an expiry, two renewal deliveries in time order, the first without an expiry, leave it active with an earlier one |
| Counterexamples.GoogleExpiryNeedsExpiries | internal/application/subscription/service.go:531-626 | the same for Google rows and two renewal notices, the first with the zero time for an expiry |
| Counterexamples.GoogleCarriesExpiry | internal/platform/google/client.go:129-136 | a Google webhook is without an expiry exactly when the relevant item's expiry text is read as the zero time |
| Lifecycle.ExpiryTurnsBack | internal/application/subscription/service.go:427-434 | what those two have in common: two activations in time order that pass the guard and take the expiry back |
| Lifecycle.OthersRunsSpare | internal/application/subscription/service.go:818-880 | for a row that is there, every run that neither verifies its purchase nor deletes its owner meets the condition of the lifecycle theorems |
| Lifecycle.WebhookRunsSpare | internal/application/subscription/service.go:207-351 | every run of webhooks alone meets that condition, for every row |
| UpdateGuard.TransitionsSpendRank | internal/domain/subscription/transitions.go:18-67 | every permitted transition spends rank or is an activation; nothing leaves revoked or enters inactive |
| Domain.TransitionsExactly | internal/domain/subscription/transitions.go:18-67 | a transition is permitted exactly if it leaves another status than revoked for active or for a lower rank, except from grace into cancelled |
| Access.AppleAccessExactly | internal/application/subscription/service.go:367-405 | the row an App Store change is written over grants access exactly when the notification's type, subtype and renewal record and the transaction's expiry say so |
| Access.GoogleAccessExactly | internal/application/subscription/service.go:640-694 | for every purchase state Google names, when the written row grants access, whatever the kind of notification unless a revocation |
| Access.VerificationAgreesWithWebhook | internal/application/subscription/service.go:640-694 | a verification and a webhook map one purchase alike, unless the webhook is a revocation or the state is unnamed |
| Notices.AppleDeliveryExactly | internal/application/subscription/service.go:121-205 | a decoded delivery is ignored, noted or a change, each exactly when: bundle, environment, product, and the eight types that change a subscription, by literal |
| Notices.AppleChangeExactly | internal/application/subscription/service.go:223-316 | every column of the change of such a delivery, its status for every type, its renewal, its user and its times |
| Notices.AppleStatusExactly | internal/application/subscription/service.go:367-405 | which notifications change a subscription, and for every status exactly the notifications that mean it |
| Notices.OtherAppleDeliveries | internal/application/subscription/service.go:121-160 | a delivery without a transaction is noted, and exactly the undecodable ones are refused |
| Notices.GoogleDeliveryExactly | internal/application/subscription/service.go:470-526 | a notice is ignored, refused for one of three reasons, noted as missing, or a change, each exactly when |
| Notices.GoogleChangeExactly | internal/application/subscription/service.go:528-626 | every column of the change of a notice, told from the answer as the API sent it |
| Notices.GoogleStatusExactly | internal/application/subscription/service.go:640-694 | for every status exactly the states, by name, and kinds of notice that mean it; and when it renews |
| Notices.StatesExactly | internal/platform/google/client.go:191-210 | for every purchase state exactly the word of the API that means it |
| Notices.FetchedExactly | internal/platform/google/client.go:123-189 | the purchase a usable answer is normalised to, field by field |
| Notices.OtherGoogleDeliveries | internal/application/subscription/service.go:445-470 | test and other notices are noted, undecodable ones refused |
| Notices.AppleCheckExactly | internal/application/subscription/service.go:755-816 | an Apple verification is refused, for its bundle, environment, product or an API error, or comes to a purchase, each exactly when, and to which |
| Notices.OtherAppleChecks | internal/application/subscription/service.go:755-763 | an Apple verification that does not decode is refused |
| Notices.ReconciledExactly | internal/application/subscription/service.go:893-971 | with a selected candidate the answer is a success exactly for codes 1 to 5 and a readable renewal record; status by code, renewal by the record |
| Notices.UnreconciledExactly | internal/application/subscription/service.go:893-940 | the errors of reconciliation otherwise |
| Notices.CodesExactly | internal/application/subscription/service.go:956-971 | for every status exactly the code that means it |
| Notices.GoogleCheckExactly | internal/application/subscription/service.go:977-1003 | a Google verification comes to a purchase exactly if the answer is usable; which errors otherwise |
| Notices.GooglePurchaseExactly | internal/application/subscription/service.go:977-1059 | every column of that purchase, its status under no kind of notice |
| EndToEnd.DeliverThenRead | internal/application/subscription/service.go:722-747 | on the service: an applied delivery, then a read by the purchase's owner: the row as the change says, pro exactly if listed or if the change grants access |
| EndToEnd.AppleNoticeThenRead | internal/application/subscription/service.go:121-352 | after any applied App Store notification the owner reads pro exactly if listed or if the notification, by its own words, grants access |
| EndToEnd.GoogleNoticeThenRead | internal/application/subscription/service.go:445-637 | after any applied Google notice the row's status and renewal, and the owner's access, are those of the purchase as the API sent it |
| EndToEnd.NoticeReachesTheRow | internal/application/subscription/service.go:409-442 | which rows refunds, revocations, purchases and renewals reach, and what they leave |
| EndToEnd.RevocationReachesTheRow | internal/application/subscription/service.go:398-399 | a refund or revocation that is news, not late and about an owned row makes it revoked and not renewing, and its owner free unless listed |
| EndToEnd.RenewalReachesTheRow | internal/application/subscription/service.go:369-374 | a purchase or renewal that is news, not late and not shortening the expiry makes any unrevoked row active and renewing, and its owner pro until the expiry |
| EndToEnd.VerificationAnswers | internal/application/subscription/service.go:818-880 | every column a successful verification stores, and that it is answered pro exactly if the user is listed or the purchase grants access |
| EndToEnd.AppleVerificationAnswers | internal/application/subscription/service.go:755-971 | a verification against the API is answered, in status, renewal and entitlement, by the selected candidate's code, renewal record and expiry |
| EndToEnd.AppleAloneAnswers | internal/application/subscription/service.go:783-815 | without the API, or with it down, the transaction is answered active, renewing, and pro until its expiry |
| EndToEnd.GoogleVerificationAnswers | internal/application/subscription/service.go:977-1077 | a Google verification is answered, in status, renewal and entitlement, as the API sent the purchase |
| StatusMapping.EnvironmentExactly | internal/application/subscription/service.go:358-364 | production is any spelling of that word in small and capital letters, everything else sandbox |
| StatusMapping.GoogleStatusRange | internal/application/subscription/service.go:640-694 | the range of the Google status mapper |
| Domain.TimesAreRight | internal/application/subscription/service.go:257-270 | milliseconds and nanoseconds convert as they should, rounding down, and the zero time is the year 1 |
| StatusMapping.GooglePipelineIsTotal | internal/application/subscription/service.go:640-694 | every normalised purchase under every notification type maps to a stored status, never inactive; revoked exactly on type 12 or a developer cancellation; renewing only when active or in grace |
| GooglePlay.NormalisationIsExact | internal/platform/google/client.go:99-189 | normalisation takes the first item of the wanted product (the first when none is named) and fails exactly when there is none or its expiry is unusable |
| GooglePlay.NormalizeSubscriptionV2 | internal/platform/google/client.go:99-189 | the loop with early exit and the optional parts give the one purchase the specification names, or its error |
| GooglePlay.FetchErrorsExactly | internal/platform/google/client.go:73-97 | the exact inputs of each of the four client errors, and of success: arguments, then the answer's status, then the wanted product, then its expiry |
| Reconciliation.SelectCandidate | internal/application/subscription/service.go:901-936 | the nested loops select the earliest of the latest-signed acceptable candidates, and their counters conserve the signed candidates |
| Reconciliation.ScanIsRight | internal/application/subscription/service.go:901-938 | scanning groups and candidates one by one selects and counts what the declarative choice and the verdicts of all candidates say |
| Reconciliation.ScanResponse | internal/application/subscription/service.go:901-936 | the two loops, with their early continues, are that scan |
| Reconciliation.ChoiceExists | internal/application/subscription/service.go:901-936 | a candidate is selected exactly when one is signed, verifies and matches purchase, bundle and environment |
| Reconciliation.ChoiceAfter | internal/application/subscription/service.go:930-934 | one more candidate replaces the selection exactly when it is acceptable and signed strictly later |
| Reconciliation.TallyConserves | internal/application/subscription/service.go:901-938 | signed candidates are the four rejection counts plus the accepted ones; none accepted exactly when none selected |
| Reconciliation.ReconcileApplePurchase | internal/application/subscription/service.go:893-954 | the answer the specification gives: which error, or which transaction, status and renewal |
| Reconciliation.ReconciliationIsTrue | internal/application/subscription/service.go:893-954 | a success answers for the purchase asked about, with transaction and status from the selected candidate; without a candidate it fails |
| Plans.PlannedRunsAreSound | internal/application/subscription/service.go:121-640 | every call of the service, whatever its input, comes to a job within the bounds all run theorems assume |
| Plans.AppleChecksAreSound | internal/application/subscription/service.go:755-885 | an Apple verification stores only this service's environment and never a cancelled status |
| Plans.GoogleHooksAreSound | internal/application/subscription/service.go:445-550 | a Google webhook never names a user, and renews only while active or in grace |
| Service.SubscriptionService.HandleAppleNotification | internal/application/subscription/service.go:121-352 | tables and answer are those of its job, for every payload and every failing call |
| Service.SubscriptionService.HandleGoogleNotification | internal/application/subscription/service.go:445-637 | tables and answer are those of its job, for every payload, API reply and failing call |
| Service.SubscriptionService.VerifyApplePurchase | internal/application/subscription/service.go:755-885 | tables, returned subscription, entitlement and errors are those of its job |
| Service.SubscriptionService.VerifyGooglePurchase | internal/application/subscription/service.go:977-1077 | tables, returned subscription, entitlement and errors are those of its job |
| Service.SubscriptionService.GetSubscription | internal/application/subscription/service.go:735-747 | a most recently updated row of the user, pro exactly if they are listed or the row grants access now; or no subscription, pro exactly if they are listed |
| Service.EntitlementFor | internal/application/subscription/service.go:722-730 | pro exactly if listed, or active or in grace with no expiry or a later one, or cancelled with a later one |
| Service.SubscriptionService.DeleteAllByUser | internal/application/subscription/service.go:110-118 | tables and answer are those of the deletion job |
| Service.SubscriptionService.WithProEntitlementAllowlist | internal/application/subscription/service.go:87-97 | the allowlist becomes the listed ids, except that an empty list changes nothing |
| Service.SubscriptionService.ResolveApple | internal/application/subscription/service.go:223-348 | user resolution, lookup, guard, field updates and write come to the change's effect on the rows |
| Service.SubscriptionService.ResolveGoogle | internal/application/subscription/service.go:567-634 | lookup, guard, field updates and write come to the change's effect; an unknown token does nothing |
| Ownership.VerificationIsFaithful | internal/application/subscription/service.go:818-880 | the stored row equals the returned one in every column but the owner, which an existing row keeps; nothing else changes |
| Ownership.RepeatingAVerification | internal/application/subscription/service.go:1005-1072 | repeating a verification with the same answers adds no row and changes only the update time |
| Ownership.ReadAfterVerify | internal/repository/postgres/subscription_repository.go:123-141 | with an increasing clock the verifier's latest row is the verified one exactly if the verification created it or it was theirs; otherwise their rows are untouched |
| Ownership.RowsAreOlder | internal/application/subscription/service.go:818-866 | with strictly increasing clock readings every row is older than the next reading, after any run |
| Ownership.EntitlementOnlyLapses | internal/application/subscription/service.go:722-730 | read later, an entitlement differs from the verification's only by going from pro to free when the expiry passes in between |
| ServiceRuns.VerifyThenRead | internal/application/subscription/service.go:735-747 | a verification on the service, then a read: the same subscription comes back, pro lapsing to free at most, if the row is new or the user's; otherwise the read answers as if there had been no verification |
| ServiceRuns.RelinkingDoesNotStick | internal/application/subscription/service.go:836-852 | two users verify one purchase: the second is answered pro as its owner and reads back no subscription and free |
| ServiceRuns.HandleAll | internal/application/subscription/service.go:121-1077 | any sequence of calls on the service leaves the tables and gives the replies and entitlements of the run of its jobs |
| ServiceRuns.Handle | internal/application/subscription/service.go:121-1077 | one call of any kind: tables and answer of its job, and the row invariant kept |
| Ownership.DeletionIsExact | internal/repository/postgres/subscription_repository.go:22-25 | a deletion takes exactly the user's rows and no event |
| Ownership.WebhookGivesRow | internal/application/subscription/service.go:229-255 | a webhook gives a user without rows a row exactly when it names the user, the purchase is unknown, the event is new and no call fails |
| Ownership.WebhookAddsRow | internal/application/subscription/service.go:316-348 | a webhook adds one row, of the user it names, if it makes a purchase known, and otherwise none |
| Ownership.DeletedStaysDeleted | internal/application/subscription/service.go:229-255 | no run in which no delivery names the user and no verification is theirs brings back a row of the user, whatever else it does |
| Counterexamples.DeletedAccountComesBack | internal/application/subscription/service.go:107-118 | a deletion, then an App Store delivery that names the deleted user for their purchase: the user has a row again |
| Provenance.InterleavedDeletionStays | internal/application/subscription/service.go:110-118 | under every interleaving, if no transaction open at a deletion and none started later names the user or verifies as them, no row of the user is stored again |
| Provenance.OpenVerificationReinserts | internal/repository/postgres/subscription_repository.go:247-284 | a verification by the user that is open at the deletion, its row looked up, stores the row anew |
| Provenance.ReachableIsTraced | internal/repository/postgres/subscription_repository.go:182-284 | in every state a run reaches, the row ids handed to an open transaction are in no stored row and in no other transaction's hands, and an uncommitted row without a stored one is an insert |
| Ownership.GoogleWebhooksAddNoRows | internal/application/subscription/service.go:568-576 | no run of Google webhooks adds or removes a row |
| Entitlements.ServeBoth | internal/application/subscription/service.go:722-747 | two service objects with different allowlists and equal tables, fed the same calls: equal tables, the same subscriptions, entitlements that differ by the lists alone; a read may differ only among equally recent rows, and with increasing clock readings not even there |
| Entitlements.Serve | internal/application/subscription/service.go:722-747 | a service's answers to any calls and reads are among those its allowlist permits on the tables at that moment |
| Entitlements.ServicesAnswerAlike | internal/application/subscription/service.go:722-730 | answers permitted under any two allowlists agree call by call, up to the choice among equally recent rows |
| Entitlements.AllowlistsDiffer | internal/application/subscription/service.go:722-730 | with strictly increasing clock readings they agree on every subscription, and an answer is pro exactly if it was anyway or the user is listed |
| Entitlements.LatestIsThere | internal/repository/postgres/subscription_repository.go:123-141 | a user has a most recent row exactly if they have rows, and only one if update times differ |
| Allowlist.ParseUUIDAllowlist | internal/config/config.go:154-177 | fails exactly when a non-blank entry is no id, naming the first such; otherwise the ids, each once, by first occurrence |
| Allowlist.ParseRendered | internal/config/config.go:154-177 | parsing a comma-rendered list gives the list without its later repeats |
| Allowlist.ParseWritten | internal/config/config.go:154-177 | parsing ids written with any white space around them and any blank parts between them gives them without later repeats |
| Allowlist.SpacesAre | internal/config/config.go:160-163 | the white space that is trimmed, by code point |
| Allowlist.DeduplicationIsByFirstOccurrence | internal/config/config.go:164-175 | the loop's result has the same ids, no repeats, in order of first occurrence |
| Repository.SubscriptionRepository.FindByProviderAndTransaction | internal/repository/postgres/subscription_repository.go:144-160 | the one row with this provider and transaction, a new object for it, or not found |
| Repository.SubscriptionRepository.FindByProviderAndPurchaseToken | internal/repository/postgres/subscription_repository.go:163-179 | the one row with this provider and token, a new object for it, or not found |
| Repository.SubscriptionRepository.FindByUserID | internal/repository/postgres/subscription_repository.go:123-141 | a row of the user that none was updated after, or not found exactly when there is none |
| Repository.SubscriptionRepository.Create | internal/repository/postgres/subscription_repository.go:182-207 | the row is added, or a constraint or failure leaves the table alone |
| Repository.SubscriptionRepository.Update | internal/repository/postgres/subscription_repository.go:210-244 | every column but owner, provider and creation time is replaced, or an error leaves the table alone |
| Repository.SubscriptionRepository.Upsert | internal/repository/postgres/subscription_repository.go:247-284 | insert or update by id, owner kept |
| Repository.SubscriptionRepository.RecordEventIfNotExists | internal/repository/postgres/subscription_repository.go:286-303 | reports whether the event is new; an event there already stays as it is |
| Repository.SubscriptionRepository.DeleteAllByUser | internal/repository/postgres/subscription_repository.go:22-25 | removes the user's rows and no event |
| Repository.SubscriptionRepository.End | internal/repository/postgres/subscription_repository.go:34-59 | a failed body or a failed commit goes back to the snapshot, anything else keeps what was written |
| Repository.StatementsKeepConstraints | migrations/000002_add_subscription_details_and_events.up.sql:14-29 | every statement keeps the unique indexes and the status check, whether it succeeds or not |
| Repository.FindIsUnique | migrations/000002_add_subscription_details_and_events.up.sql:23-29 | a lookup has at most one match, and answers with it |
| Repository.FindAfterPut | migrations/000002_add_subscription_details_and_events.up.sql:23-29 | writing one row changes the answer of exactly the lookups it takes part in |
| Domain.Subscription.TransitionTo | internal/domain/subscription/transitions.go:69-83 | moves exactly along permitted transitions, spelled out by rank, refuses unknown statuses as invalid, and changes nothing when it refuses |
| Domain.Subscription.New | internal/domain/subscription/subscription.go:83-98 | a subscription that grants no access at any time and may move to every other status the table knows; both times are the clock reading |

## Left out

- HTTP routing, request and response types, health checks, logging, error texts and configuration reading other than the allowlist text: plumbing.
- JWS and certificate checking, UUID parsing, envelope and JSON decoding and time parsing: function-valued fields of the configuration, so the theorems hold for every such function. The round trip of the allowlist assumes that parsing a printed id gives it back and that a printed id holds neither comma nor white space.
- The Apple and Google network clients: the API's reply is part of the delivery, as is the answer of each repository call.
- Clock readings: one per call, where the code reads the clock several times within a call; so a new row is created and updated at one instant in the model.
- Commits whose outcome the database leaves unknown: a commit that fails commits nothing.
- Event row ids, event payloads and column lengths: an over-long text is one of the database failures a call may meet.
- The unsupported-provider error of the repository: the provider type has two values. Nil line items in a Google reply are not modelled either.
- The loaded subscription is an object with one mutable cell holding its columns; the code's pointers to optional columns, which it shares between the object and local variables but never writes through, are values.
- Liveness: that a waiting transaction gets its turn, and the database's deadlock detection. A blocked or failing statement is never taken, so its transaction can only abort.
- The product of an Apple transaction that reconciliation selects: the code checks the product of the submitted transaction only, and so does the model.
- `FindByID`, `FindByKey`, `IsNewerExpiryThan`, token masking and flexible timestamp decoding: modelled without a row here or not at all, since they would add only easy members.
- Ownership.ReadAfterVerify: assumes that every row is older than the verification's clock, which `Ownership.RowsAreOlder` gives for strictly increasing clock readings; with equal readings the read may pick another row of the user. So does `ServiceRuns.VerifyThenRead`.
- Ownership.WebhookGivesRow: assumes a fresh row id, as do the independence theorems; a repeated id makes the insert fail.
- Access.GoogleAccessExactly: is about instants not before the webhook and about the states Google names; for the two remaining states the notification type decides, as `StatusMapping.GooglePipelineIsTotal` bounds.
- Lifecycle.ExpiryOrder: is about runs that do not verify the purchase, since verifications overwrite the expiry unguarded.
