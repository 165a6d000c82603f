# Verification of the FarMail back end

A Dafny model of the stateful protocols in the FarMail API, with proofs about them. Each mechanism
is compared with a simple specification that it has to agree with.

| modules | what they are about |
|---|---|
| `DonationModel`, `DonationLedger`, `DonationProtocol`, `DonationLocks`, `DonationDeadlocks`, `DonationDeletion`, `DonationOutcomes`, `DonationStore` | Reward tokens of donated domains: five kinds of transactions change rows, quotas and an event ledger under row locks. `DonationModel` says what one committed transaction does; `DonationProtocol` runs the statements of many transactions in any interleaving and shows that this amounts to running the committed ones one after the other; `DonationLedger` proves what such runs keep; `DonationLocks` proves that waiting for row locks always ends while locking scans follow one order, and `DonationDeadlocks` how it does not otherwise; `DonationDeletion` adds the deletion of domains; `DonationOutcomes` tells from the log of commits what becomes of a donation; `DonationStore` has the transactions as methods. |
| `MailProjection` | `mailbox_state`, kept up to date by every statement that inserts or deletes emails, against the rebuild from the emails table. |
| `IngressSlots` | LMTP sessions, the bounded queue, the workers and the shutdown drain, as interleaved channel operations. |
| `LmtpData` | Reading a message up to its final dot line, and undoing dot stuffing. |
| `RecipientResolver` | The label walk through the domain index, against the scan of the domain list. |
| `UsageRecorder` | The batching recorder of API requests, with failing stores and concurrent producers. |
| `UsageAccounting` | Total request counts against daily request counts. |
| `TokenAuthCache` | The token cache with its time to live, its eviction and its epoch. |
| `QuotaCounters` | The Redis script behind the minute and day limits. |
| `Admission` | The checks that admit an API request, and the account of admitted requests across the counters, the token's total and the recorder. |
| `DnsSaga` | Applying DNS records with compensation. |
| `CodeScanner` | Extraction of verification codes. |
| `Text`, `Options` | What they share: lower case, trimming, and optional values. |

Clocks, DNS verdicts, settings read by a transaction, random ids, failures of stores and of remote
requests are arbitrary inputs.

## What turned out not to hold

* Restoring a donation does not look at whether it was revoked, and records no event. The reward
  ledger agrees with the rewards after a history if and only if no restore was applied to a donation
  that was still active (`DonationLedger.LedgerExactIffGuarded`,
  `DonationStore.UnguardedRunExists`). The handler's check of the status (api/handler/domain.go:418)
  precedes the transaction and is not made under the row's lock.
* Bulk policy applications lock the rows in the order in which a scan without ORDER BY meets them
  (api/store/donations.go:641). As long as the scans in flight follow one order of the rows, however
  many they are, there is no deadlock and everybody can finish (`DonationLocks.NoDeadlock`,
  `DonationLocks.EverybodyFinishes`). Two scans over the same free rows can come to wait for each
  other if and only if they begin with different rows (`DonationDeadlocks.PairCanDeadlockIff`), and
  runs from the empty tables get there (`DonationDeadlocks.DeadlockIsReached`).
* Deleting a domain deletes its donation without the token's lock and without a recalculation, and so
  it can come between the statements of a transaction that is recalculating the token. At every point
  of every interleaving a quota is exact if and only if what was deleted since the sum that it was
  computed from shows in none of the three limits (`DonationDeletion.QuotaExactIffHidden`); with a
  positive total that means that no active donation of the token was deleted since that sum
  (`DonationDeletion.QuotaExactIffNotOvertaken`). A deletion after the last recalculation makes it
  stale (`DonationDeletion.StaleQuotaIsReached`), but so does one before its commit
  (`DonationDeletion.OvertakenQuotaIsReached`); only when deletions overlap no recalculation is it the
  commit that counts (`DonationDeletion.QuotaExactIffNoneDeletedSinceCommit`).
* A deferred usage batch updates totals and days with two statements. A token that is revoked at the
  first and enabled before the second gets days without totals; the two agree if and only if that
  never happened (`UsageAccounting.TotalIsSumOfDaysIff`).
* The cache compares the epoch before it puts an entry. An entry is stale if and only if an
  invalidation of its token was begun and finished between that comparison and the put; an entry
  that is put while the epoch is still the same never is (`TokenAuthCache.StaleIffOvertaken`,
  `TokenAuthCache.StaleEntryIsReached`). An old row is then served for at most five seconds from the
  invalidation on, give or take the time between the comparison and the put
  (`TokenAuthCache.OldRowsExpire`).
* A rolled-back DNS apply writes an overwritten record that is not an MX record back without its
  priority, because only MX records are sent with one. A reported rollback restores the zone exactly,
  whichever requests fail, if and only if the plan does not overwrite such a record with a priority
  and write another record after it (`DnsSaga.RollbackRestoresIff`). The plans that the handler builds,
  an MX record and an address record, never do (`DnsSaga.MailRecordsAreNotAtRisk`). A listing that
  fails half-way returns without any rollback.
* The message reader removes a leading dot only when a second one follows; section 4.5.2 of RFC 5321
  removes it from every line (`LmtpData.UnstuffsAsTheStandardIff`). It also accepts final lines
  other than `.` CRLF (`LmtpData.EndsMessageIffTrimmed`).
* Whatever requests of its minute or day came before, the limit still holds after a request if and
  only if its counter script runs before the window's counter can have expired
  (`QuotaCounters.LimitHoldsIffInTime`); nothing in the handler makes it do so.
* A stored domain name with white space around it can make the scan miss the longest root. For
  requests without empty labels that takes two characters of it, and then it does
  (`RecipientResolver.NameMisleadsIffPadded`); for requests such as `x..root` one is enough
  (`RecipientResolver.NameMisleadsUnlessUnpadded`). The handlers trim the names that they store
  (api/handler/domain.go:91, api/handler/domain.go:198).

## Model

| member | source | states |
|---|---|---|
| DonationModel.RaisedPolicy | api/store/donations.go:74-94 | Each setting is raised to its minimum and no further: the result is the least policy above the settings that is allowed, and allowed settings are kept |
| DonationLedger.TokensOfIsSorted | api/store/donations.go:641-673 | Tokens of a bulk application are locked in strictly ascending order, each once |
| DonationLedger.TokensOfIsGranted | api/store/donations.go:641-673 | They are exactly the tokens of the rows that were locked |
| DonationLedger.PreClampFrame | api/store/donations.go:463-505 | Writes that are confined to some tokens leave the quota of every other token as it was |
| DonationLedger.DoKeepsQuotaExact | api/store/donations.go:447-505 | Every commit leaves each token's quota at the clamped and capped sum of its active rewards and manual adjustments |
| DonationLedger.ReplayKeepsQuota | api/store/donations.go:355-706 | So does every sequence of commits, along with the well-formedness of rows, events and domain claims |
| DonationLedger.LedgerStep | api/store/donations.go:387-432 | A commit moves a donation's ledger exactly as it moves its current reward, except for a restore of an active donation |
| DonationLedger.DriftNeverShrinks | api/store/donations.go:387-432 | A ledger never falls behind the reward, and equals it in guarded histories |
| DonationLedger.UnguardedRestoreDrifts | api/store/donations.go:507-550 | After an unguarded restore some ledger stays ahead for good, whatever follows |
| DonationLedger.LedgerExactIffGuarded | api/store/donations.go:507-592 | All ledgers equal the current rewards if and only if no restore hit an active donation |
| DonationLedger.TokenLedgerIsQuota | api/store/donations.go:463-505 | In guarded histories the token's quota before clamping is the sum of its whole event ledger |
| DonationLedger.HeldStep | api/store/donations.go:143-150 | Only creations and restores of revoked donations raise the number of donations a token holds, by one |
| DonationLedger.HeldWithinLimit | api/store/donations.go:143-150 | A token holds at most the limit plus one donation for each restore |
| DonationProtocol.CommitIsAtomic | api/store/donations.go:355-706 | The pending writes of a transaction at its commit are the effect of the whole transaction on the tables as they are then |
| DonationProtocol.StepKeepsInv | api/store/donations.go:355-706 | Every statement of every transaction keeps the protocol invariant: what was read under a lock is still true |
| DonationProtocol.CommitsSerialize | api/store/donations.go:98-706 | Every interleaving of statements commits what the committed transactions produce one after the other, in commit order |
| DonationProtocol.QuotaExactInEveryRun | api/store/donations.go:454-505 | At every point of every interleaving of the five kinds of transactions every token's committed quota is exact |
| DonationProtocol.LedgerInEveryRun | api/store/donations.go:387-432 | At every point of every interleaving the ledgers are exact if and only if the committed log is guarded |
| DonationProtocol.DomainLimitInEveryRun | api/store/donations.go:117-150 | Concurrent creations never carry a token past its domain limit plus the restores |
| DonationLocks.RunKeepsLocksOk | api/store/donations.go:454-461 | Whoever holds a lock is unfinished and past the statement that takes it |
| DonationLocks.NeverWaitsForItself | api/store/donations.go:663-673 | No transaction waits for a lock that it holds |
| DonationLocks.StepKeepsScansFollow | api/store/donations.go:641-661 | Steps keep all scans in one order of the rows, if each bulk application opens its scan in it |
| DonationLocks.WaitingAscends | api/store/donations.go:627-673 | Along waiting edges the rank rises while the scans in flight follow one order of the rows, so waiting has no cycle |
| DonationLocks.NoDeadlock | api/store/donations.go:627-673 | In every reachable state whose scans follow one order and in which a transaction is unfinished, some unfinished transaction can take its next step |
| DonationLocks.EveryStepDecreases | api/store/donations.go:355-706 | Every step of every transaction decreases one measure, so no schedule is infinite |
| DonationLocks.EverybodyFinishes | api/store/donations.go:355-706 | From every kept state whose scans follow one order there is a schedule to the end of all transactions in flight |
| DonationLocks.OnePolicyNoDeadlock | api/store/donations.go:627-673 | With at most one bulk application in flight nothing is assumed about its scan |
| DonationLocks.OnePolicyFinishes | api/store/donations.go:355-706 | Then everybody can finish, too |
| DonationDeadlocks.MutualWaitDisagrees | api/store/donations.go:627-661 | Two transactions that wait for each other are two scans that visit two rows in opposite orders and began with different rows |
| DonationDeadlocks.PairCanDeadlockIff | api/store/donations.go:627-661 | Two scans over the same free rows can come to wait for each other if and only if they begin with different rows |
| DonationDeadlocks.DeadlockIsReached | api/store/donations.go:627-661 | From the empty tables, a run of two claims and two bulk applications that ends in mutual waiting |
| DonationDeletion.RunKeepsInv | api/store/donations.go:463-505 | In every interleaving of statements and deletions, what transactions and quotas miss is exactly what was deleted since they summed |
| DonationDeletion.QuotaExactIffHidden | api/store/postgres.go:330-336 | In every such interleaving a quota is exact if and only if for each limit nothing was lost since its sum, or the sum is not positive even with it, or the cap hides it |
| DonationDeletion.QuotaExactIffNotOvertaken | api/store/postgres.go:330-336 | It is exact if no active donation of the token was deleted since the sum that it was computed from, and with a positive total only then |
| DonationDeletion.QuotaExactIffNoneDeletedSinceCommit | api/store/auxiliary_schema.go:30-48 | When deletions overlap no recalculation, the same of deletions since the last recalculation was committed |
| DonationDeletion.OvertakenQuotaIsReached | api/store/donations.go:594-618 | A run in which a deletion comes between the statements of an adjustment, and the quota is stale although nothing is deleted after its commit |
| DonationDeletion.StaleQuotaIsReached | api/store/postgres.go:330-336 | A run of a claim, its verification and the deletion of its domain that leaves a quota that nothing backs |
| DonationOutcomes.RewardActiveIff | api/store/donations.go:387-445 | After any commits a reward is active exactly when a verification found the domain valid and everything that concerned the donation since was a failure of a passing kind, each below the tolerance that it read |
| DonationOutcomes.RewardActiveInEveryRun | api/store/donations.go:355-445 | The same at every point of every interleaving of statements |
| DonationOutcomes.PassingFailuresAreTolerated | api/store/donations.go:403-430 | A valid donation that only meets failures that pass keeps its reward through one fewer than the tolerance, at least none, and loses it at the next |
| DonationOutcomes.RevokedIff | api/store/donations.go:507-592 | A donation is revoked exactly when it was revoked and not restored since |
| DonationOutcomes.RewardStep | api/store/donations.go:674-695 | Only a bulk application changes the reward of a donation, to its own |
| DonationOutcomes.PolicyReachesAll | api/store/donations.go:627-706 | In every interleaving a bulk application that commits has given its reward to every donation that was not revoked at any time from its scan to its commit |
| DonationStore.Store.Recalculate | api/store/donations.go:463-505 | The quota is stored if it fits the columns; it is then the sums, floored at zero and rpm capped, and nothing else changes |
| DonationStore.Store.CreateRequest | api/store/donations.go:98-203 | A claim is made exactly when the domain has a name, is unclaimed and not known otherwise, and the token holds fewer donations than its limit; then one pending row, its domain and perhaps its token are new |
| DonationStore.Store.ChangeRow | api/store/donations.go:355-592 | Commits exactly when legal. A valid verdict activates and grants if need be; a failure of an active donation withdraws exactly its reward if it does not pass or came too often, and only counts otherwise; a revocation withdraws an active reward; a restore leaves it inactive. One row, its events and its token change |
| DonationStore.Store.AdjustToken | api/store/donations.go:594-618 | An adjustment commits exactly when the token exists and all values fit, appends one event with the delta, and changes no other token |
| DonationStore.Store.ApplyPolicyToExisting | api/store/donations.go:620-706 | The loops have the effect of the one specified transaction, or none: every donation that is not revoked has the reward, with an event by how much that changes an active one, and its token's quota is right |
| DonationStore.Store.ApplyToGrants | api/store/donations.go:663-706 | Row updates, events and recalculations of the granted rows, rolled back when a value does not fit |
| DonationStore.Store.RecalculateAll | api/store/donations.go:696-704 | Every token is recalculated in turn unless one does not fit |
| DonationStore.HeldIsCardinality | api/store/donations.go:143-150 | The count that is compared with the limit is the number of the token's donations that are not revoked |
| DonationStore.UnguardedRunExists | api/store/donations.go:507-550 | Claim, verification and restore without revocation: a legal history whose ledger is wrong |
| MailProjection.Top | sql/migrate_v16.sql:25-34 | The first email in received_at DESC, id DESC order |
| MailProjection.DeliveredRow | api/store/ingress.go:151-235 | The upserted row is the row that the emails table calls for, whatever the order of arrival times |
| MailProjection.RefreshedRow | api/store/postgres.go:691-758 | After a deletion the refreshed row is the one that the remaining emails call for |
| MailProjection.CountNeverClamps | api/store/postgres.go:718 | A deletion never subtracts more than the count, so GREATEST(0, ...) is never needed |
| MailProjection.DoKeepsExact | api/store/postgres.go:691-764 | Every statement keeps the projection exact |
| MailProjection.EveryRunShowsTheNewest | api/store/ingress.go:122-243 | After every history each row counts the mailbox's emails and shows the one after which no other sorts, field by field |
| MailProjection.DeliveredIsShown | api/store/ingress.go:176-229 | The upserted row shows the delivered email unless an older one sorts after it; then it shows what it showed |
| MailProjection.DeliverableIsComplete | api/store/ingress.go:107-113 | Exactly which deliveries are refused |
| MailProjection.ProjectionExactInEveryRun | api/store/ingress.go:122-243 | After every history every row has the right count and the newest email, and every email's mailbox has a row |
| MailProjection.RankedFirstIsTop | sql/migrate_v16.sql:20-34 | Number one of a mailbox's partition is its newest email, and there is none only for an empty mailbox |
| MailProjection.RankedRowIsRowFor | sql/migrate_v16.sql:9-91 | The ranking and the count of the partition give the row that the emails call for |
| MailProjection.RebuildAgreesWithEveryRun | sql/migrate_v16.sql:9-91 | The rebuild by ranking changes no existing row and adds empty rows for mailboxes without emails |
| MailProjection.RebuildRepairs | sql/migrate_v16.sql:9-91 | From any rows whatever the rebuild makes the projection exact, and running it twice changes nothing |
| MailProjection.OffsetKeepsTheNewest | api/store/postgres.go:524-533 | Skipping n rows in newest-first order keeps exactly the n newest |
| MailProjection.TrimKeepsTheNewest | api/store/postgres.go:520-536 | A trim keeps exactly the maxCount newest emails, and deletes none that is newer than one it keeps |
| MailProjection.AgeDeletesADownSet | api/store/postgres.go:508-517 | An age cleanup deletes no email that is newer than one it keeps |
| MailProjection.CleanupPromotesNothing | api/store/postgres.go:508-536 | After any history, trim and age cleanup leave each mailbox's latest email as it was, or the mailbox empty |
| MailProjection.MailStore.InsertEmailResolved | api/store/ingress.go:107-252 | Incomplete deliveries are refused; otherwise one email is stored under the cleaned recipient with the delivery's summary and time, its mailbox's row shows it or what it showed, counts one more, and no other row changes |
| MailProjection.MailStore.DeleteEmailsAndRefreshProjection | api/store/postgres.go:691-764 | Exactly the given emails are gone and every row is exact |
| MailProjection.MailStore.TrimEmailsToMaxCount | api/store/postgres.go:520-536 | How many stay, how many are deleted, and that the oldest are |
| MailProjection.MailStore.DeleteEmailsOlderThan | api/store/postgres.go:508-517 | Exactly the emails that are not too old stay |
| MailProjection.MailStore.DeleteEmail | api/store/postgres.go:663-684 | One email is deleted if it is in that mailbox and the mailbox is the caller's |
| IngressSlots.RunKeepsInv | api/ingress/server.go:416-503 | In every reachable state slots, jobs, results and counters balance |
| IngressSlots.SlotHoldersNeverBlock | api/ingress/server.go:471-489 | A session with a slot finds room in the queue, returning a slot never blocks, and the number in flight is exact |
| IngressSlots.HandlesWithoutBlocking | api/ingress/server.go:416-469 | From every kept state a worker takes all its steps with a job at once: its result channel is empty and a slot is due |
| IngressSlots.NoResultIsDropped | api/ingress/server.go:464-469 | Every result is sent into an empty channel, whether or not its session still waits |
| IngressSlots.NobodyIsStuck | api/ingress/server.go:405-503 | In every run each session and worker can go on at once, unless its job is still in the queue or in somebody's hands or there is no job; and an answered session receives that answer |
| IngressSlots.ShutdownSettlesEverything | api/ingress/server.go:285-304 | After the drain every slot is free, every job has its result, and submitted = delivered + temporarily failed + permanently failed |
| IngressSlots.CountersAreAnswers | api/ingress/server.go:285-304 | After the drain each of the three counters is the number of the jobs that were answered so |
| IngressSlots.TurnIsFourSteps | api/ingress/server.go:491-503 | A turn of the drain loop is four steps of the state machine that cannot block |
| IngressSlots.DrainedExactly | api/ingress/server.go:491-503 | The loop answers exactly the queued jobs, counts each once, and frees as many slots |
| IngressSlots.DrainKeepsInvariant | api/ingress/server.go:491-503 | From every kept state the drain ends with all slots free |
| IngressSlots.Server.constructor | api/ingress/server.go:161-206 | The slots channel is filled to its capacity |
| IngressSlots.Server.ReserveSlot | api/ingress/server.go:471-479 | The machine's step of an idle session: it takes a slot if one is free and then finds room in the queue, and is counted as refused otherwise |
| IngressSlots.Server.HandleJob | api/ingress/server.go:416-469 | The machine's steps of a worker, which cannot block: the job's only result is temporary after its context ended or the insertion failed, and permanent if it was refused; it is counted as such, and its slot returned |
| IngressSlots.Server.DrainQueuedJobs | api/ingress/server.go:491-503 | The loop's effect is that of the machine's drain: exactly the queued jobs are answered as temporarily failed and counted, and every slot is free |
| LmtpData.ReadLines | api/ingress/server.go:732-756 | Reading lines up to a final one yields those that fit, and stops behind it |
| LmtpData.FitOrOverflow | api/ingress/server.go:749-753 | Some line is skipped exactly when all together are too long |
| LmtpData.ReadStopsAtTheFinalLine | api/ingress/server.go:732-756 | Every input is read to its first final line, oversized exactly when the unstuffed lines exceed the limit, and to an error exactly when there is no final line |
| LmtpData.StuffingRoundTrip | api/ingress/server.go:732-756 | Any message of CRLF lines survives stuffing and reading, and the rest of the input is left alone |
| LmtpData.UnstuffsAsTheStandardIff | api/ingress/server.go:746-748 | On which lines the reader agrees with the receiver's rule of the standard |
| LmtpData.EndsMessageIffTrimmed | api/ingress/server.go:742-745 | Which lines end the message |
| LmtpData.Session.ReadData | api/ingress/server.go:732-756 | The loop computes the specified reading and leaves the specified rest |
| RecipientResolver.RefreshSnapshot | api/ingress/server.go:322-366 | The list has exactly the rows with a positive id and a name, under their normal names and with the longest first, and the index exactly their names |
| RecipientResolver.ScanFindsARoot | api/store/postgres.go:253-269 | For every list the scan finds an entry whose root the domain is under, and nothing only if there is none |
| RecipientResolver.ScanFindsTheLongest | api/store/postgres.go:253-269 | For names in any case without white space around them it finds the longest such root |
| RecipientResolver.ScanFindsTheLongestLabelled | api/store/postgres.go:253-269 | For requests without empty labels it does so for names with at most one character of white space around them |
| RecipientResolver.NameMisleadsIffPadded | api/store/postgres.go:254-260 | For such requests a name without empty labels misleads the scan if and only if it has more white space than that |
| RecipientResolver.NameMisleadsUnlessUnpadded | api/store/postgres.go:254-260 | For all requests, empty labels included, any white space around a name can mislead it, and nothing else |
| RecipientResolver.OnlyOneLongest | api/store/postgres.go:253-269 | With unique names any two searches for the longest root agree |
| RecipientResolver.UnderIsDotSuffix | api/store/postgres.go:259 | What being a root of a domain means |
| RecipientResolver.CutOneLabel | api/ingress/server.go:767-774 | Cutting a label loses no root except the whole candidate |
| RecipientResolver.Walk | api/ingress/server.go:764-775 | The walk finds the longest root too, and the same entry as the scan |
| RecipientResolver.SplitDomainIsClean | api/ingress/server.go:829-842 | The domain of a split address is lower-cased and has no empty label |
| RecipientResolver.SplitIsRight | api/ingress/server.go:829-842 | An address splits into two parts exactly when it is, lower-cased and trimmed as spelled out, joined from them at its last @ |
| RecipientResolver.SplitIgnoresCase | api/ingress/server.go:829-842 | Plain parts joined in any mixture of capitals and small letters split into the same parts |
| RecipientResolver.SplitRoundTrip | api/ingress/server.go:829-842 | An address made of plain parts splits into them |
| RecipientResolver.ResolveRecipient | api/ingress/server.go:758-787 | A recipient resolves exactly when its domain has an active root, and to the longest |
| RecipientResolver.GetDomainByName | api/store/postgres.go:222-235 | The named domain, or none only when no name is equal |
| RecipientResolver.ResolutionIsLongest | api/store/postgres.go:237-272 | The exact match first changes nothing: the result is the longest root |
| RecipientResolver.ResolutionIsRight | api/store/postgres.go:237-272 | For every list: an entry of the requested name is resolved under its own name; without one, an entry that the request is under, under the normalised request; nothing only if there is neither |
| RecipientResolver.ResolveActiveMailboxDomain | api/store/postgres.go:237-272 | The loop resolves as specified for every list and request, and to the longest root if no name has white space around it |
| UsageRecorder.StepKeepsInv | api/middleware/observability.go:156-232 | Every operation keeps the log of accepted events intact and the batch bounded |
| UsageRecorder.NothingIsLost | api/middleware/observability.go:99-114 | Accepted events are at every moment those stored, then batched, then queued, each once and in order |
| UsageRecorder.FailedIsWhatIsNotStored | api/middleware/observability.go:211-231 | At the end failedEvents is the number of unstored events that were accepted before the last look at the queue |
| UsageRecorder.LateEventIsNotCounted | api/middleware/observability.go:222-228 | An event offered after that is why the count can fall short |
| UsageRecorder.ClosingIsExact | api/middleware/observability.go:211-231 | Without producers the closing loop ends, and reports exactly what it leaves unstored |
| UsageRecorder.WaitsForTheLastFailure | api/middleware/observability.go:165-189 | In every run the time before which unforced flushes are skipped is nothing, or an interval after the end of the last failed call, with no success since |
| UsageRecorder.RetriesAfterTheInterval | api/middleware/observability.go:165-189 | After a failed call, flushes before that time leave what is stored alone, and the first successful one from then on stores all that is pending |
| UsageRecorder.TicksStore | api/middleware/observability.go:200-210 | In every run a tick whose call succeeds stores the whole batch unless it waits for a failure |
| UsageRecorder.APIUsageRecorder.Enqueue | api/middleware/observability.go:99-114 | A full queue drops the event and falls back to direct counting if it must be counted |
| UsageRecorder.APIUsageRecorder.Flush | api/middleware/observability.go:165-189 | A flush that is due stores the whole batch behind what is stored, or keeps it and sets the time to wait for; one that is not due changes nothing |
| UsageRecorder.APIUsageRecorder.Close | api/middleware/observability.go:211-231 | The loop is the specified one, and failedEvents is the unstored remainder |
| UsageAccounting.AddToSum | api/store/observability.go:200-214 | An upsert of one day adds to the sum of that token's days only |
| UsageAccounting.BatchDaysAddUp | api/store/observability.go:135-217 | For any list of events the days of each active token grow by its total |
| UsageAccounting.BatchDaysAreAggregates | api/store/observability.go:150-156 | Adding events one at a time is adding each day's aggregate once |
| UsageAccounting.MapsAgree | api/store/observability.go:135-157 | In the two maps of a batch each token's count is the sum of its counts by day |
| UsageAccounting.DayBeginsAtSixteen | api/store/observability.go:138-150 | Days follow each other and begin at 16:00 UTC |
| UsageAccounting.BatchIsCounted | api/store/observability.go:135-217 | A batch adds to each total the number of the token's counted events, unless it was revoked, and to each day the number of those between its two midnights |
| UsageAccounting.TotalIsCardinality | api/store/observability.go:139-148 | The count of a token is the number of its counted events |
| UsageAccounting.DayIsCardinality | api/store/observability.go:150-156 | The count of a day is the number of the counted events between two Shanghai midnights |
| UsageAccounting.StepAddsSlip | api/store/tokens.go:444-490 | Single increments keep total and days together, and so does a batch but for tokens enabled in between |
| UsageAccounting.TotalIsSumOfDaysIff | api/store/observability.go:178-216 | After any history the total is the sum of the days if and only if no batch met a token that was enabled between its statements |
| UsageAccounting.EnablingInBetweenSlips | api/store/tokens.go:677-690 | A history in which they differ |
| UsageAccounting.TotalWithinLimit | api/store/tokens.go:446-463 | After any history a total is at most the highest limit that the token has had, plus what was counted without the check of a positive limit |
| UsageAccounting.UsageStore.IncrementTokenUsageIfAllowed | api/store/tokens.go:444-472 | Admitted exactly when active, unexpired and below the limit; returns the new total |
| UsageAccounting.UsageStore.Aggregated | api/store/observability.go:135-157 | The loop's maps hold exactly the counts of the events |
| UsageAccounting.UsageStore.RecordDeferredTokenUsage | api/store/observability.go:135-217 | The two statements over the aggregates have the effect of counting event by event |
| TokenAuthCache.PutDropsTheEarliest | api/store/tokens.go:292-319 | A put drops only expired entries and at most one other, which expires first; a full cache without expired entries loses exactly one |
| TokenAuthCache.PutMakesRoom | api/store/tokens.go:292-319 | Nothing is dropped while there is room, then exactly the expired entries are, and if these are too few one more that expires first |
| TokenAuthCache.RunKeepsInv | api/store/tokens.go:194-232 | In every interleaving entries, loads and callers keep what is known about them |
| TokenAuthCache.ResultsAreFresh | api/store/tokens.go:194-232 | A result was read with no invalidation up to the final check, or was a hit within five seconds and before the token's expiry |
| TokenAuthCache.ResultsAreGivenInTheirEpoch | api/store/tokens.go:220-232 | A result that was read from the database was read in the epoch of the very moment at which it is given |
| TokenAuthCache.EntryWasPut | api/store/tokens.go:207-217 | In every run each entry was put by a load that had found the epoch unchanged |
| TokenAuthCache.StaleIffOvertaken | api/store/tokens.go:207-217 | In every run an entry is stale exactly when an invalidation of its token was begun and finished between the comparison of the epochs and the put |
| TokenAuthCache.StaleEntryIsReached | api/store/tokens.go:207-217 | A run from the empty cache that ends with a stale entry |
| TokenAuthCache.OldRowsExpire | api/store/tokens.go:194-232 | No lookup that samples the clock five seconds after an invalidation, give or take the time between comparison and put, returns a row from before it |
| TokenAuthCache.AuthCache.GetCached | api/store/tokens.go:269-290 | The machine's lookup: what it returns was stored less than five seconds before and its token has not expired; an expired entry is gone afterwards |
| TokenAuthCache.AuthCache.PutLoaded | api/store/tokens.go:214-217 | The machine's put of a load that found the epoch unchanged |
| TokenAuthCache.AuthCache.FindEarliest | api/store/tokens.go:306-313 | The loop finds an entry that expires first |
| TokenAuthCache.AuthCache.CacheAccount | api/store/tokens.go:292-319 | The put keeps the size limit and evicts as specified |
| TokenAuthCache.AuthCache.Invalidate | api/store/tokens.go:342-359 | The machine's two steps: the epoch advances, exactly the entries of the tokens go, and all others stay as they were; nothing happens when there are none |
| QuotaCounters.CreatedCounterLasts | api/middleware/auth.go:146-158 | A counter that a script creates lives to its window's deadline |
| QuotaCounters.WindowsFollowTheClock | api/middleware/auth.go:130-145 | Minutes are those of the clock, and days begin at 16:00 UTC |
| QuotaCounters.VerdictIsExact | api/middleware/redis_counter.go:18-45 | With scripts before the deadlines, a request is refused exactly when its minute, or else its day, is used up; a refusal by the minute never uses the day |
| QuotaCounters.PassesWithinLimits | api/middleware/redis_counter.go:18-45 | In every trace at most perMinute requests of a minute and perDay requests of a day pass |
| QuotaCounters.LimitHoldsIffInTime | api/middleware/redis_counter.go:18-45 | A request's script runs before its window's deadline if and only if no sequence of earlier requests of the window makes it exceed the limit, whatever the limit |
| QuotaCounters.Redis.IncrementQuotaCounters | api/middleware/redis_counter.go:60-102 | The two counters, their lifetimes, the counts and the verdict of one call, and that no other counter changes |
| Admission.Authorize | api/middleware/auth.go:99-222 | Refused exactly for a revoked or expired token, a missing reward, a failing script, a minute or day counted past its limit, a failing database, or a row that may not be used, in this order; what is counted by then; and the remaining quota |
| Admission.RefusalsAreCheap | api/middleware/auth.go:154-206 | No refusal changes a total, and one by the minute leaves every day's counter alone |
| Admission.DecisionIsRight | api/middleware/auth.go:117-206 | The decision of the run below is the one spelled out for the method |
| Admission.EveryAdmissionWasGood | api/middleware/auth.go:117-206 | In every run every admission was of a token neither revoked nor expired, with its reward if it is a reward token, within its minute and day, and below its total limit |
| Admission.SkippedTimes | api/store/observability.go:183-187 | What a batch passes over are the counted events of inactive tokens, and only these |
| Admission.FinishConserves | api/middleware/observability.go:77-115 | The end of a request, queued or dropped with or without a fallback, keeps the account |
| Admission.EveryAdmissionIsCountedOnce | api/middleware/auth.go:188-216 | In every run a token's admitted requests are those in its total, those still to be reported, and those given up |
| Admission.TotalIsAdmittedAtRest | api/middleware/auth.go:188-216 | With nothing outstanding or given up, the total is the number of admitted requests |
| DnsSaga.PreviewIsRight | api/integrations/cloudflare.go:92-123 | The preview's status tells exactly how many such records there are, and whether the one is as desired |
| DnsSaga.SameIsAgrees | api/integrations/cloudflare.go:309-319 | Two records agree exactly in type, host up to case, space and a final dot, proxied flag, and, for MX, priority |
| DnsSaga.PreviewTells | api/integrations/cloudflare.go:92-123 | A preview says exactly whether there is no such record, one that agrees, one that does not, or several, and remembers the one |
| DnsSaga.RevertsOne | api/integrations/cloudflare.go:170-190 | Reverting the last change that is not yet reverted brings the zone one change back |
| DnsSaga.AllReverted | api/integrations/cloudflare.go:170-197 | Reverting all changes restores the zone, exactly if and only if the overwritten records are canonical |
| DnsSaga.WriteProgresses | api/integrations/cloudflare.go:125-160 | A write settles its own record, and touches no record of another type and name |
| DnsSaga.SettledPreviewUnchanged | api/integrations/cloudflare.go:92-123 | A settled record is previewed as unchanged |
| DnsSaga.ReversalUndoes | api/integrations/cloudflare.go:170-197 | A reversal without failures undoes all changes |
| DnsSaga.ApplyingIsRight | api/integrations/cloudflare.go:125-197 | Whichever request fails, each outcome says what it should about the zone |
| DnsSaga.AppliedIsLeftRight | api/integrations/cloudflare.go:125-163 | An application that ran to its end leaves each desired record as the only one of its type and name and in agreement, unless there were several, or it conflicted and that was not confirmed |
| DnsSaga.RollbackRestoresIff | api/integrations/cloudflare.go:125-197 | For every zone and plan: a reported rollback restores the zone, whichever requests fail, if and only if no record that does not survive being written back is to be overwritten before another write |
| DnsSaga.RollbackLosesPriority | api/integrations/cloudflare.go:170-197 | Otherwise there is a failing request after which a rollback is reported and the zone is not as before |
| DnsSaga.MailRecordsAreNotAtRisk | api/integrations/cloudflare.go:43-63 | The plans that the handler builds are never of that kind |
| DnsSaga.CanonicalIsNotAtRisk | api/integrations/cloudflare.go:125-197 | Nor is any plan for records that survive being written back |
| DnsSaga.OverwritingIsRisky | api/integrations/cloudflare.go:125-197 | A plan at risk, and the same with its records in the other order, which is not |
| DnsSaga.OnlyPrioritiesAreLost | api/integrations/cloudflare.go:240-247 | Which records do not survive being written back, and what they become |
| DnsSaga.CloudflareClient.RollbackApply | api/integrations/cloudflare.go:170-197 | The loop backwards over the changes is the specified reversal |
| DnsSaga.CloudflareClient.Apply | api/integrations/cloudflare.go:125-163 | The loop is the specified application. Whichever request fails: restored if it says so, and exactly so if nothing was at risk; if it could not revert everything, the zone differs only at items not marked as reverted or at such records; after success every desired record agrees with the zone as above |
| CodeScanner.CollapsedIsFaithful | api/store/postgres.go:792-826 | Collapsed text has single inner blanks and the same visible characters |
| CodeScanner.CollapseIsIdempotent | api/store/postgres.go:792-826 | Collapsing again changes nothing |
| CodeScanner.Collapse | api/store/postgres.go:792-826 | The words of the text joined by blanks, also when the text is returned as it is |
| CodeScanner.IsLikelyVerificationCodeUpper | api/store/postgres.go:833-865 | The loop and the word list decide exactly the specified codes |
| CodeScanner.FirstIsUnique | api/store/postgres.go:920-946 | There is only one leftmost qualifying run |
| CodeScanner.FirstLikelyCode | api/store/postgres.go:920-946 | The leftmost maximal, word-bounded, likely run of allowed length, and empty only if there is none |
| CodeScanner.NextCodeHint | api/store/postgres.go:899-918 | The earliest hint, and the longest there |
| CodeScanner.ExtractedIsLikely | api/store/postgres.go:867-897 | Whatever is extracted is a likely code, and nothing is only if the whole text has no qualifying run |
| CodeScanner.ExtractCode | api/store/postgres.go:867-897 | The search ends, follows the hints in order, and prefers digits |
| Text.LowerIsRight | api/integrations/cloudflare.go:309-323 | Lower-casing sends each capital to its own small letter and keeps the rest |
| Text.TrimIsRight | api/integrations/cloudflare.go:309-323 | Trimming leaves what stands between characters to cut, and nothing else does |

## Left out

- DonationDeletion.QuotaExactIffHidden: a deletion is one atomic step; the references to a deleted donation that events lose are kept, and no sum here reads them. Only domains with a donation are deleted.
- Connections: each recalculation asks the pool (at most 32) for a second one to read a setting while its transaction holds one (api/store/donations.go:495, api/store/settings.go:11), so transactions can also wait for connections; the model has no pool.
- Domain rows: only their source is modelled, not the active flag, status, notes and timestamps that donations also set.
- Donation ids: a donation is named by its position in the table; ids of rows that were never committed do not occur.
- DonationLocks.NoDeadlock: token row locks of usage accounting, and locks that cascades take, are not part of the lock order.
- DNS lookups and their classification: a verdict is an arbitrary input.
- Snapshots inside one SQL statement: every projection statement is one atomic step.
- MailProjection.MailStore.InsertEmailResolved: does not model the expiry columns.
- IngressSlots.RunKeepsInv: does not model the refresh loop, socket I/O, the parsing of commands, or that a shutdown's own deadline may end its wait.
- IngressSlots.ShutdownSettlesEverything: says what holds when the shutdown goroutine has ended, not that sessions and workers end.
- Numerical wrap-around of Go counters: they are unbounded here.
- RecipientResolver.ResolveRecipient: ASCII only, so Unicode case folding and white space are not modelled.
- UsageRecorder.NothingIsLost: a store call that fails has stored nothing; a commit whose answer is lost could store a batch twice.
- UsageAccounting.UsageStore.IncrementTokenUsageIfAllowed: the time it records is the request's own, and account ids are not modelled.
- Admission.Authorize: does not model the formatting of headers and errors. A call that fails has no effect; an increment that commits although its caller gave up would count a request that is refused.
- Admission.EveryAdmissionIsCountedOnce: tokens are not deleted.
- QuotaCounters.PassesWithinLimits: limits are fixed per token, and all clocks are one.
- DnsSaga.CloudflareClient.Apply: a request that fails has no effect, nobody else writes, TTL is not part of a record, and finding the zone is left out.
- CodeScanner.ExtractCode: starts from text that was stripped of HTML, collapsed and upper-cased; HTML stripping, link extraction and encoding are not modelled.
- The single-entry cache of active domains (api/store/domains_cache.go): it is the same mechanism as the token cache without eviction.
- HTTP handlers, MIME parsing, analytics, the web front end and notification delivery: no protocol state of their own.
