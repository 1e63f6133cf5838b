# Tersa: verified models of the stateful core

Tersa is a local mail client. This project models the parts of it whose correctness depends on
order, interleaving and failure, and proves what they promise:

- **The account identity and the mailbox** (`Messages`, `MailboxStore`, `MailboxOutcomes`,
  `Identity`, `Gate`, `GateProtocol`, `GateRefinement`). A sync cycle reads the recorded account identity, decides, records by
  compare-and-set with at most four attempts, and re-checks the identity inside every later
  mailbox write. Each store transaction is one atomic step; any number of cycles, purges and
  read-marks interleave. `owner` is a history variable: the account whose mail a row holds.
- **The token broker** (`Permits`, `Sessions`, `Broker`, `BrokerGrants`, `BrokerLimits`,
  `BrokerDisconnects`, `BrokerOutcomes`, `BrokerCore`, `BrokerErrors`). Completions, refreshes, revokes and deletes are program counters over the shared
  permit set, the credential store and the provider. Any of them may be cancelled while it awaits. The
  provider mints when it grants a request, and the answer is delivered later or lost; a revoke that was
  sent may be processed at any later time, or be lost, and revocation is grant-wide: it ends every token
  minted for its subject so far, delivered or not.
- **The writer-open and recovery file machine** (`LeafGuard`, `Recovery`). A directory is a map
  from leaf to inode and mode; any step may fail.
- **The account registry and the per-account token store** (`AccountRegistry`, `Installation`).
- **Calendar formatting** (`Dates`) and **the passphrase prompt** (`Prompt`, over the codec of `Utf8`).

Where the code changes fields step by step the model is a class whose methods are proved equal to
a function of the old state; the theorems are lemmas about those functions, and what each operation
answers and leaves is also stated by itself, with its own bounds (`MailboxOutcomes`, `BrokerOutcomes`). Storage faults, provider
answers, the clock, entropy, foreign commits and the bytes of the terminal are parameters, so every
theorem holds for all of them. `fault`, `faults` and `fails` parameters name the steps that fail.
The subject dedup tag is an injective constructor.

## Findings

- **An empty store does not make a cleanup revoke safe.** The code revokes a stranded grant only over
  an empty store and while it holds the subject's permit, and its comments say an existing credential
  must never be revoked over (adapters/token-broker-core/src/broker.rs:767-775). The sends always meet
  that rule (`Broker.CleanupNeedsEmptyStore`). What becomes of a credential is exactly this: it works if
  and only if no revoke of its subject was processed since the provider minted it, which is before its
  answer is delivered (`BrokerGrants.StoredCredentialFate`, for every run). Two conditions keep cleanup
  revokes away from every stored credential (`BrokerGrants.StoredGrantsSurvive`). `Serial`: the provider
  grants no exchange of an account while another completion of that account is between its own grant and
  its end. `Awaited`: a completion that sent a cleanup revoke goes on only when that revoke is processed or
  lost. A caller meets `Serial` by never starting a completion while another one runs
  (`BrokerGrants.OneAtATimeIsSerial`), which it can check before the call. Neither condition alone is
  enough, for any subject:
  - `BrokerLimits.OverlappingSignInsEndGrant`: two sign-ins of one account, everything awaited. The
    permit is claimed only after the exchange (lines 371-400), so the second can clean up between the
    first one's exchange and its store; the first then reports success over a dead credential.
  - `BrokerLimits.DelayedAnswerEndsGrant`: the same although the second sign-in begins and ends before the
    first one's answer arrives, because the first one's tokens were minted before the revoke.
  - `BrokerLimits.CancelledSignInEndsGrant`: sign-ins one after the other, the first cancelled while its
    revoke is under way. `BrokerLimits.LateRevokeEndsGrant` has the same for every reachable state with
    such a request unprocessed, also after its sender gave up on the answer.
- **A disconnect's revoke can end a later credential.** The conditions above do not prevent it
  (`BrokerDisconnects.CancelledDisconnectEndsGrant`). With two more it cannot: completions and disconnects
  of one account do not overlap (`Apart`), and a disconnect goes on only when its revoke is processed or
  lost (`Heard`). Then every credential works when it is stored
  (`BrokerDisconnects.CredentialsAreStoredWorking`), and a disconnect's revoke is processed only while the
  store holds the very credential it names (`BrokerDisconnects.DisconnectEndsOwnCredential`).
- **When two reconciles equal one.** `Messages.ReconcileSplitsExactly` has the exact condition: every row
  the first prune dropped, and that ranks among the first K in the end, is in the second batch, had no
  body, and loses its read mark in neither case or both. A second batch of new ids always meets it
  (`Messages.ReconcileInTwoBatches`); `Messages.StaleSecondBatchDiffers` is an input that does not.
- **Overlapping sync cycles are safe for isolation.** adapters/sync-runtime/src/gate.rs:138-151 asks
  callers to serialise whole cycles. `GateProtocol.AccountsNeverMix` does not need that: the
  compare-and-set and the fences suffice for every interleaving of gated cycles. The gate's method is one
  such cycle (`GateRefinement.GateIsProtocolRun`), so the result covers it.
- **When recovery files stay behind.** `Recovery.ValidationStrandsExactly` has the exact condition
  (`Strands`) and the exact leaves that stay (`Stays`). There is an input for each kind of step: the stat
  right after the stage is created (`FailedStatStrands`), the mode change or stat of a leaf just created
  and not yet recorded (`FailedModeChangeStrands`), and a step of the cleanup (`FailedUnlinkStrands`).
- **What a failed open may leave.** The cleanup stops at the first leaf it cannot remove
  (`LeafGuard.CleanupLeaves`). The next open never finds sidecars without a main file, but it reports
  corruption if a journal stayed, or an index without its log (`LeafGuard.NextOpenAfterCleanup`, with the
  inputs `JournalCanStay` and `IndexCanStay`). Over an existing database nothing is cleaned up, and the
  next open accepts what a failed one left if and only if every leaf it added is an owner-only log or an
  owner-only index beside a log (`LeafGuard.NextOpenAfterFailure`; `UncorrectedLogIsRefused` is an input).

## Model

| member | source | states |
|---|---|---|
| `Dates.CivilFromDaysIsValid` | apps/tersa/src/dates.rs:22-38 | Every day number gives a real calendar date, and counting the days up to that date gives the day number back. The code is over a 64-bit newtype, so no intermediate overflows. |
| `Dates.EpochDate` | apps/tersa/src/dates.rs:20-38 | Day 0 is 1970-01-01. |
| `Dates.CivilFromDaysIsTheCalendar` | apps/tersa/src/dates.rs:20-38 | The date of day d+1 is the calendar successor of the date of day d, by the month lengths and leap rule of RFC 3339. |
| `Dates.CivilFromDaysInvertsDayNumber` | apps/tersa/src/dates.rs:22-38 | Every calendar date is reached, from its own day number. |
| `Dates.YearOfEraSpan` | apps/tersa/src/dates.rs:25-28 | The four-term division picks the one year of the 400-year era whose span holds the day. |
| `Dates.NextDayNumber` | apps/tersa/src/dates.rs:20-38 | The reference calendar: the next day is valid and numbered one higher. |
| `Dates.DayNumberIsInjective` | apps/tersa/src/dates.rs:20-38 | The reference calendar: a day number names one date. |
| `Dates.FieldsNameTheMinute` | apps/tersa/src/dates.rs:8-18 | For every 64-bit instant the five printed numbers are in range and name floor(millis / 60000), also before 1970. |
| `Dates.TextShape` | apps/tersa/src/dates.rs:13-17 | Where each number stands in the printed text, whatever the width of the year. |
| `Dates.FormatUtcSeparatesMinutes` | apps/tersa/src/dates.rs:8-18 | Two instants print the same text if and only if they lie in the same minute. |
| `Utf8.DecodeEncode` | apps/tersa/src/prompt.rs:96-102 | Every text is decoded from its UTF-8 encoding. |
| `Utf8.EncodeDecode` | apps/tersa/src/prompt.rs:96-102 | Whatever bytes are accepted are the encoding of what they decode to: no overlong forms, no surrogates. |
| `Prompt.ReadSecret` | apps/tersa/src/prompt.rs:64-103 | For any bytes the buffer stays in its initial capacity and an accepted secret is valid UTF-8 of at most 1024 bytes; for the encoding of any text the outcome is that of editing whole characters, with the length failure exactly where the character run exceeds 1024 bytes. |
| `Prompt.EditingWholeCharacters` | apps/tersa/src/prompt.rs:71-94 | The byte editor and the character editor agree from every pair of matching buffers. |
| `Prompt.DropCharacterOfText` | apps/tersa/src/prompt.rs:79-86 | The inner pop loop drops exactly the last character of encoded text. |
| `Prompt.PushBytes` | apps/tersa/src/prompt.rs:87-92 | The bytes of a multi-byte character are all pushed, or the length limit is met on the way. |
| `Prompt.PlainLineEnds` | apps/tersa/src/prompt.rs:71-102 | A line of plain bytes ends in exactly those bytes at either line key or at the end of input, is cancelled by Ctrl-C and by Ctrl-D on an empty line, and is too long above 1024 bytes. |
| `Prompt.ErasingKeys` | apps/tersa/src/prompt.rs:75-92 | Backspace and Delete take back the last character; Ctrl-D in a line is typed as itself. |
| `Messages.LessIsTotal` | adapters/store-sqlcipher/src/lib.rs:2287-2287 | The tie-break on message id is a strict total order, so the listing order is determined. |
| `Messages.UpsertAllClosedForm` | adapters/store-sqlcipher/src/lib.rs:2634-2646 | What a batch of upserts leaves under one id: the last envelope's fields, unread only if the row and every envelope for it were unread, the old body. |
| `Messages.ListingExists` | adapters/store-sqlcipher/src/lib.rs:2287-2287 | Every table has a listing in the order received_at descending, message_id ascending. |
| `Messages.ListingRank` | adapters/store-sqlcipher/src/lib.rs:766-769 | The i-th row of the listing is outranked by exactly the i rows before it. |
| `Messages.PruneKeepsTheFirst` | adapters/store-sqlcipher/src/lib.rs:766-769 | The prune keeps exactly the first K rows of the listing, unchanged. |
| `Messages.SurvivorsSpec` | adapters/store-sqlcipher/src/lib.rs:774-792 | The survivors are the distinct batch ids still present, ordered by first occurrence. |
| `Messages.PruneOfPart` | adapters/store-sqlcipher/src/lib.rs:766-769 | Pruning any part of a table that still holds its first K rows keeps the same ids. |
| `Messages.ReconcileIsIdempotent` | adapters/store-sqlcipher/src/lib.rs:760-769 | Repeating a reconcile changes nothing, although pruned rows are inserted and pruned again. |
| `Messages.ReconcileSplitsExactly` | adapters/store-sqlcipher/src/lib.rs:760-769 | Two reconciles equal one over both batches if and only if each row the first prune dropped and the end keeps was brought back by the second batch without losing a body or a read mark. |
| `Messages.ReconcileInTwoBatches` | adapters/store-sqlcipher/src/lib.rs:760-769 | Two reconciles equal one over both batches when the second uses only ids absent from the table and the first batch. |
| `Messages.StaleSecondBatchDiffers` | adapters/store-sqlcipher/src/lib.rs:760-769 | A concrete input at which that condition fails and the two differ. |
| `MailboxStore.WriteBatch` | adapters/store-sqlcipher/src/lib.rs:760-765 | The upsert loop writes the batch in sequence. |
| `MailboxStore.ReportSurvivors` | adapters/store-sqlcipher/src/lib.rs:774-792 | The survivor loop returns exactly the distinct batch ids still present, in first-occurrence order. |
| `Identity.ReadingFailsClosed` | adapters/store-sqlcipher/src/lib.rs:2606-2632 | Only a missing row reads as "no identity", only a 32-byte hash of the current version reads as one, everything else is corruption. |
| `MailboxStore.Store.WriteIdentityHash` | adapters/store-sqlcipher/src/lib.rs:829-880 | The whole new database and answer: nothing unless the recorded identity is the expected one; then clear, freshness reset and record together. |
| `MailboxStore.Store.ReconcileRecent` | adapters/store-sqlcipher/src/lib.rs:733-797 | The whole new database and answer, with the oversize, null-id and fence errors in the code's order and no change on any of them. |
| `MailboxStore.Store.CacheIfPresent` | adapters/store-sqlcipher/src/lib.rs:1032-1058 | A body is written only over a present row and only under the fence; otherwise nothing changes. |
| `MailboxStore.Store.PurgeAccount` | adapters/store-sqlcipher/src/lib.rs:916-962 | Mailbox, identity, routing subject, credential and freshness go in one commit; the recovery marker stays; without the binding row nothing goes. |
| `MailboxStore.Store.UpsertEnvelopes` | adapters/store-sqlcipher/src/lib.rs:703-715 | All envelopes or none. |
| `MailboxStore.Store.PutMessage` | adapters/store-sqlcipher/src/lib.rs:717-731 | The row with its body, or nothing. |
| `MailboxStore.Store.MarkOneMessageRead` | adapters/store-sqlcipher/src/lib.rs:1075-1085 | That row becomes read, nothing else changes. |
| `MailboxStore.Store.MarkOneThreadRead` | adapters/store-sqlcipher/src/lib.rs:1087-1097 | The rows of that thread become read, nothing else changes. |
| `MailboxStore.Store.RecordSuccessfulSyncAt` | adapters/store-sqlcipher/src/lib.rs:1017-1030 | Sets the freshness and keeps the recovery marker; negative times are refused. |
| `MailboxStore.Store.UpdateRecovery` | adapters/store-sqlcipher/src/lib.rs:998-1015 | Sets the recovery marker and keeps the freshness. |
| `MailboxStore.StepKeepsRow` | adapters/store-sqlcipher/src/lib.rs:2634-2646 | No transaction turns a surviving row from read to unread, and only a body write to it changes its body. |
| `MailboxStore.BodyWriteSetsOneRow` | adapters/store-sqlcipher/src/lib.rs:1032-1058 | A body write that takes effect stores that body and those fields under its id, and touches no other row. |
| `MailboxStore.ReadsStickAndBodiesStay` | adapters/store-sqlcipher/src/lib.rs:703-731 | The same over any sequence of transactions, failing ones included, while the row is not deleted. |
| `MailboxOutcomes.FailuresChangeNothing` | adapters/store-sqlcipher/src/lib.rs:703-1097 | A transaction that is refused, or in which a statement fails on either side of its check, changes nothing, and which error it answers. |
| `MailboxOutcomes.ReconcileSucceedsExactly` | adapters/store-sqlcipher/src/lib.rs:740-793 | A reconcile succeeds if and only if the batch is within 10000, no id is null and the fence is the recorded identity; which error else. |
| `MailboxOutcomes.ReconcileCommits` | adapters/store-sqlcipher/src/lib.rs:760-795 | What a successful reconcile commits is exactly the first `keep` rows of the listing of the batch over the old table, each with its expected fields, nothing else changes, and it answers the surviving batch ids in first-occurrence order. |
| `MailboxOutcomes.ReconciledListing` | adapters/store-sqlcipher/src/lib.rs:766-769 | That listing exists and has exactly the old and the batch ids, with the expected rows. |
| `MailboxOutcomes.UpsertCommits` | adapters/store-sqlcipher/src/lib.rs:703-715 | An upsert commits the whole batch and nothing else. |
| `MailboxOutcomes.CacheSucceedsExactly` | adapters/store-sqlcipher/src/lib.rs:1032-1058 | A body is cached if and only if the fence is the recorded identity, and answers whether the row was there. |
| `MailboxOutcomes.PutCommits` | adapters/store-sqlcipher/src/lib.rs:717-731 | A put always commits and touches the rows only. |
| `MailboxOutcomes.MarkMessageCommits` | adapters/store-sqlcipher/src/lib.rs:1075-1085 | One flag is cleared, nothing else. |
| `MailboxOutcomes.MarkThreadCommits` | adapters/store-sqlcipher/src/lib.rs:1087-1097 | The flags of one thread are cleared, nothing else. |
| `MailboxOutcomes.PurgeCommits` | adapters/store-sqlcipher/src/lib.rs:916-962 | A purge succeeds if and only if the binding row is there, and then leaves nothing of the account but the recovery marker. |
| `MailboxOutcomes.SyncIsRecorded` | adapters/store-sqlcipher/src/lib.rs:1017-1030 | The freshness is set alone; negative times are refused. |
| `MailboxOutcomes.RecoveryIsRecorded` | adapters/store-sqlcipher/src/lib.rs:998-1015 | The recovery marker is set alone. |
| `Gate.RunIdentityGate` | adapters/sync-runtime/src/gate.rs:61-111 | The bounded loop over a store others write between its calls: its final database and answer, and nothing read or written when the hasher fails. |
| `Gate.TryOnce` | adapters/sync-runtime/src/gate.rs:85-107 | One read, decide and compare-and-set, with foreign commits before each store call. |
| `Gate.ReplacingIdentityClearsMail` | adapters/store-sqlcipher/src/lib.rs:844-866 | The compare-and-set succeeds if and only if the identity read is still recorded; over another identity it destroys mail and freshness and keeps the recovery marker, a first record keeps all, a failure changes nothing. |
| `Gate.GateReturnsRecordedIdentity` | adapters/sync-runtime/src/gate.rs:99-101 | A gate that succeeds returns the caller's own hash, and that hash is recorded at that instant. |
| `Gate.TrySettles` | adapters/sync-runtime/src/gate.rs:85-107 | The outcome of one try without its decision: success found or recorded the hash, a lost race or a failure changed nothing, and a race is lost only when the identity moved. |
| `Gate.GateSettles` | adapters/sync-runtime/src/gate.rs:90-101 | A gate that lets a sync begin changed nothing if it found its own hash; over another account's identity it destroyed mail, null rows and freshness and kept the recovery marker; a first record kept everything. |
| `Gate.FailedGateChangesNothing` | adapters/sync-runtime/src/gate.rs:85-110 | After a gate that fails, the database differs only by the commits of others. |
| `GateRefinement.TryRefines` | adapters/sync-runtime/src/gate.rs:85-107 | One try of the method is one try of a protocol cycle: same database, same next state. |
| `GateRefinement.GateIsProtocolRun` | adapters/sync-runtime/src/gate.rs:61-111 | The whole gate, with foreign transactions from protocol events, is a protocol run with the same final database and outcome. |
| `GateRefinement.GateKeepsAccountsApart` | adapters/sync-runtime/src/gate.rs:132-136 | From every state of the protocol, the database the gate leaves holds mail of the recorded account only. |
| `GateRefinement.QuietGate` | adapters/sync-runtime/src/gate.rs:61-111 | A gate nobody interferes with is one of these, whatever fails in it. |
| `Gate.ReadableStaysReadable` | adapters/store-sqlcipher/src/lib.rs:2606-2632 | No sequence of transactions makes a readable identity unreadable. |
| `Gate.LostTryNeedsForeignCommit` | adapters/store-sqlcipher/src/lib.rs:2583-2595 | Without faults a try succeeds, or somebody else committed an identity between its read and its record. |
| `Gate.LostAttemptsNeedForeignCommits` | adapters/sync-runtime/src/gate.rs:84-110 | Each lost attempt is paid by a separate foreign commit, and the only failure is the lost race. |
| `Gate.GateConverges` | adapters/sync-runtime/src/gate.rs:59-111 | With at most three foreign identity commits and no store error the gate returns its hash. |
| `GateProtocol.TxKeepsIsolation` | adapters/store-sqlcipher/src/lib.rs:2563-2595 | What one transaction of a cycle, a purge or a read-mark may do to rows and identity. |
| `GateProtocol.StepKeepsIsolation` | adapters/sync-runtime/src/gate.rs:157-177 | Every step keeps every row under the recorded identity. |
| `GateProtocol.AccountsNeverMix` | adapters/sync-runtime/src/gate.rs:132-136 | In every interleaving from a new store, each message was written under the identity recorded now, also when that identity left and came back, and no identity means no message. |
| `GateProtocol.SyncStartsUnderRecordedIdentity` | adapters/sync-runtime/src/gate.rs:126-130 | A cycle starts to sync only at an instant when its own hash is recorded. |
| `GateProtocol.RunKeepsRetriesPaid` | adapters/sync-runtime/src/gate.rs:77-83 | Over every run a cycle's n-th retry follows n identity commits of others. |
| `GateProtocol.GivingUpTakesFourCommits` | adapters/sync-runtime/src/gate.rs:109-110 | In every run a cycle gives up on races only after four identity commits of others since it started. |
| `GateProtocol.UnreadableIdentityFailsClosed` | adapters/store-sqlcipher/src/lib.rs:2606-2632 | From an unreadable identity no sequence of cycle steps changes the database, and nothing but a purge changes the identity. |
| `GateProtocol.PurgeRecovers` | adapters/store-sqlcipher/src/lib.rs:916-962 | A purge leaves that state, to no identity and no message. |
| `Permits.SubjectPermits.Claim` | adapters/token-broker-core/src/permits.rs:44-58 | A new guard for a free subject below the bound; Busy and Unavailable exactly when the code says, changing nothing. |
| `Permits.SubjectPermits.Release` | adapters/token-broker-core/src/permits.rs:76-84 | Dropping a guard frees exactly its slot, also through a poisoned lock. |
| `Permits.SubjectPermits.SlotsAreGuards` | adapters/token-broker-core/src/permits.rs:25-27 | As many slots as live guards, at most 32, none when no guard lives. |
| `Sessions.SessionRegistry.Insert` | adapters/token-broker-core/src/registry.rs:130-157 | The whole new registry and answer, with at most three entropy draws. |
| `Sessions.SessionRegistry.Claim` | adapters/token-broker-core/src/registry.rs:171-178 | Removes and returns the session, or leaves the registry alone. |
| `Sessions.SessionRegistry.Lock` | adapters/token-broker-core/src/registry.rs:187-195 | A poisoned registry is drained before it is refused. |
| `Sessions.InsertKeepsLiveSessions` | adapters/token-broker-core/src/registry.rs:135-151 | An insert never drops or replaces a live session. |
| `Sessions.InsertLeavesOnlyLive` | adapters/token-broker-core/src/registry.rs:135-151 | After an insert the registry holds the live sessions and, on success, the new one under a handle no live session had. |
| `Sessions.ClaimTakesOne` | adapters/token-broker-core/src/registry.rs:171-195 | A claim succeeds if and only if the handle is there, takes exactly that session, and only a poisoned registry loses the others. |
| `Sessions.AllocatesFirstFree` | adapters/token-broker-core/src/registry.rs:143-156 | The allocation settles on the first free handle of three draws. |
| `Sessions.InsertSucceedsExactly` | adapters/token-broker-core/src/registry.rs:130-157 | An insert succeeds if and only if the lock is clean, fewer than eight sessions are live and one of three draws gives a free handle. |
| `Sessions.AllocatedIsFree` | adapters/token-broker-core/src/registry.rs:143-156 | The allocated handle was free, whatever the entropy source draws. |
| `Sessions.BusyExactlyWhenFull` | adapters/token-broker-core/src/registry.rs:139-142 | Busy if and only if eight live sessions remain after reaping. |
| `Sessions.EachSessionClaimedAtMostOnce` | adapters/token-broker-core/src/registry.rs:159-178 | Over any run each inserted session is returned by at most one claim, and no other session is. |
| `Sessions.NeverOverfull` | adapters/token-broker-core/src/registry.rs:130-157 | No run leaves more than eight sessions. |
| `Broker.StepKeepsInv` | adapters/token-broker-core/src/broker.rs:383-573 | The invariant of the four operations: who holds which slot, and what each knows of the store while it does. |
| `Broker.ReachableInv` | adapters/token-broker-core/src/broker.rs:355-653 | It holds in every reachable state, whatever was interleaved or cancelled. |
| `Broker.SlotsFollowOperations` | adapters/token-broker-core/src/permits.rs:44-58 | In every reachable state the held slots are the subjects of the operations with a guard, one each, at most 32, and none when none runs. |
| `Broker.CleanupNeedsEmptyStore` | adapters/token-broker-core/src/broker.rs:728-735 | A completion sends a revoke only while the store holds no credential for that subject, for its own subject, with its rotated refresh token when well shaped, else its access token. |
| `BrokerGrants.StoredCredentialFate` | adapters/token-broker-core/src/broker.rs:371-444 | Over every run a stored credential works if and only if no revoke of its subject was processed since the provider minted it, delivery not awaited; else the first one processed ended it. |
| `BrokerGrants.MintsOnce` | adapters/token-broker-core/src/broker.rs:371-374 | The provider grants each exchange or refresh once, so its tokens are minted once. |
| `BrokerGrants.StepKeepsTraced` | adapters/token-broker-core/src/broker.rs:437-443 | Every stored credential, and every one about to be stored or under way, comes from a grant that minted it. |
| `BrokerGrants.LandingIsHarmless` | adapters/token-broker-core/src/broker.rs:728-735 | A cleanup revoke processed while its sender waits, with completions of one account serial, meets no stored credential and none about to be stored, delivered or not. |
| `BrokerGrants.StoredGrantsSurvive` | adapters/token-broker-core/src/broker.rs:401-413 | Over every run in which no exchange of an account is granted while another of its completions is between grant and end, and cleanup revokes are awaited to the end, no completion or refresh ends a stored credential. |
| `BrokerGrants.OneAtATimeIsSerial` | adapters/token-broker-core/src/broker.rs:355-374 | Never starting a completion while another runs is enough for the first of these conditions. |
| `BrokerLimits.OverlappingSignInsEndGrant` | adapters/token-broker-core/src/broker.rs:371-400 | For every subject, a run with everything awaited but two overlapping sign-ins that ends in a success over a credential the cleanup has ended. |
| `BrokerLimits.DelayedAnswerEndsGrant` | adapters/token-broker-core/src/broker.rs:371-374 | The same when the second sign-in begins and ends while the answer to the first is under way. |
| `BrokerLimits.CancelledSignInEndsGrant` | adapters/token-broker-core/src/broker.rs:713-735 | The same for serial sign-ins, the first cancelled while its revoke is under way. |
| `BrokerLimits.LateRevokeEndsGrant` | adapters/token-broker-core/src/broker.rs:713-735 | From every reachable state with an unprocessed revoke of an idle subject and a free permit, one more sign-in and that revoke end in a success over a dead credential. |
| `BrokerDisconnects.CredentialsAreStoredWorking` | adapters/token-broker-core/src/broker.rs:437-443 | Over every run that meets the four conditions, every credential works at the moment it is stored. |
| `BrokerDisconnects.DisconnectEndsOwnCredential` | adapters/token-broker-core/src/broker.rs:601-633 | In every state of such a run, a disconnect's unprocessed revoke names the very credential in the store, its sender waits, and nothing is about to be stored. |
| `BrokerDisconnects.LandingMeetsNothingPending` | adapters/token-broker-core/src/broker.rs:621-632 | No revoke that is processed meets anything about to be stored. |
| `BrokerDisconnects.CancelledDisconnectEndsGrant` | adapters/token-broker-core/src/broker.rs:601-633 | For every subject, a serial run with a disconnect cancelled while its revoke is under way ends in a success over a credential that revoke ended. |
| `Broker.SuccessIsStored` | adapters/token-broker-core/src/broker.rs:437-443 | A completion or refresh succeeds only with its credential in the store, the rotated one or else the very one it loaded, and only for a timely answer about its own subject with an access token and a lifetime in bounds. |
| `Broker.CredentialsGoOnlyTwoWays` | adapters/token-broker-core/src/broker.rs:512-522 | A credential disappears only by a delete or by a refresh answered as revoked. |
| `Broker.ConsentRevokedMeansGone` | adapters/token-broker-core/src/broker.rs:512-522 | ConsentRevoked is reported only when the credential is gone. |
| `Broker.MismatchChangesNothing` | adapters/token-broker-core/src/broker.rs:527-533 | An identity mismatch writes and sends nothing. |
| `Broker.WritesAreOfferedTokens` | adapters/token-broker-core/src/broker.rs:541-548 | Whatever is written has 1 to 1024 bytes and is the refresh token of that answer, under the identity the answer proved. |
| `Broker.RequestsAreWellShaped` | adapters/token-broker-core/src/broker.rs:783-795 | No empty or oversized token is ever sent for revocation. |
| `BrokerOutcomes.StartsExactly` | adapters/token-broker-core/src/broker.rs:490-491 | An operation starts exactly for a subject of 1 to 255 printable characters. |
| `BrokerOutcomes.ExchangeEnds` | adapters/token-broker-core/src/broker.rs:382-458 | What each delivered exchange makes of a completion. |
| `BrokerOutcomes.ClaimsExactly` | adapters/token-broker-core/src/permits.rs:44-58 | The permit is refused if and only if the set is poisoned, the subject is busy or 32 are held. |
| `BrokerOutcomes.CompletionSucceedsExactly` | adapters/token-broker-core/src/broker.rs:414-443 | A completion succeeds, and stores its refresh token, if and only if its response is timely, in bounds, has a refresh token of 1 to 1024 bytes, and the write succeeds. |
| `BrokerOutcomes.CompletionFailsWith` | adapters/token-broker-core/src/broker.rs:414-442 | Which failure it reports otherwise. |
| `BrokerOutcomes.StrandedRevokesExactly` | adapters/token-broker-core/src/broker.rs:728-735 | A failed completion sends one revoke if and only if the snapshot was empty and a token is well shaped. |
| `BrokerOutcomes.CleanupHidesNothing` | adapters/token-broker-core/src/broker.rs:713-715 | Whatever the cleanup answers, the completion reports its own failure. |
| `BrokerOutcomes.LoadsExactly` | adapters/token-broker-core/src/broker.rs:492-501 | What the store access under the permit answers, deletes and sends for each kind of operation. |
| `BrokerOutcomes.RefreshSucceedsExactly` | adapters/token-broker-core/src/broker.rs:525-555 | A refresh succeeds if and only if its answer is a timely grant for its own subject, in bounds, with a rotation that is absent or well shaped and written. |
| `BrokerOutcomes.RotationsAreKept` | adapters/token-broker-core/src/broker.rs:541-570 | A well-shaped own rotation is stored whatever the result, and nothing else is written. |
| `BrokerOutcomes.RefreshEnds` | adapters/token-broker-core/src/broker.rs:503-573 | The answer and the store of a refresh in every case. |
| `BrokerOutcomes.RevokeAnswered` | adapters/token-broker-core/src/broker.rs:621-632 | One answer to a disconnect's revoke: success only on a confirmation, one retry with the same token under the same permit. |
| `BrokerOutcomes.DisconnectAnswers` | adapters/token-broker-core/src/broker.rs:601-633 | Over every run, a disconnect that sent its revoke ends in success exactly after a confirmation, and unconfirmed exactly after two answers without one. |
| `BrokerOutcomes.DisconnectKeepsCredential` | adapters/token-broker-core/src/broker.rs:588-591 | Every answer to a disconnect leaves the credential it loaded in the store. |
| `BrokerCore.CompleteAlone` | adapters/token-broker-core/src/broker.rs:409-442 | A completion alone, with its own bounds: success, what is stored, which failure, and when it revokes. |
| `BrokerCore.RefreshAlone` | adapters/token-broker-core/src/broker.rs:492-573 | The same for a refresh. |
| `BrokerCore.RevokeAlone` | adapters/token-broker-core/src/broker.rs:604-632 | The same for a disconnect: at most two attempts with the stored token, which stays. |
| `BrokerCore.DeleteAlone` | adapters/token-broker-core/src/broker.rs:650-652 | The same for a delete, present or not. |
| `BrokerCore.Core.CompleteGranted` | adapters/token-broker-core/src/broker.rs:383-444 | The straight-line completion after a granted exchange does what the machine's turns do, and drops its guard on every path. |
| `BrokerCore.Core.RefreshAccessToken` | adapters/token-broker-core/src/broker.rs:486-574 | The same for a refresh, error order included. |
| `BrokerCore.Core.RevokeProviderGrant` | adapters/token-broker-core/src/broker.rs:601-633 | The same for a disconnect: one retry, the stored token kept. |
| `BrokerCore.Core.DeleteStoredTokens` | adapters/token-broker-core/src/broker.rs:647-653 | The same for a delete. |
| `BrokerCore.Core.RevokeStrandedGrant` | adapters/token-broker-core/src/broker.rs:728-735 | One revoke, only over an empty snapshot and only of a well-shaped handle. |
| `AccountRegistry.Registry.Accounts` | adapters/store-sqlcipher/src/registry.rs:159-172 | The ids in display order, for any table. |
| `AccountRegistry.Registry.FindByTag` | adapters/store-sqlcipher/src/registry.rs:179-195 | The id the list holds under the tag, if any. |
| `AccountRegistry.Registry.Register` | adapters/store-sqlcipher/src/registry.rs:204-240 | Appends at the end of the list even after removals; full, duplicate and storage errors change nothing. |
| `AccountRegistry.Registry.NextPosition` | adapters/store-sqlcipher/src/registry.rs:213-219 | A position after every row's. |
| `AccountRegistry.Registry.Remove` | adapters/store-sqlcipher/src/registry.rs:247-256 | Deletes that entry, keeps the order of the rest and says whether it was there. |
| `AccountRegistry.RegistersExactly` | adapters/store-sqlcipher/src/registry.rs:204-240 | A registration succeeds if and only if fewer than five entries are there and id and tag are new; full, duplicate and storage errors exactly. |
| `AccountRegistry.RowsMatchEntries` | adapters/store-sqlcipher/src/registry.rs:159-172 | The list has exactly the ids and tags of the table, and as many. |
| `AccountRegistry.ListIsUnique` | adapters/store-sqlcipher/src/registry.rs:159-172 | A table stands for one list only. |
| `AccountRegistry.FindsRow` | adapters/store-sqlcipher/src/registry.rs:179-195 | A lookup by a row's tag finds that row in the list. |
| `AccountRegistry.ListsAppend` | adapters/store-sqlcipher/src/registry.rs:233-238 | A row placed after all others is listed last. |
| `AccountRegistry.ListsWithout` | adapters/store-sqlcipher/src/registry.rs:247-256 | Deleting a row deletes its entry and keeps the order. |
| `AccountRegistry.WithoutStaysDistinct` | adapters/store-sqlcipher/src/registry.rs:247-256 | A removal keeps ids and tags distinct and every other lookup's answer. |
| `Installation.TokenStore.OpenStore` | adapters/sync-runtime/src/installation.rs:272-284 | Creates the account database on first use only. |
| `Installation.TokenStore.AccountForSubjectOrRegister` | adapters/sync-runtime/src/installation.rs:287-312 | The state after success, and after a failure at each single step. |
| `Installation.TokenStore.StoreToken` | adapters/sync-runtime/src/installation.rs:364-377 | The same for a store. |
| `Installation.TokenStore.LoadToken` | adapters/sync-runtime/src/installation.rs:379-400 | The same for a load. |
| `Installation.TokenStore.DeleteToken` | adapters/sync-runtime/src/installation.rs:402-414 | The same for a delete. |
| `Installation.TokenStore.RemoveAccount` | adapters/sync-runtime/src/installation.rs:250-265 | The same for a removal: data first, then the entry. |
| `Installation.SubjectsHaveTheirOwnAccounts` | adapters/sync-runtime/src/installation.rs:287-298 | Two subjects never share an account. |
| `Installation.FindOrRegisterKeepsMap` | adapters/sync-runtime/src/installation.rs:303-311 | Wherever registration stops, by an error or a crash, no subject's token changes. |
| `Installation.NewAccountIsBound` | adapters/sync-runtime/src/installation.rs:303-311 | Wherever registration stops, a newly registered account has its database, bound to its subject, and at most that one database is added. |
| `Installation.StoringRefinesMap` | adapters/sync-runtime/src/installation.rs:364-377 | A successful store sets one key, a failed one changes nothing. |
| `Installation.KnownSubjectStoresExactly` | adapters/sync-runtime/src/installation.rs:364-377 | For a known subject a store succeeds if and only if no step fails and the token has 1 to 4096 printable characters. |
| `Installation.LoadingRefinesMap` | adapters/sync-runtime/src/installation.rs:379-400 | A successful load answers the key's value; no load changes a value. |
| `Installation.DeletingRefinesMap` | adapters/sync-runtime/src/installation.rs:402-414 | A successful delete removes one key, present or not. |
| `Installation.RemovingRefinesMap` | adapters/sync-runtime/src/installation.rs:242-265 | A removal touches only its own account; when it fails the account stays registered. |
| `Installation.StoreRefines` | adapters/sync-runtime/src/installation.rs:364-377 | A store answers as the plain map does and changes it the same way, registration included. |
| `Installation.LoadRefines` | adapters/sync-runtime/src/installation.rs:379-400 | A load answers what the plain map answers. |
| `Installation.DeleteRefines` | adapters/sync-runtime/src/installation.rs:402-414 | A delete answers as the plain map does and changes it the same way. |
| `Installation.RemoveRefines` | adapters/sync-runtime/src/installation.rs:250-265 | A removal takes the key of the one subject the account belongs to, also when it fails half way. |
| `Installation.InstallationIsAMap` | adapters/sync-runtime/src/installation.rs:357-415 | Over any sequence of calls and failures the composite gives every answer, loaded tokens included, that a plain map from subject to token with its own state gives. |
| `LeafGuard.Writer.Open` | adapters/store-sqlcipher/src/lib.rs:353-463 | Wherever an open fails: no orphaned sidecar is left, no leaf that existed before is removed or changed, and the cleanup ran exactly when the main file was claimed here and not yet migrated. An orphaned directory is refused untouched. An open that succeeds leaves owner-only regular leaves, and exactly main, log and index for an existing database; a fresh open without failures succeeds, a settled database reopens unchanged, and a sound database of a main file, or of main and log, opens when SQLite creates what is missing. It refuses with exactly the error of the checks. |
| `LeafGuard.Writer.Connected` | adapters/store-sqlcipher/src/lib.rs:381-448 | The part of an open that a failure cleans up after: claim, connection and the work on it. |
| `LeafGuard.Writer.RequireMainIdentity` | adapters/store-sqlcipher/src/lib.rs:1315-1324 | The main file is the claimed or the earlier one; this fails only when it is not, or a leaf is irregular. |
| `LeafGuard.Writer.RequireExistingWriterState` | adapters/store-sqlcipher/src/lib.rs:1333-1358 | Accepts if and only if the database has exactly main, log and index, owner-only, and gained a sidecar only where the preflight permits one. |
| `LeafGuard.Writer.ClaimFreshMain` | adapters/store-sqlcipher/src/lib.rs:1294-1313 | Cleanup authority comes only from an exclusive create. |
| `LeafGuard.Writer.RecheckLeaves` | adapters/store-sqlcipher/src/lib.rs:408-414 | Work on the open connection starts only if an existing database is exactly as it was found. |
| `LeafGuard.Writer.NormalizeLeaf` | adapters/store-sqlcipher/src/lib.rs:1376-1426 | One leaf, accepted exactly when it is regular and owner-only or new and brought to that: an accepted one is regular and owner-only, no other leaf changes, and a failure may leave only its mode changed. |
| `LeafGuard.Writer.NormalizeFreshLeaves` | adapters/store-sqlcipher/src/lib.rs:1364-1429 | Success means that every leaf is regular and owner-only; only modes change, and only of leaves absent at the snapshot. |
| `LeafGuard.Writer.CleanupFreshCandidates` | adapters/store-sqlcipher/src/lib.rs:1431-1474 | Nothing without authority or after the migration; else sidecars before the main file, whatever fails. |
| `LeafGuard.Writer.SetUp` | adapters/store-sqlcipher/src/lib.rs:408-448 | The connected phase keeps the main file and every earlier leaf; success means owner-only leaves and, for a new database, a finished migration. |
| `LeafGuard.Writer.Prepare` | adapters/store-sqlcipher/src/lib.rs:420-442 | Configuring, growing, normalizing and migrating keep the main file and every earlier leaf, and a finished migration leaves owner-only leaves. |
| `LeafGuard.Writer.ConfigureStorage` | adapters/store-sqlcipher/src/lib.rs:420-423 | Configuring a connection: which sidecars appear, and when it fails. |
| `LeafGuard.Writer.NormalizeNewSidecars` | adapters/store-sqlcipher/src/lib.rs:424-432 | Normalization runs for a new database and for one that may gain sidecars, and for no other. |
| `LeafGuard.Writer.MigrateFresh` | adapters/store-sqlcipher/src/lib.rs:432-443 | The same around the first migration, which ends the cleanup authority. |
| `LeafGuard.CleanupNeverOrphans` | adapters/store-sqlcipher/src/lib.rs:1584-1622 | From any set of leaves and for any failures, the main file remains or all four are gone. |
| `LeafGuard.CleanupIsComplete` | adapters/store-sqlcipher/src/lib.rs:1431-1474 | Without failures and with owner-only leaves, all four are gone. |
| `LeafGuard.CleanupLeaves` | adapters/store-sqlcipher/src/lib.rs:1431-1474 | The cleanup leaves exactly the leaves from the first at which it stops downwards, for all directories and failures. |
| `LeafGuard.NextOpenAfterCleanup` | adapters/store-sqlcipher/src/lib.rs:1279-1283 | The next open never misses the main file, accepts what the cleanup left under an exact condition, and reports corruption if and only if a journal stayed, an index stayed without its log, or the contents are corrupt. |
| `LeafGuard.NextOpenAfterFailure` | adapters/store-sqlcipher/src/lib.rs:2197-2249 | Over an existing database, the next open accepts what a failed one left if and only if each added leaf is an owner-only log, or an owner-only index beside a log, and the contents are fine. |
| `LeafGuard.NextOpenExactly` | adapters/store-sqlcipher/src/lib.rs:1266-1283 | For all leaves, exactly when an open accepts them and when it reports corruption. |
| `LeafGuard.UncorrectedLogIsRefused` | adapters/store-sqlcipher/src/lib.rs:1266-1278 | An input at which the next open refuses a database that was accepted before. |
| `LeafGuard.JournalCanStay` | adapters/store-sqlcipher/src/lib.rs:2203-2206 | An input at which a journal stays. |
| `LeafGuard.IndexCanStay` | adapters/store-sqlcipher/src/lib.rs:2203-2206 | An input at which an index stays without its log. |
| `Recovery.Parent.CreateStage` | adapters/store-sqlcipher/src/lib.rs:1686-1742 | The whole new parent and answer: the first free of eight names, removed again when setting it up fails, unless the stat after creation or that removal fails. |
| `Recovery.Parent.CopyLeaf` | adapters/store-sqlcipher/src/lib.rs:1744-1790 | The whole new stage, record and answer: a copy is recorded after its mode change and before its bytes, and made only for an original of an acceptable size, kind and mode. |
| `Recovery.Parent.ValidateCopies` | adapters/store-sqlcipher/src/lib.rs:1988-2071 | The whole new stage, record and answer of the copies and the checks on them, in the code's order. |
| `Recovery.Parent.CleanupStage` | adapters/store-sqlcipher/src/lib.rs:1881-1924 | The whole new parent and answer: nothing is touched unless the stage holds exactly the record; then the leaves go newest first, then the directory. |
| `Recovery.Parent.Validate` | adapters/store-sqlcipher/src/lib.rs:1976-2081 | The whole new parent, the answer and the validation's own verdict, as a function of the originals, the stages found and the failing steps; the originals are not changed. |
| `Recovery.ValidationStrandsExactly` | adapters/store-sqlcipher/src/lib.rs:1976-2081 | The parent directory changes if and only if a stranding step is reached, and then by one stage under the first free name with exactly the leaves that stay. |
| `Recovery.ValidationAnswers` | adapters/store-sqlcipher/src/lib.rs:1950-1959 | A validation error wins over a cleanup error, a verdict is given only after a complete cleanup, and without failures the first unacceptable original, else the contents, decides. |
| `Recovery.VerdictGivenExactly` | adapters/store-sqlcipher/src/lib.rs:1976-2081 | A verdict is given if and only if every step is reached, none of them fails, the contents are sound and the cleanup is complete. |
| `Recovery.FreeSlotIsFree` | adapters/store-sqlcipher/src/lib.rs:1692-1741 | The stage name is the first of eight that is free. |
| `Recovery.MadeLeaves` | adapters/store-sqlcipher/src/lib.rs:1744-1790 | The stage holds exactly the leaves reached, and the record misses one if and only if its mode change or stat failed. |
| `Recovery.UnlinkedSpec` | adapters/store-sqlcipher/src/lib.rs:1910-1918 | The cleanup keeps exactly the leaves at and below the first it cannot unlink. |
| `Recovery.FailedStatStrands` | adapters/store-sqlcipher/src/lib.rs:1697-1702 | For all acceptable originals: an empty stage stays. |
| `Recovery.FailedModeChangeStrands` | adapters/store-sqlcipher/src/lib.rs:1774-1780 | For all acceptable originals and each leaf: that leaf and those before it stay. |
| `Recovery.FailedUnlinkStrands` | adapters/store-sqlcipher/src/lib.rs:1910-1918 | For all acceptable originals and each leaf: that leaf and those not yet visited stay. |

## Left out

- `upsert` and `put` carry no fence, so the isolation property excludes them; they are in the sticky-read and content property.
- "Freshness belongs to the recorded identity" under concurrency: recording a successful sync is unfenced, so it does not hold.
- The page and body loop of the sync coordinator: a cycle past the gate performs any sequence of fenced reconciles and body writes.
- SQLite, SQLCipher and write-ahead-log internals, schema text, file controls and crash replay: a transaction commits or changes nothing.
- Column decoding and text bounds of envelopes; rows and hashes are compared as values.
- Reading messages back by id and the ascending listing of one thread.
- Same-user races in the gaps before an unlink, which the code documents as accepted: no other process touches the directory.
- The contents of copied files: `Recovery` follows names, identities, modes and sizes. The originals are a field that no step may modify, as the code only opens them for reading.
- The prelude of a completion (handle text, session claim, callback) enters the broker machine as an arbitrary failure or success; the session registry is proved by itself.
- The tokens of an under-scoped exchange, which proves no identity: they are dropped and not followed further.
- Tokens granted to an operation that was already cancelled: nothing can store them.
- URL parsing and the error-mapping tables.
- The broker's own clock reads: freshness and remaining lifetime are part of the answer.
- A failed store write leaves the broker's store unchanged; `Installation` proves this of the store the program uses.
- The check that a database belongs to the account that opens it, and a position counter beyond 64 bits.
- A drawn account id equal to a registered one rewrites that account's stored routing subject; the token map is proved unaffected, the routing subject is not tracked further.
- Poisoned allocation locks are a failing step (`LockAllocation`).
- Removal as retried by the command flows, which read the stored subject first.
- Cryptography, zeroization, constant-time comparison and redacted debug output.
- The Gmail transport, the loopback listener, the session, the vault, configuration, command line, mailbox projections and search.
