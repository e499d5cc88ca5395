# Verified model of the age verification service

A tenant opens a session against its monthly quota, the end user's plugin submits an encrypted frame
with the session's single-use token, and a queued job checks the face. A face in the grey zone opens a
second phase, document and selfie, on the same transaction. Verdicts go to an audit table, to a record
table and by webhook to the tenant; the media is deleted and the deletion recorded.

No function of the service guarantees on its own that a transaction is processed at most once, that its
verdict is final, that its media stays erased, that quota is exact or that tenants do not see each
other. These follow from the order of awaited steps, from two times to live, and from a few atomic
commands of Redis and Postgres. The project models those steps and proves what follows from them, for
all runs and interleavings. `dafny verify dfyconfig.toml` checks everything.

## How it is modelled

**The pipeline** (`Pipeline.dfy`) is a state machine: the shared tables, and one event for what a
request handler or a job processor does between two awaits. Any queued job may be picked up any number
of times, concurrently; an attempt may throw (and enter its `finally`) or crash (and skip it) between
any two events; a delete may fail; the clock may advance at any time; plans and required ages may
change at any time; outside answers (provider, document verifier, webhook receiver) are arbitrary.
Each transaction carries a history of what was written and sent, so that theorems can speak of the past.

- `PipelineInvariant.dfy` is the invariant and the reason why a step on one transaction leaves the
  others alone; `PipelineWorkers.dfy` and `PipelineRequests.dfy` show that every step keeps it.
- `PipelineTheorems.dfy` draws the consequences for timely runs: at most once, permanent erasure, and
  what a key holder loses by leaving early. `PipelineFate.dfy` says exactly when a queued job can still be
  decided.
- `PipelineAnyRun.dfy` is a weaker invariant that needs no timing. What rests on it holds in every legal
  run: `PipelineLedger.dfy` counts tokens, transactions and quota units, `PipelineTruth.dfy` says what
  stored reasons and webhooks are worth, `PipelineSources.dfy` where thresholds and measurements come
  from, `PipelineApproval.dfy` what an approval is worth, `PipelineHolders.dfy` and `PipelineSends.dfy`
  what it is enough that no once-key was taken twice for: final verdicts, and what a tenant hears and how
  often. `PipelinePaths.dfy` says which steps a participant has taken by the time it stands somewhere,
  `PipelineErasure.dfy` and `PipelineReturn.dfy` when erased images stay erased and when they can come
  back, `PipelineMedia.dfy` what a get finds, `PipelineDeadlines.dfy` that nothing is admitted too late, `PipelineHistory.dfy` what stands in the tables
  in terms of the events alone. `PipelineMoves.dfy` holds the steps out of
  which continuations are built.
- `PipelineWitness.dfy` and `PipelineSecondToken.dfy` reach the states in which the naive claims fail, from
  empty tables.

**The code** of the processors and handlers is in `Processors.dfy` and `Handlers.dfy`, in the form the
source has: awaited steps in a `try` block, a `finally` block, loops and early exits. It runs against
`Runtime.Deployment`, whose tables every participant updates in place; each await lets the others take
any legal steps. Every method is proved to take legal steps of the protocol only, so every execution is
a run to which the theorems apply. Its contract says what has been achieved when it returns, and which
of the steps of that run were its own, in order (`PipelinePaths.Own`, `PipelinePaths.Left`). Awaited
calls that fail and processes that die are counted (`Runtime.Deployment.faults`), so that a contract can
say what happens when none does.

**Around it**: `Quota.dfy` (usage counter, embedded in the pipeline), `RateLimit.dfy`,
`TenantScope.dfy` (row-level security over pooled connections), `FrameStore.dfy`, `Calendar.dfy` and
`Decision.dfy` (the rules), `CafClient.dfy` and `CafMappers.dfy` (the external provider), `Base64.dfy`,
`FrameCodec.dfy`, `FrameCrypto.dfy`, `SecretCrypto.dfy`, `HostSafety.dfy`, `ApiKeys.dfy` and `ApiKeyMigration.dfy`,
`Webhook.dfy`, `KeyNames.dfy`. `Redis.dfy`, `Sets.dfy`, `Text.dfy` and `Wrappers.dfy` are shared helpers.

## Assumptions

- Session tokens, document tokens, transaction ids, row ids and API keys are drawn fresh; ids contain no colon, and neither do hashes in hexadecimal.
- The clock never goes back.
- INCR, DECR, PEXPIRE, SET NX PX and the consume functions are atomic, and `save` is an upsert by primary key.
- A document token is presented only after some webhook request has carried it.
- AES-GCM is opaque: a 16-byte tag, a ciphertext as long as the text, and opening what was sealed gives it back. SHA-256 has no collisions.
- A run is *legal* when it starts with empty tables and every event of it can happen. It is *timely* when each attempt takes the once-key at most onceTtl - frameTtl after it read the media. Which theorems need this is part of their statements.
- A step on a counter is *prompt* when it comes before nine days past the month (quota) or in the minute that its key names (rate limit).
- Where a theorem says that something can still happen, every awaited call of the continuation may succeed and answer anything, decryption included.
- Required ages lie between 1 and 120, as the database checks (apps/api/src/db/migrations/0007-tenant-required-age.ts:8).

## Where code and comments part

- apps/api/src/verification/verification.processor.ts:28 says exactly-once. It is at most once in timely runs (`PipelineTheorems.AtMostOnce`), and `PipelineFate.FateExact` is the exact condition under which a queued job without its audit row can still get it. When it fails the row never comes (`PipelineFate.NeverAnyRow`), or stays at documento_requerido (`PipelineFate.StuckAtRequired`). A key holder that leaves before its audit write is one way there (`PipelineTheorems.LeavingLoses`, `PipelineTheorems.LostForever`, `PipelineWitness.LostTransaction`). The others need no holder: an attempt that throws before it has the key still deletes the frame (`PipelineFate.ThrownBeforeKey`), and media can expire unread (`PipelineFate.ExpiredUnread`, `PipelineFate.ImagesExpire`). Without timeliness it happens twice, a time to live apart: `PipelineTheorems.AcquiredExactlyWhenFree` is the exact condition, and `PipelineWitness.DoubleVerification` needs a gap of one millisecond more than the bound, for all settings.
- apps/api/src/verification/document/document.processor.ts:80 deletes both images for good if no second document token was issued (`PipelineErasure.ImagesErased`), which timeliness ensures. A face check that is verified twice issues two, and the second submission puts erased images again (`PipelineSecondToken.ImageComesBack`). Whether they can come back at all from a given state on is decided by `PipelineReturn.CanReturn`, exactly (`PipelineReturn.ReturnsExactly`).
- apps/api/src/verification/document/document-decision.ts:19 compares an age that is NaN for text that is no date; such a document passes (`Decision.DocumentApproval` is the exact condition). Its reason, which prints the comparison (apps/api/src/verification/document/document-record-builder.ts:19), is then false of its numbers (`Decision.DocumentReasonIsTrue`). The record table has integer columns (apps/api/src/db/migrations/0006-verification-records.ts:12-15), so the write of such a record throws, as does that of a fractional age or margin: the audit row stays and says aprovado, and neither a record nor a webhook follows (`Pipeline.Storable`, `PipelineTruth.NoDateNeverStored`); `PipelineWitness.ApprovedUnrecorded` is a timely run to that state.
- A face webhook that is retried late may arrive after the document verdict was written and still say documento_requerido: while no once-key of the transaction was taken twice, this is the only way to a stale webhook (`PipelineHolders.WebhookIsCurrent`), and a timely run leads there (`PipelineWitness.StaleWebhook`).
- apps/api/src/tenant/secret-crypto.ts:13 refuses the token of the empty secret (`SecretCrypto.SecretRoundTrip`).
- apps/api/src/common/url-safety.ts:56 names fe80::/10, the code tests the prefix fe80 (`HostSafety.FirstGroup`).
- apps/api/src/verification/caf/caf-client.ts:52 checks the deadline before the token is refreshed, so a GET can go out after it. `CafClient.NeverLate` is what a caller can check beforehand: `CafClient.Client.AwaitTransaction` sends every GET in time when it holds, and `CafClient.LatePollPossible` gives a late GET in every other case.
- apps/api/src/verification/verification.service.ts:44 treats a required age of 0 as missing, apps/api/src/verification/document/document.processor.ts:53 does not (`Decision.PhasesAgreeOnCutoff`); the database excludes 0.
- apps/api/src/billing/usage.service.ts:30 can set the expiry of a month more than once when a limit is 0 (`Quota.ZeroLimitArmsAgain`); no plan has that limit.

## Model

| member | source | states |
|---|---|---|
| `PipelineTheorems.StepKeepsInv` | apps/api/src/verification/verification.processor.ts:24-67 | every step of every request handler and job processor, in any interleaving, keeps the invariant of the tables (rows agree with the history of writes, refs with puts, holders with the once-key, attempts with what they have done), as long as each acquire comes within onceTtl - frameTtl of its get |
| `PipelineTheorems.RunKeepsInv` | apps/api/src/verification/document/document.processor.ts:37-84 | the same over whole runs, with any number of concurrent, repeated, throwing or crashing attempts of any job |
| `PipelineTheorems.AtMostOnce` | apps/api/src/verification/verification.processor.ts:26-30 | in every timely run a once-key is acquired at most once ever, and only its holder is in the part of the try block that verifies, writes and sends; the same for both phases |
| `PipelineTheorems.AcquiresSpaced` | apps/api/src/queue/once-guard.ts:7-9 | with no assumption on timing, successive acquires of one once-key lie at least a whole time to live apart, over every run |
| `PipelineTheorems.AcquiredExactlyWhenFree` | apps/api/src/queue/once-guard.ts:7-9 | an attempt that reaches acquire gets the key exactly when nobody had it or the last holder is a whole time to live ago: a slow enough retry verifies again |
| `PipelineTheorems.LeavingLoses` | apps/api/src/verification/verification.processor.ts:28-30 | a throw or a crash of the key holder of a face check leaves the transaction lost to a holder exactly when the audit row was not written yet; losses without a holder are those of PipelineFate.FateExact |
| `PipelineTheorems.LostForever` | apps/api/src/verification/verification.processor.ts:28-30 | a transaction lost to a holder never gets an audit row in any timely continuation: the comment says exactly-once, the code is at-most-once |
| `PipelineFate.FateExact` | apps/api/src/verification/verification.processor.ts:24-66 | for every queued job whose audit row was not written: some timely continuation of a timely run writes the row exactly when an attempt is between the key and the row, or nobody ever had the key and either an attempt has read the images and is in time, or one can still come to read them and the bound is not negative; for the face check the same holds of all legal runs and continuations, with no condition on holders or time |
| `PipelineFate.NeverAnyRow` | apps/api/src/verification/verification.processor.ts:26-30 | once neither is the case for a face check, the transaction has no audit row at any later point of the run, timely or merely legal |
| `PipelineFate.StuckAtRequired` | apps/api/src/verification/document/document.processor.ts:41-61 | once neither is the case for a document check, the row says documento_requerido at every later point of a timely run |
| `PipelineFate.LostIsDoomed` | apps/api/src/verification/verification.processor.ts:28-30 | a transaction lost to a holder is one of those that never get a row |
| `PipelineFate.ThrownBeforeKey` | apps/api/src/verification/verification.processor.ts:26-29 | for the settings of DoubleVerification, a timely run from empty tables in which the only attempt throws before it has the key: nobody ever held it, the frame is deleted, and no continuation, however slow, writes a row |
| `PipelineFate.ExpiredUnread` | apps/api/src/verification/verification.processor.ts:26-27 | the same when nobody picks the job up before the frame has expired |
| `PipelineFate.ImagesExpire` | apps/api/src/verification/document/document.processor.ts:41-43 | for all settings with a grey zone and a retry, a timely run in which both images of a document check expire unread, so that its row never leaves documento_requerido |
| `PipelineWitness.DoubleVerification` | apps/api/src/verification/verification.processor.ts:26-30 | for all settings in which frames live for a while, once-keys no shorter, and sessions do not start expired: a legal run from empty tables, with no gap more than a millisecond over the bound, in which two attempts hold the key of one job, so the bound is tight |
| `PipelineWitness.LostTransaction` | apps/api/src/verification/verification.processor.ts:28-30 | for the same settings, a timely run from empty tables that ends in a lost transaction |
| `PipelineWitness.StaleWebhook` | apps/api/src/webhook/webhook.service.ts:19-34 | for all settings with a grey zone and a retry, a timely run in which the last webhook says documento_requerido after the row says reprovado |
| `PipelineHolders.VerdictFinal` | apps/api/src/verification/verification.service.ts:55-77 | over every legal run in which no once-key of the transaction was taken twice, however slow, its audit row may turn from documento_requerido into a document verdict of the same tenant, and never changes otherwise |
| `PipelineHolders.TimelyOnce` | apps/api/src/verification/verification.processor.ts:26-30 | every timely run is such a run, for every transaction |
| `PipelineTheorems.ErasurePermanent` | apps/api/src/verification/verification.processor.ts:61-66 | over timely runs, once an attempt of a job has run its finally block to the end, or a discard row exists, the media of the job, of either phase, is absent at every later point of the run |
| `PipelineAnyRun.FrameErased` | apps/api/src/verification/verification.processor.ts:61-66 | the same for the frame of a face check over every legal run, however slow |
| `PipelineErasure.ImagesErased` | apps/api/src/verification/document/document.processor.ts:77-84 | the same for both images of a document check over every legal run in which at most one document token was issued for the transaction; this is enough, the exact condition is PipelineReturn.ReturnsExactly |
| `PipelineReturn.ReturnsExactly` | apps/api/src/verification/document.controller.ts:42-58 | at every point of every legal run at which no image of a queued transaction is stored: some legal continuation puts one exactly when a document request stands before its last put, in time if it is yet to be admitted; or an open document session can still be presented in time and was or will be shown; or a document token can still be issued |
| `PipelineErasure.RunSingle` | apps/api/src/verification/document.controller.ts:42-58 | in every legal run, as long as at most one document token was issued: at most one document request, which queues after both puts; no image before it; and no image left behind by an attempt past its deletes |
| `PipelineSecondToken.ImageComesBack` | apps/api/src/verification/document.controller.ts:53-56 | for all settings with a grey zone, a legal run from empty tables in which two document tokens are issued, the document check of the first one has come to its end and erased both images, and the submission of the second has put the document again |
| `PipelineAnyRun.RunRooted` | apps/api/src/verification/verification.controller.ts:47-67 | in every legal run each job, attempt, document session, document request and audit row goes back to the queued face job of its transaction and to that tenant; a frame request under way has not queued it yet |
| `PipelineTheorems.Behind` | apps/api/src/verification/document.controller.ts:42-58 | along every timely run each media ref is put at most once and once gone stays gone; trails, holders, discards and finished attempts only grow |
| `PipelineApproval.ApprovalSound` | apps/api/src/verification/document/document.processor.ts:49-61 | over every legal run, behind an aprovado row are two steps of one attempt: it read an age that the tenant of the transaction required, and was given a measurement that clears it: a live face whose estimated age reaches that age (the configured cutoff for 0) plus the configured margin, or a matching document whose birthday at that age has come, read before the age was, and then a live face of the same transaction within the margin of an age read likewise was recorded before |
| `PipelineApproval.VerdictExact` | apps/api/src/verification/verification.service.ts:44-57 | over every legal run, every verdict ever audited, of either phase and any status, is what the rule over the configured numbers makes of what one attempt was given and of the age that the same attempt read |
| `PipelineApproval.AuditRowExact` | apps/api/src/verification/verification.service.ts:58 | over every legal run a transaction has an audit row exactly when anything was audited, and the row is the last verdict, under its tenant, resting on such a reading |
| `PipelineHistory.ReadIsLastSet` | apps/api/src/verification/verification.processor.ts:35 | what an attempt reads as the required age is what was last set for the tenant of its transaction, or what it was when the service started |
| `PipelineApproval.RunEscalated` | apps/api/src/verification/document.controller.ts:32-60 | at every point of every legal run, a transaction with a document request, a document job or a document verdict already has a documento_requerido record |
| `PipelineSources.AllSourced` | apps/api/src/verification/verification.service.ts:44-48 | over every legal run, the thresholds and the measurement that an attempt carries come from steps of its own, on its transaction, for the tenant of that, in its phase |
| `PipelineSources.RunFounded` | apps/api/src/verification/document/document.processor.ts:48-54 | over every legal run, behind every verdict that an attempt carries or that was ever written to the audit table are two steps of one attempt, in the order of its phase: it read the required age of the tenant of the transaction, which is the cutoff, and was given the measurement |
| `PipelinePaths.PathsTaken` | apps/api/src/verification/verification.processor.ts:24-60 | in every legal run the own steps of an attempt inside its try block are exactly those on the path to where it stands, in the order of the source |
| `PipelineTruth.RecordsTellTheTruth` | apps/api/src/verification/document/document-record-builder.ts:17-38 | over every legal run, a stored record is the last one written, has the tenant of its transaction, repeats an audited verdict, its numbers are integers of 32 bits, and the comparison in its reason, of either phase, is true of them |
| `PipelineTruth.StorableMeans` | apps/api/src/db/migrations/0006-verification-records.ts:12-15 | the write of a record succeeds exactly when its ages and margin are integers of 32 bits, and for a document the birth date is no text that is no date |
| `PipelineTruth.NoDateNeverStored` | apps/api/src/verification/verification-record.entity.ts:11-14 | no verdict on a birth date that is text but no date is ever stored as a record |
| `PipelineWitness.ApprovedUnrecorded` | apps/api/src/verification/document/document.processor.ts:49-75 | for all settings with a grey zone and a retry, a timely run from empty tables in which a text that is no date is approved: the audit row says aprovado, while the record and every webhook request ever sent say documento_requerido and the attempt is past its writes |
| `PipelineTruth.WebhooksSayWhatWasWritten` | apps/api/src/verification/verification.service.ts:49-77 | over every legal run, each webhook request ever sent names its transaction, carries a status already written to both tables, and shows a document token only with documento_requerido and only one issued for the transaction |
| `PipelineTruth.OneTokenShown` | apps/api/src/verification/verification.service.ts:55-57 | over every timely run the token shown is the only one ever issued for the transaction |
| `PipelineHolders.WebhookIsCurrent` | apps/api/src/webhook/webhook.service.ts:19-34 | over every legal run in which no once-key of the transaction was taken twice, a webhook request shows the status of the row as it is, except exactly when the face check is still retrying after the document check has written its verdict |
| `PipelineSends.SendsBounded` | apps/api/src/webhook/webhook.service.ts:19-35 | over every legal run in which the key of a job was taken at most once, the job is announced by at most retries + 1 webhook requests, all of them the same, however many attempts there are |
| `PipelineSends.AttemptBounded` | apps/api/src/webhook/webhook.service.ts:19-35 | over every legal run one attempt sends at most retries + 1 webhook requests, all of them the same |
| `PipelineLedger.Conservation` | apps/api/src/session/session.controller.ts:41-58 | for every tenant, at the end of every legal run: decided transactions <= enqueued transactions <= consumed sessions <= opened sessions <= quota units won over all months |
| `PipelineLedger.ConsentBehindVerdict` | apps/api/src/session/session.controller.ts:50-58 | over every legal run, behind every audit row is a consent row of the same tenant, for a user hash and a policy version that are not empty, written with the session that the transaction was opened with |
| `PipelineLedger.TokenBuysOneTransaction` | apps/api/src/verification/verification.controller.ts:41-53 | over every legal run a session token opens at most one transaction |
| `PipelineLedger.StepKeepsLedger` | apps/api/src/db/migrations/0009-app-role.ts:71-82 | every step, timely or not, keeps: each session token is paid by its own won quota call, is open or taken but not both, and is used by one request or transaction of the tenant that paid |
| `PipelineHistory.SessionsExact` | apps/api/src/db/migrations/0009-app-role.ts:71-82 | in every legal run a session is open exactly when it was opened and no request has taken it |
| `PipelineHistory.DocumentSessionsExact` | apps/api/src/db/migrations/0009-app-role.ts:84-92 | in every legal run a document session is open exactly when it was issued and no request has taken it |
| `PipelineHistory.DiscardsExact` | apps/api/src/verification/verification.processor.ts:61-66 | in every legal run there is a discard row for a job exactly when some attempt of it has written one |
| `PipelineHistory.PlansExact` | apps/api/src/billing/billing.service.ts:61-71 | in every legal run a tenant is on the plan that it was last changed to |
| `PipelineMedia.StoredIsLastPut` | apps/api/src/storage/memory-frame-store.ts:9-20 | in every legal run whatever is stored under a media ref is what was put there last |
| `PipelineMedia.FoundExactly` | apps/api/src/storage/memory-frame-store.ts:9-20 | in every legal run store.get finds exactly what was put last, if it was not deleted since and FRAME_TTL from the put is not over |
| `PipelineMedia.FramePutOnce` | apps/api/src/verification/verification.controller.ts:53-61 | in every legal run the frame of a transaction is put at most once |
| `PipelineMedia.GotFrameWasPut` | apps/api/src/verification/verification.processor.ts:26-31 | in every legal run the frame that any attempt has got is the one that was put for its transaction |
| `PipelineMedia.SubmittedIsShown` | apps/api/src/verification/crypto.util.ts:9-20 | in every legal run, if the frame put for a transaction is a sealed image, then whoever is shown the frame of that transaction is shown that image |
| `FrameCrypto.OpenBack` | apps/api/src/verification/crypto.util.ts:9-20 | deserializing and decrypting what was encrypted and serialized gives the image back |
| `KeyNames.OnceKeysDistinct` | apps/api/src/verification/document/document.processor.ts:44 | the texts of two once-keys are equal exactly for the same transaction and phase, for ids without a colon |
| `KeyNames.RefNamesDistinct` | apps/api/src/verification/document.controller.ts:53-55 | the texts of two media refs are equal exactly for the same transaction and kind of image |
| `KeyNames.UsageKeysDistinct` | apps/api/src/billing/usage.service.ts:5-9 | the texts of two usage counters are equal exactly for the same tenant and month |
| `KeyNames.RateKeysDistinct` | apps/api/src/ratelimit/rate-limit.guard.ts:9-11 | the texts of two rate counters are equal exactly for the same identity and minute |
| `KeyNames.KindsApart` | apps/api/src/queue/once-guard.ts:7-9 | a once-key, a usage counter and a rate counter never share a text in the one Redis |
| `Runtime.Deployment.Wait` | apps/api/src/verification/verification.processor.ts:24-67 | while one participant waits, any legal steps of the others happen, and its own place is left alone |
| `Processors.ProcessFace` | apps/api/src/verification/verification.processor.ts:24-67 | process as code: its steps among those of everybody else are a legal run, namely the path of the try block up to where it was left, then the finally block; a verified attempt has delivered the verdict of the rule, under the age that it read itself, to both tables and the tenant; whatever the provider was shown is the stored frame that this attempt got, decrypted; where no awaited call failed and the process lived, it throws only for a reason of its own and finally runs to its end; such an attempt leaves no frame |
| `Processors.TryFace` | apps/api/src/verification/verification.processor.ts:25-60 | the try block as code: get, acquire, deserialize, tenant, provider, token, rows and webhook in this order; unless an awaited call failed it throws only by a missing or unreadable frame, a missing tenant row, a verdict that the record table refuses, or a refused last request, returns early exactly on a taken key, and else ends with an accepted request, the provider having been shown the frame that was got, decrypted |
| `Processors.VerifyFrame` | apps/api/src/verification/verification.service.ts:40-78 | verify as code: effective cutoff, provider, decision, document token in the grey zone only, then audit, record and webhook in this order; what is written is the verdict of the rule over the configured numbers, with the required age as the cutoff and margin and liveness threshold as configured |
| `Processors.WriteAndSend` | apps/api/src/verification/verification.service.ts:58-77 | audit row, record, webhook, one after the other; a verdict that the record table refuses is neither stored nor sent |
| `Processors.Verify` | apps/api/src/verification/verification.service.ts:40-82 | the provider is shown the frame decrypted from what is handed in, and nothing is judged without; however verify ends, short of a crash, the buffer of that length holds only zeros afterwards |
| `Processors.Dispatch` | apps/api/src/webhook/webhook.service.ts:19-35 | the retry loop of dispatch as steps of the protocol: it ends verified exactly by an accepted request that follows at most retries refused ones, and throws when the last one is refused; what was sent is in both tables |
| `Processors.IssueDocumentSession` | apps/api/src/verification/verification.processor.ts:48-58 | a token never drawn before is saved with the tenant, the transaction and the instant, before any row is written |
| `Processors.ProcessDocument` | apps/api/src/verification/document/document.processor.ts:37-84 | process of the document phase as code, with the same guarantees for two images: the verifier is shown the stored document and selfie that this attempt got, decrypted, and both buffers hold only zeros afterwards; where no awaited call failed it throws only for a reason of its own and finally runs to its end; such an attempt leaves neither image, unless a second document token was issued |
| `Processors.TryDocument` | apps/api/src/verification/document/document.processor.ts:40-76 | both images are read before either is looked at, then once-key, decryption of both, verifier, tenant, rows, webhook, in this order; a verified exit is the verdict of the rule on what the verifier answered for those two images, never with a token |
| `Processors.DecideAndDeliver` | apps/api/src/verification/document/document.processor.ts:48-76 | the verifier is shown both buffers as they are; the cutoff of the verdict is the required age that this attempt read after the verifier had answered, and its age the one at the instant of that answer |
| `Processors.Finally` | apps/api/src/verification/verification.processor.ts:61-66 | the steps of finally: every ref of the job is deleted before the discard row; only a throwing delete, a discard row that cannot be written or a crash keeps them from being all of these |
| `Processors.Zero` | apps/api/src/verification/crypto.util.ts:22-25 | every byte of the buffer is zero afterwards |
| `Handlers.SubmitFrame` | apps/api/src/verification/verification.controller.ts:28-70 | a body without token, or with an image of which a text is missing or empty, is refused and changes nothing; a token that is not open is refused; an accepted body has taken exactly four steps, in this order: its token, which opened the transaction it answers with, a new transaction, the put of its frame in the stored form, the queue; the frame of the transaction is that one; no answer is given exactly when an awaited call failed or the process died |
| `Handlers.SentIsShown` | apps/api/src/verification/verification.controller.ts:55-61 | a frame that was sealed and sent as base64: whoever is shown the frame of the transaction, in any legal run, is shown the image as it was before it was sealed |
| `Handlers.AdmitFrame` | apps/api/src/verification/verification.controller.ts:47-54 | a transaction id is drawn exactly when the session is not older than its time to live, and is new |
| `PipelineDeadlines.AdmittedInTime` | apps/api/src/verification/verification.controller.ts:47-54 | whenever a request of a legal run opens a transaction, it has taken the session that the transaction is opened with, and that session was opened by an event of the run at most SESSION_TTL ago, for the tenant of the transaction |
| `PipelineDeadlines.DocumentsAdmittedInTime` | apps/api/src/verification/document.controller.ts:42-52 | the same for document images: the request has taken a document session that was issued for that transaction and tenant at most SESSION_TTL ago |
| `PipelineDeadlines.RejectedLate` | apps/api/src/verification/document.controller.ts:48-51 | a request of a legal run is turned away as expired only when what it took was opened or issued more than SESSION_TTL ago |
| `Handlers.ConsumeSession` | apps/api/src/verification/verification.controller.ts:41-46 | the session row is handed out as it was opened by an event of the run, and gone from the open sessions in one step, so no other request can have it; nothing is handed out exactly when no session is open under the token |
| `Handlers.SubmitDocument` | apps/api/src/verification/document.controller.ts:32-60 | a body without token, or with an image of which a text is missing or empty, is refused and changes nothing; a token that is not open, or that no webhook has carried, is refused; an accepted body answers with the transaction that the presented token was issued for, and has taken exactly five steps, in this order: token, admission, the put of its document, the put of its selfie, the queue; no answer is given exactly when an awaited call failed or the process died |
| `Handlers.AdmitImages` | apps/api/src/verification/document.controller.ts:48-51 | a document submission goes on exactly when its session is not older than its time to live |
| `Handlers.CreateSession` | apps/api/src/session/session.controller.ts:23-63 | a created session is open, belongs to the tenant and was paid for by this very quota call; its consent row, of the same instant, holds the user hash and the policy version of the body; a body without consent, user hash or policy version, or with a field that names the user, buys nothing and changes nothing |
| `Handlers.CheckBody` | apps/api/src/session/session.controller.ts:24-39 | each refusal is given exactly when its check is the first to fail: a forbidden field, no user hash, a policy version that is missing or blank throughout, no consent |
| `Handlers.HasPii` | apps/api/src/session/pii-guard.util.ts:3-10 | refused exactly when some field, in whatever case, is one of the eleven names |
| `Text.LowerLetters` | apps/api/src/session/pii-guard.util.ts:4 | lower-casing turns the capitals of the alphabet into the small letters in the same place, and leaves all else |
| `Text.TrimmedAway` | apps/api/src/session/session.controller.ts:34 | nothing is left of a text after trim exactly when it is blank throughout |
| `Handlers.ConsumeQuota` | apps/api/src/billing/billing.service.ts:61-71 | a call that is not refused has won a unit, of the month in which it began, within the 100, 10000 or 100000 of the plan that the tenant had when its row was read; a refused one has rolled its unit back |
| `Handlers.IncrementAndCheck` | apps/api/src/billing/usage.service.ts:27-36 | the count is that of INCR on the key as it was; the commands of the call are INCR, PEXPIRE exactly when it counted 1, and DECR exactly when the count is past the limit |
| `Handlers.SetExpiry` | apps/api/src/billing/usage.service.ts:30 | PEXPIRE lets the counter live for forty days from that instant, and changes nothing else |
| `Quota.StepKeepsInv` | apps/api/src/billing/usage.service.ts:27-36 | in every interleaving of prompt steps the stored counter of a month equals the calls that hold a unit: winners, calls not yet compared, losers not yet rolled back, and crashed ones |
| `Quota.QuotaExact` | apps/api/src/billing/usage.service.ts:5-36 | over every prompt run: of the calls that a tenant began in a calendar month, once all have returned and if all worked with one limit, exactly min(limit, calls) were allowed, and the counter says so |
| `Quota.PlanExact` | apps/api/src/billing/plans.ts:8-12 | the same for the three plans: 100, 10000 and 100000 a month |
| `Quota.CallsAreBegun` | apps/api/src/billing/usage.service.ts:5-9 | the calls on the counter of a month are exactly those that the tenant began between its first millisecond and that of the next month, each with the limit of the plan read for it |
| `Quota.WinStaysWithinLimit` | apps/api/src/billing/billing.service.ts:61-71 | whatever plans, crashes and pending rollbacks do, a winning increment leaves at most as many winners in the month as its own limit |
| `Quota.RejectionMeansFull` | apps/api/src/billing/usage.service.ts:31-34 | a call is turned away only when the month has exactly limit winners |
| `Quota.ArmedByOneCall` | apps/api/src/billing/usage.service.ts:27-30 | with limits of at least 1 only one call per tenant and month ever counts 1 and sets the expiry |
| `Quota.ZeroLimitArmsAgain` | apps/api/src/billing/usage.service.ts:27-34 | with a limit of 0 the next call counts 1 again and sets the expiry again |
| `Quota.NeverResets` | apps/api/src/billing/usage.service.ts:3-9 | no command on the key of a month up to nine days after its end finds the counter expired |
| `Quota.FortyDaysSuffice` | apps/api/src/billing/usage.service.ts:3 | forty days from any instant of a month reach nine days past its end, in milliseconds |
| `RateLimit.LimitHolds` | apps/api/src/ratelimit/rate-limiter.ts:12-18 | if increments come in the minute of their keys: the key names the minute of 60000 ms that the request came in, exactly min(limit, requests) passes per identity and minute, and at most 2 * limit in any 60000 ms |
| `RateLimit.ArmSets` | apps/api/src/ratelimit/rate-limiter.ts:14 | PEXPIRE lets the counter live for one more minute and leaves its count alone |
| `RateLimit.StepKeepsInv` | apps/api/src/ratelimit/rate-limiter.ts:12-18 | the i-th increment of a key returns i and the key cannot expire inside its minute |
| `RateLimit.LateIncrementStartsOver` | apps/api/src/ratelimit/rate-limit.guard.ts:23-25 | an increment that arrives after its key has expired counts from 1 again |
| `RateLimit.Guard.Check` | apps/api/src/ratelimit/rate-limiter.ts:12-18 | check as code: the answer depends on the increment of this very call, and the call has sent PEXPIRE exactly when it counted 1 |
| `RateLimit.Guard.CanActivate` | apps/api/src/ratelimit/rate-limit.guard.ts:19-30 | canActivate as code: a request passes exactly when fewer than limit requests of the identity came before it in the minute |
| `TenantScope.StepKeepsInv` | apps/api/src/tenant/tenant-scope.ts:11-26 | over a shared pool with leftover settings, every scoped operation holds its connection alone and its own tenant is the setting in force |
| `TenantScope.ScopedStatement` | apps/api/src/db/migrations/0009-app-role.ts:54-62 | a scoped SELECT answers with exactly the rows of its tenant, as they are, and changes nothing; a row of the tenant is written and is there afterwards among rows otherwise as they were; a row for any other tenant is refused and nothing changes |
| `TenantScope.ConsumeTakes` | apps/api/src/db/migrations/0009-app-role.ts:71-92 | consuming a token removes exactly the rows of that table with that token |
| `TenantScope.NonInterference` | apps/api/src/tenant/tenant-scope.ts:16-26 | the rows of a tenant and all results of its operations are those of the run from which every step of the others is removed |
| `TenantScope.Isolation` | apps/api/src/db/migrations/0009-app-role.ts:54-92 | the same from the start of the service |
| `TenantScope.OthersInvisible` | apps/api/src/db/migrations/0009-app-role.ts:71-92 | a step of others, and the consumption of a token that is not of a tenant, is invisible to that tenant |
| `TenantScope.LeftoverSetting` | apps/api/src/tenant/tenant-scope.ts:16-26 | what a statement outside any scope would do: it reads and writes as the tenant that last used the connection session-wide; where there is none it sees nothing and writes nothing, and the table whose policy was not hardened raises a cast error |
| `TenantScope.Database.Scope` | apps/api/src/tenant/tenant-scope.ts:11-26 | runScoped and withTenantScope as code: the connection is free again whatever the callback does, and every row it got belongs to its tenant; the scope was set before the callback ran, unless the connection was lost first |
| `FrameStore.LazyRefinesEager` | apps/api/src/storage/memory-frame-store.ts:9-20 | over any run with a monotone clock every get of the lazily evicting store answers as an eagerly expiring map |
| `FrameStore.MemoryFrameStore.GetFrame` | apps/api/src/storage/memory-frame-store.ts:12-17 | get answers as the eager map; it evicts an expired entry, which changes no later answer for any key |
| `FrameStore.MemoryFrameStore.PutFrame` | apps/api/src/storage/memory-frame-store.ts:9-11 | after put the key yields the data until its own time to live is over and nothing from then on, whatever was there before; no other key answers differently at any time; the live entries are those of the eager map |
| `FrameStore.MemoryFrameStore.DeleteFrame` | apps/api/src/storage/memory-frame-store.ts:18-20 | after delete the key yields nothing at any time, and no other key answers differently |
| `Calendar.AgeMeansBirthday` | apps/api/src/verification/document/document-decision.ts:9-15 | at least k years old exactly when the civil date is not before (year + k, month, day), February 29 included |
| `Calendar.AgeFromBirthDate` | apps/api/src/verification/document/document-decision.ts:9-15 | the code with its local decrement: its result is at least k exactly when the k-th birthday has come, for every k |
| `Calendar.AgeStep` | apps/api/src/verification/document/document-decision.ts:9-15 | age grows by 0 or 1 from each day to the next |
| `Calendar.AgeAntitone` | apps/api/src/verification/document/document-decision.ts:9-15 | being born later never makes anyone older |
| `Calendar.AgeMonotone` | apps/api/src/verification/document/document-decision.ts:9-15 | age never shrinks as days pass |
| `Calendar.DayRoundTrip` | apps/api/src/verification/document/document-decision.ts:10-13 | day number to civil date and back, for every day (section 21.4.1 of ECMA-262) |
| `Calendar.DateRoundTrip` | apps/api/src/verification/document/document-decision.ts:10-13 | civil date to day number and back, for every valid date |
| `Calendar.EcmaForm` | apps/api/src/verification/document/document-decision.ts:10-13 | counting the days year by year equals the closed form of ECMA-262 |
| `Calendar.DayOrder` | apps/api/src/verification/document/document-decision.ts:12-13 | day numbers order dates exactly as year, month and day do |
| `Calendar.MonthHolds` | apps/api/src/billing/usage.service.ts:5-9 | an instant names a month exactly when it lies between the first millisecond of that month and that of the next, with days of 86400000 ms |
| `Calendar.DayHolds` | apps/api/src/verification/document/document-decision.ts:10-13 | every instant lies in the 86400000 ms of the day that its date names (section 21.4.1 of ECMA-262) |
| `Calendar.BirthdayInstant` | apps/api/src/verification/document/document-decision.ts:9-15 | a birthday has come exactly from the first millisecond of its day on; February 29 of a common year counts as March 1 |
| `Decision.DocumentApproval` | apps/api/src/verification/document/document-decision.ts:17-21 | a document approves exactly when the faces match and the cutoff birthday has come, which for a date that exists is the first millisecond of its day, or when OCR produced text that is no date (NaN passes the comparison) |
| `Decision.FaceRuleExact` | apps/api/src/verification/decision.ts:3-8 | deciding under the configuration with the tenant age as cutoff is the rule of the product over the configured margin and liveness threshold, for every status, and the override changes the cutoff only |
| `Decision.DocumentStaysApproved` | apps/api/src/verification/document/document-decision.ts:17-21 | a document once old enough stays so for the same face match and cutoff |
| `Decision.PhasesAgreeOnCutoff` | apps/api/src/verification/document/document.processor.ts:53 | the two phases read the same cutoff from a tenant row exactly when it is not 0 or the configured cutoff is 0 |
| `Decision.ReasonIsTrue` | apps/api/src/verification/record-builder.ts:5-16 | the stored reason names the estimated age, liveness, cutoff and margin that were compared, is true of them, and for a live face and a margin that is not negative it is true of the actual verdict only |
| `Decision.DocumentReasonIsTrue` | apps/api/src/verification/document/document-record-builder.ts:17-20 | the reason of a document verdict names its age, cutoff and face score, and is true of them exactly when it is a refusal or the birth date is a date |
| `CafClient.Client.AwaitTransaction` | apps/api/src/verification/caf/caf-client.ts:49-58 | at most pollMaxAttempts GETs, each checked before the deadline and a full interval apart; returns the first answer in which there is a service and every service is COMPLETED; throws a timeout only after unfinished answers alone and otherwise only on a refused token or a failed GET; no GET goes out at or after the deadline when the held token lasts for every poll that can take place |
| `CafClient.Client.AuthHeader` | apps/api/src/verification/caf/caf-client.ts:15-27 | a cached token is used exactly before its expiry less the minute of reserve; otherwise one new token is requested, and held until its expiry less that minute |
| `CafClient.Client.GetTransaction` | apps/api/src/verification/caf/caf-client.ts:40-47 | one GET with a token that came before it |
| `CafClient.CachedTokenIsLive` | apps/api/src/verification/caf/caf-client.ts:24-25 | a cached token is sent only while it is live at the issuer, if its request took at most 60 seconds |
| `CafClient.LongerRoundTripsCan` | apps/api/src/verification/caf/caf-client.ts:24-25 | with any longer round trip there are instants at which the client holds a token that the issuer has dropped |
| `CafClient.LatePollPossible` | apps/api/src/verification/caf/caf-client.ts:52-53 | in every other case there is a course of calls, all as the client makes them, in which a GET goes out at the deadline |
| `CafClient.PollsFitTimeout` | apps/api/src/verification/caf/caf-client.ts:49-56 | all polls but one fit into the timeout at the poll interval |
| `CafMappers.FindFirst` | apps/api/src/verification/caf/caf-mappers.ts:7-11 | the first service of a name is used, and none is found exactly when there is none |
| `CafMappers.ExtractionTotal` | apps/api/src/verification/caf/caf-mappers.ts:18-36 | extraction throws exactly when one of its two services is missing |
| `CafMappers.AgeLivenessExact` | apps/api/src/verification/caf/caf-mappers.ts:18-26 | from the first service of each name: the liveness score times the scale is the probability, the estimated age is the lower end of the range, and what is missing counts as 0 |
| `CafMappers.DocumentExact` | apps/api/src/verification/caf/caf-mappers.ts:28-36 | the face match score times the scale is the confidence of facematch, identical is its outcome, and the birth date is that of ocr |
| `CafMappers.MissingNamed` | apps/api/src/verification/caf/caf-mappers.ts:7-11 | a failing extraction names the service that is missing, the first of the two first |
| `CafMappers.MissingDataNeverApproves` | apps/api/src/verification/caf/caf-mappers.ts:18-26 | without a liveness score the verdict is reprovado, and without an age range it is never aprovado |
| `CafMappers.MissingOcrNeverApproves` | apps/api/src/verification/caf/caf-mappers.ts:28-36 | without a face match score or a birth date a document is refused |
| `Base64.RoundTrip` | apps/api/src/storage/frame-codec.ts:5-7 | decoding the base64 of any byte string gives it back (section 4 of RFC 4648) |
| `Base64.EncodedText` | apps/api/src/tenant/secret-crypto.ts:8 | base64 text consists of the alphabet and padding, four characters per started group |
| `Base64.EncodeSpells` | apps/api/src/tenant/secret-crypto.ts:8 | the k-th four letters of table 1 of RFC 4648 spell the same 24-bit number as the k-th three bytes |
| `Base64.StrangersSkipped` | apps/api/src/storage/frame-codec.ts:18-20 | the decoder steps over what is neither letter nor padding, and reads nothing from the first padding on |
| `FrameCodec.FrameRoundTrip` | apps/api/src/storage/frame-codec.ts:3-22 | deserializeFrame(serializeFrame(f)) is f for every frame |
| `FrameCodec.StoredText` | apps/api/src/storage/frame-codec.ts:4-9 | the stored text is the JSON object of iv, tag and ciphertext in base64, in this order |
| `FrameCodec.ParsePrint` | apps/api/src/storage/frame-codec.ts:4-13 | any printed object of bare strings is parsed back member by member |
| `FrameCodec.AcceptedExactlyWhenComplete` | apps/api/src/storage/frame-codec.ts:14-16 | of printed objects exactly those with iv, tag and ciphertext are accepted |
| `SecretCrypto.SecretRoundTrip` | apps/api/src/tenant/secret-crypto.ts:4-21 | a secret comes back exactly when it is not empty; the token of the empty one is refused as malformed |
| `SecretCrypto.RefusedExactly` | apps/api/src/tenant/secret-crypto.ts:11-21 | a token is malformed exactly when one of its first three parts is missing or empty, else of invalid structure exactly when iv or tag are not 12 and 16 bytes, and else it opens exactly as the cipher does |
| `SecretCrypto.TokenSplits` | apps/api/src/tenant/secret-crypto.ts:12 | a printed token splits back into its three parts |
| `SecretCrypto.ExtraPartsIgnored` | apps/api/src/tenant/secret-crypto.ts:12 | whatever follows a third dot is ignored |
| `SecretCrypto.SplitJoin` | apps/api/src/tenant/secret-crypto.ts:12 | splitting at dots distributes over joining with a dot |
| `HostSafety.QuadsByRange` | apps/api/src/common/url-safety.ts:30-60 | for every canonical dotted quad the test on the text equals the test on the 32-bit address: section 3 of RFC 1918, 127/8, 169.254/16 and 0.0.0.0 |
| `HostSafety.ByFirstLetter` | apps/api/src/common/url-safety.ts:30-62 | every normalized name, by what it begins with: localhost, ::1, ::, 0.0.0.0 and the empty name, the prefixes fc, fd and fe80, and the numeric prefixes; nothing else is refused |
| `HostSafety.DressedUp` | apps/api/src/common/url-safety.ts:14-31 | blanks around a host in brackets, capital letters and any zone id hide nothing: the name inside, in small letters, decides |
| `HostSafety.Undressed` | apps/api/src/common/url-safety.ts:14-31 | the same for a host that is not in brackets |
| `HostSafety.FirstGroup` | apps/api/src/common/url-safety.ts:53-57 | of full first groups exactly fc00 to fdff and fe80 are refused; the comment says fe80::/10 |
| `ApiKeys.ResolvesExactly` | apps/api/src/tenant/api-key.service.ts:26-50 | over every history a key resolves to a tenant exactly when it was issued to it and not revoked |
| `ApiKeys.RevokedOnceByOwner` | apps/api/src/tenant/api-key.service.ts:40-43 | a revocation succeeds exactly when it is by the owner and no earlier one was |
| `ApiKeys.ApiKeyService.Issue` | apps/api/src/tenant/api-key.service.ts:26-38 | issue as code: for a tenant that exists the new key resolves to it, otherwise the foreign key refuses the row and nothing changes |
| `ApiKeys.ApiKeyService.Revoke` | apps/api/src/tenant/api-key.service.ts:40-43 | revoke as code: true exactly when a live row of that tenant was there, and then the row is dead |
| `ApiKeys.ApiKeyService.ResolveTenant` | apps/api/src/tenant/api-key.service.ts:45-50 | resolveTenant as code: the present row of the tenant that the live key belongs to, and nothing exactly when no live row has the hash |
| `ApiKeyMigration.Schema.Up` | apps/api/src/db/migrations/0002-api-keys.ts:5-22 | up as code: succeeds exactly when no two tenants share a hash, and then moves every hash that is not null into a row of its own; otherwise nothing changes |
| `ApiKeyMigration.Schema.Down` | apps/api/src/db/migrations/0002-api-keys.ts:24-33 | down as code: the column comes back with a newest live key of each tenant |
| `ApiKeyMigration.UpPreserves` | apps/api/src/db/migrations/0002-api-keys.ts:16-21 | a hash belongs to a tenant before up exactly when it resolves to it after |
| `ApiKeyMigration.DownRestores` | apps/api/src/db/migrations/0002-api-keys.ts:24-33 | down after up restores the column |
| `ApiKeyMigration.DownIsSound` | apps/api/src/db/migrations/0002-api-keys.ts:26-32 | down never lets a key resolve to a different tenant, and leaves a key to every tenant that has a live one |
| `ApiKeyMigration.DownKeepsNewest` | apps/api/src/db/migrations/0002-api-keys.ts:26-32 | what still works after down was issued to that tenant, is not revoked, and is a newest live key: older live keys stop working |
| `Webhook.WebhookService.Dispatch` | apps/api/src/webhook/webhook.service.ts:15-36 | identical signed requests, none after one answered by a response that is ok, at most retries + 1 and exactly that many when it throws, with the pause in between; it returns exactly when the last answer was a response that is ok, and never tries with negative retries |

## Left out

- NestJS modules, guards and decorators, environment parsing, dashboard, plugin and stub server: wiring and user interface without a run-time invariant.
- `classifyAgeBand`, `maskIp`, `parsePagination`, `buildInvoice`, the proof JWT and the job builders: each is settled by reading one branch.
- The consent row's scope and masked address, and listing consents by user hash: stored and read back, with no rule of their own.
- Internals of AES-GCM, HMAC, SHA-256, scrypt, JOSE and Stripe: opaque.
- Plans: there are the three of the source, as a datatype. Refusing unknown plan ids, checkout, invoices and subscription webhooks are left out; a plan change is an event that can come at any time.
- Object storage: the media store is the in-memory one. The other store has no expiry of its own in this code.
- BullMQ: scheduling, backoff and stalled-job detection are over-approximated by starting any queued job at any time, any number of times.
- Transaction isolation and rollback in Postgres: each statement takes effect at once. The two rows of a session creation are one step, because nothing reads one without the other.
- JSON in general: only objects of unescaped ASCII strings without white space, which covers what serializeFrame prints. Encodings other than ASCII are not modelled.
- Scores and ages that are not finite: scores are reals; the age of an unparseable birth date is modelled explicitly.
- Base64 text with padding in the middle: the decoder of the model stops at the first padding character.
- `HostSafety.DressedUp`: here and in the checks of request bodies, trimming and lower-casing are those of ASCII, and only normalizeHost and isPrivateHost are modelled, not the URL parser in front of them.
- `Webhook.WebhookService.Dispatch`: the body and the signature are opaque texts.
