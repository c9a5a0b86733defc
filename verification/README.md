# Verified model of Prokuro's state machines

A Dafny 4.11 model of the parts of Prokuro whose correctness tests cannot settle: documents
edited and refreshed at the same time, memberships and invites that must agree in several
maps, queues and limiters with many waiting callers, and indexes that replace scans. Where the
Rust code changes things step by step, the model has classes with mutable fields and methods
with loops, each proved to do what a specification function says. The results are then proved
about those functions, in every reachable state of a run where calls interleave.

`dafny verify dfyconfig.toml` checks everything.

| file | what it models |
|---|---|
| `BomStore`, `BomProtocol`, `BomContent`, `BomGuarantees` | the versioned BOM store; its calls cut into single document reads and writes; what stored lines say; no lost edit, index agreement, flagged lines |
| `Analyze`, `Briefs`, `BriefJobs` | scoring and portfolio figures; line briefs and their fixed point; the job coalescer |
| `TeamStore`, `TeamRuns` | memberships, invites and seats over whole runs of calls |
| `RateLimiter`, `RateRuns` | the Digi-Key limiter: sliding window, daily counter, rising caps, many callers |
| `Billing`, `Webhooks` | plans, grants and Stripe events; deliveries, checkouts and status reads interleaved |
| `PartKeys`, `SnapshotCodec`, `PartStore`, `Worker` | part keys, stored snapshots, the part tables, one lookup |
| `Enrichment`, `CachedRefresh` | batch enrichment; a BOM refreshed from the part cache and rescored |
| `Drain`, `RetryQueue` | one drain round; the retry queue over whole runs |
| `TariffData`, `Screening` | tariff indexes and their lookups; party-name normalization |
| `Pagination` | paging by id, and the pages of the BOM list |
| `Prelude`, `Text`, `Decimal`, `Sorting` | options and filters, characters, decimal text, stable sort |

How the code is read:

- Timestamps are integers, `f64` percentages are reals, counters are unbounded except where
  the width matters (`u64` versions, `u32` attempts, `i64`/`i32` in stored snapshots).
- `Sorting.StableSort` stands for the library's stable sorts. Sorted by it, the same elements
  come out in order, and elements that compare equal keep their places.
- Calls out of the process are inputs: the provider's answers, the model's texts, the headers
  of a response, what enrichment says about a line. Their failures are answers too.
- A run is a sequence of events, each a call or a single store access; a theorem about every
  run is a theorem about every interleaving.
- Several properties fail on some runs. The model gives a run that breaks each of them, and
  says when it holds:
  - two lines of one row are briefed for ever: `Briefs.SettledIffRowsAgree`,
    `Briefs.SharedRowNeverSettles`;
  - an id created again while a refresh of the old BOM is under way is overwritten:
    `BomGuarantees.CommitGoesAheadIff`, `BomGuarantees.RecreationDefeatsVersionCheck`. Ids come
    with the upload, so a client can use one twice;
  - day keys out of order, and racing header observations that lower a cap:
    `RateRuns.SafeOrderIff`, `RateRuns.LoneCallerSleeps`, `RateRuns.CapFallsIff`;
  - deliveries and checkouts that write what they read before another write:
    `Webhooks.RecordIsFold`, `Webhooks.CheckoutLeavesTermsIff`;
  - overlapping enqueues of one key: `RetryQueue.OneRowIff`, `RetryQueue.ExactIff`,
    `RetryQueue.RacingEnqueues`;
  - a `#` in an MPN: `PartKeys.SameKeyIff`;
  - an empty or repeated id at a page end: `Pagination.WalkIff`;
  - a risk score rounded to zero: `Analyze.ZeroScoreIff`.

Where code and comments disagree, the code is modelled: the comment on `claim_unresolved`
promises the oldest rows, but the scan stops at the first `limit` ready ones and only sorts
those.

## Model

| member | source | states |
|---|---|---|
| BomStore.Store.EditWith | crates/prokuroGateway/src/boms/store.rs:320-427 | a locked edit call changes the three documents as the edit specification says, or reports the missing BOM, the version conflict or the missing line and changes nothing |
| BomStore.Store.UpdateAnalyzeAndSummaryCas | crates/prokuroGateway/src/boms/store.rs:207-251 | a refresh writes only while the stored version is the one it read, takes over figures and lines only, and never bumps the version |
| BomStore.Store.CreateBom | crates/prokuroGateway/src/boms/store.rs:253-302 | a creation stores both documents at version 1 under the id of its upload and makes its summary that id's only index entry, at the end |
| BomStore.Store.DeleteBom | crates/prokuroGateway/src/boms/store.rs:304-316 | a deletion removes index entry and documents, or reports that the index has no such id |
| BomStore.Store.PersistBom | crates/prokuroGateway/src/boms/store.rs:488-514 | documents and index entry are replaced together; briefs are never stored in the analyze document |
| BomStore.Store.FlaggedLines | crates/prokuroGateway/src/boms/store.rs:157-171 | the loop that skips BOMs counted as clear returns the collected items, or the first read error |
| BomStore.EditLinesOnCores | crates/prokuroGateway/src/boms/store.rs:342-427 | editing full lines succeeds exactly when the customer's edit applies, and does just that to the user fields, second sources and tariff data |
| BomStore.EditKeepsRowsDistinct | crates/prokuroGateway/src/boms/store.rs:342-427 | patching, deleting and adding keep row indices distinct; a replacement has distinct rows exactly when its lines do |
| BomStore.NextRow | crates/prokuroGateway/src/boms/store.rs:397-427 | the row given to an added line is larger than every row in use |
| BomStore.UpsertFacts | crates/prokuroGateway/src/boms/store.rs:503-513 | persisting changes the index for one id only and keeps ids distinct |
| BomProtocol.StepKeepsInv | crates/prokuroGateway/src/boms/store.rs:140-514 | every single document read or write, ids created again included, keeps documents, index, version counts and lock holder consistent |
| BomProtocol.RunKeepsInv | crates/prokuroGateway/src/boms/store.rs:140-514 | so every reachable state is consistent |
| BomContent.StepKeepsContent | crates/prokuroGateway/src/boms/store.rs:207-427 | every step keeps, per BOM, stored lines, lock holder and refreshes in flight in line with the committed edits, if a refresh that goes ahead read the metadata of the BOM that has the id now |
| BomContent.UndisturbedIsFresh | crates/prokuroGateway/src/boms/store.rs:253-302 | in every run in which no creation of an id, the first or a later one, writes its metadata while a refresh of the id is in flight, every refresh of it that goes ahead did |
| BomContent.CreatedOnceIsFresh | crates/prokuroGateway/src/boms/store.rs:253-302 | so an id created at most once gives only such refreshes |
| BomContent.OnlyCreatedIds | crates/prokuroGateway/src/boms/store.rs:253-302 | in every run only ids that creations were given have metadata |
| BomContent.RowsStayDistinct | crates/prokuroGateway/src/boms/store.rs:253-427 | in every run whose uploads and replacements have distinct rows, so have all stored lines |
| BomGuarantees.NoLostEdit | crates/prokuroGateway/src/boms/store.rs:207-427 | whenever the lock is free, the stored lines' order, user fields, second sources and tariff data are the created ones with exactly the committed edits applied, known part data and the document's identity are kept, and the version is one plus the number of edits; for runs in which no refresh outlives the BOM it read |
| BomGuarantees.CommitGoesAheadIff | crates/prokuroGateway/src/boms/store.rs:207-251 | in every run a refresh goes ahead exactly when a BOM of its id is stored and the version it read is one plus the edits committed since that BOM was created, so also over a BOM created again with just as many edits |
| BomGuarantees.CommitLeavesDataIff | crates/prokuroGateway/src/boms/store.rs:207-251 | in every run a refresh that goes ahead leaves the customer's data as they stand exactly when what it read still says the same, and it does if the BOM is the one it read |
| BomGuarantees.RefreshKeepsBoms | crates/prokuroGateway/src/boms/daily_refresh.rs:65-123 | in every run no step of a refresh changes the set of BOMs, a history, or anything but the figures in metadata and index entries |
| BomGuarantees.RefreshChangesOnlyScores | crates/prokuroGateway/src/boms/daily_refresh.rs:90-113 | nor the document's identity, nor anything in a line but availability, lifecycle, match, lead days, stock, risk level and part data unknown after the last edit; for runs in which no refresh outlives the BOM it read |
| BomGuarantees.RacingRefreshReopensGap | crates/prokuroGateway/src/analyze.rs:176-200 | of two refreshes that read one document the second replaces what the first filled in: a gap is closed after both exactly when the second found something |
| BomGuarantees.CommitKeepsIdentity | crates/prokuroGateway/src/boms/store.rs:207-251 | what a refresh writes keeps name, file, uploader, dates and version found on disk under the lock |
| BomGuarantees.EditCallIsItsSteps | crates/prokuroGateway/src/boms/store.rs:320-514 | an edit call is its lock and three writes in sequence and enters the history once; a failing call is no step at all |
| BomGuarantees.CasCallIsItsSteps | crates/prokuroGateway/src/boms/store.rs:207-251 | the compare-and-write call is its comparison and three writes in sequence, or nothing on a mismatch |
| BomGuarantees.RecreationDefeatsVersionCheck | crates/prokuroGateway/src/boms/store.rs:260-273 | since a creation starts again at version 1, an id deleted and created again during a refresh is overwritten with the old BOM's lines |
| BomGuarantees.IndexAgrees | crates/prokuroGateway/src/boms/store.rs:488-514 | with the lock free index ids are distinct, each entry equals its BOM's metadata summary, and its at-risk count is the number of Red and Yellow stored lines |
| BomGuarantees.ListedSummaries | crates/prokuroGateway/src/boms/store.rs:133-138 | the list holds every index entry once, newest first |
| BomGuarantees.SkippingClearIsExact | crates/prokuroGateway/src/boms/flagged.rs:47-66 | skipping BOMs counted as clear gives what scanning all of them gives |
| BomGuarantees.FlaggedLinesExact | crates/prokuroGateway/src/boms/store.rs:157-171 | in every reachable quiescent state the call succeeds and lists exactly the flagged lines of the stored BOMs |
| BomGuarantees.StoredBriefsSettle | crates/prokuroGateway/src/boms/analysis.rs:59-112 | in every run whose uploads and replacements have distinct rows, a fully answered brief pass over any stored BOM leaves nothing for the next one to ask or write |
| Analyze.FinalizeAnalyze | crates/prokuroGateway/src/analyze.rs:222-286 | the loop rescores every line and rebuilds counts and top risks |
| Analyze.FinalizeIdempotent | crates/prokuroGateway/src/analyze.rs:222-286 | a second run changes nothing |
| Analyze.RiskCountsPartition | crates/prokuroGateway/src/analyze.rs:222-286 | the four risk counts sum to the number of lines, and Red plus Yellow is the number of flagged lines |
| Analyze.TopRisksAreBest | crates/prokuroGateway/src/analyze.rs:329-349 | top risks are the best flagged lines by priority and row, as many as fit; no excluded one ranks better |
| Analyze.FinalizedFigures | crates/prokuroGateway/src/boms/types.rs:44-71 | the overall score lies between 0 and 10, and the band is Clear exactly when every line is Green |
| Analyze.ZeroScoreIff | crates/prokuroGateway/src/boms/types.rs:52-71 | the rounded score is zero exactly when no line can be scored or fewer than one in two hundred of those that can is at risk |
| Analyze.ZeroScoreOfLines | crates/prokuroGateway/src/boms/types.rs:52-71 | for a finalized result: exactly when none is flagged or fewer than one in two hundred of the lines not Unknown; up to two hundred lines exactly when none is |
| Analyze.ZeroScoreCanHideRisk | crates/prokuroGateway/src/boms/types.rs:52-71 | so one red line among a thousand scores zero |
| Analyze.ApplyEnrichmentResults | crates/prokuroGateway/src/analyze.rs:176-200 | each line takes the last answer for its position, and a line without one is unchanged |
| Briefs.ReconcileLineBriefs | crates/prokuroGateway/src/boms/briefs.rs:70-91 | the loop keeps the current briefs of flagged lines and asks for the others |
| Briefs.ApplyLineBriefs | crates/prokuroGateway/src/boms/analysis.rs:59-112 | the recorded model calls are one per line asked for, in order; failures keep the old brief, blanks are dropped, and only a change is written |
| Briefs.BriefsAreOfFlaggedRows | crates/prokuroGateway/src/boms/briefs.rs:70-91 | whatever the model answers, stored brief keys are rows of flagged lines |
| Briefs.AppliedDescribes | crates/prokuroGateway/src/boms/analysis.rs:59-112 | after a fully answered pass exactly the flagged rows have a brief, each with a text and the fingerprint of a flagged line of its row |
| Briefs.SettledIffRowsAgree | crates/prokuroGateway/src/boms/briefs.rs:56-91 | such a pass leaves nothing to refresh exactly when flagged lines that share a row agree in their scored fields |
| Briefs.SecondPassIsIdle | crates/prokuroGateway/src/boms/analysis.rs:59-112 | then the next pass calls the model for nothing and writes nothing |
| Briefs.DistinctRowsAgree | crates/prokuroGateway/src/boms/briefs.rs:22-24 | distinct row indices, which edits preserve, are enough |
| Briefs.SharedRowNeverSettles | crates/prokuroGateway/src/boms/briefs.rs:22-91 | two different flagged lines of one row are refreshed again after every pass |
| BriefJobs.Jobs.TryBeginJob | crates/prokuroGateway/src/boms/analysis.rs:129-144 | a job starts unless one runs for the key; then the batch replaces the queued one |
| BriefJobs.Jobs.FinishJob | crates/prokuroGateway/src/boms/analysis.rs:146-155 | a finished worker takes the queued batch, or stops running |
| BriefJobs.RunKeepsInv | crates/prokuroGateway/src/boms/analysis.rs:114-185 | every kick and worker step keeps the table, the live workers and the batches kicked and processed in line with each other |
| BriefJobs.NoLostWakeup | crates/prokuroGateway/src/boms/analysis.rs:114-185 | per BOM at most one worker; a pending batch implies a worker; processed batches are kicked ones in order; once idle, the last processed is the last kicked |
| TeamStore.Store.Resolve | crates/prokuroGateway/src/team/store.rs:101-145 | a known user gets account and role from the store and brings its record up to date; an unknown one becomes owner of an account of its own |
| TeamStore.Store.Usage | crates/prokuroGateway/src/team/store.rs:160-163 | the seats in use are the members and the open invites of the account |
| TeamStore.Store.OpenInvite | crates/prokuroGateway/src/team/store.rs:165-215 | an invite is stored for seven days, or refused for its role, its address, a member or an open invite with that address |
| TeamStore.Store.Revoke | crates/prokuroGateway/src/team/store.rs:217-227 | an invite is removed by its own account only |
| TeamStore.Store.Remove | crates/prokuroGateway/src/team/store.rs:229-245 | a member leaves both maps; owners cannot be removed |
| TeamStore.Store.PatchRole | crates/prokuroGateway/src/team/store.rs:247-270 | a role changes in both maps; nobody becomes owner and no owner changes |
| TeamStore.Store.Accept | crates/prokuroGateway/src/team/store.rs:292-356 | accepting moves the user from its account to the inviting one and uses the invite up, or fails with the check that stopped it |
| TeamRuns.StepKeepsInv | crates/prokuroGateway/src/team/store.rs:101-356 | every call at any later time keeps maps, ownership and invites consistent |
| TeamRuns.RunKeepsInv | crates/prokuroGateway/src/team/store.rs:101-356 | so every reachable state is consistent |
| TeamRuns.OwnershipOverRuns | crates/prokuroGateway/src/team/store.rs:101-356 | the user map and the account maps describe the same memberships, and an account with a member or an open invite has exactly one owner, whose id is the account's |
| TeamRuns.InvitesOverRuns | crates/prokuroGateway/src/team/store.rs:165-356 | no invite is accepted twice, and an account has at most one open invite per address |
| TeamRuns.AcceptConservesSeats | crates/prokuroGateway/src/team/store.rs:160-163 | accepting leaves the joined account's seat usage as it was, lowers the left one's by one and changes no other |
| RateLimiter.Limiter.constructor | crates/prokuroEnrichment/src/providers/digikey/rate_limit.rs:43-56 | an empty limiter whose caps are at least one |
| RateLimiter.Limiter.ObserveLimits | crates/prokuroEnrichment/src/providers/digikey/rate_limit.rs:81-94 | undisturbed, an observation only raises caps, and zero counts for nothing |
| RateLimiter.Limiter.Charge | crates/prokuroEnrichment/src/providers/digikey/rate_limit.rs:117-129 | a lookup is charged to its day unless the cap is used up; a new day key starts at zero |
| RateLimiter.Limiter.TakeMinuteSlot | crates/prokuroEnrichment/src/providers/digikey/rate_limit.rs:131-150 | whatever the window holds, a caller no one interferes with looks and sleeps until there is room, and its grant enters what is left of the window |
| RateLimiter.LoneWaitBound | crates/prokuroEnrichment/src/providers/digikey/rate_limit.rs:131-150 | such a caller sleeps at most once for every live grant beyond the cap, and once more |
| RateLimiter.AtMostOneSleepIff | crates/prokuroEnrichment/src/providers/digikey/rate_limit.rs:131-150 | it sleeps at most once exactly when the first look has room, or the grant that many places from the end is over a minute old at the second |
| RateLimiter.ExpiredStays | crates/prokuroEnrichment/src/providers/digikey/rate_limit.rs:136-141 | dropping expired grants at two looks is dropping them at the later one |
| RateRuns.RunKeepsInv | crates/prokuroEnrichment/src/providers/digikey/rate_limit.rs:81-151 | over interleaved callers and racing observations the window is the recent tail of all grants and the counter counts the current stretch of charges |
| RateRuns.RateBound | crates/prokuroEnrichment/src/providers/digikey/rate_limit.rs:117-151 | every closed 60-second interval of every run holds at most as many grants as the largest per-minute cap stored so far |
| RateRuns.DailyBoundPerStretch | crates/prokuroEnrichment/src/providers/digikey/rate_limit.rs:117-129 | a day is charged at most the largest daily cap per stretch of consecutive charges |
| RateRuns.DailyBound | crates/prokuroEnrichment/src/providers/digikey/rate_limit.rs:117-129 | so at most the largest daily cap if day keys reach the lock in order |
| RateRuns.ChargesFollowKeys | crates/prokuroEnrichment/src/providers/digikey/rate_limit.rs:117-129 | in every run with no larger daily cap stored, the charges are those of the day keys in the order in which they reach the lock |
| RateRuns.SafeOrderIff | crates/prokuroEnrichment/src/providers/digikey/rate_limit.rs:117-129 | an order of day keys stays within every daily cap exactly when no day comes in two stretches |
| RateRuns.LateCallerOvercharges | crates/prokuroEnrichment/src/providers/digikey/rate_limit.rs:117-129 | a caller late at the lock after midnight makes a day exceed its cap |
| RateRuns.LoneCallerIsGranted | crates/prokuroEnrichment/src/providers/digikey/rate_limit.rs:117-151 | from every reachable state a caller left alone gets its grant by its own steps, however late its sleeps end |
| RateRuns.LoneCallerSleeps | crates/prokuroEnrichment/src/providers/digikey/rate_limit.rs:117-151 | how often it sleeps from any reachable state: the bound, the exact condition for at most once, and once unless a store lowered the cap |
| RateRuns.CrowdedCallerSleepsTwice | crates/prokuroEnrichment/src/providers/digikey/rate_limit.rs:81-151 | a run in which racing observations store caps of three and two between three grants reaches a state in which a caller left alone sleeps twice |
| RateRuns.CapFallsIff | crates/prokuroEnrichment/src/providers/digikey/rate_limit.rs:81-94 | a store lowers the per-minute cap exactly if its observation is above the cap it had read and below the one stored since |
| RateRuns.FirstCapStays | crates/prokuroEnrichment/src/providers/digikey/rate_limit.rs:81-94 | in every run the cap never falls below the first one, and while it is the first one the window fits it |
| RateRuns.RacingObservationsLowerCap | crates/prokuroEnrichment/src/providers/digikey/rate_limit.rs:81-94 | two racing observations can lower a cap, so the bound is stated with the largest one stored |
| Billing.Service.SetAdminPlan | crates/prokuroGateway/src/billing.rs:148-182 | an override is stored, and setting the free plan clears it |
| Billing.Service.GrantEmail | crates/prokuroGateway/src/billing.rs:563-628 | a grant is stored under the normalized address, and on the account if one is named; a bad address changes nothing |
| Billing.Service.RevokeEmail | crates/prokuroGateway/src/billing.rs:595-637 | the grant goes, and the account's override with it |
| Billing.Service.StatusFor | crates/prokuroGateway/src/billing.rs:204-247 | without an active override an active grant for the address is copied into one; the status is resolved from what is then in force |
| Billing.Service.FindByCustomer | crates/prokuroGateway/src/billing.rs:1117-1126 | some record with the customer id is found exactly when there is one |
| Billing.Service.UpdateRecord | crates/prokuroGateway/src/billing.rs:1012-1058 | updating a record field by field comes to the specified record |
| Billing.Service.HandleWebhook | crates/prokuroGateway/src/billing.rs:894-924 | a delivery is applied once and its id kept; other kinds and ids seen before change nothing |
| Billing.PaidIff | crates/prokuroGateway/src/billing.rs:971-1061 | an event leaves a paid plan exactly when its status entitles and it names a plan or the record had one |
| Billing.ProvisionedIff | crates/prokuroGateway/src/billing.rs:1224-1294 | provisioned and not free are the same exactly when no active override is itself free, or the user is an operator |
| Billing.ResolveOnSound | crates/prokuroGateway/src/billing.rs:204-247 | on a sound store resolving keeps it sound, provisioned means not free, and without override the plan is the stored one |
| Webhooks.StepKeepsClaims | crates/prokuroGateway/src/billing.rs:894-969 | every step keeps one reason per recorded event id: applied, in progress in one task, or left behind by a failure |
| Webhooks.StepKeepsSound | crates/prokuroGateway/src/billing.rs:808-1061 | every step, a checkout's stale write and a half-failed write included, keeps stored plans sound |
| Webhooks.AppliedAtMostOnce | crates/prokuroGateway/src/billing.rs:894-969 | under any interleaving an event is applied successfully at most once and never again afterwards |
| Webhooks.DuplicateIff | crates/prokuroGateway/src/billing.rs:926-949 | a delivery is turned away exactly when its event was applied, is being applied, or left its claim behind |
| Webhooks.FailedCanApplyAgain | crates/prokuroGateway/src/billing.rs:909-919 | after a failure whose release went through, the next delivery claims and applies the event |
| Webhooks.PlansStaySound | crates/prokuroGateway/src/billing.rs:1040-1061 | in every reachable state unentitled records are free, no override is free, and resolved accounts are provisioned exactly when their plan is not free |
| Webhooks.DeliveryIsItsSteps | crates/prokuroGateway/src/billing.rs:894-924 | an uninterrupted delivery does what the call does |
| Webhooks.RecordIsFold | crates/prokuroGateway/src/billing.rs:808-1061 | in every run a record is the fold of the writes it reflects, and it reflects all of its account's writes exactly when no other write of it falls between the read and the write of one |
| Webhooks.WriteOrderIff | crates/prokuroGateway/src/billing.rs:808-1061 | in every run, after a write the record is what the writes make of it in turn exactly when the write had read, in the fields it hands on, what those before it make |
| Webhooks.CheckoutLeavesTermsIff | crates/prokuroGateway/src/billing.rs:808-841 | in every run a checkout puts back plan, status, subscription and period as it read them: as they stand exactly when no write of the record came between or the last that did left them so; the writes between are the ones undone |
| Webhooks.RacingDeliveries | crates/prokuroGateway/src/billing.rs:950-1061 | of two deliveries that both read before either writes both count as applied and the record is the second's; that is both in turn exactly when the second hands on nothing the first changed |
| Webhooks.RacingDeliveryLosesPlan | crates/prokuroGateway/src/billing.rs:950-1061 | so a paid plan named by the first is lost to a second that names none |
| Webhooks.CheckoutCanUndoAnEvent | crates/prokuroGateway/src/billing.rs:808-841 | a checkout that read the record before an event was applied writes its old plan back |
| PartKeys.KeyRoundTrip | crates/prokuroEnrichment/src/drain.rs:93-100 | for an ASCII, `#`-free, non-blank MPN parsing the key and rebuilding the query gives the same key |
| PartKeys.SplitOnceIff | crates/prokuroEnrichment/src/types.rs:44-50 | the split is the one at the first `#`, in both directions |
| PartKeys.RebuildIff | crates/prokuroEnrichment/src/drain.rs:93-100 | an ASCII key text survives the way through its query exactly when both halves are non-empty and in normal form |
| PartKeys.SameKeyIff | crates/prokuroEnrichment/src/types.rs:23-42 | parts that share a key have the same normalized names exactly when their normalized MPNs have equally many `#`; without any, sharing a key is having the same names |
| PartKeys.HashMakesKeysCollide | crates/prokuroEnrichment/src/types.rs:36-42 | a `#` in the MPN makes different parts share a key |
| SnapshotCodec.ResultToItem | crates/prokuroEnrichment/src/store_item.rs:38-97 | inserting attribute by attribute builds the specified item |
| SnapshotCodec.EncodeAt | crates/prokuroEnrichment/src/store_item.rs:38-97 | what each attribute of an encoded snapshot holds, and which are absent |
| SnapshotCodec.DecodeEncode | crates/prokuroEnrichment/src/store_item.rs:11-136 | for every result decoding gives it back with empty optional texts absent, or nothing without a fetch time |
| SnapshotCodec.RoundTripIff | crates/prokuroEnrichment/src/store_item.rs:11-136 | it gives back the very result exactly when there is a fetch time and no empty optional text |
| SnapshotCodec.StatusNamesRoundTrip | crates/prokuroEnrichment/src/store_item.rs:109-136 | every status is read back from its name |
| Decimal.ParseOfInt | crates/prokuroEnrichment/src/store_item.rs:103-107 | a number in range is read back from its decimal text |
| PartStore.Tables.EnqueueUnresolvedMany | crates/prokuroEnrichment/src/store.rs:216-255 | exactly the keys without a row get one, and they are counted |
| PartStore.Tables.DeleteUnresolved | crates/prokuroEnrichment/src/store.rs:348-397 | all rows of a key go |
| PartStore.Tables.MarkAttempted | crates/prokuroEnrichment/src/store.rs:330-345 | the row is written with one more attempt, whether or not it is still there |
| PartStore.Tables.ClaimUnresolved | crates/prokuroEnrichment/src/store.rs:257-328 | the scan loop claims and drops as specified and stops at the limit |
| PartStore.PutThenRead | crates/prokuroEnrichment/src/store.rs:89-169 | what a batch read finds after a snapshot was written |
| Worker.ProcessOne | crates/prokuroEnrichment/src/worker.rs:16-61 | an answer, no match included, is stored under the query's key and returned; a failure stores nothing |
| Enrichment.Group | crates/prokuroEnrichment/src/lib.rs:110-126 | the loop groups line positions by key in order and keeps the first query of each |
| Enrichment.EnrichLines | crates/prokuroEnrichment/src/lib.rs:104-205 | one result per line, equal to what its own key's cache, pending or live answer gives; the queries the provider was asked are one per missed key; missed or failed keys queued; answers stored, stale no-matches dropped |
| Enrichment.PerLine | crates/prokuroEnrichment/src/lib.rs:199-262 | result i carries index i, equal keys get equal answers, and the no-MPN result goes to lines without an MPN only |
| Enrichment.BatchRefinesSingle | crates/prokuroEnrichment/src/lib.rs:104-205 | a line gets from a batch what a call for it alone gives, if the provider answers queries with one key alike |
| Enrichment.AnsweredKeysHitNext | crates/prokuroEnrichment/src/lib.rs:129-156 | an answered key is a cache hit for the next call exactly unless its snapshot has no fetch time or is a stale no-match |
| CachedRefresh.RefreshRecordFromCache | crates/prokuroGateway/src/boms/daily_refresh.rs:90-113 | batch enrichment, overlay and rescoring together: each line gets the result of its own part key, keeps the customer's fields, and nothing else changes |
| CachedRefresh.AnswersInOrder | crates/prokuroGateway/src/analyze.rs:176-183 | answers that come one per line, in order, reach their own lines |
| CachedRefresh.ScoreAgrees | crates/prokuroGateway/src/analyze.rs:288-327 | a refreshed line's score, computed from texts without regard to case, is the one its typed result calls for |
| Drain.RunOnce | crates/prokuroEnrichment/src/drain.rs:32-86 | a round claims, deletes settled keys, asks the provider once for each other key that parses, and marks failures; it counts what it resolved |
| Drain.ResolveOne | crates/prokuroEnrichment/src/drain.rs:88-107 | a key is deleted when answered, and also when malformed, which still counts as a failure |
| Drain.RoundForClaimed | crates/prokuroEnrichment/src/drain.rs:32-107 | where a round leaves each row of a claimed key; a malformed key's row comes back |
| Drain.RoundForOthers | crates/prokuroEnrichment/src/drain.rs:32-107 | a round leaves all other keys alone |
| Drain.RoundIsItsSteps | crates/prokuroEnrichment/src/drain.rs:53-86 | for every claimed item the round does to its key's rows what the retry queue's single steps do |
| RetryQueue.ClaimIsSound | crates/prokuroEnrichment/src/store.rs:257-328 | a claim is within its limit, key-distinct, outside backoff, short of ten attempts and ordered by first_seen |
| RetryQueue.ShortClaimTookAll | crates/prokuroEnrichment/src/store.rs:257-328 | a claim below its limit took every ready row that its key shows first; only keys out of attempts are dropped |
| RetryQueue.StepKeepsInv | crates/prokuroEnrichment/src/drain.rs:32-107 | every store access of the drain, of enqueuing requests, overlapping or not, and of other snapshot writers keeps a row for every claimed key and settles none without a snapshot |
| RetryQueue.OneRowIff | crates/prokuroEnrichment/src/store.rs:216-255 | in every run a well-formed key never has two rows exactly when every row written for it falls into the second of the rows it has |
| RetryQueue.NoOverlapIsOrderly | crates/prokuroEnrichment/src/store.rs:216-255 | enqueues of a key that do not overlap meet that condition |
| RetryQueue.BoundedRetries | crates/prokuroEnrichment/src/drain.rs:32-107 | under that condition, whatever the clock says, a well-formed key was looked up at most ten times since its last enqueue |
| RetryQueue.TenLookupsPerRow | crates/prokuroEnrichment/src/drain.rs:32-107 | in every run, without any condition, a key is looked up at most ten times for each row written for it by an enqueue, and so is each row |
| RetryQueue.ExactIff | crates/prokuroEnrichment/src/drain.rs:32-107 | in every run the row of a well-formed key counts its lookups and failures exactly if and only if every row written for it falls into the second of its rows and not while an item attempted before is being worked on |
| RetryQueue.NoOverlapIsSteady | crates/prokuroEnrichment/src/store.rs:216-255 | enqueues of a key that do not overlap meet that condition too |
| RetryQueue.RowCountsAttempts | crates/prokuroEnrichment/src/drain.rs:32-107 | then the row of a key that is not being worked on counts the failures, which are all its lookups since the last enqueue |
| RetryQueue.LeavesOnlySettled | crates/prokuroEnrichment/src/store.rs:290-299 | in every run it leaves the queue only by a stored snapshot or for a row that used up its attempts |
| RetryQueue.DroppedAfterTenFailures | crates/prokuroEnrichment/src/store.rs:290-299 | then the latter means ten lookups since the last enqueue, all failed |
| RetryQueue.PartKeysAreWellFormed | crates/prokuroEnrichment/src/types.rs:35-50 | the keys of parts with an ASCII, `#`-free, non-blank MPN are well-formed |
| RetryQueue.RacingEnqueues | crates/prokuroEnrichment/src/store.rs:216-255 | a run of two enqueues that both check before either writes leaves one row exactly when they write within one second |
| TariffData.FromParts | crates/prokuroTariff/src/data.rs:118-159 | empty datasets are refused; otherwise both indexes say what a scan of their list says |
| TariffData.FindHtsBase | crates/prokuroTariff/src/data.rs:161-175 | the entry with the longest digit prefix, all digits or at least four, last one among duplicates; else the first text match |
| TariffData.LastWithKeyIs | crates/prokuroTariff/src/data.rs:134-137 | the entry found for a key is the last with it |
| TariffData.FindAddons | crates/prokuroTariff/src/data.rs:187-200 | filtering, sorting and deduplicating in loops gives the specified list |
| TariffData.DedupKeepsFirst | crates/prokuroTariff/src/data.rs:198 | dropping consecutive duplicates never drops a program's first line |
| TariffData.ProgramLookup | crates/prokuroTariff/src/data.rs:187-212 | filter, stable sort, dedup and first match find the program's compatible addon with the longest code, the earliest among equals |
| TariffData.FindSection301Addon | crates/prokuroTariff/src/data.rs:202-206 | so does the section 301 lookup |
| TariffData.FindSection232Addon | crates/prokuroTariff/src/data.rs:208-212 | and the section 232 one |
| TariffData.IndexNames | crates/prokuroTariff/src/data.rs:139-145 | the name index holds, for every non-empty key, the first entity with a name that normalizes to it |
| TariffData.FindEntityListMatch | crates/prokuroTariff/src/data.rs:232-238 | the first list entry whose name or any alternate name normalizes to the query, none for an empty one |
| Screening.NormalizePartyName | crates/prokuroTariff/src/screening.rs:29-48 | building the text character by character and popping suffixes gives the specified name |
| Screening.NormalizeIdempotent | crates/prokuroTariff/src/screening.rs:29-48 | normalizing a normalized name changes nothing, for every input |
| Screening.NormalizedWords | crates/prokuroTariff/src/screening.rs:29-48 | a normalized name is lower-case ASCII words joined by single spaces, the last of them no legal suffix |
| Screening.StripsExactlySuffixes | crates/prokuroTariff/src/screening.rs:40-47 | only legal suffixes are cut off, and all of them at the end |
| Screening.SamePartyIff | crates/prokuroTariff/src/screening.rs:29-48 | names are equal after normalization exactly when their words without legal suffixes are |
| Sorting.SortElements | crates/prokuroTariff/src/data.rs:197 | the stable sort keeps the elements |
| Sorting.SortOrdered | crates/prokuroTariff/src/data.rs:197 | and orders them |
| Sorting.SortStable | crates/prokuroTariff/src/data.rs:197 | and keeps the order of those that compare equal |
| Pagination.FromQuery | crates/prokuroTypes/src/pagination.rs:13-28 | limits end up between 1 and 100, missing or zero as 50, and empty tokens as none |
| Pagination.PageById | crates/prokuroTypes/src/pagination.rs:44-81 | the search loop finds the page after the token's item, or reports an unknown or ambiguous token |
| Pagination.PagesCoverList | crates/prokuroTypes/src/pagination.rs:44-81 | when every page end has a non-empty id of its own, request k returns the k-th stretch, none fails, and requests end after n/limit rounded up, or one |
| Pagination.WalkIff | crates/prokuroTypes/src/pagination.rs:44-81 | a client gets the whole list in order in that many requests exactly when every page that is not the last ends with an id that is not empty and that no other item has |
| Pagination.EmptyIdLoops | crates/prokuroTypes/src/pagination.rs:44-50 | so an empty id at a page's end sends the client back to the start for ever |
| Pagination.BomPagesCoverAll | crates/prokuroGateway/src/boms/handlers.rs:40-43 | in every run whose uploads have non-empty ids, following tokens while the lock is free visits every BOM of the account exactly once |

## Left out

- HTTP handlers, JSON and multipart reading, sign-in tokens, signatures, the Stripe, Bedrock, Digi-Key, Mouser and email clients, metrics: I/O, or code outside the repository; their answers are inputs.
- Several gateway processes on one bucket: edits are unconditional puts, so no such guarantee holds; the conditional put of the refresh is left out with them.
- Failed document writes of the BOM store and what they leave half-done; the unversioned `update_analyze_and_summary`.
- BomProtocol.StepKeepsInv: one account's folder, and versions below the largest `u64`.
- BomStore.Store.CreateBom: the name is given, not derived from the file name, and the uploaded file is not stored.
- BomGuarantees.NoLostEdit: says nothing more of an id once a refresh went ahead over a BOM created again under it; what that refresh does is `BomGuarantees.CommitLeavesDataIff`.
- Analyze.FinalizeAnalyze: warnings, sheet name, mapping confidence and other fields no modelled code reads; row indices and counts are unbounded.
- TeamStore.Store.Resolve: every store call is one step; the DynamoDB mode and snapshot sorting are not modelled.
- TeamStore.Store.OpenInvite: addresses are lower-cased as ASCII, and their length counts characters.
- TeamStore.Store.Accept: addresses are compared after ASCII lower-casing.
- TeamRuns.StepKeepsInv: invites come from a current member with an id never used before, as the handler and the random ids provide.
- BriefJobs.NoLostWakeup: a worker that panics and never finishes.
- Briefs.ApplyLineBriefs: the model's answers are given in the order of the calls.
- RateRuns.RateBound: the semaphore and pauses only delay callers and are not modelled; no claim is made about grants during a pause, since the wait looks once.
- Billing.Service.StatusFor: usage counters, limits, period-end formatting and one clock reading per call.
- Billing.Service.GrantEmail: addresses are lower-cased as ASCII, and their length counts characters.
- Billing.Service.RevokeEmail: likewise.
- Webhooks.AppliedAtMostOnce: the signature check and the shape of the request come before the modelled steps.
- Enrichment.EnrichLines: failing DynamoDB calls, which end the call with an error; batches of the table API; the clock is read once.
- Drain.RunOnce: lookups run one after the other here; `RetryQueue` interleaves them.
- RetryQueue.BoundedRetries: one drain loop and store writes that succeed; the table scan of a claim is one step.
- PartKeys.KeyRoundTrip: non-ASCII names, since upper-casing is a parameter known on ASCII text only.
- TariffData.FromParts: metadata, exclusions, special rates, staleness; code lengths count characters.
- Parsing of spreadsheets and headers, price breaks, display names, numeric plan caps, the daily part sync.
