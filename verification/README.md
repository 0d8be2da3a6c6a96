# Verified core of the Pipette clients

A Dafny model of the parts of the Pipette clients whose correctness is hardest to see by reading: the
speculative-decoding loop of the vision benchmark, the locking that lets fetches, sweeps and runs share
one artifact store, resumable verified downloads, the storage-quota sweep, the crash safety of the store's
manifest and publish, the model URI in both directions, and the repair of an evaluation payload.

Everything outside a component is arbitrary: the target model and the drafter, what the server answers,
what the disk accepts or refuses, how a removal ends, which call fails, where a crash falls. A theorem
here therefore holds for every model, server, disk and schedule the types allow.

| file | what it models |
|---|---|
| `SpecDecode.dfy` | one turn of draft, verify, commit and trim over a KV cache |
| `StoreLocks.dfy` | fetches, sweeps and runs over one store, as a transition system of single file-system calls |
| `Digest.dfy`, `Progress.dfy`, `Resume.dfy`, `Vault.dfy` | the hashing writer, the copy loop, range requests, and the fetch that retries and verifies |
| `Quota.dfy`, `Sweep.dfy` | the survey order, the eviction plan, and the sweep that plans again past what it could not remove |
| `Manifest.dfy`, `Publish.dfy` | rewriting a manifest and publishing a directory on a disk that loses what was not synced |
| `UriText.dfy`, `ModelUri.dfy`, `UriCode.dfy` | the URI's text layer, what it means, and the parser and printer as they work |
| `ScoreValidation.dfy` | the last-wins repair of completion ids |

`dafny verify dfyconfig.toml` checks the whole project.

## Results

- **Greedy identity.** The turn is settled by the engine, the prefill and the budget. Cut to its budget, a
  turn that did not fill the window is plain greedy decoding, whatever the drafter proposed; two turns from one
  prefill are prefixes of each other, and equal when both reach a stop token. Uncut, the reply is plain decoding
  exactly when the last block fits the budget left, as it does without a drafter or with a budget of at most one;
  the budget is checked only between blocks, so an engine can overshoot it (`SpeculativeReplyMayOvershoot`).
- **The cache after a turn.** At every loop head and after a budget stop it holds the conversation and nothing
  else. After a stop token it also holds what was left of the last block. The header lets a caller extend from
  the position the turn reports (`pipette_vlspec.h:75`); such a caller's next prompt attends to the leftover as
  its positions pass it, and sees only the conversation exactly when nothing was left over, as without a drafter
  (`NothingLeftOver`). The repository's own caller, `LlamaVisionChat.swift:103`, resets the context before every
  turn, so it never meets one.
- **Locking.** In every interleaving of any number of agents, deaths included, nothing removes or replaces
  what a live fetch staged, a fetch whose lock file was unlinked too early never stages under that name, no sweep
  moves a held entry, and one entry is fetched by one agent at a time. A held entry is safe from sweeps only:
  `ensure` removes an entry whose manifest it cannot parse and a publish replaces one, under the fetch lock
  alone, and the command that removes a model takes no lock. Among fetches, sweeps, runs and that command, a held
  entry can vanish exactly when some other agent cannot read its manifest or may run the command
  (`HeldEntryVanishesIff`), and whenever that is so a run does it (`HeldEntryDoesVanish`).
- **Downloads.** Success means the bytes on disk hash to the pin of the record just read. The tries of a fetch
  account for every exchange on the wire, and on every disk, refusing ones included, what each try returned, what
  the next one asked for and what the file holds follow from the exchanges and the disk's answers. A range the
  server judged is never asked for again, the request after a resumed drift has no range, and a range that failed
  unjudged is asked for again, of the same file, while the record pins the same object. With a server that keeps
  one object under one strong ETag, the file is always a prefix of the object that started it.
- **Quota.** The plan is the only one that meets its specification. The sweep's rounds, its report and the
  store it leaves are what the disk's answers make them. It ends, never touches what was pinned, lets nothing
  leave unreported, and evicts in least-recently-used order over all its rounds; with its last live eviction put
  back the live entries alone would exceed the quota, and its reported overage is exactly the live bytes over it.
- **Crash safety.** `rewrite_manifest` promises the old or the new manifest at any crash. That holds exactly
  when the file system can sync or the rename is never reached: `sync_file` counts "unsupported" as success,
  so without sync a crash after the rename can leave anything. "The old" is any set of contents a crash could
  leave before, so rewrites compose, one after a failed directory sync included. The publish has the same exact
  condition.
- **URIs.** Whatever parses renders and parses back to the same model. A model that renders is recovered
  exactly when none of its fields holds an `&`; with one, two models can share a URI (`AmpersandCollides`).

## Model

| member | source | states |
|---|---|---|
| SpecDecode.SamplersVerify | ios/native/pipette_vlspec.cpp:285-289 | both library behaviours, stopping at a stop token or not, meet the one contract the loop relies on |
| SpecDecode.OnPlainMeans | ios/native/pipette_vlspec.cpp:111-117 | a stream is what plain decoding yields if and only if each token is the target's choice and none is a stop token |
| SpecDecode.BlockExtends | ios/native/pipette_vlspec.cpp:285-318 | committing any part of a verified block stays on the plain greedy stream, and the next token is the target's choice |
| SpecDecode.TurnIsUnique | ios/native/pipette_vlspec.cpp:219-328 | two turns of one engine from one prefill and budget are the same turn, block by block |
| SpecDecode.TurnIsGreedy | ios/native/pipette_vlspec.cpp:219-328 | every turn of an engine is a greedy turn, for every drafter |
| SpecDecode.GreedyIdentity | ios/native/pipette_vlspec.cpp:219-328 | a greedy turn cut to its budget equals plain greedy decoding |
| SpecDecode.UncutIsPlainIff | ios/native/pipette_vlspec.cpp:244-318 | the uncut reply equals plain decoding with the same budget if and only if the last block commits no more than the budget left |
| SpecDecode.SurelyFits | ios/native/pipette_vlspec.cpp:244-265 | without a drafter, or with a budget of at most one, the last block always fits |
| SpecDecode.BaselineIsPlain | ios/native/pipette_vlspec.cpp:219-328 | a turn of an engine without a drafter is plain greedy decoding exactly |
| SpecDecode.ArmsAgree | ios/native/pipette_vlspec.cpp:219-328 | of two turns from one prefill one is a prefix of the other; both ending at a stop token, they are equal |
| SpecDecode.SpeculativeReplyMayOvershoot | ios/native/pipette_vlspec.cpp:244-318 | an engine whose every turn with a budget of two replies with four tokens, where plain decoding gives two |
| SpecDecode.CountersBalance | ios/native/pipette_vlspec.cpp:295-318 | over every turn, tokens generated are forwards plus accepted drafts, less one exactly when the stop token was an accepted draft |
| SpecDecode.NextPromptSees | ios/native/pipette_vlspec.h:75-76 | for a caller that extends from the reported position, what each token of its next prompt attends to, after either stop; after a stop token it is the conversation alone iff nothing was left over |
| SpecDecode.NothingLeftOver | ios/native/pipette_vlspec.cpp:250-265 | without a drafter no turn leaves anything over |
| SpecDecode.LeftoverHappens | ios/native/pipette_vlspec.cpp:319-327 | an engine whose turn stops at a stop token with part of the block left over |
| SpecDecode.TrimOfCells | ios/native/pipette_vlspec.cpp:323-327 | trimming a cache of one cell per position is taking a prefix of its tokens |
| SpecDecode.Session.Batch | ios/native/pipette_vlspec.cpp:267-271 | the batch is the last token and the draft at consecutive positions |
| SpecDecode.Session.CommitIds | ios/native/pipette_vlspec.cpp:295-318 | commits the verified tokens up to the first stop token, with exact reply, prompt, position and counters |
| SpecDecode.Session.Propose | ios/native/pipette_vlspec.cpp:250-283 | one forward puts exactly the committed tokens and the draft in the cache; it fails if and only if the forward or the drafter does |
| SpecDecode.Session.Accept | ios/native/pipette_vlspec.cpp:285-327 | the loop's invariant is restored, or the turn stands at its stop token with the block untrimmed |
| SpecDecode.Session.Round | ios/native/pipette_vlspec.cpp:245-328 | one block is the drafter's proposal as the sampler takes it; the loop is back at its head with the block committed, or stands at the stop token; it fails if and only if a call of that round does |
| SpecDecode.Session.Speculate | ios/native/pipette_vlspec.cpp:244-328 | the loop makes the engine's turn: its blocks, reply, stop and counters, with the cache they leave |
| SpecDecode.Session.Run | ios/native/pipette_vlspec.cpp:219-328 | the same from the first token, which may already be a stop token |
| SpecDecode.Session.Finish | ios/native/pipette_vlspec.cpp:331-348 | commits the last token just when it may, and records the turn |
| SpecDecode.Session.Generate | ios/native/pipette_vlspec.cpp:196-357 | success means every call of the turn succeeded and the reply is in the buffer; failure is a failed call or a reply longer than the buffer; unless a call fails, counters, cache and position are those of the engine's turn |
| StoreLocks.NextKeeps | crates/pipette-artifacts/src/entry.rs:291-409 | every step of every agent keeps the store's invariant |
| StoreLocks.RunKeeps | crates/pipette-artifacts/src/entry.rs:291-409 | the invariant holds in every state of every run |
| StoreLocks.NextGrows | crates/pipette-artifacts/src/quota.rs:374-385 | no step gives a spent name its lock back, moves an entry's lock file, or rebinds a staged path |
| StoreLocks.StagingSafety | crates/pipette-artifacts/src/entry.rs:299-334 | a fetch past its lock check has its lock file in place, alone, and its directory, in every run |
| StoreLocks.NobodyTouchesAStagedDir | crates/pipette-artifacts/src/quota.rs:427-477 | no other agent's step removes or replaces a live fetch's directory or lock file |
| StoreLocks.SpentNamesStaySpent | crates/pipette-artifacts/src/entry.rs:299-316 | a staged name without its lock file never gets one again |
| StoreLocks.UnlinkedBeforeLockNeverStages | crates/pipette-artifacts/src/entry.rs:299-316 | a fetch whose lock file was unlinked before it was locked never stages under that name |
| StoreLocks.RemoverIsAlone | crates/pipette-artifacts/src/quota.rs:374-385 | whoever may remove a staged name is the only one with it, so no fetch stages there |
| StoreLocks.InUseSafety | crates/pipette-artifacts/src/ensure.rs:56-76 | while an entry is held its in-use lock is in place and shared, no other agent has it exclusively, and no sweep is at the point of moving the entry |
| StoreLocks.RunReads | crates/pipette-artifacts/src/model/store.rs:98-229 | in every run a fetcher cannot read what stands at its entry, and a holder could read what it holds |
| StoreLocks.EntryChanges | crates/pipette-artifacts/src/model/store.rs:175-229 | what stands at an entry changes only by `ensure`, a publish or a sweep of that entry, or by the remove command, and only a publish puts something there |
| StoreLocks.HeldEntryVanishes | crates/pipette-artifacts/src/model/store.rs:175-229 | a step that takes a held entry away is a fetch of that entry by an agent that cannot read it, or the remove command |
| StoreLocks.HeldEntryStands | crates/pipette-artifacts/src/quota.rs:374-378 | while no other agent finds it unreadable or may run the command, a held entry stands through any steps of the others |
| StoreLocks.HeldEntryVanishesIff | crates/pipette-artifacts/src/model/store.rs:117-229 | a held entry can vanish under its holder if and only if some other agent cannot read its manifest or may run the remove command |
| StoreLocks.HeldEntryDoesVanish | crates/pipette-artifacts/src/model/store.rs:175-229 | from any store at rest with such an agent, a run in which another holds the entry and it is gone |
| StoreLocks.FetchGetsThrough | crates/pipette-artifacts/src/ensure.rs:56-76 | from any store at rest a missing entry can be staged, published and held |
| StoreLocks.EntryLocksKeepTheirInode | crates/pipette-artifacts/src/entry.rs:394-409 | an entry's lock file keeps its inode for the whole run |
| StoreLocks.OneFetchPerEntry | crates/pipette-artifacts/src/entry.rs:344-362 | two agents never fetch one entry at once, and what stands at it meanwhile the fetcher cannot read |
| Digest.HashingWriter.Write | crates/pipette-artifacts/src/digest.rs:34-45 | the digest and the count follow exactly the bytes the file accepted |
| Digest.HashingWriter.WriteAll | crates/pipette-artifacts/src/digest.rs:34-50 | for any script of the disk's answers: how much lands, hashed and counted, how it fails, and what is left of the script |
| Progress.Reporter.Finish | crates/pipette-artifacts/src/progress.rs:109-113 | the count reaches the total, and never falls |
| Progress.CopyIsReading | crates/pipette-artifacts/src/progress.rs:119-139 | what a copy adds is a prefix of what reading the body gives, and just that with the same failure on success or on a disk that takes every write |
| Progress.CopyReporting | crates/pipette-artifacts/src/progress.rs:119-139 | for any body and any disk what lands, the failure and the count are exact; a whole body lands whole on a disk that takes every write |
| Resume.NeverAgain | crates/pipette-artifacts/src/resume.rs:162-194 | in a disciplined log no request after a judged range asks for that file |
| Resume.Open | crates/pipette-artifacts/src/resume.rs:162-194 | a file continues only on a matching range; one the server judged is dropped; a failed request that was not judged keeps it, at the same point |
| Resume.Start | crates/pipette-artifacts/src/resume.rs:222-228 | a new file is empty and progress is back at the mark |
| Resume.Pour | crates/pipette-artifacts/src/resume.rs:230-236 | a file that is a prefix of its object stays one, whether the body starts or continues it |
| Resume.Receive | crates/pipette-artifacts/src/resume.rs:214-247 | the body goes to the file it continues or to a new one; what lands, how it ends and the file left are exact on every disk |
| Resume.Round | crates/pipette-artifacts/src/resume.rs:214-247 | one request keeps file, digest, progress, discipline and the shape the exchanges give the file; another follows only a range that grew it below its total |
| Resume.Attempt | crates/pipette-artifacts/src/resume.rs:201-248 | ends for any finite bodies; asks first for the rest of the file it has; goes on only past a dropped or short range; a range that failed unjudged ends it and keeps the file; what it returns or keeps is sound, a prefix of one object, and what the exchanges and the disk make |
| Vault.ReadRecord | crates/pipette-artifacts/src/vault.rs:199-218 | a record read is the server's, and agrees with the plan's pin |
| Vault.Stream | crates/pipette-artifacts/src/vault.rs:319-334 | drops a file of another object, and asks for the rest of the one it keeps |
| Vault.FetchContent | crates/pipette-artifacts/src/vault.rs:310-361 | the verdict, the file kept and the first request follow from the exchanges and the disk; on success the file is in hand and counted |
| Vault.FetchOnce | crates/pipette-artifacts/src/vault.rs:244-249 | one try adds itself to the trace and carries the file it kept to the next |
| Vault.NextStream | crates/pipette-artifacts/src/vault.rs:240-252 | the exchange after a try that streamed is the first of the next that does, and asks for what the file kept calls for |
| Vault.StreamOf | crates/pipette-artifacts/src/vault.rs:240-252 | every exchange of a run belongs to a try that streamed |
| Vault.RunRestarts | crates/pipette-artifacts/src/vault.rs:222-229 | over the run: no range after a resumed drift, and a range that failed unjudged ends its try and is asked for again, of the same file, while the record pins the same object |
| Vault.RunConcludes | crates/pipette-artifacts/src/vault.rs:326-361 | success means the record last read, which agrees with the plan, pins the bytes; drift is reported only for other bytes that came in one body |
| Vault.FetchToFile | crates/pipette-artifacts/src/vault.rs:230-252 | the trace has one try for each read of the record and covers the wire; each outcome, each first request and the file are settled by the exchanges and the disk; verified success; the restart rules over the whole run; each byte counted once |
| Quota.SortIsInOrder | crates/pipette-artifacts/src/quota.rs:128-143 | the survey is the scanned entries in sweep order |
| Quota.SortIsStable | crates/pipette-artifacts/src/quota.rs:124-134 | entries that tie keep discovery order |
| Quota.SaturatingTotalIsExact | crates/pipette-artifacts/src/quota.rs:136-138 | the saturating fold is the true total capped at 64 bits |
| Quota.PlanIsUnique | crates/pipette-artifacts/src/quota.rs:245-278 | only one list of evictions meets the plan's specification |
| Quota.PickEvictions | crates/pipette-artifacts/src/quota.rs:255-271 | the loop picks all garbage, then the shortest run of candidates in order that fits, or all of them |
| Quota.Plan | crates/pipette-artifacts/src/quota.rs:255-278 | the same, with the bytes freed and the overage exact |
| Quota.LiveAfter | crates/pipette-artifacts/src/quota.rs:261-265 | past the first live entry there is no garbage, which is why the loop may stop there |
| Sweep.SweepPins.PinFailed | crates/pipette-artifacts/src/quota.rs:177-186 | pins exactly the live keys that failed, and says whether any was new |
| Sweep.Store.RemoveEntry | crates/pipette-artifacts/src/quota.rs:374-385 | a removal takes out one entry or none, leaves only garbage, and succeeds just when the disk says so |
| Sweep.ApplySweep | crates/pipette-artifacts/src/quota.rs:282-295 | splits the plan in order into removed and failed, and accounts for every entry of the store |
| Sweep.EvictionCount | crates/pipette-artifacts/src/quota.rs:255-278 | a plan takes every piece of garbage and nothing that is no candidate |
| Sweep.RoundIsLruFirst | crates/pipette-artifacts/src/quota.rs:310-313 | whatever a round leaves evictable comes no earlier in sweep order than what it took |
| Sweep.NotOverEvicted | crates/pipette-artifacts/src/quota.rs:258-270 | with the last live eviction put back the live entries alone exceed the quota |
| Sweep.SweptStep | crates/pipette-artifacts/src/quota.rs:309-324 | every round keeps the sweep's invariant: balance, pins, order and frugality |
| Sweep.LastRound | crates/pipette-artifacts/src/quota.rs:321-323 | when nothing new is pinned only garbage was refused, and the sweep may stop |
| Sweep.Round | crates/pipette-artifacts/src/quota.rs:310-312 | one survey, plan, removal and pinning, as a whole |
| Sweep.Sweep | crates/pipette-artifacts/src/quota.rs:301-325 | terminates; its rounds are a sweep of the store under the disk's answers, ending with the first that pins nothing new; store, pins, report and last plan are theirs |
| Sweep.SweepGuarantee | crates/pipette-artifacts/src/quota.rs:297-325 | usage is at most the quota plus garbage that would not go, or every live entry left is pinned, not evictable or refused |
| Sweep.PinnedIsUntouched | crates/pipette-artifacts/src/quota.rs:353-359 | what was pinned or cannot be evicted is as it was |
| Sweep.PathsReportedOnce | crates/pipette-artifacts/src/quota.rs:314-320 | no path is reported as failed twice over the whole sweep, each survey listing a path once |
| Sweep.LogTellsDisk | crates/pipette-artifacts/src/quota.rs:282-325 | an entry is reported as removed, refused or stranded if and only if some round evicted it and the disk answered so |
| Sweep.SweepKeeps | crates/pipette-artifacts/src/quota.rs:301-325 | the sweep's invariant, balance, pins, order and frugality, after any number of rounds |
| Sweep.SweepFinishes | crates/pipette-artifacts/src/quota.rs:321-325 | a settled sweep: the final overage is exact and only garbage was refused in its last round |
| Sweep.NothingVanishes | crates/pipette-artifacts/src/quota.rs:301-325 | whatever left the store is among the removed or its path among the failed |
| Manifest.SurvivesIff | crates/pipette-artifacts/src/entry.rs:81-87 | a crash leaves one of a set of contents if and only if every inode the name may have is synced and holds one of them |
| Manifest.RenameKeeps | crates/pipette-artifacts/src/entry.rs:99-103 | renaming a synced file over the manifest adds just its data to what a crash may leave |
| Manifest.RenameRisks | crates/pipette-artifacts/src/entry.rs:81-87 | renaming an unsynced one puts the manifest at risk |
| Manifest.DirSyncSettles | crates/pipette-artifacts/src/entry.rs:177-184 | a directory sync settles the name on what the process sees |
| Manifest.EntryDir.WriteTomlFile | crates/pipette-artifacts/src/entry.rs:150-175 | a synced new file on success; whatever a crash could leave under the manifest before, it can leave at every step |
| Manifest.EntryDir.MoveOver | crates/pipette-artifacts/src/entry.rs:99-104 | from any set of old contents the rename is crash safe exactly when the file could be synced; the directory sync settles the new one, and without it either may come back |
| Manifest.EntryDir.RewriteManifest | crates/pipette-artifacts/src/entry.rs:88-105 | from any set of old contents, every crash leaves one of them or the new manifest iff the file system can sync or the rename is not reached; what a crash may leave afterwards is again such a set; the directory lists the temporary file only if it cannot be removed |
| Publish.FirmIff | crates/pipette-artifacts/src/entry.rs:192-212 | a crash is sure to leave a tree as it is if and only if nothing in it is unsynced |
| Publish.SyncTreeIsSound | crates/pipette-artifacts/src/entry.rs:194-212 | syncing a tree changes no content, and on success nothing in it is at risk, for every tree shape |
| Publish.StoreRoot.Stage | crates/pipette-artifacts/src/entry.rs:236-249 | the staged tree is synced whole before anything names it |
| Publish.StoreRoot.ReplaceStaged | crates/pipette-artifacts/src/entry.rs:447-456 | the rename names a whole tree exactly when it is firm; a failed one names nothing |
| Publish.StoreRoot.Publish | crates/pipette-artifacts/src/entry.rs:225-271 | at every crash the target, if it names the staged directory, is as prepared, iff the file system can sync, the tree was safe already, or nothing was published |
| UriText.SplitOfJoin | crates/pipette-cli/src/model_uri.rs:154-155 | splitting undoes joining where no part holds the separator |
| UriText.ParseOfJoin | crates/pipette-cli/src/model_uri.rs:147-170 | carriable pairs joined and parsed are the same pairs |
| UriText.ParsedIsCarriable | crates/pipette-cli/src/model_uri.rs:148-170 | whatever parses has distinct nonempty keys and no separator in a value |
| UriText.SeparatorAfter | crates/pipette-cli/src/model_uri.rs:385-388 | the first `://` is the one after the scheme |
| ModelUri.SchemeTextReadsBack | crates/pipette-cli/src/model_uri.rs:44-77 | each scheme's name parses to that scheme |
| ModelUri.KeyTextInjective | crates/pipette-cli/src/model_uri.rs:24-42 | no two keys have one name |
| ModelUri.FormReadsBack | crates/pipette-cli/src/model_uri.rs:244-413 | the pairs a model renders to read back as that model, for all ten schemes |
| ModelUri.ReadIsWritable | crates/pipette-cli/src/model_uri.rs:385-413 | whatever a scheme reads is valid, renders under that scheme and holds no separator |
| ModelUri.RenderThenParse | crates/pipette-cli/src/model_uri.rs:474-492 | a model that renders is recovered from its URI if and only if no field holds an `&` |
| ModelUri.ParseThenRender | crates/pipette-cli/src/model_uri.rs:385-413 | whatever parses renders, and that parses to the same model |
| ModelUri.RenderingIsInjective | crates/pipette-cli/src/model_uri.rs:476-666 | two such models have one URI if and only if they are one model |
| ModelUri.AmpersandCollides | crates/pipette-cli/src/model_uri.rs:429-431 | with an `&` in a path two different models render alike |
| UriCode.PairList.Take | crates/pipette-cli/src/model_uri.rs:172-177 | taking a key gives its value and removes that pair alone |
| UriCode.PairList.Finish | crates/pipette-cli/src/model_uri.rs:187-195 | refuses exactly the first key nobody took |
| UriCode.ParsePairList | crates/pipette-cli/src/model_uri.rs:148-170 | the fold over the segments is the specified parse |
| UriCode.ParseGgufText | crates/pipette-cli/src/model_uri.rs:244-275 | taking keys one by one reads what the pairs mean |
| UriCode.ParseVisionFiles | crates/pipette-cli/src/model_uri.rs:313-344 | the same for the files of a vision model, with the keys it took |
| UriCode.ParseGgufVision | crates/pipette-cli/src/model_uri.rs:277-281 | the same for a vision model |
| UriCode.ParseGgufVisionSpeculative | crates/pipette-cli/src/model_uri.rs:286-311 | the same with the optional drafter |
| UriCode.ParseDirSource | crates/pipette-cli/src/model_uri.rs:347-357 | the same for the directory kinds |
| UriCode.ParseSpeculativePair | crates/pipette-cli/src/model_uri.rs:362-383 | the same for two repositories |
| UriCode.ParseModelUri | crates/pipette-cli/src/model_uri.rs:385-413 | the parser computes the specified meaning, errors included |
| UriCode.GgufTextToUri | crates/pipette-cli/src/model_uri.rs:494-513 | the body built pair by pair is the specified URI, refusals included |
| UriCode.VisionToUri | crates/pipette-cli/src/model_uri.rs:515-606 | the same for both vision kinds |
| UriCode.DirToUri | crates/pipette-cli/src/model_uri.rs:608-624 | the same for the directory kinds |
| UriCode.SpeculativePairToUri | crates/pipette-cli/src/model_uri.rs:627-666 | the same for two repositories |
| UriCode.ModelToUri | crates/pipette-cli/src/model_uri.rs:476-492 | the printer computes the specified URI |
| ScoreValidation.LastsAreExact | crates/pipette-cli/src/score_validation.rs:89-107 | the kept positions are exactly the last occurrences, in order |
| ScoreValidation.KeptIsRestriction | crates/pipette-cli/src/score_validation.rs:89-107 | the repaired list is the given one at those positions |
| ScoreValidation.KeptIsUnique | crates/pipette-cli/src/score_validation.rs:60-107 | no id is left twice |
| ScoreValidation.KeptCovers | crates/pipette-cli/src/score_validation.rs:60-107 | no id is lost |
| ScoreValidation.RepairIsIdempotent | crates/pipette-cli/src/score_validation.rs:60-107 | a repaired list stays as it is, and a list is unchanged iff its ids were unique |
| ScoreValidation.SortDedupIsExact | crates/pipette-cli/src/score_validation.rs:114-116 | the duplicate ids, each once, in order, and their number |
| ScoreValidation.SortedIsUnique | crates/pipette-cli/src/score_validation.rs:114-120 | a set of ids has one sorted list, so what the report lists is settled |
| ScoreValidation.LastWins | crates/pipette-cli/src/score_validation.rs:89-107 | the backward walk keeps the last occurrences and collects the ids that repeat |
| ScoreValidation.MakeReport | crates/pipette-cli/src/score_validation.rs:113-128 | the report's counts are exact and it lists the first ten repeated ids in order |
| ScoreValidation.Payload.DedupeCompletionIds | crates/pipette-cli/src/score_validation.rs:63-129 | an unkeyed completion changes nothing; else the repair, with a report exactly when something was removed |

## Left out

- StoreLocks.InUseSafety: assumes that file locks work; a file system without locks runs unlocked by design.
- StoreLocks.HeldEntryVanishesIff: an entry is removed in one step and what an agent reads of a directory does not change, because the single unlinks of a recursive delete are not modelled.
- Sweep.PathsReportedOnce: assumes that a survey lists each path once, as a directory listing does.
- StoreLocks.StagingSafety: assumes that a staged name is never drawn twice, as the random suffix makes it.
- Sweep.Sweep: the store changes only by the sweep itself, because another process could feed it live entries for ever; the locking is in `StoreLocks`.
- Publish.StoreRoot.Publish: says nothing of the old entry while it is being deleted, because recursive deletion is not atomic.
- Publish.SyncTreeIsSound: a tree is a value whose sync marks the function returns, so syncing one node at a time in place is not captured.
- The C++ loop's 32-bit counters and the byte counts of a download are unbounded integers; quota arithmetic is modelled with its 64-bit saturation.
- In the decoding loop: null arguments, timings, the draft context's own cache, and samplers other than greedy.
- `create_dir_all` followed by `File::create` is one step of a download's start, and a flush is part of the writes; the branch for a writer that reports more bytes than it was given cannot happen and is not there.
- Store locking leaves out read-only stores and the runtime store, which takes the same locks.
- The waits between a download's tries, and `Retry-After`: no error of a vault fetch carries one (`vault.rs:131-147`), so none decides whether it is retried.
- The manifest's name check and its encoding; a rewrite starts from bytes that did or did not serialize.
- Windows: rename retries, directory handles, path lengths.
- HTTP, TLS, signing, TOML, JSON and SHA-256 themselves: bodies are event lists, the hash is any function, and a completion is its id and the rest.
- The field types of a model (repository, revision, path, URL, digest) live in another repository: each is a predicate that accepts text and keeps it.
- The JSON form of a model argument and its serialization fall-back, quota-string parsing, archive sniffing, size probes, progress fractions and log lines: they would only add easy members.
- The rest of the clients (benchmarks, installers, apps, console, build scripts).
