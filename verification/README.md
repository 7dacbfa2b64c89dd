# GovSec governance runtime: a verified model

GovSec inspects a model context, records an approval, issues a signed single-use
capability, lets it be consumed once, and writes every decision onto a hash-linked
evidence chain. This project models those parts in Dafny and proves what they are for.

1. **Canonical encodings and sealed envelopes** (`Json`, `KeyOrder`, `JsonWriter`,
   `JsonParser`, `ContextEnvelope`, `ContextBinding`, `ActionEnvelope`, `ActionPolicy`).
   A parser for the printed language (strings as in section 7 of RFC 8259) recovers the
   key-sorted value, so the printed text, and with it the hash, binds every field.
2. **Evidence** (`EvidenceEncoding`, `EvidenceChain`, `EvidencePlane`,
   `GovernedEvidence`). A checkpoint fixes the whole history; every snapshot verifies;
   nothing is lost or reordered on the way to a failing sink.
3. **Ledger, decision, token, consumption** (`VerdictLedger`, `CapabilityToken`,
   `CapabilityStore`, `CapabilityRuns`, `AuthorizationPaths`, `AuthorizationRuns`,
   `ContextAdmission`). Every lock acquisition is a step; under every interleaving an
   authorized consume traces back to an approved context and to the check that vetted its
   call.
4. **Escalation** (`Arbiter`, `Escalation`, `Haap`, `EnforcementPipeline`,
   `PipelineRuns`). Escalation is a join, the audit log replays to the state, and nothing
   is approved for an escalated session.
5. **Threat memory** (`SessionMemory`, `ThreatRecovery`, `Trajectory`) and **bounded line
   reading** (`LineReader`).

Objects that update their fields are classes; each method is proved against a function of
the old state, and the theorems are about those functions and the runs they make up.
Clock readings, generated ids, the inspection layers' signals and the outcome of sink
writes are inputs. SHA-256 is a function into 64 hexadecimal characters; where a result
needs it to be free of collisions, that is a hypothesis about the texts compared.
Ed25519 enters as a signing function and a predicate, with the hypothesis that own
signatures check.

`dafny verify dfyconfig.toml` checks the whole project.

## Where code and documentation differ

The model follows the code.

- `governance-spine/docs/ENVELOPE_CONTRACTS.md:72` gives a nesting limit of 32 for action
  arguments. They sit one level down in the hash material, so sealing needs 31
  (`ActionEnvelope.SealsIff`).
- The comments at `governance-spine/src/haap.rs:18-19` gate above 40 and 60; the code gates
  at 40 and 60. The configured `execute_ceiling` is not consulted.
- The comment at `governance-spine/src/capability.rs:259-261` says every authority-bearing
  field is in the signed text. They are, but the text is unambiguous exactly for fields
  free of the separator (`CapabilityToken.UnambiguousIff`).

## Model

| member | source | states |
|---|---|---|
| `JsonWriter.WriteCanonicalJson` | governance-spine/src/envelope.rs:866-911 | appends exactly the printed text of the value when it nests no deeper than the remaining depth, and otherwise fails with the depth error |
| `JsonWriter.WriteDocument` | governance-spine/src/envelope.rs:860-864 | the whole canonical text, or the depth error exactly when the value nests deeper than 32 |
| `JsonWriter.ValidateJsonLimits` | governance-spine/src/envelope.rs:913-931 | fails exactly when the value nests deeper than the remaining depth |
| `JsonParser.ParsePrint` | governance-spine/src/envelope.rs:858-911 | parsing a printed value gives the key-sorted value back with nothing left over |
| `JsonParser.PrintedTextReads` | governance-spine/src/envelope.rs:858-911 | the same in any context: what follows the printed value is left untouched |
| `JsonParser.PrintDeterminesNormal` | governance-spine/src/envelope.rs:858-911 | two values print alike exactly when their key-sorted normal forms are equal |
| `JsonParser.CanonicalTextUnambiguous` | governance-spine/src/envelope.rs:858-860 | two values print alike exactly when they are equal up to the order of object keys at every level |
| `Json.NormalEqualMeansSame` | governance-spine/src/envelope.rs:893-896 | equal normal forms mean equality up to key order at every level |
| `Json.SameMeansNormalEqual` | governance-spine/src/envelope.rs:893-896 | the converse |
| `KeyOrder.SortSorts` | governance-spine/src/envelope.rs:894-895 | sorting entries by key yields them in order |
| `KeyOrder.SortPermutes` | governance-spine/src/envelope.rs:894-895 | and loses, adds and changes none |
| `KeyOrder.StrictlySortedUnique` | governance-spine/src/envelope.rs:894-895 | with distinct keys the sorted list is determined by the set of entries |
| `JsonWriter.CollectJsonStrings` | governance-spine/src/envelope.rs:933-953 | appends every key and string at any depth, lowercased, each after a newline |
| `JsonWriter.FlattenedSearch` | governance-spine/src/envelope.rs:933-953 | a newline-free pattern occurs in the flattened text exactly when it occurs in the head or in one leaf |
| `ContextEnvelope.ValidateContext` | governance-spine/src/envelope.rs:193-334 | the first fault in the order of the checks, or acceptance |
| `ContextEnvelope.ValidationExact` | governance-spine/src/envelope.rs:193-334 | validation accepts exactly the well-formed contexts, whatever the order of the checks |
| `ContextEnvelope.Seal` | governance-spine/src/envelope.rs:167-171 | sealing computes the specified result |
| `ContextEnvelope.Verify` | governance-spine/src/envelope.rs:174-181 | verification computes the specified outcome |
| `ContextEnvelope.ContextMaterialShallow` | governance-spine/src/envelope.rs:710-788 | the hash material of a context never reaches the depth limit |
| `ContextBinding.SealedContextVerifies` | governance-spine/src/envelope.rs:165-185 | sealing succeeds on exactly the well-formed contexts; the result verifies, seals to itself, and differs in the hash only |
| `ContextBinding.VerifiesIffSealed` | governance-spine/src/envelope.rs:173-181 | verification accepts exactly what sealing returns unchanged |
| `ContextBinding.ContextTextBinds` | governance-spine/src/envelope.rs:710-788 | two contexts have one canonical text exactly when they agree on every field but the hash, every segment and every attachment in order |
| `ContextBinding.ContextHashBinds` | governance-spine/src/envelope.rs:165-185 | without a collision, verifying contexts with equal hashes are the same context |
| `ActionEnvelope.ValidateAction` | governance-spine/src/envelope.rs:436-468 | the first fault in the order of the checks, or acceptance |
| `ActionEnvelope.Seal` | governance-spine/src/envelope.rs:337-341 | sealing computes the specified result |
| `ActionEnvelope.Verify` | governance-spine/src/envelope.rs:344-351 | verification computes the specified outcome |
| `ActionEnvelope.SealsIff` | governance-spine/src/envelope.rs:790-816 | a valid action seals exactly when its arguments nest at most 31 deep |
| `ActionEnvelope.DepthThirtyTwoNeverSeals` | governance-spine/src/envelope.rs:871-873 | arguments that nest 32 deep pass validation and never seal |
| `ActionEnvelope.SealedActionVerifies` | governance-spine/src/envelope.rs:335-355 | what sealing returns verifies, seals to itself, and differs in the hash only |
| `ActionEnvelope.VerifiesIffSealed` | governance-spine/src/envelope.rs:343-351 | verification accepts exactly what sealing returns unchanged |
| `ActionEnvelope.ActionTextBinds` | governance-spine/src/envelope.rs:790-816 | two actions have one canonical text exactly when they agree on every field, on arguments up to key order |
| `ActionEnvelope.ActionHashBinds` | governance-spine/src/envelope.rs:335-355 | without a collision, verifying actions have equal hashes exactly when they agree that way |
| `ActionPolicy.EvaluateStrict` | governance-spine/src/envelope.rs:360-434 | fails exactly when verification does, and otherwise returns the specified classification |
| `ActionPolicy.RaisedIff` | governance-spine/src/envelope.rs:371-402 | a risk is listed exactly when its pattern or schema rule fires for the tool, once |
| `ActionPolicy.DeduplicateRisks` | governance-spine/src/envelope.rs:1032-1035 | keeps every risk once, and a list without repetition unchanged |
| `ActionPolicy.OnlyReadsAllowed` | governance-spine/src/envelope.rs:405-433 | a decision denies exactly when it carries a denying risk; only a read is ever allowed outright |
| `ActionPolicy.FlattenedSearchIsPerLeaf` | governance-spine/src/envelope.rs:369-370 | searching the accumulated text is searching the locator and every key and string at any depth |
| `ActionPolicy.CredentialsAlwaysDenied` | governance-spine/src/envelope.rs:962-974 | a credential pattern anywhere denies every tool, and the credential risk is raised for nothing else |
| `ActionPolicy.CommandPatternsPerLeaf` | governance-spine/src/envelope.rs:999-1018 | destructive and privilege patterns are raised against commands exactly when some leaf contains one |
| `ActionPolicy.RemoteCodePerLeaf` | governance-spine/src/envelope.rs:1020-1024 | remote code is raised exactly for the pattern combination, whose halves may stand in different leaves |
| `ActionPolicy.BrowserPatternsPerLeaf` | governance-spine/src/envelope.rs:1026-1030 | the same for script patterns against the browser |
| `ActionPolicy.ProtectedPrefixesPerLeaf` | governance-spine/src/envelope.rs:976-982 | the protected prefixes in the slash-normalized text are those in some normalized leaf |
| `EvidenceEncoding.EncOptionInjective` | governance-spine/src/evidence.rs:1053-1062 | the field encodings are injective; absent and empty differ |
| `EvidenceEncoding.EventTextBinds` | governance-spine/src/evidence.rs:994-1030 | two events have one hashed text exactly when they agree on all 27 hashed fields |
| `EvidenceEncoding.TimestampBound` | governance-spine/src/evidence.rs:1002-1006 | the text fixes the timestamp exactly inside the 64-bit nanosecond range |
| `EvidenceEncoding.FarTimestampsHashAlike` | governance-spine/src/evidence.rs:1002-1006 | two instants beyond that range that hash alike |
| `EvidenceEncoding.CheckpointTextBinds` | governance-spine/src/evidence.rs:1032-1051 | the same for the seven fields of a checkpoint |
| `EvidenceChain.VerifySnapshot` | governance-spine/src/evidence.rs:460-519 | the first fault in the order of the checks, or acceptance |
| `EvidenceChain.AcceptedIff` | governance-spine/src/evidence.rs:460-519 | a snapshot is accepted exactly when header, numbering, links, hashes and signatures are consistent |
| `EvidenceChain.PrefixWellLinked` | governance-spine/src/evidence.rs:460-519 | every prefix of an accepted snapshot is accepted |
| `EvidenceChain.VerifySnapshotAgainstCheckpoint` | governance-spine/src/evidence.rs:524-563 | the first fault, or acceptance |
| `EvidenceChain.CheckpointAcceptsIff` | governance-spine/src/evidence.rs:524-563 | a checkpoint accepts exactly the well-linked histories of its length that end at its head |
| `EvidenceChain.CheckpointFixesHistory` | governance-spine/src/evidence.rs:524-563 | two histories one checkpoint accepts have equal length and agree on every hashed field of every event |
| `EvidenceChain.CheckpointHashBinds` | governance-spine/src/evidence.rs:156-174 | valid checkpoints with one hash accept the same histories |
| `EvidencePlane.Plane.Append` | governance-spine/src/evidence.rs:319-391 | the next signed event enters the chain, and is sent or queued as the sink allows |
| `EvidencePlane.Plane.FlushPending` | governance-spine/src/evidence.rs:415-428 | queued events go out in order until one write fails; on success none is left |
| `EvidencePlane.Plane.TakeCheckpoint` | governance-spine/src/evidence.rs:430-458 | the signed checkpoint of the current head |
| `EvidencePlane.FromCheckpoint` | governance-spine/src/evidence.rs:299-317 | refuses an invalid or foreign checkpoint; otherwise begins an epoch whose parent it is |
| `EvidencePlane.SnapshotAlwaysVerifies` | governance-spine/src/evidence.rs:272-428 | after any run of appends and flushes, under any sink failures, the snapshot verifies and records exactly the appends, in order |
| `EvidencePlane.SinkConservation` | governance-spine/src/evidence.rs:354-428 | delivered followed by queued events are the local history, in order, at every point |
| `EvidencePlane.CheckpointAcceptsItsPrefix` | governance-spine/src/evidence.rs:430-563 | a checkpoint taken at any point of any run accepts, of every later snapshot, exactly the prefix that existed then |
| `EvidencePlane.RestartLinksEpochs` | governance-spine/src/evidence.rs:299-317 | the events of a restarted epoch name the last hash of the history its checkpoint accepts |
| `GovernedEvidence.EvidenceGovernedPipeline.OutboundWithEvidence` | governance-spine/src/evidence.rs:847-901 | resolves the binding, runs the reply through the pipeline and appends the one specified event |
| `GovernedEvidence.EvidenceIsLedgerOwned` | governance-spine/src/evidence.rs:843-900 | released exactly when approved for a resolved binding; correlation fields come from the approved verdict, and an unresolved reply is recorded without any |
| `VerdictLedger.SentinelVerdictLedger.RecordFinalApprovedInner` | governance-spine/src/verdict_ledger.rs:131-167 | the three inserts in order |
| `VerdictLedger.SentinelVerdictLedger.ResolveContext` | governance-spine/src/verdict_ledger.rs:201-214 | found, missing or foreign, with the record |
| `VerdictLedger.InsertVerdictKeeps` | governance-spine/src/verdict_ledger.rs:155 | the index invariant holds after the first insert |
| `VerdictLedger.IndexByTxKeeps` | governance-spine/src/verdict_ledger.rs:156-159 | after the second |
| `VerdictLedger.IndexByContextKeeps` | governance-spine/src/verdict_ledger.rs:160-165 | after the third |
| `VerdictLedger.ApprovalIsFound` | governance-spine/src/verdict_ledger.rs:131-193 | a recorded context approval is found by its digest and session |
| `VerdictLedger.ContextLookupSound` | governance-spine/src/verdict_ledger.rs:184-193 | what a digest and session find is an approved inbound verdict for exactly them |
| `VerdictLedger.KeyDeterminesIff` | governance-spine/src/verdict_ledger.rs:156-159 | a joined key determines its pair exactly when neither id contains the separator |
| `VerdictLedger.TxLookupSoundIff` | governance-spine/src/verdict_ledger.rs:169-178 | looking up a pair finds only its own approval, in every ledger, exactly when neither id contains the separator |
| `VerdictLedger.TxLookupGuardedByResolve` | governance-spine/src/verdict_ledger.rs:169-232 | whatever a lookup finds is approved, and resolving it with the same pair finds it or refuses it for its transaction |
| `VerdictLedger.TxKeysCollide` | governance-spine/src/verdict_ledger.rs:156-159 | two transaction and session pairs with one key |
| `CapabilityToken.UnambiguousIff` | governance-spine/src/capability.rs:258-292 | the signed text determines everything signed exactly when no caller-supplied text field contains the separator |
| `CapabilityStore.IssuableUnambiguousIff` | governance-spine/src/capability.rs:115-156 | the same among tokens of accepted requests, where separators stand between non-blank parts of free fields |
| `CapabilityToken.SubSecondsUnsigned` | governance-spine/src/capability.rs:276-277 | other issue and expiry times leave the signed text as it is exactly when both agree to the second |
| `CapabilityStore.RequestAcceptedIff` | governance-spine/src/capability.rs:115-156 | validation accepts exactly the well-formed requests |
| `CapabilityStore.TxKeyInjective` | governance-spine/src/capability.rs:398-400 | the transaction key is injective for the two authorities, whatever the transaction id contains |
| `CapabilityStore.CapabilityStore.RecordDecision` | governance-spine/src/capability.rs:428-477 | the specified decision, retry answer or refusal, and the new store |
| `CapabilityStore.CapabilityStore.IssueAfterAuthorization` | governance-spine/src/capability.rs:481-531 | the specified token or refusal, and the new store |
| `CapabilityStore.CapabilityStore.Consume` | governance-spine/src/capability.rs:534-583 | the specified outcome and the new store |
| `CapabilityStore.CapabilityStore.PruneExpired` | governance-spine/src/capability.rs:585-590 | keeps exactly the tokens unexpired at the time each is visited, and counts the rest |
| `CapabilityStore.AuthorizedIff` | governance-spine/src/capability.rs:534-583 | authorized exactly when held, authentic, unused, unexpired and presented with the whole scope |
| `CapabilityStore.ConsumeSeenLater` | governance-spine/src/capability.rs:534-583 | every consume answer a later caller gets is the one it would have got anyway, except that a token whose last use was authorized is answered as consumed |
| `CapabilityStore.RecordIsIdempotent` | governance-spine/src/capability.rs:422-443 | a retry returns the first decision; another scope conflicts; neither changes the store |
| `CapabilityRuns.SingleUse` | governance-spine/src/capability.rs:382-583 | over any run: a complete index, one token per transaction and authority, one authorized use per token, each for the token's own scope |
| `CapabilityRuns.HeldTokenAuthorizes` | governance-spine/src/capability.rs:533-583 | after any run an unused, unexpired token presented with its scope is authorized |
| `CapabilityRuns.ReplayAnswer` | governance-spine/src/capability.rs:541-548 | after any run no held token fails its signature check, and a held token is reported consumed exactly when it was authorized before |
| `CapabilityRuns.PruningUnobservable` | governance-spine/src/capability.rs:585-590 | with clocks that never go back, pruning changes neither authorizations nor issued tokens |
| `AuthorizationPaths.Gatekeeper.ResolveContextBinding` | governance-spine/src/pipeline.rs:1176-1226 | the specified verdict or the first refusal |
| `AuthorizationPaths.Gatekeeper.AuthorizeProviderExecution` | governance-spine/src/pipeline.rs:1233-1328 | the specified token or refusal, and the store after it |
| `AuthorizationPaths.Gatekeeper.AuthorizeActionExecution` | governance-spine/src/pipeline.rs:1340-1463 | the same for an action, sealed and classified first |
| `AuthorizationPaths.BindingSound` | governance-spine/src/pipeline.rs:1237-1285 | five of the eight binding refusals cannot occur; a resolved verdict is the approved one presented |
| `AuthorizationPaths.StrictNeverFails` | governance-spine/src/pipeline.rs:1409-1417 | the classifier never fails on a freshly sealed action |
| `AuthorizationPaths.VettedAction` | governance-spine/src/pipeline.rs:1392-1417 | a vetted action verifies, repeats the request and is not denied |
| `AuthorizationPaths.GrantNeverMissesDecision` | governance-spine/src/pipeline.rs:1320-1327 | issuing never misses the decision just recorded |
| `AuthorizationPaths.PlaneFollowsTool` | governance-spine/src/capability.rs:571-579 | with derived planes a plane mismatch cannot occur |
| `AuthorizationRuns.AuthorizedTracesBack` | governance-spine/src/pipeline.rs:684-708 | under every interleaving an authorized consume was preceded by a context approval for its context, session and run, and for actions by a check that sealed exactly its call and did not deny it |
| `AuthorizationRuns.AuthorizedContextWasApproved` | governance-spine/src/pipeline.rs:494-509 | whoever holds a verifying context with the authorized hash holds the context that was approved |
| `AuthorizationRuns.AuthorizedActionWasVetted` | governance-spine/src/pipeline.rs:1389-1417 | whoever holds a verifying action with the authorized hash holds, up to argument key order, the call that was sealed and classified before |
| `AuthorizationRuns.ImpossibleRefusals` | governance-spine/src/pipeline.rs:1237-1327 | under every interleaving no authorization ends with a refusal from a broken ledger or a missing decision |
| `AuthorizationRuns.NeverStuck` | governance-spine/src/capability.rs:436-438 | the index the store relies on is complete in every reachable state |
| `ContextAdmission.Admission.InboundContext` | governance-spine/src/pipeline.rs:524-711 | an envelope that does not verify changes nothing; otherwise the pipeline runs and the ledger records exactly an approved turn, with context and run |
| `ContextAdmission.Admission.InboundText` | governance-spine/src/pipeline.rs:320-492 | the same for a text, recorded without context |
| `ContextAdmission.Admission.InspectSegments` | governance-spine/src/pipeline.rs:536-549 | every segment is inspected and joined in order |
| `ContextAdmission.AdmissionIsApproval` | governance-spine/src/pipeline.rs:696-708 | an approved admission is the protocol's approval step and its two index steps |
| `ContextAdmission.HighestDemandsAll` | governance-spine/src/pipeline.rs:948-960 | the one segment signal the arbiter sees demands, under any thresholds and modifier, what all the segment signals together demand |
| `ContextAdmission.SegmentsJoin` | governance-spine/src/pipeline.rs:562-573 | so the first layer leaves the session at the maximum of its state and every segment's demand, and stops exactly at a quarantine or lock |
| `ContextAdmission.SegmentBlockStopsIff` | governance-spine/src/pipeline.rs:562-573 | the first layer stops a turn exactly when the session is already that high or some segment, wherever it stands, demands a quarantine or a lock |
| `ContextAdmission.SegmentBlockNeverApproved` | governance-spine/src/pipeline.rs:562-573 | in every reachable state a context with such a segment is locked or quarantined at the first layer, never approved |
| `SessionMemory.SessionMemory.IngestSignal` | governance-spine/src/session_memory.rs:149-262 | the specified memory and verdict |
| `SessionMemory.WindowIsLastTurns` | governance-spine/src/session_memory.rs:155-169 | the retained turns are the last twenty of the whole history, in order |
| `SessionMemory.TrajectoryBounded` | governance-spine/src/session_memory.rs:226 | the trajectory stays within -1 and 1 |
| `ThreatRecovery.ThreatIsDecayedSum` | governance-spine/src/session_memory.rs:180-222 | the threat is the decayed sum of all contributions |
| `ThreatRecovery.QuietTurnsRecover` | governance-spine/src/session_memory.rs:275-295 | after a computable number of quiet turns the session is clear and stays clear |
| `ThreatRecovery.StickyNeverRecovers` | governance-spine/src/session_memory.rs:195-204 | with a pattern counter past its limit, from the 57th turn on the session is elevated or worse |
| `ThreatRecovery.RecoversIff` | governance-spine/src/session_memory.rs:180-295 | a session recovers on harmless turns exactly when no pattern counter is past its limit |
| `Trajectory.RegressionSlope` | governance-spine/src/session_memory.rs:298-321 | the loop of sums computes the slope, its guard included |
| `Trajectory.DenominatorClosed` | governance-spine/src/session_memory.rs:317 | the denominator for n points is n²(n²−1)/12 |
| `Trajectory.GuardNeverFires` | governance-spine/src/session_memory.rs:318 | so the small-denominator guard never fires from two points on |
| `Trajectory.LeastSquares` | governance-spine/src/session_memory.rs:297-321 | no line has a smaller squared error than the one with this slope |
| `Trajectory.FlatOnConstants` | governance-spine/src/session_memory.rs:297-321 | zero on equal confidences |
| `Trajectory.RisingNonNegative` | governance-spine/src/session_memory.rs:297-321 | not negative on confidences that never fall |
| `Trajectory.SlopeBounded` | governance-spine/src/session_memory.rs:297-321 | between -1 and 1 on confidences in the unit interval |
| `Arbiter.Arbiter.Process` | governance-spine/src/arbiter.rs:276-311 | the specified state change, audit entry and answer |
| `Arbiter.Arbiter.ProcessWithModifier` | governance-spine/src/arbiter.rs:170-271 | the same under a modifier |
| `Arbiter.Arbiter.Transition` | governance-spine/src/arbiter.rs:362-399 | only upwards; the entry is written even for a session not held |
| `Arbiter.Arbiter.OperatorReset` | governance-spine/src/arbiter.rs:471-518 | unconfigured, denied with an entry, or granted with an entry and a reset |
| `Escalation.NewStateIsMax` | governance-spine/src/arbiter.rs:314-359 | the decided state is the maximum of the current one and what the signal demands |
| `Escalation.ProcessJoins` | governance-spine/src/arbiter.rs:170-311 | one call joins the demand into its session and touches no other |
| `Escalation.ReturnedIsCurrentIff` | governance-spine/src/arbiter.rs:171-182 | the returned state is the session's except for a lock demanded of a session not held |
| `Escalation.RunIsJoin` | governance-spine/src/arbiter.rs:170-311 | a held session ends at the maximum of its start and all demands |
| `Escalation.OrderIrrelevant` | governance-spine/src/arbiter.rs:170-311 | so the order of signals does not matter |
| `Escalation.TighterRunsEndHigher` | governance-spine/src/arbiter.rs:167-193 | and smaller modifiers never end lower |
| `Escalation.ProcessFaithful` | governance-spine/src/arbiter.rs:362-436 | an honoured call keeps the audit log replaying to the state |
| `Escalation.ResetFaithful` | governance-spine/src/arbiter.rs:471-518 | so does a reset, granted or not |
| `Escalation.PhantomLock` | governance-spine/src/arbiter.rs:171-180 | a lock demanded of a session not held is audited but not made |
| `Escalation.FloorJoins` | governance-spine/src/arbiter.rs:146-165 | the memory floor only raises; S1 remains only under a clear or watching memory |
| `Haap.HaapGate.Evaluate` | governance-spine/src/haap.rs:243-294 | the specified verdict and the gate after it |
| `Haap.HaapGate.VerifyToken` | governance-spine/src/haap.rs:342-435 | the first fault, or a verification that counts one use |
| `Haap.PruningIsSafe` | governance-spine/src/haap.rs:331-340 | dropping expired preauthorizations changes no later answer |
| `Haap.RevokeRevokes` | governance-spine/src/haap.rs:322-327 | after a revocation nothing from before authorizes a gated action of the session |
| `Haap.UsesBounded` | governance-spine/src/haap.rs:421-423 | a token is never verified more often than its uses left and those granted by registering it again |
| `Haap.ReportedUsesRemain` | governance-spine/src/haap.rs:423 | the reported remaining uses are the ones left |
| `EnforcementPipeline.Pipeline.Inbound` | governance-spine/src/pipeline.rs:320-482 | the specified state and result of a whole inbound turn |
| `EnforcementPipeline.Pipeline.Outbound` | governance-spine/src/pipeline.rs:726-799 | the specified state and result of a reply |
| `EnforcementPipeline.Pipeline.EndSession` | governance-spine/src/pipeline.rs:808-842 | forgets the session in arbiter and memory |
| `EnforcementPipeline.Pipeline.OperatorReset` | governance-spine/src/pipeline.rs:856-867 | resets arbiter and memory only with authority |
| `EnforcementPipeline.Pipeline.SessionRisk` | governance-spine/src/pipeline.rs:1120-1141 | the risk score of a session |
| `EnforcementPipeline.Pipeline.ShouldBlockSession` | governance-spine/src/govmem.rs:310-321 | blocks exactly when the score exceeds the threshold |
| `PipelineRuns.InboundAdvances` | governance-spine/src/pipeline.rs:320-492 | a turn only escalates its own session and keeps the cross-store invariant |
| `PipelineRuns.AuditReplaysToState` | governance-spine/src/arbiter.rs:362-436 | after any run the audit entries since a session last ended replay to its current state |
| `PipelineRuns.ApprovalMeansUnescalated` | governance-spine/src/pipeline.rs:459-491 | an approved turn leaves its session at S1 with a clear or watching memory |
| `PipelineRuns.NoApprovalAfterEscalation` | governance-spine/src/pipeline.rs:1022-1053 | once a session stands at S2 nothing is approved for it until it ends or is reset with authority |
| `PipelineRuns.GateReachability` | governance-spine/src/pipeline.rs:406-444 | the block and the rejected token never occur, and a human is asked for exactly when restricted, elevated or escalated, and not preauthorized |
| `PipelineRuns.GateReachableOnly` | governance-spine/src/pipeline.rs:406-444 | the same in every reachable state |
| `PipelineRuns.RiskAtGate` | governance-spine/src/pipeline.rs:1118-1141 | at the gate the score is at most 70, and 60 or more exactly in those states |
| `PipelineRuns.FloorAgainstState` | governance-spine/src/pipeline.rs:459-478 | when the memory floor raises what a turn returns, exactly under which thresholds the arbiter is left at, above or below the returned state |
| `PipelineRuns.ProfileLandings` | governance-spine/src/arbiter.rs:55-86 | in none of the three configurations is an elevated memory's returned state the one left behind; in all of them it is for the other memory states |
| `LineReader.ReadLineBounded` | governance-spine/src/server.rs:171-208 | the answer is that of the whole stream however it is chunked; a returned line is what was consumed; the buffer exceeds the limit by at most one refill |
| `LineReader.WholeLineIff` | governance-spine/src/server.rs:164-170 | exactly which line is returned, if any |

## Left out

- IssuableUnambiguousIff: covers separators between non-blank parts of free fields; a separator beside a blank part or a field of fixed shape is decided over all tokens only (`CapabilityToken.UnambiguousIff`).
- The regular expressions and phrase lists of the sentinel, corridor and overwatch layers, `classify_payload`, and the statistics of the integrity monitor: the layers are functions that raise arbitrary signals for the right session, the sentinel only severities and confidences it can give (`governance-spine/src/sentinel.rs:105-183`).
- SHA-256, Ed25519, hexadecimal key decoding and identifier generation: functions, predicates and fresh inputs.
- HTTP routing and responses, key and constitution files, environment variables, the connection counter: plumbing.
- Disk persistence and actor profiles of strategic memory: its advice is one of its four recommendations.
- The unused second version of GovMem sessions, and the hash chain and signatures inside audit entries and signals.
- Rounding of 32-bit floats: confidences, thresholds and threats are reals. Formatted explanations are records of the figures they print.
- 32- and 64-bit widths of sequence numbers, turn and use counters, and lockdown durations: unbounded. Leap seconds in timestamps.
- Several clock readings inside one arbiter or pipeline call are one reading; arbiter and pipeline calls are taken one at a time. Pruning reads the clock anew for each token.
- The pipeline's memory map holds values, not objects: aliasing of one memory between threads is not modelled; `SessionMemory.SessionMemory` proves the update in place.
- The text of numbers in JSON is a token of the JSON number grammar, not a numeric value; lowercasing is any function on texts.
- A read error ends the stream of `LineReader.ReadLineBounded`; the lossy decoding of the returned bytes is not part of this model.
- The evidence wrappers around inbound, authorize and consume: they append one event after the call they wrap, as `GovernedEvidence` does for outbound.
- Path traversal and the protected words are classified on the joined text; no per-leaf claim is made for them.
