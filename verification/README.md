# Wardroom protocol core, verified

This project models the protocol and state-machine core of Wardroom in Dafny and proves what it
promises. It has five parts.

1. **Mutual peer enrollment and the relay handshake** (`Artifacts`, `ArtifactTexts`,
   `Transcripts`, `PeerTrust`, `Enrollment`, `RelayHandshake`, `Federation*`, `HandshakeRuns`). Any number of honest machines, each with a durable
   ledger and a trust store, over a network that an adversary owns. Signatures are ideal: the set of
   transcripts that each key has signed. A stage may crash between its durable writes.
2. **The resume saga of a suspended channel** (`BlueprintStore`, `Resume*`). Any number of coordinators,
   one atomic step at a time: a store transaction, a renewal of the lease or the return of an external
   call, with crashes, expiries and takeovers in between. `ResumeTransactions` makes the durable writes
   call by call against the store class and proves each transaction to be the step that the runs use.
3. **The runtime host** (`Ring`, `Frames`, `Host`, `HostRuns`, `HostOutcomes`, `Delivery`). An array-backed ring that
   refines an append-only log, the frame parser and its read loop, and every section that runs under the
   host's mutex as one method; `HostRuns` and `Delivery` interleave these sections freely.
4. **Codecs** (`Utf16`, `Json*`, `RelayReader`, `ChannelResult`, `Manifest`). The strict JSON parser
   against a grammar, two stream framers, chunked results with base64, and the canonical manifest.
5. **The relay data plane** (`RelaySequence`, `RelayDelivery`, `ChannelPaging`, `ChannelSubscription`,
   `ChannelProgress`, `RelayAdmission`).

Each mutable object of the source is a class whose methods are proved against pure functions; the
theorems are about runs that are built from these functions. Events are logged as they happen, and most
theorems say what must come before an event in the log of every run. Beside these stand the theorems that
say what an operation must do when nothing goes wrong: each protocol has one by which it completes from
every state in which it may, and where it refuses, the exact bound at which it does, in numbers.

`dafny verify dfyconfig.toml` checks the whole project.

## Findings

Properties that the code does not have, each with a run and with the exact condition:

- **A shared conversation is resumed twice.** Blueprint validation makes member ids distinct, not
  conversations. At most once holds per member, and per conversation if and only if conversations are
  distinct (`ResumeRuns.ConversationOnceIffDistinct`, `ResumeRuns.SharedMeansTwice`).
- **A release can leave a launched runtime running.** The heartbeat of `withResumeLease` flags the lease
  as lost also when its renewal merely throws. A launch that returns to a raised flag is thrown away
  before it is noted, so the teardown does not stop it, and with the token still current the claim is
  released (`ResumeRuns.DroppedLaunchIsNotStopped`). Every returned launch is stopped if and only if none
  was dropped this way (`ResumeHistory.ReleaseMeans`).
- **The relay frame reader bounds only what is left over.** An overlong line passes if its newline comes
  in the same chunk. The lines do not depend on the chunking if and only if every line is within the bound
  (`RelayReader.ChunkingDoesNotMatterIffBounded`).
- **A route that is created again can skip messages.** A request in flight for a removed route advances
  its successor. This is safe if and only if the successor starts no further back and is no older
  (`ChannelSubscription.RecreationIsSafeIff`).
- **Back-pressure sends a line twice.** A line that is written past an empty queue, and that the duplex
  takes but pushes back on, is also queued; its second copy closes the receiver
  (`RelaySequence.PushbackClosesThePeer`). In every run an end writes each line at most once if and only if
  the queue was never flushed after such a push-back before the end closed
  (`RelaySequence.WrittenOnceIff`).
- **A saved result does not outlive a new suspension.** The SQLite claim does not look at saved results
  once the channel is suspended again. In every run in which a resume has committed under a key, a later
  call with that key is given the saved result if and only if the store does not let it claim the channel;
  and it is let only after a suspension in between (`ResumeAgain.AnsweredIffNotClaimable`). A run in which
  the second call with the same key resumes the same conversation again is
  `ResumeAgain.ResumedAgainUnderItsKey`. Between two provider calls with no suspension in between there
  always is a rollback (`ResumeAgain.RolledBackBetween`); across suspensions the commit of the first attempt
  takes its place (`ResumeTheorems.AtMostOnce`).

## Model

| member | source | states |
|---|---|---|
| FederationTheorems.FinalizeAgreement | roomsd/src/federation/enrollment.ts:253-343 | In every run of honest machines over a network that replays, drops, reorders or alters artifacts: when finalize makes `d` active for enrollment `e`, the honest responder had made the initiator active for `e` earlier, its ledger is confirmed with equal keys, policies, nonces and window, and each machine pins the other's true key. |
| FederationTheorems.ConfirmAgreement | roomsd/src/federation/enrollment.ts:194-305 | When confirm makes the initiator active, the honest initiator's ledger is already at accepted or later, with exactly the responder's terms, and the responder pins its true key. |
| FederationTheorems.LedgersAgree | roomsd/src/federation/enrollment.ts:374-401 | At every moment of every run the two ledgers of an enrollment between honest machines have opposite roles and equal origin halves, equal terms once both know the destination, and stages that fit. |
| FederationTheorems.StagesAreSingleUse | roomsd/src/federation/enrollment.ts:150-343 | On one machine no stage of one enrollment returns twice, whatever is replayed to it (calls on one machine are serialized). |
| FederationTheorems.NothingMovesBack | roomsd/src/federation/peer-trust.ts:49-145 | From any moment of a run to any later one, each pinned key and policy stays, no trust record moves down the order pending, confirming, active, revoked, and no ledger entry loses a field or a stage. |
| FederationTheorems.TrustIsEarned | roomsd/src/federation/peer-trust.ts:82-129 | Whoever is confirming or active on a machine has signed, with the key that is pinned for it, an artifact of the stage that grants this state, addressed to that very machine. |
| FederationTheorems.TrustNeedsProof | roomsd/src/federation/peer-trust.ts:49-129 | One step can make a peer confirming or active on a machine only as a stage call of that machine other than the offer, over such a signature; preparing, revoking and dialing never do. |
| FederationTheorems.ProvenPinsTheKey | roomsd/src/federation/enrollment.ts:367-373 | A proven record that names an honest machine pins that machine's own key. |
| FederationRuns.EnrollmentCompletes | roomsd/src/federation/enrollment.ts:74-343 | In whatever world two honest machines may still enroll: if every artifact arrives unaltered, in any spelling within the size bound, and is taken from thirty seconds before the offer until before it expires, all five stages succeed; both ledgers are confirmed with the same terms and each machine actively trusts the other's true key. |
| FederationRuns.OnlyTimelyStagesWrite | roomsd/src/federation/enrollment.ts:359-365 | In any world, a challenge, accept, confirm or finalize that changes anything has read an artifact issued at most 30000 ms ahead of its clock, not expired, over a window of at most an hour. |
| FederationRuns.OnlyBoundedOffers | roomsd/src/federation/enrollment.ts:345-351 | An offer with a lifetime outside 30 to 3600 seconds changes nothing. |
| ArtifactTexts.ArtifactReadsBack | roomsd/src/federation/codec.ts:94-163 | A valid artifact of any stage is read back as itself from every JSON spelling of it within 8192 bytes. |
| PeerTrust.AdvanceKeeps | roomsd/src/federation/peer-trust.ts:90-129 | The proof-gated advance keeps every pin of the store and moves no record back. |
| PeerTrust.AdvanceRaisesOne | roomsd/src/federation/peer-trust.ts:90-129 | It raises the presented authority only, to the requested state or to a higher one it already had short of revoked. |
| PeerTrust.RevokedIsTerminal | roomsd/src/federation/peer-trust.ts:131-145 | A revoked authority stays revoked in every later store, is never read as active, and is refused whatever it presents. |
| PeerTrust.PeerTrustStore.Prepare | roomsd/src/federation/peer-trust.ts:49-80 | Records a new peer as pending; an existing record is returned if the pin is the same and it is not revoked, and nothing else changes. |
| PeerTrust.PeerTrustStore.AdvanceFromProof | roomsd/src/federation/peer-trust.ts:90-129 | Succeeds exactly for a well-formed pin that contradicts no record and is not revoked; then only this authority's record changes, and never downwards. |
| PeerTrust.PeerTrustStore.Revoke | roomsd/src/federation/peer-trust.ts:131-145 | Succeeds exactly for a known authority and a reason that is not blank; the first reason stays. |
| Enrollment.EnrollmentMachine.CreateOffer | roomsd/src/federation/enrollment.ts:74-124 | One offer and its ledger entry, with the trust records untouched; or no change at all. |
| Enrollment.EnrollmentMachine.CreateChallenge | roomsd/src/federation/enrollment.ts:126-192 | One challenge out of a raw text: all checks in order, then trust and ledger, or no change to the ledger. |
| Enrollment.EnrollmentMachine.CreateAccept | roomsd/src/federation/enrollment.ts:194-251 | One accept out of a raw text, against the machine's own ledger entry. |
| Enrollment.EnrollmentMachine.CreateConfirm | roomsd/src/federation/enrollment.ts:253-305 | One confirm out of a raw text, against the machine's own ledger entry. |
| Enrollment.EnrollmentMachine.FinalizeEnrollment | roomsd/src/federation/enrollment.ts:307-343 | The finalization out of a raw text, against the machine's own ledger entry. |
| Artifacts.AuthorityNamesOneKey | roomsd/src/federation/enrollment-crypto.ts:48-54 | With an injective fingerprint no two keys have the same authority id. |
| Transcripts.TranscriptInjective | roomsd/src/federation/enrollment-crypto.ts:79-97 | Equal signed transcripts come from equal statements, across the four stages, both halves of the relay handshake and terminal capabilities. |
| FederationTheorems.RelayAgreement | roomsd/src/federation/relay-connection.ts:491-659 | When the machine that dialed becomes connected, an honest responder has signed an accept over exactly this connection id, nonces, keys, policies and window, while it held an active record pinned to the initiator's key. |
| FederationTheorems.AnsweredOnlyIfDialed | roomsd/src/federation/relay-connection.ts:491-593 | An honest responder signs an accept for an honest initiator only if that initiator has dialed with exactly these terms. |
| HandshakeRuns.HandshakeCompletes | roomsd/src/federation/relay-connection.ts:491-659 | In whatever world two machines hold usable records of each other: if both frames arrive in any spelling and in time, dialing, answering and connecting succeed, and the dialer is connected over exactly the terms that were dialed and answered. |
| HandshakeRuns.OnlyTimelyAnswers | roomsd/src/federation/relay-connection.ts:545-556 | In any world an accept is only signed for an init issued at most 30000 ms ahead, not expired, over at most five minutes. |
| HandshakeRuns.OnlyTimelyConnections | roomsd/src/federation/relay-connection.ts:618-622 | And only an accept that has not expired connects. |
| JsonTheorems.StrictParserIsTheGrammar | roomsd/src/federation/codec.ts:328-449 | The strict parser accepts a text with value `v` if and only if the grammar of sections 2 to 7 of RFC 8259 derives the text for `v` and no object at any depth repeats a decoded key. |
| JsonTheorems.GrammarIsUnambiguous | roomsd/src/federation/codec.ts:328-449 | No text has two values. |
| JsonTheorems.PrintThenParse | roomsd/src/federation/codec.ts:328-449 | Parsing a printed value gives it back, or is refused for a duplicate key exactly if the value has one. |
| JsonTheorems.PrintInjective | roomsd/src/federation/enrollment-crypto.ts:79-97 | Different values are printed differently. |
| JsonParser.ParseArtifactJson | roomsd/src/federation/codec.ts:328-449 | The parser with its one shared position, loops included, computes the parser that the theorems are about; its position only grows and it always ends. |
| ResumeTheorems.AtMostOnce | roomsd/src/lifecycle/suspend-resume.ts:136-227 | Across any number of coordinators, keys and generations, with a crash, an expiry or a takeover after any call: between two `provider.resume` calls for one member the first attempt itself committed, or a `stopRollback` of that conversation completed under a live lease. |
| ResumeAgain.RolledBackBetween | roomsd/src/lifecycle/suspend-resume.ts:148-187 | If the channel was not suspended between the two calls it is always a completed `stopRollback`. |
| ResumeAgain.AnsweredIffNotClaimable | roomsd/src/lifecycle/suspend-resume.ts:141-145 | In every run that has committed under a key, a call with that key that reaches its claim is given the result of the last such commit if and only if the store's guard refuses the claim; if it grants it, the channel was suspended after that commit. |
| ResumeAgain.ResumedAgainUnderItsKey | roomsd/src/storage/blueprint-repository.ts:79-83 | A run: a resume commits under a key, the channel is suspended, and a call with the same key resumes the same member's conversation again, with no rollback in the whole run. |
| ResumeResidents.WhoLivesWhere | roomsd/src/lifecycle/suspend-resume.ts:188-226 | In every run, whenever no resume is under way: if the last one to end committed, each member lives in the very runtime and generation that the result names for it; if it was given up, nobody of its generation is left. |
| ResumeResidents.NobodyIsLeftOver | roomsd/src/lifecycle/suspend-resume.ts:148-162 | A resume that recovers from a crashed one launches with nobody of that generation left over. |
| ResumeProgress.ResumeGetsThrough | roomsd/src/lifecycle/suspend-resume.ts:136-206 | In every run: from a suspended channel, or one whose resume under this key lost its lease, with no ambiguous row, one more call can recover what was left behind, resume every member, deliver all that is pending for each, and commit. |
| ResumeProgress.RecoverableIff | roomsd/src/lifecycle/suspend-resume.ts:148-150 | Once a resume has lost its lease, some continuation commits if and only if no row is `provider_resuming`. |
| ResumeDeliveries.NothingIsForgotten | roomsd/src/lifecycle/suspend-resume.ts:190-199 | When a resume that was claimed after some moment commits, every delivery queued at that moment behind a member's cursor has been acknowledged by that member. |
| ResumeTeardown.FailureIsGivenUp | roomsd/src/lifecycle/suspend-resume.ts:207-226 | In every run, a failed call that still holds the lease and has no ambiguous row can stop, roll back and give the claim back: suspended again, no row left. |
| ResumeHistory.CommitMeans | roomsd/src/lifecycle/suspend-resume.ts:172-206 | A commit holds exactly one resumed outcome per blueprint member, in order, each with a runtime whose launch returned to this attempt; every conversation asked for is standing; every delivery fetched as pending was acknowledged. |
| ResumeHistory.AcknowledgedAfterAccepted | roomsd/src/lifecycle/suspend-resume.ts:190-199 | A delivery is acknowledged only after the runtime launched for its recipient by the same attempt accepted it. |
| ResumeHistory.ActivationIsAtomic | roomsd/src/lifecycle/suspend-resume.ts:200-205 | In every run the channel becomes active only by a step that clears the launches, saves the result and activates at once under a current token. |
| ResumeHistory.ReleaseMeans | roomsd/src/lifecycle/suspend-resume.ts:207-226 | When a failed attempt releases its claim no conversation is standing; and every runtime whose launch returned to it was stopped if and only if it dropped no launch. A launch is only ever dropped before a release because the heartbeat had raised its flag although the token was current. |
| ResumeHistory.SavedResultIsReturned | roomsd/src/lifecycle/suspend-resume.ts:141-145 | From a commit until the next suspension the channel stays active, no saved result changes, and every call that finishes is given the result saved under its own key. |
| ResumeHistory.StaleForever | roomsd/src/lifecycle/suspend-resume.ts:249-275 | A token that is not current any more never becomes current again in any continuation. |
| ResumeRuns.StuckForever | roomsd/src/lifecycle/suspend-resume.ts:148-150 | Once a `provider_resuming` row has lost its writer's lease, in every continuation nobody calls the provider, commits or releases, and no row changes. |
| ResumeRuns.LeaseLostInProvider | roomsd/src/lifecycle/suspend-resume.ts:181-185 | Such a state is reached: the lease runs out while the provider is being asked. |
| ResumeRuns.ConversationOnceIffDistinct | roomsd/src/lifecycle/suspend-resume.ts:173-187 | At most once holds per conversation in every run over a blueprint if and only if no two members that ask a provider share a conversation. |
| ResumeRuns.SharedMeansTwice | roomsd/src/lifecycle/suspend-resume.ts:173-187 | With a shared conversation a run in which nothing fails resumes it twice. |
| ResumeRuns.DroppedLaunchIsNotStopped | roomsd/src/lifecycle/suspend-resume.ts:249-261 | A run in which the claim is released while a runtime that was launched is never stopped. |
| ResumeTransactions.DurableChannelLifecycle.Claim | roomsd/src/lifecycle/suspend-resume.ts:141-145 | Claims the channel, or falls back on the result saved under the key. |
| ResumeTransactions.DurableChannelLifecycle.ForgetAbandoned | roomsd/src/lifecycle/suspend-resume.ts:156-162 | Two fenced writes that both happen or are both taken back. |
| ResumeTransactions.DurableChannelLifecycle.InstallMembers | roomsd/src/lifecycle/suspend-resume.ts:188-188 | Installs all launched members call by call, or none if one call is stale. |
| ResumeTransactions.DurableChannelLifecycle.CommitResume | roomsd/src/lifecycle/suspend-resume.ts:200-206 | Clear, save and activate, call by call: all three or none, wherever the lease runs out. |
| ResumeTransactions.DurableChannelLifecycle.ReleaseClaim | roomsd/src/lifecycle/suspend-resume.ts:218-225 | The first stale call ends the release, and what was written before it stays. |
| BlueprintStore.Store.ClaimResume | roomsd/src/storage/blueprint-repository.ts:79-83 | A claim succeeds on a suspended channel, or to continue the same key and generation after the lease ran out; it takes a new epoch. |
| BlueprintStore.Store.SetResumeProviderPhase | roomsd/src/storage/blueprint-repository.ts:89-89 | A write with a stale token returns false and changes nothing. |
| BlueprintStore.Store.Acknowledge | roomsd/src/storage/blueprint-repository.ts:120-127 | A stale token or a second acknowledgement returns false and changes nothing. |
| Ring.Ring.Append | roomsd/runtime-host-go/ring.go:37-51 | In place, in a buffer of bounded size: the log grows by the chunk and the buffer holds its last min(cap, total) bytes. |
| Ring.Ring.ReplayFrom | roomsd/runtime-host-go/ring.go:53-65 | Refused past the head; otherwise the log from the cursor or from the retained floor, with the gap told. |
| Ring.ReplayIsASuffix | roomsd/runtime-host-go/ring.go:53-65 | Every valid replay is the log from its start on: from the cursor, or the last `capacity` bytes if more have come since; a gap is told exactly if bytes are missing. |
| HostRuns.ReplayAndLiveTileTheLog | roomsd/runtime-host-go/main.go:384-427 | In every interleaving: what an attached client was replayed and everything ever queued to it cover the log from the cursor, or from `capacity` bytes before its end at that time, to its end without hole or overlap, each payload the log's own, followed by exactly one exit frame once the child has exited. |
| HostRuns.TilesAreTheLog | roomsd/runtime-host-go/main.go:414-427 | The payloads of such a cover, put together, are that stretch of the log. |
| HostRuns.SplitTiles | roomsd/runtime-host-go/main.go:414-427 | A stretch of output of any length, cut into bounded frames, is tagged without hole or overlap. |
| HostRuns.SlotsAreKept | roomsd/runtime-host-go/main.go:429-510 | In every interleaving `hasCtl` is true exactly if a registered client is the controller, which then is the one named; at most 32 observers; queued and in-flight bytes never above 262144 for a client. |
| HostRuns.CredentialsAreSpentOnce | roomsd/runtime-host-go/main.go:574-602 | At most 4096 credential ids, and each lets at most one HELLO past the replay check. |
| HostRuns.QueueIsTheEnd | roomsd/runtime-host-go/main.go:460-495 | What is still queued is always the end of everything ever queued, in order. |
| HostRuns.OutputIsPtyRead | roomsd/runtime-host-go/main.go:384-412 | The output and exit steps of the runs are what the host's own sections compute. |
| HostOutcomes.LeavesIff | roomsd/runtime-host-go/main.go:429-495 | In every interleaving a step ends a client's attachment if and only if its connection ends, everyone is closed, its own write fails, or what is sent brings its queued and in-flight bytes above 262144; whoever stays has all that was sent at the end of its queue. |
| HostOutcomes.InFlightIsTaken | roomsd/runtime-host-go/main.go:460-493 | The bytes in flight are exactly those of the queue that was taken last, until its write is over. |
| HostOutcomes.AttachedIff | roomsd/runtime-host-go/main.go:644-667 | In every interleaving a new connection is attached if and only if it asks for control while no client has it, or to observe while fewer than 32 do; it starts with nothing queued. |
| HostOutcomes.PassesIff | roomsd/runtime-host-go/main.go:586-602 | A HELLO passes if and only if its credential id is not empty, is new, and fewer than 4096 have passed. |
| HostOutcomes.SplitIsTight | roomsd/runtime-host-go/main.go:414-427 | Output is cut into frames of at most 1048567 bytes, all but the last full. |
| Host.Host.EnqueueAll | roomsd/runtime-host-go/main.go:429-455 | Everyone with room gets the frame, everyone else is dropped, and a dropped controller frees its slot. |
| Host.Host.EnqueueOutput | roomsd/runtime-host-go/main.go:414-427 | One read of the terminal goes out as the frames it is cut into, one after the other. |
| Host.Host.OnOutput | roomsd/runtime-host-go/main.go:384-397 | One read of the terminal: the ring advances whatever the clients do. |
| Host.Host.Take | roomsd/runtime-host-go/main.go:460-476 | The writer takes the whole queue into flight. |
| Host.Host.Done | roomsd/runtime-host-go/main.go:477-493 | The writer is back: its bytes are no longer in flight, and if the write failed its client and its slot are gone. |
| Host.Host.Claim | roomsd/runtime-host-go/main.go:586-602 | A credential id is accepted once, and never beyond the cap. |
| Host.Host.Register | roomsd/runtime-host-go/main.go:644-667 | Slot, replay and registration in one section: refused for a second controller or a 33rd observer. |
| Host.SizeIsTheFrame | roomsd/runtime-host-go/main.go:414-443 | The bytes that the budget counts are the bytes of the frame on the wire, negative exit statuses included. |
| Frames.FrameRoundTrip | roomsd/runtime-host-go/proto.go:71-143 | Every valid frame, followed by anything, is parsed back as itself and consumes exactly its own bytes. |
| Frames.FrameNeedsAllItsBytes | roomsd/runtime-host-go/proto.go:71-92 | A proper prefix of a frame is incomplete, and an invalid frame is fatal. |
| Frames.MoreBytesDoNotMatter | roomsd/runtime-host-go/proto.go:71-92 | Once the parser has decided, further bytes do not change the decision. |
| Frames.ParsesExactlyFrames | roomsd/runtime-host-go/proto.go:71-143 | A message is parsed if and only if the buffer begins with its valid frame; the parser waits if and only if the header is incomplete or the buffer is a proper beginning of a frame within the bound; oversize if and only if the header counts more than 1048576. |
| Frames.Connection.Read | roomsd/runtime-host-go/main.go:528-553 | The loop over complete frames handles what draining the buffer amounts to. |
| Frames.DrainInParts | roomsd/runtime-host-go/main.go:528-553 | Draining now and again when more has come is draining once. |
| Frames.ChunkingDoesNotMatter | roomsd/runtime-host-go/main.go:528-553 | However a stream is cut into reads, the same messages are handled and the connection stops for the same reason. |
| Frames.FramesAreHandled | roomsd/runtime-host-go/main.go:528-553 | A stream of valid frames is handled message by message, in order, with nothing left over. |
| Frames.FuzzParse | roomsd/runtime-host-go/proto.go:198-218 | Walks a whole input and ends at the first byte it cannot use. |
| Delivery.Check | roomsd/runtime-host-go/main.go:785-801 | The summing loop accepts a transaction exactly if all its bounds hold, frame by frame and in sum. |
| Delivery.InLoopExitIsUnreachable | roomsd/runtime-host-go/main.go:822-829 | After these checks the size and delay exit inside the write loop cannot be taken. |
| Delivery.DeliveredAtMostOnce | roomsd/runtime-host-go/main.go:801-845 | In every interleaving all frames of one transaction id are written by one connection, each at most once and in order. |
| Delivery.StateMovesForward | roomsd/runtime-host-go/main.go:814-843 | The state of an id moves from absent to in progress and from there once, to written or to uncertain. |
| Delivery.NothingAfterTheEnd | roomsd/runtime-host-go/main.go:820-843 | No frame of an id is written after its state has become final. |
| Delivery.WrittenIsTheSum | roomsd/runtime-host-go/main.go:839-843 | Written is only ever said by the connection whose writes of every frame of the transaction are in the log, and the count is the sum of their lengths. |
| Delivery.AskedIff | roomsd/runtime-host-go/main.go:785-800 | A connection takes a transaction on if and only if it is idle and the transaction has a non-empty id, 1 to 64 frames with as many delays, no frame above 65536 bytes, 1048576 bytes and 5000 ms in sum. |
| Delivery.DeliveryCompletes | roomsd/runtime-host-go/main.go:801-845 | In every run an idle connection asked for such a transaction, with a new id of at most 256 characters and fewer than 4096 ids known, can write every frame in order and report exactly their bytes as written. |
| RelayReader.ChunkingDoesNotMatterIffBounded | roomsd/src/federation/relay-protocol.ts:589-607 | The reader yields the same lines for every chunking of a text if and only if every line of it, and the rest, is within the bound. |
| RelayReader.RelayFrameReader.Push | roomsd/src/federation/relay-protocol.ts:593-607 | One chunk: all lines it completes, or an error if what is left is too long. |
| RelayReader.CutInParts | roomsd/src/federation/relay-protocol.ts:593-607 | Cutting a text into lines in two parts is cutting it once. |
| RelayReader.CutIsExact | roomsd/src/federation/relay-protocol.ts:593-607 | Lines without newlines, each with its newline, and a rest without one are together the text. |
| RelayReader.FailsIff | roomsd/src/federation/relay-protocol.ts:593-607 | The reader fails if and only if after some chunk more than 16384 bytes are left over. |
| RelayReader.LengthIsUtf8 | roomsd/src/federation/relay-protocol.ts:593-607 | The length that is bounded is the number of bytes of the UTF-8 encoding. |
| RelaySequence.ReceiverSeesAPrefix | roomsd/src/federation/relay-connection.ts:389-425 | Over a channel that drops, duplicates and reorders lines and brings those of other connections, what each end hands on is a prefix of what its peer sequenced; the i-th sequenced line carries number i, as many are sequenced as numbers were used, and only sequenced lines are ever written. |
| RelaySequence.RefusedFrameIsNotThere | roomsd/src/federation/relay-connection.ts:66-73 | A frame that cannot be encoded leaves no trace: every run is the same with and without it. |
| RelaySequence.WrittenOnceIff | roomsd/src/federation/relay-connection.ts:396-425 | In every run an end writes each line at most once, and then in sequence, if and only if no line written past an empty queue was pushed back on with the queue flushed later, before the end closed. |
| RelaySequence.PushbackClosesThePeer | roomsd/src/federation/relay-connection.ts:396-425 | A run over a faultless channel: the pushed-back line is written twice, handed on once, and closes its receiver with a sequence violation. |
| RelaySequence.ClosedIsFinal | roomsd/src/federation/relay-connection.ts:823-838 | Once an end is closed, in every continuation it hands on nothing more, nothing more of it is written, and its reason stays. |
| RelayDelivery.EverythingArrives | roomsd/src/federation/relay-connection.ts:389-425 | In every run over a channel that brings an end its peer's lines once each and in order, with no flush after a push-back, an end that was not closed from outside or by its own overflow is open and has handed on exactly what reached it: in the end all that was written, and after a full flush all that was sequenced. |
| RelayDelivery.ClosedIff | roomsd/src/federation/relay-connection.ts:707-722 | In every run an end is closed for a reason if and only if, while open, a line of another connection reached it, or one of its own direction, or one whose number is not one more than what it handed on, or a line had to be queued beyond the frames or bytes allowed, or it was closed from outside. |
| RelayDelivery.FlushIsExact | roomsd/src/federation/relay-connection.ts:417-425 | A flush writes the queue from its head up to the line that is pushed back on, or all of it. |
| RelaySequence.RelayConnection.FlushQueue | roomsd/src/federation/relay-connection.ts:417-425 | Writes the queue in order until it is empty or the duplex pushes back. |
| RelaySequence.RelayConnection.OnApplicationFrame | roomsd/src/federation/relay-connection.ts:707-722 | Hands on a frame exactly if connection, direction and the next number are right; otherwise closes for the first of them that is wrong. |
| ChannelPaging.PageIsExact | roomsd/src/federation/channel-home-handler.ts:121-154 | A page is an exact beginning of what is left: empty only if nothing is left, `hasMore` exactly if something follows it, and its cursor leads to exactly the rest. |
| ChannelPaging.PageFits | roomsd/src/federation/channel-home-handler.ts:141-154 | A page of more than one message fits; with something left over it has twenty messages or the next one would not fit. |
| ChannelPaging.PageIsWithinBytes | roomsd/src/federation/channel-home-handler.ts:141-154 | With a bound in bytes that every message meets alone, every page is within it. |
| ChannelPaging.ChannelMessagePage | roomsd/src/federation/channel-home-handler.ts:141-154 | The loop takes at least one message and then as many as the encoded page has room for. |
| ChannelPaging.DrainLog | roomsd/src/federation/channel-subscription-manager.ts:128-132 | Following page cursors ends, and yields exactly the log after the start. |
| ChannelSubscription.SubscriptionNeverSkips | roomsd/src/federation/channel-subscription-manager.ts:64-133 | With missing runtimes, failures, lost connections and overlapping requests in between, every wanted home message above the route's initial cursor and at or below its stored cursor has been delivered. |
| ChannelSubscription.RecreationIsSafeIff | roomsd/src/federation/channel-route-store.ts:27-91 | The exact condition: a route created again under a request in flight never makes this fail if and only if it starts no further back than that request's cursor and is no older than its route. |
| ChannelSubscription.CursorNeverMovesBack | roomsd/src/federation/channel-route-store.ts:69-79 | While a route exists its cursor never decreases, and its start and age stay. |
| ChannelProgress.CatchesUp | roomsd/src/federation/channel-subscription-manager.ts:64-133 | From every orderly run with a route, undisturbed requests lead to a cursor with nothing after it and every wanted message above the initial cursor delivered. |
| ChannelProgress.DeliversOnlyAddressed | roomsd/src/federation/channel-subscription-manager.ts:112-127 | In every run whatever is delivered is a home message addressed to the recipient. |
| ChannelSubscription.HandlePage | roomsd/src/federation/channel-subscription-manager.ts:112-127 | Delivers exactly the wanted messages of a page in order, up to the first that fails. |
| ChannelSubscription.RouteStore.AdvanceCursor | roomsd/src/federation/channel-route-store.ts:69-79 | Against the stored record, never backwards, and an error if the record is gone. |
| ChannelResult.ResultsReassemble | roomsd/src/federation/channel-result.ts:12-46 | For any set of results within the bound and any interleaving that keeps each request's frames in order, each final frame yields exactly the original bytes and every other frame nothing. |
| ChannelResult.CompletedOnlyInOrder | roomsd/src/federation/channel-result.ts:33-52 | Whatever frames came, a result is completed only by frames 0 to n of its request, one after the other, with one flag and only the last final; and it is exactly what they carry. |
| ChannelResult.DecodeEncode | roomsd/src/federation/channel-result.ts:12-27 | Base64 as in section 4 of RFC 4648 gives back every byte string. |
| ChannelResult.ChunkFitsTheField | roomsd/src/federation/relay-protocol.ts:299-310 | Every encoded chunk fits the payload field of a frame. |
| ChannelResult.AlwaysBounded | roomsd/src/federation/channel-result.ts:33-52 | After every sequence of frames, in any order, no request stores more than the bound and no result above it is handed on. |
| ChannelResult.SendChannelResult | roomsd/src/federation/channel-result.ts:12-27 | Sends all frames of a result in order, or refuses one that is too large. |
| ChannelResult.ChannelResultAssembler.AcceptFrame | roomsd/src/federation/channel-result.ts:33-52 | One frame: kept, completed, or refused and its request forgotten. |
| RelayAdmission.AdmissionIsBounded | roomsd/src/federation/relay-local-server.ts:15-110 | In every run at most eight sockets are in their handshake and no peer has two admitted ones. |
| RelayAdmission.RunIsExact | roomsd/src/federation/relay-local-server.ts:28-110 | The counters always equal the sockets that hold a handshake and those admitted for each peer. |
| RelayAdmission.AdmittedIff | roomsd/src/federation/relay-local-server.ts:28-110 | In every run a socket is let in if and only if fewer than eight are in their handshake, and its first report is accepted if and only if its peer has no admitted socket. |
| RelayAdmission.ReleasedOnce | roomsd/src/federation/relay-local-server.ts:91-94 | In every run, once a socket has closed, saying so again later changes nothing, whatever other sockets did in between. |
| Manifest.ManifestDecidesEquality | roomsd/src/profiles/contracts.ts:226-233 | For lists of files with distinct NUL-free paths and NUL-free hashes, two manifests are equal bytes if and only if one list is a permutation of the other. |
| Manifest.CompareIsATotalOrder | roomsd/src/profiles/contracts.ts:281-289 | `compareUtf8` is antisymmetric up to equality, transitive and never undecided. |
| Manifest.CompareIsCodePointOrder | roomsd/src/profiles/contracts.ts:281-289 | It is the order of the code points, one after the other. |
| Manifest.CompareUtf8 | roomsd/src/profiles/contracts.ts:281-289 | The loop over the common length has the sign of the byte-wise order. |

## Left out

- Concurrent stage calls on one machine: the source reads, checks and writes ledger and trust record without a lock; the model serializes the calls of one machine, and everything said about one machine over time rests on that.
- Real cryptography: keys, DER and PEM, SHA-256 and Ed25519 are an injective fingerprint and an ideal signature set. Nobody derives a second signature over a transcript from a released one. Nonces and ids are chosen fresh by the caller.
- UTF-8 of transcripts: they are injective as UTF-16 text; the source signs their UTF-8 encoding, which is injective on text without lone surrogates.
- Number spellings: numbers are lexemes. A version, a port or a heartbeat interval must be canonical decimal, where the source also takes `22.0`.
- The JavaScript key `__proto__`: objects are ordered lists of ordinary keys.
- Error messages, `createdAt` and `updatedAt` stamps, file modes, symlink checks, fsync and rename: a record write is atomic, with crash points between writes.
- The state-directory field and its checks in the relay handshake, and the connection class around it: the handshake is modelled on values, so its timers and in-place state changes are not captured.
- Suspending: one step that turns an active channel into a suspended one; its own loop over members is not modelled.
- The lease as time: a flag that expiry clears and a renewal keeps; heartbeats only show as the flag that a call finds raised.
- Roles, intents, layouts and the arguments of a launch; legacy launch rows without a phase; blueprint checks other than distinct member ids.
- Acting twice on one channel from one process: `serial` makes a process finish one call before the next, which `MayBegin` takes for granted.
- Exhaustion of 64-bit counters in the host; the wire order of replay against live output (the cover is by tag); a HELLO that renews a live client; capability actions and expiry; the `dead` flag and the wake channel of a client.
- A dropped connection that sends another HELLO under its old id: a connection registers at most once here.
- The cap of 4096 deliveries: read in an earlier section than the insert, so it is not exact and not claimed.
- The acknowledgement frames of a delivery, and terminal input, resize, signals and wiping.
- Malformed UTF-8 at a chunk border: the relay reader takes text.
- Relay heartbeats, idle timers and draining; the relay runs start connected with empty queues, so a handshake line that is pushed back on is not modelled.
- The handler's decision in the frame theorems: a function of the messages of its own connection, where the source also consults the shared state and the clock.
- Reconnect delays, suppressed authorities and the choice of the next route in the subscription manager: any request may be made at any time.
- Parsing the JSON of an assembled channel result: the bytes are returned.
- The canonical channel profile content, and file sizes that are not natural numbers.
- The chunking of terminal output in the terminal runtime handler, the relay connection lock, the binding store, and everything around the command line, providers, skills and the MCP server.
