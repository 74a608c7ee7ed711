# The flock and the bus, verified

agent-mesh carries two protocols that only mean something over whole runs. This project
models both in Dafny and proves what they promise.

**The flock** is a signed, append-only log with one writer and many verifying readers. An
event goes through the admission table, the session rules and the epoch ratchet; the server
seals it in a record of a signed hash chain, appends one frame, syncs once, and publishes.
Everything else (the board, the session table, who may watch) is a fold of the log, so a
restart, a follower, a snapshot and a reader on another host must all arrive at the state
the server had. The main results are about every log, every run and every crash point:

- *The table.* The admission function admits exactly what the design's table allows
  (`DesignTable`), and every log keeps the board's laws: first closer wins, one roster line,
  locked fields (`BoardLaws`).
- *Sessions.* In every reachable table a member has at most one active session, ended is
  absorbing, invites and approvals are spent once, nothing signed after an epoch bump gets
  in before a renewal, and a member's work is one unbranched line across any number of
  hand-offs (`SessionLaws`, `Ratchet`, `WorkLines`, `FlockLaws`, `FlockTheorems`).
- *Live equals replay, through every crash.* What the live path seals, replay accepts, to
  the identical state, in every reachable state; and after a failed append at any byte of
  either file, a kill, power loss or a recovery that died half way, the server opens on the
  state just before or just after the transaction in flight, with everything callers were
  told honoured and the refusal chain valid (`LiveReplay`, `ServerRuns`, `CrashLaws`).
- *Progress.* An honest server can always end a live session; invites, enrolment, renewal,
  hand-offs and new rosters commit if and only if their rule holds (`Progress`,
  `EntryModel`, `EarlyClose`).
- *Watching.* A follower fed by one server is never told it is behind or diverged, a head
  that resumes pins the whole past, a stream ends exactly with the session's eligibility, a
  reader of an honest journal takes everything it is sent, and what it reported as saved
  never rolls back (`JournalModel`, `FollowModel`, `StreamModel`, `ReaderModel`,
  `Watching`).

**The bus** orders envelopes between agents: durable block reservation of sequences, a
bounded nonce cache with per-peer marks, token-guarded reply waiters, and exact-next session
streams. It is proved that sequences strictly increase across every restart and failed
reservation; that under every interleaving of the envelopes' tasks no sequence is handed on
twice, and one is refused exactly when an equal or later one of its signer was at the tracker
first; what exactly a reply from the wrong peer costs; that a reply completes at most one
registration and only from the expected peer; and that a session delivers a prefix of its own
peer's words whatever the carrier does (`SequenceModel`, `ReplayModel`, `InboxModel`,
`InboxRuns`, `ReplyModel`, `SessionStreamModel`).

## How the model is built

- A content id is the value it names, tagged by what it is, so ids are equal exactly when
  values are; a key and its fingerprint are one. A signature names its key and message.
  Certificates are chains checked link by link at an epoch. These are definitions, not
  axioms; only the session-stream results take unforged signatures as a hypothesis.
- A payload codec is any pair of functions that round-trips and decodes canonically; the
  four-byte header check is any function of the length bytes. The frame format around the
  payload is modelled byte by byte.
- Code that mutates is a class whose methods are proved equal to a function on its value
  (`Board`, `Sessions`, `Chain`, `State`, `Log`, `Server`, `Journal`, `Cursor`, `Follower`,
  `Fs`, `Reader`, `Sequencer`, `NonceCache`, `SequenceTracker`, `ReplyWaiter`, `Inbox`,
  `Writer`, `SessionReceiver`); the laws are proved of those functions. Code that only
  computes is a function with lemmas.
- A file is its durable bytes and its visible bytes. An append runs or dies after any number
  of bytes, before the sync, or after it; an I/O error is one of these. Power loss leaves
  the durable bytes and any part of what lies between them and the visible ones. For the
  atomically replaced files, power loss leaves the name on any file it has stood for since
  the directory was last synced, and a file never synced may hold anything.
- Random nonces, token digests and which bytes a failing step leaves are parameters. Threads
  are turns under the lock they take, in every order.

## What the proofs found

- `cursor_from` with a token of index 0 reads past the end of an empty journal
  (agent-mesh-flock-server/src/journal.rs:154-155); on a non-empty one it is "not a
  boundary". No record carries index 0. `JournalModel.Journal.CursorFrom` states the
  outcome for every index.
- A stream opened from before a session was eligible can close early: a session whose member
  was off the roster when it started is closed at the next epoch boundary of the replay,
  although it has become eligible since. `StreamModel.StreamEndsWithEligibility` gives the
  exact condition, and `EarlyClose.EligibleStreamIsCutShort` a log on which it fails.
- A responder that takes longer than the keepalive interval to accept has a keepalive as its
  frame 0, and the opener then refuses the session (agent-mesh-bus/src/session.rs:378-388),
  where docs/decisions/session_streams.md has frame 0 as the verdict.
  `SessionStreamModel.OpensExactly` gives the exact condition.
- The documentation of `follow` has anything shown already saved
  (agent-mesh-flock-session/src/reader.rs:168-169). A marker is reported without a save, and
  `apply` is public: after one that was not saved, a marker that agrees with it is reported
  and power loss takes it back (`ReaderModel.UnsavedMarkerIsLost`). What is held at a report
  survives if and only if all of it has been saved (`ReaderModel.MarkerSurvivesExactly`).
- A hand-off's `resume` stops being the ended session's last word as soon as that session's
  key authors anything more, which takes a key that is also the server's or a device's; if
  the server's, the hand-off itself already does it. `FlockTheorems.ResumeHoldsExactly`
  gives the exact condition, and `DoubledKey.OwnKeyIsDisplaced` a log on which it fails.
- A reply from another peer than the one asked is meant to leave the replay state alone, and
  the look at the waiters before the nonce is there for that
  (agent-mesh-bus/src/inbox.rs:279-284). Each envelope has a task of its own, and a request
  registered after that look is not seen by it: the reply then spends its nonce, and the
  expected reply with that nonce is turned away as a replay
  (`InboxRuns.LateRegistrationCostsTheReply`). `InboxRuns.WrongReplyCosts` gives the exact
  condition.
- For the same reason envelopes that arrive in order may reach the tracker out of order, and
  the earlier one is then refused (`InboxRuns.OvertakenIsRefused`, `InboxRuns.LateExactly`).
- `SequenceTracker` computes the sequence it expects as the mark plus one, which leaves
  64 bits when the mark is the largest sequence. The model wraps it, as a release build does;
  `ReplayModel.ExpectedIsLowest` says what is then reported.
- The epoch condition under which replay could refuse what the live path sealed
  (`Steps.LiveIsReplay`) cannot arise: `LiveReplay.PreparedReplays`.

## Where the design and the code differ

The model follows the code.

- The design's table (docs/decisions/flock.md:225-240) has no row for `nudge-misfire` or
  `device-cert` and no optional `of` on a nudge; nor does it state the limits on claims, file
  roots, or what a shepherd's roster may not change. Those rules of `DesignTable.Row` are the
  code's.
- The design calls a signer an operator when the roster lists it. The code resolves any
  device whose certificate is in the log, and asks for the listing where an `answer` is
  admitted or a hand-off approved.
- The design logs a writer fork as an attempt. The code refuses it and journals the refusal.
- The design has an invite signed by the roster role. The code has the server author it.

## Model

| member | source | states |
|---|---|---|
| `AdmissionScans.RosterIsWellFormed` | agent-mesh-flock/src/admission.rs:154-160 | the one-pass scan answers yes exactly when at most one member is delegate, names are unique and only operators list devices |
| `AdmissionScans.RootsAreWellFormed` | agent-mesh-flock/src/admission.rs:226-236 | the scan answers yes exactly when every root name is plain (1 to 64 of the allowed characters, not `.` or `..`) and none is declared twice |
| `AdmissionScans.RefsChecked` | agent-mesh-flock/src/admission.rs:377-424 | the loop over a kind's reference rules returns what the rules say: the event acted on, or the first rule broken |
| `DesignTable.AdmissionIsTheTable` | docs/decisions/flock.md:207-242 | for every board, event and signer: the event is admitted (plainly or as a conflict) if and only if it is new, well addressed, follows what it must, and the row of the design's table for its kind allows this signer and these references |
| `DesignTable.DecideIsItsChecks` | agent-mesh-flock/src/admission.rs:114-147 | the decision is the conjunction of its checks, so their order decides only which refusal is named |
| `DesignTable.SealedExactly` | agent-mesh-flock-server/src/state.rs:117-182 | the whole of admission on every state: an event is sealed if and only if some signer class of the design holds of its signature (key, live status, logged certificate, chain, epoch), the table's row for its kind allows that class, its session rule and first link hold, and the log has the certificate; and that class is the only one that does |
| `DesignTable.HandoffIsTheDesigns` | agent-mesh-flock-server/src/sessions.rs:287-334 | a hand-off passes its check if and only if it is the approved one for this flock, unspent, with context, from the member's holder to a pending session of the same member, resuming at the holder's last word, citing both starts and that word, and the approval is signed by whoever the roster gives the say: the shepherd's active session for helpers, a listed device for the shepherd and the delegate |
| `BoardLaws.ClosesAgree` | agent-mesh-flock/src/board.rs:318-327 | the kind-only rule and the table agree on what an admitted event closes; the target is on the board and of the one kind it may be; the event is flagged exactly when the target already has a closer, naming it |
| `BoardLaws.RosterRules` | agent-mesh-flock/src/admission.rs:182-221 | an admitted roster is well formed, replaces the current one, and leaves the locked fields alone unless the server signed it |
| `BoardFold.Board.Apply` | agent-mesh-flock/src/board.rs:153-194 | the board after one entry, and the verdict, are those of the fold step: nothing changes on a refusal or a duplicate; a flagged closer never replaces the first |
| `BoardFold.Board.Fold` | agent-mesh-flock/src/board.rs:139-150 | returns the folded board, or the first refused position and its refusal |
| `BoardLaws.FoldIsRun` | agent-mesh-flock/src/board.rs:139-150 | the fold succeeds exactly when no entry is refused on the way; its error is at the first refused position; then it is the board any other reader has |
| `BoardLaws.EveryRunKeepsBoard` | agent-mesh-flock/src/board.rs:153-194 | for every list of entries, refused ones included, from a well-formed genesis: entries are filed once and in order, heads are latest, the first closer is the recorded one and every later one carries its flag, rosters form one `replaces` line to genesis and stay well formed, delegate, devices and roots are those of the last server-signed roster |
| `BoardLaws.LongerRunExtends` | agent-mesh-flock/src/board.rs:153-194 | a longer log keeps every entry and every first closer of the shorter one |
| `BoardLaws.DoneIffClosed` | agent-mesh-flock/src/board.rs:245-288 | a brief is done exactly when it has a closer, which is a result, with that result's outcome |
| `BoardLaws.AttemptIsTheTable` | docs/decisions/flock.md:246-258 | a brief's state is the first row of the design's table that applies over everything admitted, not over positions scanned |
| `BoardLaws.DoneIsFinal` | agent-mesh-flock/src/board.rs:245-288 | a brief once completed or failed stays so, with the same outcome, in every extension of the log |
| `ChainModel.Chain.Advance` | agent-mesh-flock-server/src/chain.rs:55-59 | the chain after a record |
| `SessionModel.Sessions.Observe` | agent-mesh-flock-server/src/sessions.rs:437-517 | the session table after an admitted event is the table's transition for that event, for every kind |
| `Steps.LiveIsReplay` | agent-mesh-flock-server/src/state.rs:162-206 | what `prepare` sealed, `replay` accepts to the identical state, looking the certificate up by its citation; it is refused exactly when the genesis certificate does not cover the record's epoch |
| `Steps.MovesOf` | agent-mesh-flock-server/src/state.rs:117-142 | everything an accepted admission does: one new board entry, the next index and epoch, a legal change of the session table, a session signer active under a certificate of its own with `prev` its chain head |
| `SessionLaws.RowsStep` | agent-mesh-flock-server/src/sessions.rs:437-517 | every step keeps: an active session is its member's holder, a holder is never pending, each session's start is on the board and consumed an invite for its member |
| `SessionLaws.InvitesStep` | agent-mesh-flock-server/src/sessions.rs:224-245 | every step keeps consumed invites and sessions one to one |
| `SessionLaws.ApprovalsStep` | agent-mesh-flock-server/src/sessions.rs:287-334 | every step keeps the spent approvals exactly those of the hand-offs in the log, each of one hand-off |
| `Ratchet.CertsStep` | agent-mesh-flock-server/src/sessions.rs:116-129 | every step keeps: a session's certificates are its own, in the log, each bounded to one epoch no later than its last renewal |
| `WorkLines.LinesStep` | agent-mesh-flock-server/src/sessions.rs:414-431 | every step keeps the work-line laws below |
| `FlockLaws.EveryLogKeepsLaws` | agent-mesh-flock-server/src/state.rs:199-227 | every log that replays from a sound genesis leads to a state in which all laws hold, and its history is exactly the log's events in order |
| `FlockTheorems.OneActiveSession` | agent-mesh-flock-server/src/sessions.rs:437-517 | in every reachable table a member has at most one active session, it is the holder, and no pending session is a holder |
| `FlockTheorems.EndedIsForever` | agent-mesh-flock-server/src/sessions.rs:437-517 | between any two points of any log a session keeps its member, key and start; ended stays ended; pending is never re-entered; an activation is never rewritten; certificates and epoch only grow |
| `FlockTheorems.SpentOnce` | agent-mesh-flock-server/src/sessions.rs:437-497 | in no log do two session-starts consume one invite, or two hand-offs one approval |
| `FlockTheorems.EpochCountsBumps` | agent-mesh-flock-server/src/chain.rs:50-102 | the chain's epoch is the number of `epoch` events so far, every record's epoch the number up to and including it, every index its position |
| `FlockTheorems.SignedUnderLoggedCert` | agent-mesh-flock-server/src/sessions.rs:147-194 | whatever a session signed at any point of any log: it was active then, and the record cites a certificate that an earlier entry logged for it, bounded to exactly the record's epoch |
| `Ratchet.BumpLeavesAllBehind` | agent-mesh-flock-server/src/chain.rs:50-59 | after a bump every session's latest certificate is for an earlier epoch |
| `FlockTheorems.BehindUntilRenewed` | agent-mesh-flock-server/src/sessions.rs:256-270 | a session that is behind stays behind, and signs nothing at all, until its own `renewal` |
| `FlockTheorems.BumpCutsOff` | agent-mesh-flock-server/src/sessions.rs:256-270 | nothing any session signs after an epoch bump is admitted before that session's own renewal |
| `FlockTheorems.RecordsAreOneChain` | agent-mesh-flock-server/src/chain.rs:78-102 | every accepted log is one signed hash chain: each record is signed by the genesis server key, names its event, and has the record before it (or genesis) as its one parent |
| `FlockTheorems.HeadPinsHistory` | agent-mesh-flock-server/src/chain.rs:78-102 | two logs of one flock that end in the same record hold the same events and records throughout |
| `FlockTheorems.SessionsNeverInterleave` | agent-mesh-flock-server/src/sessions.rs:414-431 | events of one member: if the same session signed two of them it signed every one between |
| `FlockTheorems.OneLineOfWork` | agent-mesh-flock-server/src/sessions.rs:414-431 | over any number of hand-offs: a member's sessions hold the role in turn, each once; every session event was signed by the holder of that moment, with `prev` its author's previous event or, when first, the hand-off that activated it; each hand-off leads from one of the line to the next and resumed from what was then the ended session's last event or start; and, if no key doubles as a session's and the server's or a device's, that is still its last |
| `FlockTheorems.ResumeHoldsExactly` | agent-mesh-flock-server/src/sessions.rs:321-323 | for every log and every hand-off in it: `resume` is still the ended session's last word if and only if no event from the hand-off on, itself included, is authored by that session's key |
| `DoubledKey.OwnKeyIsDisplaced` | agent-mesh-flock-server/src/sessions.rs:224-323 | that condition can fail: in every flock of a shepherd and an operator with a device there is a log that plays, in which a session enrolled under the server's own key is handed off by an approved hand-off whose `resume` is then not that session's last word |
| `StateModel.State.Replay` | agent-mesh-flock-server/src/state.rs:199-207 | one retained entry: the new state, or the error with the state untouched |
| `StateModel.State.ReplayFrame` | agent-mesh-flock-server/src/state.rs:82-98 | the loop over a frame is the frame's replay, with the rule that a roster dropping a member is followed by its bump |
| `ServerClass.RebuildPublished` | agent-mesh-flock-server/src/state.rs:258-297 | the loop over the retained frames is the replay from genesis, with who is eligible after each frame, or its first error |
| `StateModel.CheckFrameShape` | agent-mesh-flock-server/src/state.rs:57-68 | yes exactly when every `session-end` and `handoff` is followed at once by an `epoch` |
| `FrameLaws.RebuildIsPlay` | agent-mesh-flock-server/src/state.rs:266-297 | a list of frames that rebuilds is, flattened, a log that replays entry by entry to the same state |
| `FrameLaws.OnlyBumpsRevoke` | agent-mesh-flock-server/src/state.rs:103-113 | a committed frame without an `epoch` event takes no session out of the eligible set |
| `Codec.Parse` | agent-mesh-flock-server/src/log.rs:141-165 | the parse loop terminates with the whole frames and their offsets, where they end, and where an incomplete one begins; or the offset of the first damage |
| `Codec.WholeReads` | agent-mesh-flock-server/src/frame.rs:158-177 | an encoded frame reads back as its value, at any offset |
| `Codec.CutReadsTorn` | agent-mesh-flock-server/src/frame.rs:158-177 | a frame cut anywhere short of its end reads as torn, never as damage |
| `Codec.WholeIsEncoded` | agent-mesh-flock-server/src/frame.rs:130-141 | what reads as a frame is, byte for byte, that value's encoding |
| `Codec.PrefixParses` | agent-mesh-flock-server/src/log.rs:141-165 | for every list of values and every byte prefix of their encoding: exactly the frames wholly inside, the cut at the first incomplete one, none at a boundary, never corruption |
| `Codec.ParsedIsEncoded` | agent-mesh-flock-server/src/log.rs:141-165 | whatever parses is, up to where it ends, the encoding of what it parsed to |
| `LogModel.Log.Open` | agent-mesh-flock-server/src/log.rs:54-72 | parses without touching the file, notes a torn tail, or reports the damaged offset |
| `LogModel.Log.CommitRecovery` | agent-mesh-flock-server/src/log.rs:78-90 | cuts a noted tail and makes what is kept durable, cut or not; or fails before doing anything, or with the tail cut and nothing synced |
| `LogModel.Log.Append` | agent-mesh-flock-server/src/log.rs:107-133 | the file, the end and the result after an append that runs or dies at any of the planned points |
| `LogModel.InFlightParses` | agent-mesh-flock-server/src/log.rs:54-91 | whatever an append in flight and any crash left: the file parses to the old frames or those and the new one, and recovery settles it on exactly them |
| `LogModel.CutThenAppend` | agent-mesh-flock-server/src/log.rs:78-133 | cutting a torn file and appending again parses to the old whole frames and the new one, with nothing to cut |
| `LiveReplay.PreparedReplays` | agent-mesh-flock-server/src/state.rs:162-227 | in every reachable state, whatever the live path seals replay takes in to the same state: the epoch condition always holds, because only the genesis certificate can sign a bump |
| `LiveReplay.BumpUnderGenesisCert` | agent-mesh-flock-server/src/chain.rs:78-102 | no other certificate of the server's key signs an epoch bump: each is bounded to an epoch already over |
| `LiveReplay.DecisionReplays` | agent-mesh-flock-server/src/server.rs:294-369 | every frame `admit` decides to write is accepted by replay as one frame, to the state the server will hold, with the event at the index of the receipt |
| `LiveReplay.TransactionReplays` | agent-mesh-flock-server/src/server.rs:374-396 | the same for every transaction of server-authored events |
| `RefusalChain.VerifyEntries` | agent-mesh-flock-server/src/server.rs:79-95 | the loop over the refusal file verifies the chain, or names its first fault |
| `RefusalChain.ChainKeepsVerifying` | agent-mesh-flock-server/src/refusal.rs:170-197 | a refusal chain that verified keeps verifying as the log and the epoch grow |
| `ServerRuns.RefusalExtends` | agent-mesh-flock-server/src/server.rs:406-429 | a fresh refusal extends the chain and counts no more admissions than there are |
| `CrashLaws.StepKeeps` | agent-mesh-flock-server/src/server.rs:57-111 | every call, failed append, kill, power loss, reopening and half-done recovery keeps: both files durably hold everything promised, and a running server holds exactly that |
| `CrashLaws.OpenSucceeds` | agent-mesh-flock-server/src/server.rs:57-111 | on whatever a crash left, opening succeeds with each in-flight append wholly there or wholly gone |
| `CrashLaws.FrameLands` | agent-mesh-flock-server/src/server.rs:374-396 | the events of a committed frame are on the board, each under its own id, at consecutive indices after those there were |
| `CrashLaws.NothingToldIsLost` | agent-mesh-flock-server/src/server.rs:350-394 | over any run, frames once published and refusals once journaled stay a prefix, and what callers were once told (receipts, and the ids a call committed) stays good |
| `CrashLaws.EveryCrashRecovers` | agent-mesh-flock-server/src/server.rs:294-429 | after any run that ended with the server down it opens: the state is the one just before or just after the transaction in flight, every event a caller was told of (by a receipt, or as an id a call committed) is on the board at its index, and the refusal chain verifies |
| `CrashLaws.PublishedIsDurable` | agent-mesh-flock-server/src/server.rs:70-111 | in every running state what is published is durable byte for byte and replays to exactly the live board, chain and session table, each frame with the eligible set after it |
| `ServerClass.Open` | agent-mesh-flock-server/src/server.rs:57-111 | opening is the specified one: parse both files, verify everything retained, only then cut and sync, the log first; on any error before that both files are untouched, and a recovery that fails at any step leaves exactly what the run model says it leaves |
| `ServerClass.Server.Admit` | agent-mesh-flock-server/src/server.rs:294-369 | the whole new server state and the result of one admission, including refusals journaled, the roster bump, and stopping for good on a failed append |
| `ServerClass.Server.Transact` | agent-mesh-flock-server/src/server.rs:374-396 | the whole new state of one transaction, and the ids of its events in order; on a failure before the append nothing changes |
| `ServerClass.Server.RecordRefusal` | agent-mesh-flock-server/src/server.rs:406-429 | the refusal file, chain and list after a refusal, or a stopped server |
| `Progress.ServerEventPrepares` | agent-mesh-flock-server/src/state.rs:231-254 | in every reachable state of an honest server, a bookkeeping event it authors is sealed if and only if its session rule holds and the genesis certificate covers its epoch |
| `Progress.EndingBuilds` | agent-mesh-flock-server/src/entry.rs:157-178 | ending any live session passes every check exactly when the genesis certificate covers the next epoch; then that session alone is over and the epoch has moved |
| `Progress.EndingCommits` | agent-mesh-flock-server/src/entry.rs:157-178 | at any point of any life of an honest server, whatever crashes came before: ending a live session commits `session-end` and `epoch` as one frame, given that the certificate covers the next epoch, the frame fits and the disk does not fail |
| `EntryModel.InvitationCommits` | agent-mesh-flock-server/src/entry.rs:64-80 | an invite is recorded exactly for a member on the roster under a fresh verifier, and is then there unused |
| `EntryModel.AnsweredOnce` | agent-mesh-flock-server/src/entry.rs:364-382 | between two successful answers to one challenge it was issued again |
| `EntryModel.MintedFits` | agent-mesh-flock-server/src/entry.rs:385-403 | a certificate the server mints passes its own check for the proven key and for no other |
| `EntryModel.EnrollmentCommits` | agent-mesh-flock-server/src/entry.rs:120-149 | answering an enrolment challenge starts the session if and only if the token is still unused and the key unknown; it is active if the member's first, pending otherwise; the token is spent; no other session changes |
| `EntryModel.RenewalCommits` | agent-mesh-flock-server/src/entry.rs:229-254 | answering a renewal challenge succeeds if and only if the session is behind and the proven key is its own; only that session's certificates and epoch change |
| `EntryModel.RenewalAnswers` | agent-mesh-flock-server/src/entry.rs:209-254 | a renewal challenge is issued exactly to a live session that is behind, on a certificate logged for it, and answering it with that session's key renews it |
| `EntryModel.HandoffCommits` | agent-mesh-flock-server/src/entry.rs:324-355 | a hand-off commits if and only if its rule holds and the certificate covers the next epoch; in that frame the old session ends, the new one is active and the holder, the approval is spent, the epoch moves |
| `EarlyClose.RosterCommits` | agent-mesh-flock-server/src/entry.rs:278-300 | replacing the roster commits if and only if the new one is well formed and, if it drops anyone, the certificate covers the next epoch; it is then the roster, no session has changed, and the epoch moves in the same frame exactly if somebody was dropped |
| `EntryModel.LifeOfASession` | agent-mesh-flock-server/src/entry.rs:64-178 | in every reachable state of an honest server with an unbounded certificate, for every roster member, fresh token and fresh key: inviting, enrolling on a proof of possession and ending commit one after the other; the session is live in between, active exactly if the member's first, and over at the end |
| `ServerClass.Server.Perform` | agent-mesh-flock-server/src/entry.rs:64-355 | the whole new state of each call that makes the server author events, and the ids of what it committed |
| `ServerClass.Server.BeginEnrollment` | agent-mesh-flock-server/src/entry.rs:88-112 | a challenge is issued exactly for a known, unused token of that member and a new key; nothing else changes |
| `ServerClass.Server.FinishEnrollment` | agent-mesh-flock-server/src/entry.rs:120-149 | the challenge is spent whatever happens; the new state; and the session's name, its certificate, and whether it is pending |
| `ServerClass.Server.BeginRenewal` | agent-mesh-flock-server/src/entry.rs:209-222 | a challenge is issued exactly for a live session that is behind, presenting a certificate logged for it |
| `ServerClass.Server.FinishRenewal` | agent-mesh-flock-server/src/entry.rs:229-254 | the challenge is spent whatever happens; refused if the epoch moved or the session ended |
| `JournalModel.PartitionPoint` | agent-mesh-flock-server/src/journal.rs:154 | binary search: every frame before the position ends below the index, every one from it on does not |
| `JournalModel.Journal.CursorFrom` | agent-mesh-flock-server/src/journal.rs:144-172 | the outcome is the one place the token means: behind exactly past the end, not a boundary exactly when no whole number of frames ends there, diverged exactly when the record there is another, otherwise just after the frames it has seen; and index 0, which no record carries, is never honoured |
| `JournalModel.ResumeIsOnePlace` | agent-mesh-flock-server/src/journal.rs:144-172 | a token has exactly one such outcome |
| `JournalModel.Cursor.NextFrame` | agent-mesh-flock-server/src/journal.rs:226-244 | the wait loop returns at the first wake that makes it ready or finished, moving on exactly when it returns a frame |
| `JournalModel.NoGapNoRepeat` | agent-mesh-flock-server/src/journal.rs:190-245 | under every interleaving with publish, stop and cancel a cursor has been told exactly the frames from where it began to where it is |
| `JournalModel.CancelledIsFinal` | agent-mesh-flock-server/src/journal.rs:190-200 | once cancelled a cursor is told nothing more |
| `JournalModel.StopDrains` | agent-mesh-flock-server/src/journal.rs:226-244 | after a stop the cursor is told every frame left, then it is finished |
| `FollowModel.Follower.Apply` | agent-mesh-flock-server/src/follow.rs:63-82 | all of a frame or none of it: on an error the follower's state and head are as they were |
| `FollowModel.FollowerIsReplay` | agent-mesh-flock-server/src/follow.rs:63-82 | a follower accepts exactly the frames replay accepts, to the same state |
| `FollowModel.FollowersRebuild` | agent-mesh-flock-server/src/follow.rs:63-82 | follower and rebuild accept the same lists of frames and agree on the state |
| `FollowModel.FollowerIsNeverLost` | agent-mesh-flock-server/src/journal.rs:117-172 | a follower fed by one server over any crashes and reopenings, even one that holds everything published: its head always resumes at its own place, never behind, diverged or off a boundary; and every frame of the journal extends the ones before it, up to the server's state |
| `FollowModel.ResumeMeansSamePast` | agent-mesh-flock-server/src/journal.rs:144-172 | against any server whose journal verifies: if the follower's head resumes there, everything before the cursor is the follower's own past, event by event |
| `FollowModel.SnapshotReadsClean` | agent-mesh-flock-server/src/read.rs:30-35 | beside a server at any point of any life a snapshot reads the state just before or just after an append in flight, never damage; torn only when one is in flight |
| `StreamModel.StreamFrames` | agent-mesh-flock-server/src/serve.rs:636-675 | the loop says exactly the specified messages, or, when the connection fails after some number of writes, exactly that many of them |
| `StreamModel.SaysWhatIsSent` | agent-mesh-flock-server/src/serve.rs:636-675 | the frames among those messages are the ones up to and including the first that ends the stream, and the closing message says whether one did |
| `StreamModel.MarkerIsInItsPlace` | agent-mesh-flock-server/src/serve.rs:641-649 | the catch-up marker carries the index of the last frame before it (or the cursor's place), comes at the first point at or past the replay's end, and comes once |
| `StreamModel.MarkerIsSaid` | agent-mesh-flock-server/src/serve.rs:641-649 | it is never left out: once the replay's end is reached it is said before anything else, except the close after a frame that ends the stream |
| `StreamModel.StreamEndsWithEligibility` | agent-mesh-flock-server/src/serve.rs:636-675 | for a session eligible where its cursor stands the stream sends every frame up to and including the first that removes it and nothing after; for a cursor before the session was eligible, exactly when no epoch boundary at or after its start finds it not eligible |
| `EarlyClose.EligibleStreamIsCutShort` | agent-mesh-flock-server/src/serve.rs:636-675 | that condition can fail: for every flock of two members there is a log on which the server lets a session open a stream from the start, and closes it before the end although the session is eligible |
| `StreamModel.AuthorizedIsEligible` | agent-mesh-flock-server/src/server.rs:188-215 | whoever may open a stream signed this very challenge, is the member's active holder, is eligible then, and has renewed at the current epoch |
| `FsModel.SaveAtomic` | agent-mesh-flock-session/src/fs.rs:98-104 | the directory after a save that completes or fails at any of its four steps |
| `ReaderModel.OpenReader` | agent-mesh-flock-session/src/reader.rs:56-102 | what is visible is made durable before it is shown; a failed sync, a damaged or unverifiable file refuses |
| `ReaderModel.Reader.ApplySaved` | agent-mesh-flock-session/src/reader.rs:124-134 | apply and save as one step; a failed save leaves exactly the frames and follower held before |
| `ReaderModel.FollowOn` | agent-mesh-flock-session/src/reader.rs:189-220 | what is reported, how following ends, the frames held and the directory are those of following as specified: each frame is applied and saved before it is reported, a marker is reported only when it agrees, and it stops at the first failure, the close, or with `once` the marker |
| `ReaderModel.WatchedIsLived` | agent-mesh-flock-session/src/reader.rs:189-220 | the directory afterwards is what applying and saving the frames of the events used leaves, each once and in order; the reader holds what it held and what it reported; and once a frame is reported everything held is witnessed |
| `ReaderModel.NothingIsSkipped` | agent-mesh-flock-session/src/reader.rs:189-220 | reports are of the events in order and none is skipped: every event used is reported, a frame only if its save completed, except perhaps the last, where following ended; it ends well only at a close or, with `once`, at a reported marker |
| `ReaderModel.MarkersAgree` | agent-mesh-flock-session/src/reader.rs:203-213 | a reported marker is how many events the frames held at that report make, and those frames verify |
| `Watching.ReaderAgreesWithServer` | agent-mesh-flock-session/src/reader.rs:189-220 | a reader following a server's own journal from any place, however soon the connection fails, never sees a rollback, a bad frame or a wrong marker; and if its saves succeed and the stream is carried to its close it ends holding every frame the server had to send |
| `ReaderModel.DeedIsSafe` | agent-mesh-flock-session/src/reader.rs:56-149 | every opening, apply, save, death and power loss keeps: whatever file may be found verifies and extends everything shown |
| `ReaderModel.HeadNeverRollsBack` | agent-mesh-flock-session/src/reader.rs:56-220 | a reader with any past follows a stream and then anything happens to it (failed saves, deaths, power losses, other streams): the next opening shows at least the frames held at each report of a frame, and at each report of a marker if a frame was reported before it or everything held had been saved |
| `ReaderModel.MarkerSurvivesExactly` | agent-mesh-flock-session/src/reader.rs:203-213 | at any point of any life: what an open reader holds survives every power loss if and only if everything it holds has been saved |
| `ReaderModel.UnsavedMarkerIsLost` | agent-mesh-flock-session/src/reader.rs:115-119 | a marker can be reported and lost: a frame applied and not saved, an agreeing marker reported, the power lost, and the reader opens on nothing |
| `SequenceModel.Sequencer.Next` | agent-mesh-bus/src/sequence.rs:246-261 | the sequence, the sequencer and the reservation after a call, with 64-bit exhaustion and saturation, for each way a reservation may fail |
| `SequenceModel.IssuedStrictlyIncrease` | agent-mesh-bus/src/sequence.rs:84-102 | over every life of a sender, through restarts, crashes, power loss and failed reservations (a directory sync failing after the rename included): sequences issued strictly increase and none exceeds any reservation that may be found |
| `ReplayModel.NonceCache.CheckAndInsert` | agent-mesh-bus/src/replay.rs:58-71 | the eviction loop leaves the last `capacity` nonces; a nonce is refused exactly when held |
| `ReplayModel.CacheIsAWindow` | agent-mesh-bus/src/replay.rs:58-71 | over any run the cache holds exactly the last `capacity` nonces it let in |
| `ReplayModel.SequenceTracker.CheckAndAdvance` | agent-mesh-bus/src/replay.rs:111-124 | accepted and advanced exactly when past the peer's mark |
| `ReplayModel.ExpectedIsLowest` | agent-mesh-bus/src/replay.rs:111-124 | the sequence a refusal names as expected is the lowest that would be taken if and only if the mark is not the largest 64-bit number; at that mark it is 0 and nothing is ever taken again |
| `InboxModel.Inbox.Receive` | agent-mesh-bus/src/inbox.rs:266-362 | an envelope handled with nothing in between is its four turns in a row: what it leaves of the nonces, marks and waiters, and what became of it |
| `InboxModel.Inbox.Check` | agent-mesh-bus/src/inbox.rs:275-302 | on whatever the inbox then holds: admission, then for a reply who is awaited; nothing is changed |
| `InboxModel.Inbox.SpendNonce` | agent-mesh-bus/src/inbox.rs:304-310 | on whatever the inbox then holds: the cache after the nonce, and whether it was fresh |
| `InboxModel.Inbox.MoveMark` | agent-mesh-bus/src/inbox.rs:311-323 | on whatever the inbox then holds: the marks after the sequence, or the refusal and what it names |
| `InboxModel.Inbox.HandOn` | agent-mesh-bus/src/inbox.rs:325-362 | on whatever the inbox then holds: a parse failure, a dispatch, or a reply that takes its waiter, finds none, or finds one for another peer |
| `InboxRuns.WhatItCost` | agent-mesh-bus/src/inbox.rs:266-362 | under every interleaving of the locked steps of any number of envelopes with registering and dropping: exactly which outcomes have spent the envelope's nonce and which have moved its signer's mark |
| `InboxRuns.WrongReplyCosts` | agent-mesh-bus/src/inbox.rs:276-302 | in every such run: a reply set aside met a registration of its correlation for another peer; and it has spent its nonce, and moved its mark, if and only if that registration was made after the reply was checked |
| `InboxRuns.LateRegistrationCostsTheReply` | agent-mesh-bus/src/inbox.rs:276-355 | a run in which that costs the expected reply: checked while nobody is awaited, registered, then the nonce spent; the awaited peer's reply with that nonce is a replay, its waiter still there |
| `InboxRuns.OnlyDeliveriesTake` | agent-mesh-bus/src/reply.rs:133-160 | in every run a turn of an envelope changes the waiters only if the envelope's outcome is, for good, the delivery to the waiter it took; so no reply from the wrong peer ever does |
| `InboxRuns.WaitersAreTheReplies` | agent-mesh-bus/src/reply.rs:107-190 | the waiters of every run are those of its registrations, drops and takings alone, so all that holds of every exchange holds of them |
| `InboxRuns.TurnedAwayLeavesNoTrace` | agent-mesh-bus/src/inbox.rs:266-325 | had any of the envelopes that spent no nonce never taken a turn, the cache, the marks and the waiters would be the same and every other envelope would have met the same fate |
| `InboxRuns.AdmissionComesFirst` | agent-mesh-bus/src/inbox.rs:255-273 | in every run an envelope that fails admission is turned away with that error, and only admitted ones spend a nonce or come to the tracker |
| `InboxRuns.ReplayIsTheWindow` | agent-mesh-bus/src/inbox.rs:304-310 | in every run the cache is the last 4096 nonces spent, whatever became of their envelopes; an envelope at the cache is a replay exactly when its nonce is among them |
| `InboxRuns.PassedInOrder` | agent-mesh-bus/src/replay.rs:111-124 | in every run the sequences of a signer that get past the tracker strictly increase, in the order they do |
| `InboxRuns.HandedOnOnce` | agent-mesh-bus/src/inbox.rs:311-362 | in every run no two envelopes of one signer with one sequence are both handed on, even after the nonce has left the cache |
| `InboxRuns.LateExactly` | agent-mesh-bus/src/replay.rs:111-124 | an envelope is refused for its sequence if and only if an equal or later one of its signer took the tracker's lock first, or the sequence is 0 |
| `InboxRuns.OvertakenIsRefused` | agent-mesh-bus/src/bus.rs:1014-1053 | arriving in order is not enough: two envelopes of one signer, the later one first at the tracker, and the earlier one is refused |
| `InboxRuns.RestartsAreNeverLate` | agent-mesh-bus/src/sequence.rs:205-261 | sender and receiver together: while only sequences issued before it have come to the tracker, nothing a sender issues over any restarts, crashes and failed reservations is refused for its sequence, among any traffic of others and anything that fails admission in the sender's name |
| `ReplyModel.CompletedAtMostOnce` | agent-mesh-bus/src/reply.rs:107-220 | under every interleaving of registering, re-registering, taking, sending and dropping: each registration is completed at most once and only from its expected peer |
| `ReplyModel.WaitersAreAwaited` | agent-mesh-bus/src/reply.rs:107-220 | under every such interleaving: every waiter left belongs to a registration whose receiver nobody has begun to drop, and no delivery has taken it |
| `ReplyModel.ReplyWaiter.Register` | agent-mesh-bus/src/reply.rs:107-125 | the map after a registration is the exchange's step, with the token its place among all registrations |
| `ReplyModel.ReplyWaiter.TakeFor` | agent-mesh-bus/src/reply.rs:133-160 | the locked half of a delivery is the exchange's step; what it found and how it compares |
| `ReplyModel.ReplyWaiter.Cancel` | agent-mesh-bus/src/reply.rs:182-190 | dropping a receiver removes its own registration and no other |
| `ReplyModel.OutcomesAreFinal` | agent-mesh-bus/src/reply.rs:133-160 | a completed delivery is never changed |
| `SessionStreamModel.Writer.Write` | agent-mesh-bus/src/session.rs:126-151 | the writer after a frame that is flushed, torn or never begun |
| `SessionStreamModel.FramedOnceEach` | agent-mesh-bus/src/session.rs:126-151 | however sends end, the frames a writer signed are numbered 0, 1, 2 and so on: no sequence of a direction is framed twice |
| `SessionStreamModel.SessionReceiver.Receive` | agent-mesh-bus/src/session.rs:234-251 | the loop returns the next message, the goodbye or the failure, and remembers failure and close |
| `SessionStreamModel.MessagesAreReceived` | agent-mesh-bus/src/session.rs:234-251 | the messages of repeated calls are one sequence, each call the next of it; a receiver that has failed or been told goodbye yields nothing later, whatever arrives |
| `SessionStreamModel.ReceivedIsAPrefix` | agent-mesh-bus/src/session.rs:256-297 | whatever the carrier drops, repeats, reorders or splices in: the bodies received are a prefix, in order, of the data bodies the peer framed |
| `SessionStreamModel.OnlyThePeersWords` | agent-mesh-bus/src/session.rs:256-297 | the same among all sessions anyone ever wrote, from unforged signatures, distinct session ids and distinct agents alone |
| `SessionStreamModel.OpensExactly` | agent-mesh-bus/src/session.rs:360-388 | a session opens, or is refused with a reason, if and only if the first frame the responder began writing is that verdict and it is what arrives first; so a keepalive begun before the accept, flushed or torn, closes the door on it |
| `SessionStreamModel.OpenedReceives` | agent-mesh-bus/src/session.rs:360-388 | a session that opened receives only what the responder framed after its accept, in order |

## Left out

- Lane views, labels and conflict listings of the board: folds of what is modelled that add no harder claim.
- Sockets, accept loops, thread joining, the epoch `Signal` and the request dispatch of serve.rs, apart from who may open a stream and the stream loop.
- QUIC, discovery, dial-back, timers and the handlers behind dispatch: a timeout, a broken carrier and a cancelled send are inputs here.
- Key files, file modes, directory locks and root paths: operating-system calls. One writer per log and one reader per directory are taken as given.
- `renewal_challenges`, which issues one challenge to each live session that is behind: a loop over what `ServerClass.Server.BeginRenewal` does.
- The genesis file's own checks: `GenesisOk` is what loading one establishes (a user's certificate that holds at epoch 0, a well-formed roster).
- Encoding failures: every event, record and certificate has an encoding. A frame or refusal of 4 GiB or more is modelled and stops the server.
- The commit conditions of registering a device and of changing the roots: one-event transactions like those stated.
- The size limit of a message to a watcher: any predicate on frames.
- The texts inside errors and refusals: an error is its kind, so `MissingRef`, `UnexpectedRef` and the like do not name the role.
- Overflow of the 64-bit index, epoch, reply token and frame counter of a session: they are unbounded here. Sequences of the bus are 64-bit.
- The decimal text of the reservation file and platforms without a directory sync: the file is a number, and a bind that cannot read it is not modelled.
- `Server.serve_roots` and the mapping of roots to directories: local configuration outside the log.
- ReplyModel.ReplyWaiter: a registration draws its token just before it takes the lock; here it does both at once. Tokens are only compared for equality, so which of two draws the lower one decides nothing.
- ReaderModel.OpenReader: removing a leftover temporary file always succeeds here; the original ignores a failure, which the next save reports.
