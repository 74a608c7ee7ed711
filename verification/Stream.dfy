/** Watching the log: what a stream says of the journal, and where it stops. */
module StreamModel {
  import opened Results
  import opened Schema
  import opened BoardModel
  import opened BoardFold
  import opened SessionModel
  import opened StateModel
  import opened History
  import opened SessionLaws
  import opened WorkLines
  import opened Ratchet
  import opened BoardLaws
  import opened FlockLaws
  import opened FrameLaws
  import opened FlockTheorems
  import opened ServerModel
  import opened LiveReplay
  import opened ServerRuns
  import opened JournalModel
  import opened FollowModel

  datatype Message =
    | FrameMessage(frame: Frame)
    | CaughtUp(index: nat)
    | CloseMessage(sessionOver: bool)

  /** A frame that ends the stream after it is sent: an epoch boundary, at or after the
      session's start, past which the session is not eligible. */
  predicate Over(p: Published, session: string, fromIndex: nat) {
    HasBump(p.frame) && LastIndex(p.frame) >= fromIndex && session !in p.eligible
  }

  /** What is sent of the frames a cursor delivers. */
  function Sent(ps: seq<Published>, session: string, fromIndex: nat): seq<Published> {
    if |ps| == 0 then []
    else [ps[0]] + if Over(ps[0], session, fromIndex) then [] else Sent(ps[1..], session, fromIndex)
  }

  function FramesIn(ms: seq<Message>): seq<Frame> {
    if |ms| == 0 then []
    else (if ms[0].FrameMessage? then [ms[0].frame] else []) + FramesIn(ms[1..])
  }

  /** How far the log is after a frame. */
  function FarAfter(at: nat, f: Frame): nat {
    if |f| == 0 then at else LastIndex(f)
  }

  /** How far the log is after some messages, from `at`. */
  function Reached(at: nat, ms: seq<Message>): nat
    decreases |ms|
  {
    if |ms| == 0 then at
    else Reached(if ms[0].FrameMessage? then FarAfter(at, ms[0].frame) else at, ms[1..])
  }

  /** Everything the stream has to say of the frames its cursor delivers: each frame, one
      marker as soon as the replay's end is reached, and a close. */
  function Says(ps: seq<Published>, session: string, fromIndex: nat, replayEnd: nat, at: nat, caught: bool): (ms: seq<Message>)
    ensures |ms| > 0
    decreases |ps|, !caught
  {
    if !caught && at >= replayEnd then [CaughtUp(at)] + Says(ps, session, fromIndex, replayEnd, at, true)
    else if |ps| == 0 then [CloseMessage(false)]
    else
      [FrameMessage(ps[0].frame)] +
      if Over(ps[0], session, fromIndex) then [CloseMessage(true)]
      else Says(ps[1..], session, fromIndex, replayEnd, FarAfter(at, ps[0].frame), caught)
  }

  /** The stream's loop over the frames its cursor delivers. `writes` is how many messages
      the peer takes before the connection fails; `delivered` is where the cursor begins. */
  method StreamFrames(ps: seq<Published>, session: string, fromIndex: nat, replayEnd: nat, delivered: nat, writes: nat)
    returns (ms: seq<Message>, failed: bool)
    ensures
      var says := Says(ps, session, fromIndex, replayEnd, delivered, false);
      && failed == (|says| > writes)
      && ms == if failed then says[..writes] else says
  {
    hide Over, FarAfter, Says;
    ms := [];
    var caught, at: nat, i := false, delivered, 0;
    ghost var says := Says(ps, session, fromIndex, replayEnd, delivered, false);
    ghost var rest := says;
    assert ms + rest == says && ps[0..] == ps;
    while true
      invariant i <= |ps| && |ms| <= writes
      invariant says == ms + rest && rest == Says(ps[i..], session, fromIndex, replayEnd, at, caught)
      decreases |ps| - i
    {
      SaysNext(ps, session, fromIndex, replayEnd, at, caught, i);
      if !caught && at >= replayEnd {
        caught := true;
        if |ms| == writes {
          return ms, true;
        }
        ms, rest := Told(ms, CaughtUp(at), rest), rest[1..];
      }
      if |ms| == writes {
        return ms, true;
      }
      if i == |ps| {
        return Told(ms, CloseMessage(false), rest), false;
      }
      at := FarAfter(at, ps[i].frame);
      var over := Over(ps[i], session, fromIndex);
      ms, rest := Told(ms, FrameMessage(ps[i].frame), rest), rest[1..];
      if over {
        if |ms| == writes {
          return ms, true;
        }
        return Told(ms, CloseMessage(true), rest), false;
      }
      i := i + 1;
    }
  }

  /** One more message told, the first of the rest. */
  function Told(ms: seq<Message>, m: Message, ghost rest: seq<Message>): (r: seq<Message>)
    requires |rest| > 0 && rest[0] == m
    ensures r == ms + [m] && r + rest[1..] == ms + rest
  {
    ms + [m]
  }

  lemma SaysNext(ps: seq<Published>, session: string, fromIndex: nat, replayEnd: nat, at: nat, caught: bool, i: nat)
    requires i <= |ps|
    ensures
      var caught' := caught || at >= replayEnd;
      && Says(ps[i..], session, fromIndex, replayEnd, at, caught)
         == (if caught' && !caught then [CaughtUp(at)] else []) + Says(ps[i..], session, fromIndex, replayEnd, at, caught')
      && Says(ps[i..], session, fromIndex, replayEnd, at, caught')
         == if i == |ps| then [CloseMessage(false)]
            else [FrameMessage(ps[i].frame)] +
                 if Over(ps[i], session, fromIndex) then [CloseMessage(true)]
                 else Says(ps[i + 1..], session, fromIndex, replayEnd, FarAfter(at, ps[i].frame), caught')
  {
    hide Over, LastIndex;
    assert i < |ps| ==> ps[i..][1..] == ps[i + 1..];
  }

  /** The frames said are those up to the first that ends it, and the close says which. */
  lemma {:induction false} SaysWhatIsSent(
    ps: seq<Published>, session: string, fromIndex: nat, replayEnd: nat, at: nat, caught: bool)
    ensures
      var ms := Says(ps, session, fromIndex, replayEnd, at, caught);
      && FramesIn(ms) == FramesOf(Sent(ps, session, fromIndex))
      && ms[|ms| - 1] == CloseMessage(AnyOver(ps, session, fromIndex))
    decreases |ps|, !caught
  {
    hide Over, FramesIn, FramesOf, LastIndex, AnyOver;
    NoFrames();
    OverFirst(ps, session, fromIndex);
    FirstFrame(CloseMessage(true), []);
    FirstFrame(CloseMessage(false), []);
    if !caught && at >= replayEnd {
      SaysWhatIsSent(ps, session, fromIndex, replayEnd, at, true);
      FirstFrame(CaughtUp(at), Says(ps, session, fromIndex, replayEnd, at, true));
    } else if |ps| > 0 {
      FramesOfFirst(ps[0], Sent(ps[1..], session, fromIndex));
      FramesOfFirst(ps[0], []);
      if Over(ps[0], session, fromIndex) {
        FirstFrame(FrameMessage(ps[0].frame), [CloseMessage(true)]);
      } else {
        var at' := FarAfter(at, ps[0].frame);
        SaysWhatIsSent(ps[1..], session, fromIndex, replayEnd, at', caught);
        FirstFrame(FrameMessage(ps[0].frame), Says(ps[1..], session, fromIndex, replayEnd, at', caught));
      }
    }
  }

  ghost predicate AnyOver(ps: seq<Published>, session: string, fromIndex: nat) {
    exists i :: 0 <= i < |ps| && Over(ps[i], session, fromIndex)
  }

  lemma OverFirst(ps: seq<Published>, session: string, fromIndex: nat)
    ensures
      AnyOver(ps, session, fromIndex) <==>
      |ps| > 0 && (Over(ps[0], session, fromIndex) || AnyOver(ps[1..], session, fromIndex))
  {
    hide Over;
    if |ps| > 0 && AnyOver(ps[1..], session, fromIndex) {
      var i :| 0 <= i < |ps[1..]| && Over(ps[1..][i], session, fromIndex);
      assert Over(ps[i + 1], session, fromIndex);
    }
    if AnyOver(ps, session, fromIndex) && !Over(ps[0], session, fromIndex) {
      var i :| 0 <= i < |ps| && Over(ps[i], session, fromIndex);
      assert ps[1..][i - 1] == ps[i];
    }
  }

  lemma NoFrames()
    ensures FramesIn([]) == FramesOf([]) == []
  {
  }

  lemma FirstFrame(m: Message, rest: seq<Message>)
    ensures FramesIn([m] + rest) == (if m.FrameMessage? then [m.frame] else []) + FramesIn(rest)
    ensures [m] + [] == [m]
  {
    assert ([m] + rest)[1..] == rest;
  }

  lemma FramesOfFirst(p: Published, rest: seq<Published>)
    ensures FramesOf([p] + rest) == [p.frame] + FramesOf(rest)
    ensures [p] + [] == [p]
  {
  }

  /** The marker at `j`: it carries how far the log is there, at or past the replay's end, and
      nowhere before it was the log that far; so it is said once, and as soon as it can be. */
  ghost predicate MarkerAt(ms: seq<Message>, replayEnd: nat, at: nat, j: nat) {
    j < |ms| && ms[j].CaughtUp? ==>
      && ms[j].index == Reached(at, ms[..j]) && ms[j].index >= replayEnd
      && forall i {:trigger ms[..i]} :: 0 <= i < j ==> Reached(at, ms[..i]) < replayEnd && !ms[i].CaughtUp?
  }

  lemma {:induction false} MarkerIsInItsPlace(
    ps: seq<Published>, session: string, fromIndex: nat, replayEnd: nat, at: nat, caught: bool, j: nat)
    ensures
      var ms := Says(ps, session, fromIndex, replayEnd, at, caught);
      if caught then j < |ms| ==> !ms[j].CaughtUp? else MarkerAt(ms, replayEnd, at, j)
    decreases |ps|, !caught
  {
    hide Over, FarAfter;
    var ms := Says(ps, session, fromIndex, replayEnd, at, caught);
    if !caught && at >= replayEnd {
      if j > 0 {
        MarkerIsInItsPlace(ps, session, fromIndex, replayEnd, at, true, j - 1);
      }
      assert ms[..0] == [];
    } else if |ps| > 0 && !Over(ps[0], session, fromIndex) {
      var at', rest := FarAfter(at, ps[0].frame), Says(ps[1..], session, fromIndex, replayEnd, FarAfter(at, ps[0].frame), caught);
      assert ms == [FrameMessage(ps[0].frame)] + rest;
      if j > 0 {
        MarkerIsInItsPlace(ps[1..], session, fromIndex, replayEnd, at', caught, j - 1);
        assert j < |ms| ==> ms[j] == rest[j - 1];
      }
      if !caught && 0 < j < |ms| && ms[j].CaughtUp? {
        ReachedFirst(at, ps[0].frame, rest, j - 1);
        forall i | 0 <= i < j
          ensures Reached(at, ms[..i]) < replayEnd && !ms[i].CaughtUp?
        {
          if i > 0 {
            ReachedFirst(at, ps[0].frame, rest, i - 1);
            assert rest[..i - 1] == rest[..i - 1];
          } else {
            assert ms[..0] == [];
          }
        }
      }
    }
  }

  /** And it is not left out: once the log is as far as the replay's end, the marker has been
      said before anything else is, except the close after a frame that ends the stream. */
  lemma {:induction false} MarkerIsSaid(
    ps: seq<Published>, session: string, fromIndex: nat, replayEnd: nat, at: nat, j: nat)
    ensures
      var ms := Says(ps, session, fromIndex, replayEnd, at, false);
      j < |ms| && Reached(at, ms[..j]) >= replayEnd && ms[j] != CloseMessage(true) ==>
        exists i :: 0 <= i <= j && ms[i].CaughtUp?
    decreases |ps|
  {
    hide Over, FarAfter;
    var ms := Says(ps, session, fromIndex, replayEnd, at, false);
    assert ms[..0] == [];
    if at >= replayEnd {
      assert ms[0].CaughtUp?;
    } else if |ps| > 0 && !Over(ps[0], session, fromIndex) && 0 < j < |ms| {
      var rest := Says(ps[1..], session, fromIndex, replayEnd, FarAfter(at, ps[0].frame), false);
      assert ms == [FrameMessage(ps[0].frame)] + rest;
      MarkerIsSaid(ps[1..], session, fromIndex, replayEnd, FarAfter(at, ps[0].frame), j - 1);
      ReachedFirst(at, ps[0].frame, rest, j - 1);
      assert ms[j] == rest[j - 1];
      if i :| 0 <= i <= j - 1 && rest[i].CaughtUp? {
        assert ms[i + 1] == rest[i];
      }
    }
  }

  lemma ReachedFirst(at: nat, f: Frame, rest: seq<Message>, i: nat)
    requires i <= |rest|
    ensures Reached(at, ([FrameMessage(f)] + rest)[..i + 1]) == Reached(FarAfter(at, f), rest[..i])
  {
    assert ([FrameMessage(f)] + rest)[..i + 1] == [FrameMessage(f)] + rest[..i];
    assert ([FrameMessage(f)] + rest[..i])[1..] == rest[..i];
  }

  /** What is sent runs up to and including the first frame that ends it. */
  lemma {:induction false} SentAll(ps: seq<Published>, session: string, fromIndex: nat, n: nat)
    requires n <= |ps| && forall i :: 0 <= i < n ==> !Over(ps[i], session, fromIndex)
    ensures n == |ps| ==> Sent(ps, session, fromIndex) == ps
    ensures n < |ps| ==> ps[..n + 1] <= Sent(ps, session, fromIndex)
    ensures n < |ps| && Over(ps[n], session, fromIndex) ==> Sent(ps, session, fromIndex) == ps[..n + 1]
    decreases n
  {
    hide Over;
    if n > 0 {
      var rest := ps[1..];
      SentAll(rest, session, fromIndex, n - 1);
      assert ps == [ps[0]] + rest;
      assert n < |ps| ==> ps[..n + 1] == [ps[0]] + rest[..n];
    }
  }

  // ------------------------------------------------------------------ over a flock's journal

  /** The admission index of a session's start; 0 when there is none. */
  function StartIndex(st: FlockState, session: string): nat {
    if session in st.sessions.sessions && st.sessions.sessions[session].start in st.board.entries
    then st.board.entries[st.sessions.sessions[session].start].index
    else 0
  }

  ghost predicate EligibleAfter(g: Genesis, frames: seq<Frame>, n: nat, session: string) {
    n <= |frames| && Rebuilt(g, frames[..n]).Ok? && session in Eligible(Rebuilt(g, frames[..n]).value)
  }

  lemma {:induction false} RepublishedAt(g: Genesis, frames: seq<Frame>, i: nat)
    requires Rebuilt(g, frames).Ok? && i < |frames|
    ensures Rebuilt(g, frames[..i + 1]).Ok? && |Republished(g, frames)| == |frames|
    ensures Republished(g, frames)[i] == Published(frames[i], Eligible(Rebuilt(g, frames[..i + 1]).value))
  {
    hide FrameTaken, Eligible;
    PrefixRebuilds(g, frames, i + 1);
    var init := frames[..|frames| - 1];
    RepublishedFrames(g, init);
    assert |FramesOf(Republished(g, init))| == |Republished(g, init)|;
    if i == |frames| - 1 {
      assert frames[..i + 1] == frames;
    } else {
      RepublishedAt(g, init, i);
      assert init[..i + 1] == frames[..i + 1];
    }
  }

  /** A session's start, once in the log, keeps its index, and lies before every later frame. */
  lemma StartStays(g: Genesis, frames: seq<Frame>, e: nat, session: string)
    requires GenesisOk(g) && Rebuilt(g, frames).Ok? && e <= |frames| && Rebuilt(g, frames[..e]).Ok?
    requires session in Rebuilt(g, frames[..e]).value.sessions.sessions
    ensures StartIndex(Rebuilt(g, frames).value, session) <= |Flat(frames[..e])|
  {
    hide Rebuilt, Played, GenesisOk, RowKept, Sound, Flat;
    var early, late := Rebuilt(g, frames[..e]).value, Rebuilt(g, frames).value;
    RebuildIsPlay(g, frames[..e]);
    RebuildIsPlay(g, frames);
    FlatGrows(frames, e, |frames|);
    assert frames[..|frames|] == frames;
    var log, n := Flat(frames), |Flat(frames[..e])|;
    assert log[..n] == Flat(frames[..e]);
    EndedIsForever(g, log, n, session);
    assert session in early.sessions.sessions;
    var start := early.sessions.sessions[session].start;
    StartFiled(g, frames[..e], session);
    assert late.sessions.sessions[session].start == start by { KeptStart(early, late, session); }
    LaterHonours(g, frames, e, (start, early.board.entries[start].index));
  }

  lemma EligibleIsThere(st: FlockState, session: string)
    requires session in Eligible(st)
    ensures session in st.sessions.sessions
  {
  }

  lemma KeptStart(st: FlockState, st': FlockState, session: string)
    requires session in st.sessions.sessions && session in st'.sessions.sessions
    requires RowKept(st.sessions.sessions[session], st'.sessions.sessions[session])
    ensures st'.sessions.sessions[session].start == st.sessions.sessions[session].start
  {
  }

  lemma StartFiled(g: Genesis, frames: seq<Frame>, session: string)
    requires GenesisOk(g) && Rebuilt(g, frames).Ok? && session in Rebuilt(g, frames).value.sessions.sessions
    ensures
      var st := Rebuilt(g, frames).value;
      var start := st.sessions.sessions[session].start;
      start in st.board.entries && st.board.entries[start].index <= |Flat(frames)|
  {
    hide Rebuilt, Played, GenesisOk, Flat, VerifyAt, LinesOk, ResumesKept, InvitesSpentOnce, ApprovalsSpentOnce, HeadsLatest,
         FirstCloserWins, TargetsFit, OneRosterLine, Locked;
    RebuildIsPlay(g, frames);
    RebuiltInv(g, frames);
    EpochCountsBumps(g, Flat(frames));
    var st := Rebuilt(g, frames).value;
    assert StartOk(st, session);
    assert Filed(st.board, st.sessions.sessions[session].start);
  }

  lemma {:induction false} LaterHonours(g: Genesis, frames: seq<Frame>, e: nat, r: (Id, nat))
    requires GenesisOk(g) && Rebuilt(g, frames).Ok? && e <= |frames|
    requires Rebuilt(g, frames[..e]).Ok? && ReceiptHonoured(Rebuilt(g, frames[..e]).value, r)
    ensures ReceiptHonoured(Rebuilt(g, frames).value, r)
  {
    hide FrameTaken, GenesisOk, ReceiptHonoured, Sound;
    if e == |frames| {
      assert frames[..e] == frames;
    } else {
      var init := frames[..|frames| - 1];
      assert init[..e] == frames[..e];
      LaterHonours(g, init, e, r);
      SoundRebuilt(g, init);
      SoundFrame(Rebuilt(g, init).value, g, frames[|frames| - 1]);
    }
  }

  /** The frame that takes a session's eligibility away ends its stream. */
  lemma RemovalIsOver(g: Genesis, frames: seq<Frame>, e: nat, i: nat, session: string)
    requires GenesisOk(g) && Rebuilt(g, frames).Ok? && e <= i < |frames|
    requires EligibleAfter(g, frames, e, session) && EligibleAfter(g, frames, i, session)
    ensures |Republished(g, frames)| == |frames|
    ensures Over(Republished(g, frames)[i], session, StartIndex(Rebuilt(g, frames).value, session))
            <==> !EligibleAfter(g, frames, i + 1, session)
  {
    hide Rebuilt, Republished, GenesisOk, Eligible, StartIndex, Flat, Contiguous, LastIndex, HasBump;
    RepublishedAt(g, frames, i);
    EligibleIsThere(Rebuilt(g, frames[..e]).value, session);
    StartStays(g, frames, e, session);
    RebuiltContiguous(g, frames);
    FrameEnds(frames, i);
    FlatGrows(frames, e, i + 1);
    assert frames[..i] + [frames[i]] == frames[..i + 1];
    if !EligibleAfter(g, frames, i + 1, session) && !HasBump(frames[i]) {
      OnlyBumpsRevoke(g, frames[..i], frames[i]);
    }
  }

  /** The frame the stream ends with: the first, from `e` on, past which the session is not
      eligible; none when `m` is the end of the journal. */
  ghost predicate EligibleFrom(g: Genesis, frames: seq<Frame>, e: nat, m: nat, session: string) {
    && e <= m <= |frames|
    && (forall i {:trigger EligibleAfter(g, frames, i, session)} :: e <= i <= m ==> EligibleAfter(g, frames, i, session))
    && (m < |frames| ==> !EligibleAfter(g, frames, m + 1, session))
  }

  /**
   A stream begun after `k` frames, for a session eligible after `e` of them (`e` is `k`
   itself when it is eligible where its cursor stands). It sends every frame up to and
   including the first one that removes the session and nothing after, exactly when no
   epoch boundary at or after the session's start finds it not eligible before `e`.
   */
  lemma StreamEndsWithEligibility(g: Genesis, frames: seq<Frame>, k: nat, e: nat, m: nat, session: string)
    requires GenesisOk(g) && Rebuilt(g, frames).Ok? && k <= e && EligibleFrom(g, frames, e, m, session)
    ensures |Republished(g, frames)| == |frames|
    ensures
      var ps := Republished(g, frames);
      var from := StartIndex(Rebuilt(g, frames).value, session);
      var stop := if m < |frames| then m + 1 else m;
      Sent(ps[k..], session, from) == ps[k..stop] <==> forall i :: k <= i < e ==> !Over(ps[i], session, from)
  {
    hide Rebuilt, Republished, GenesisOk, EligibleAfter, StartIndex, Over, Sent, FramesOf;
    var ps, from := Republished(g, frames), StartIndex(Rebuilt(g, frames).value, session);
    assert EligibleAfter(g, frames, e, session);
    EligibleThen(g, frames, e, session, from);
    forall i | e <= i < |frames| && i <= m
      ensures Over(ps[i], session, from) <==> i == m
    {
      assert EligibleAfter(g, frames, i, session);
      assert i < m ==> EligibleAfter(g, frames, i + 1, session);
      RemovalIsOver(g, frames, e, i, session);
    }
    if forall i :: k <= i < e ==> !Over(ps[i], session, from) {
      SentFrom(ps, session, from, k, m);
    } else {
      var i := FirstOver(ps, session, from, k, e);
      SentFrom(ps, session, from, k, i);
    }
  }

  lemma SentFrom(ps: seq<Published>, session: string, from: nat, k: nat, n: nat)
    requires k <= n <= |ps| && forall i :: k <= i < n ==> !Over(ps[i], session, from)
    ensures n == |ps| ==> Sent(ps[k..], session, from) == ps[k..n]
    ensures n < |ps| && Over(ps[n], session, from) ==> Sent(ps[k..], session, from) == ps[k..n + 1]
  {
    hide Over, Sent;
    SentAll(ps[k..], session, from, n - k);
    assert n == |ps| ==> ps[k..] == ps[k..n];
    assert n < |ps| ==> ps[k..][..n - k + 1] == ps[k..n + 1];
  }

  lemma {:induction false} FirstOver(ps: seq<Published>, session: string, from: nat, k: nat, e: nat) returns (i: nat)
    requires k < e <= |ps| && exists j :: k <= j < e && Over(ps[j], session, from)
    ensures k <= i < e && Over(ps[i], session, from)
    ensures forall j :: k <= j < i ==> !Over(ps[j], session, from)
    decreases e - k
  {
    hide Over;
    if Over(ps[k], session, from) {
      return k;
    }
    i := FirstOver(ps, session, from, k + 1, e);
  }

  /** The last frame before a session is eligible does not end its stream. */
  lemma EligibleThen(g: Genesis, frames: seq<Frame>, e: nat, session: string, from: nat)
    requires Rebuilt(g, frames).Ok? && EligibleAfter(g, frames, e, session)
    ensures |Republished(g, frames)| == |frames|
    ensures e > 0 ==> !Over(Republished(g, frames)[e - 1], session, from)
  {
    hide Rebuilt, Republished, Eligible, HasBump, LastIndex;
    if e > 0 {
      RepublishedAt(g, frames, e - 1);
    } else {
      RepublishedFrames(g, frames);
      assert |FramesOf(Republished(g, frames))| == |Republished(g, frames)|;
    }
  }

  // ------------------------------------------------------------------ who may open one

  datatype StreamRefused = Unresolved(fault: Fault) | NotAnActiveMember

  /** The session that signed the challenge, if it is active and its member is listed. */
  function AuthorizeStream(st: FlockState, proof: Assertion, challenge: Id): Result<string, StreamRefused> {
    match Resolve(st.sessions, proof, challenge, st.chain.serverPub, st.chain.user, st.chain.epoch)
    case Err(f) => Err(Unresolved(f))
    case Ok(signer) =>
      if signer.class_.Session? && !signer.class_.pending && OnRoster(st.board.members, signer.class_.member)
      then Ok(signer.fingerprint)
      else Err(NotAnActiveMember)
  }

  /** Whoever may open a stream holds its member's role, is eligible right then, has renewed
      at the current epoch, and itself signed this challenge. */
  lemma AuthorizedIsEligible(st: FlockState, g: Genesis, proof: Assertion, challenge: Id)
    requires Inv(st, g) && AuthorizeStream(st, proof, challenge).Ok?
    ensures
      var s := AuthorizeStream(st, proof, challenge).value;
      && s in Eligible(st)
      && st.sessions.sessions[s].status == Active
      && Get(st.sessions.holders, st.sessions.sessions[s].member) == Some(s)
      && st.sessions.sessions[s].epoch == st.chain.epoch
      && SigOk(proof.sig, s, challenge)
  {
    hide BoardInv, InvitesSpentOnce, ApprovalsSpentOnce, LinesOk, ResumesKept, StartOk, InviteOk, HolderOk, Consistent, RootAgent;
    var s := AuthorizeStream(st, proof, challenge).value;
    var h := Hist(st.board);
    assert RoleOk(st.sessions, s) && SessionCerts(h, st.sessions, st.chain.epoch, s);
    assert CertFits(h, st.sessions, s, CertId(proof.author));
    var e: nat :| e <= st.sessions.sessions[s].epoch && proof.author.meta.caveats == Bounded(e);
    assert GenerationOk(proof.author.meta.caveats.generation, st.chain.epoch);
  }
}
