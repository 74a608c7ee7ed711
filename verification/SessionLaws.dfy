/** The admitted events in order, and what can be read off them alone. */
module History {
  import opened Results
  import opened Schema
  import opened BoardModel
  import opened BoardFold

  ghost function Hist(b: BoardState): (h: seq<Entry>)
    requires Consistent(b)
    ensures |h| == |b.order|
    ensures forall i {:trigger h[i]} :: 0 <= i < |h| ==> b.order[i] in b.entries && h[i] == b.entries[b.order[i]]
  {
    seq(|b.order|, i requires 0 <= i < |b.order| => b.entries[b.order[i]])
  }

  /** How many epoch bumps. */
  ghost function Bumps(h: seq<Entry>): nat {
    if |h| == 0 then 0
    else Bumps(h[..|h| - 1]) + if h[|h| - 1].event.kind.Epoch? then 1 else 0
  }

  /** The latest event of an author. */
  ghost function LastBy(h: seq<Entry>, author: string): Option<Id> {
    if |h| == 0 then None
    else if h[|h| - 1].event.author == author then Some(h[|h| - 1].id)
    else LastBy(h[..|h| - 1], author)
  }

  /** The sessions that have held a member's role, in turn: the first one started, then
      each one a hand-off moved it to. */
  ghost function Line(h: seq<Entry>, member: string): seq<string> {
    if |h| == 0 then []
    else
      var before := Line(h[..|h| - 1], member);
      var body := h[|h| - 1].event.body;
      if body.SessionStartBody? && body.member == member && before == [] then [body.session]
      else if body.HandoffBody? && body.approval.payload.member == member then before + [body.to]
      else before
  }

  lemma {:induction false} LineGrows(h: seq<Entry>, i: nat, j: nat, member: string)
    requires i <= j <= |h|
    ensures Line(h[..i], member) <= Line(h[..j], member)
    decreases j - i
  {
    if i < j {
      LineGrows(h, i, j - 1, member);
      assert h[..j][..j - 1] == h[..j - 1];
    }
  }

  /** Event `i` put certificate `cid` in the log for `session`. */
  ghost predicate LogsCert(h: seq<Entry>, i: int, session: string, cid: Id) {
    0 <= i < |h| &&
    match h[i].event.body
    case SessionStartBody(_, s, cert) => s == session && CertId(cert) == cid
    case RenewalBody(s, _, cert) => s == session && CertId(cert) == cid
    case _ => false
  }
}

/** What every reachable session table keeps. */
module SessionLaws {
  import opened Results
  import opened Schema
  import opened BoardModel
  import opened BoardFold
  import opened SessionModel
  import opened StateModel
  import opened Steps
  import opened History

  // ------------------------------------------------------------------ the chain

  ghost predicate ChainOk(st: FlockState) {
    && Consistent(st.board)
    && st.chain.nextIndex == |st.board.order| + 1
    && st.chain.epoch == Bumps(Hist(st.board))
    && st.chain.serverPub == st.chain.serverCert.key
    && st.chain.serverCert.issuer == User(st.chain.user)
  }

  lemma ChainStep(st: FlockState, a: Intake, st': FlockState)
    requires ChainOk(st) && Moves(st, a, st')
    ensures ChainOk(st')
    ensures Hist(st'.board) == Hist(st.board) + [EntryOf(st, a)]
  {
    hide Effect, EntryOf, VerifyAt, KindOf, ChainHead;
    HistGrown(st.board, st'.board, EntryOf(st, a));
    var h, h' := Hist(st.board), Hist(st'.board);
    assert h'[..|h'| - 1] == h;
    assert EntryOf(st, a).event == a.Ev() by { EntryEvent(st, a); }
  }

  lemma EntryEvent(st: FlockState, a: Intake)
    ensures EntryOf(st, a).event == a.Ev()
    ensures EntryOf(st, a).id == EventId(a.node)
    ensures EntryOf(st, a).member == SigningMember(a.signer)
  {
  }

  lemma HistGrown(b: BoardState, b': BoardState, e: Entry)
    requires Consistent(b) && Grown(b, b', e)
    ensures Consistent(b') && Hist(b') == Hist(b) + [e]
  {
    forall id
      ensures Filed(b', id)
    {
      assert Filed(b, id);
    }
    forall i | 0 <= i < |b.order|
      ensures b'.order[i] == b.order[i] && b.order[i] in b.entries
    {
    }
    assert forall i :: 0 <= i < |b.order| ==> Hist(b')[i] == Hist(b)[i];
  }

  // ------------------------------------------------------------------ session rows

  /** A session's start is on the board, is its own, and consumed an invite for its member. */
  ghost predicate StartOk(st: FlockState, s: string) {
    s in st.sessions.sessions ==>
      var row := st.sessions.sessions[s];
      && row.pubkey == s
      && row.member in st.sessions.seen
      && row.start in st.board.entries
      && var ev := st.board.entries[row.start].event;
      && ev.body.SessionStartBody? && ev.body.session == s && ev.body.member == row.member
      && ev.author == st.chain.serverPub
      && InviteRef in ev.refs && ev.refs[InviteRef] in st.sessions.invites
      && st.sessions.invites[ev.refs[InviteRef]] == InviteRow(row.member, true)
  }

  /** An invite's event is on the board. */
  ghost predicate InviteOk(st: FlockState, i: Id) {
    i in st.sessions.invites ==>
      && i in st.board.entries
      && st.board.entries[i].event.body.InviteBody?
      && st.board.entries[i].event.body.member == st.sessions.invites[i].member
  }

  /** An active session is its member's holder; a pending one was activated by nothing. */
  ghost predicate RoleOk(t: SessionTable, s: string) {
    s in t.sessions ==>
      && (t.sessions[s].status == Active ==> Get(t.holders, t.sessions[s].member) == Some(s))
      && (t.sessions[s].status == Pending ==> t.sessions[s].activatedBy.None?)
  }

  /** A member's holder is one of its sessions and never a pending one. */
  ghost predicate HolderOk(t: SessionTable, m: string) {
    && (m in t.holders <==> m in t.seen)
    && (m in t.holders ==>
          && t.holders[m] in t.sessions
          && t.sessions[t.holders[m]].member == m
          && t.sessions[t.holders[m]].status != Pending)
  }

  ghost predicate RowsOk(st: FlockState) {
    && (forall i {:trigger InviteOk(st, i)} :: InviteOk(st, i))
    && (forall s {:trigger StartOk(st, s)} :: StartOk(st, s))
    && (forall s {:trigger RoleOk(st.sessions, s)} :: RoleOk(st.sessions, s))
    && (forall m {:trigger HolderOk(st.sessions, m)} :: HolderOk(st.sessions, m))
  }

  /** What no event ever takes back: a session stays, with its member, key and start; Ended
      is absorbing; Pending is never re-entered; an activation is never rewritten. */
  ghost predicate RowKept(row: SessionRow, row': SessionRow) {
    && row'.member == row.member && row'.pubkey == row.pubkey && row'.start == row.start
    && (row.status == Ended ==> row'.status == Ended)
    && (row'.status == Pending ==> row.status == Pending)
    && (row.status != Pending ==> row'.activatedBy == row.activatedBy)
    && row.certs <= row'.certs
    && row.epoch <= row'.epoch
  }

  lemma RowStep(t: SessionTable, c: Change, epoch: nat, server: Key, s: string)
    requires Legal(t, c, epoch, server) && s in t.sessions
    requires RoleOk(t, s) && (forall m {:trigger HolderOk(t, m)} :: HolderOk(t, m))
    ensures s in Changed(t, c, epoch, server).sessions
    ensures RowKept(t.sessions[s], Changed(t, c, epoch, server).sessions[s])
    ensures Changed(t, c, epoch, server).seen >= t.seen
  {
    hide CertOk;
    if c.HandedOff? {
      assert HolderOk(t, c.member);
    }
  }

  lemma RolesStep(t: SessionTable, c: Change, epoch: nat, server: Key)
    requires Legal(t, c, epoch, server)
    requires forall s {:trigger RoleOk(t, s)} :: RoleOk(t, s)
    requires forall m {:trigger HolderOk(t, m)} :: HolderOk(t, m)
    ensures forall s {:trigger RoleOk(Changed(t, c, epoch, server), s)} :: RoleOk(Changed(t, c, epoch, server), s)
    ensures forall m {:trigger HolderOk(Changed(t, c, epoch, server), m)} :: HolderOk(Changed(t, c, epoch, server), m)
  {
    hide CertOk;
    var t' := Changed(t, c, epoch, server);
    forall s
      ensures RoleOk(t', s)
    {
      assert RoleOk(t, s);
      if c.Started? {
        assert HolderOk(t, c.member);
      } else if c.HandedOff? {
        assert HolderOk(t, c.member);
        assert RoleOk(t, c.from) && RoleOk(t, c.to);
      }
    }
    forall m
      ensures HolderOk(t', m)
    {
      assert HolderOk(t, m);
      if c.HandedOff? {
        assert HolderOk(t, c.member);
      }
    }
  }

  lemma InviteStep(st: FlockState, a: Intake, st': FlockState, i: Id)
    requires Moves(st, a, st') && InviteOk(st, i)
    ensures InviteOk(st', i)
  {
    hide VerifyAt, CertOk, ChainHead, EntryOf, KindOf, LastWord;
    EntryEvent(st, a);
  }

  /** A consumed invite stays as it is; only a fresh event adds one. */
  lemma ConsumedStays(t: SessionTable, c: Change, epoch: nat, server: Key, i: Id)
    requires Legal(t, c, epoch, server) && i in t.invites && t.invites[i].consumed
    requires c.Invited? ==> c.id != i
    ensures i in Changed(t, c, epoch, server).invites && Changed(t, c, epoch, server).invites[i] == t.invites[i]
  {
    hide CertOk;
  }

  lemma StartStep(st: FlockState, a: Intake, st': FlockState, s: string)
    requires RowsOk(st) && Moves(st, a, st')
    ensures StartOk(st', s)
  {
    hide VerifyAt, CertOk, ChainHead, EntryOf, LastWord, Changed, Legal, RoleOk, HolderOk;
    EntryEvent(st, a);
    var c := ChangeOf(EventId(a.node), a.Ev());
    assert StartOk(st, s);
    if s in st.sessions.sessions {
      var i := st.board.entries[st.sessions.sessions[s].start].event.refs[InviteRef];
      assert RoleOk(st.sessions, s) && InviteOk(st, i);
      RowStep(st.sessions, c, a.Epoch(), st.chain.serverPub, s);
      ConsumedStays(st.sessions, c, a.Epoch(), st.chain.serverPub, i);
    } else if s in st'.sessions.sessions {
      NewRow(st.sessions, c, a.Epoch(), st.chain.serverPub, s);
    }
  }

  lemma NewRow(t: SessionTable, c: Change, epoch: nat, server: Key, s: string)
    requires Legal(t, c, epoch, server) && s !in t.sessions && s in Changed(t, c, epoch, server).sessions
    ensures c.Started? && c.session == s
    ensures
      var t' := Changed(t, c, epoch, server);
      var row := t'.sessions[s];
      && row == SessionRow(c.member, s, c.id, row.status, {CertId(c.cert)}, epoch, None)
      && (row.status == Active <==> c.member !in t.seen) && row.status != Ended
      && c.member in t'.seen
      && c.invite in t'.invites && t'.invites[c.invite] == InviteRow(c.member, true)
      && c.invite in t.invites && !t.invites[c.invite].consumed
      && CertOk(c.cert, s, epoch, server).Ok?
  {
    hide CertOk;
  }

  lemma RowsStep(st: FlockState, a: Intake, st': FlockState)
    requires RowsOk(st) && Moves(st, a, st')
    ensures RowsOk(st')
  {
    hide StartOk, RoleOk, HolderOk, InviteOk, VerifyAt, ChainHead, EntryOf, KindOf, LastWord, Changed, Legal, Grown;
    RolesStep(st.sessions, ChangeOf(EventId(a.node), a.Ev()), a.Epoch(), st.chain.serverPub);
    forall s
      ensures StartOk(st', s)
    {
      StartStep(st, a, st', s);
    }
    forall i
      ensures InviteOk(st', i)
    {
      assert InviteOk(st, i);
      InviteStep(st, a, st', i);
    }
  }

  // ------------------------------------------------------------------ invites and approvals are spent once

  /** The invite a session's start consumed. */
  ghost function InviteOf(st: FlockState, s: string): Option<Id> {
    if s in st.sessions.sessions && st.sessions.sessions[s].start in st.board.entries
    then Get(st.board.entries[st.sessions.sessions[s].start].event.refs, InviteRef)
    else None
  }

  /** Consumed invites and sessions are one to one. */
  ghost predicate InvitesSpentOnce(st: FlockState) {
    && (forall s, s' {:trigger InviteOf(st, s), InviteOf(st, s')} ::
          s in st.sessions.sessions && s' in st.sessions.sessions && InviteOf(st, s) == InviteOf(st, s') ==> s == s')
    && (forall i {:trigger st.sessions.invites[i]} :: i in st.sessions.invites && st.sessions.invites[i].consumed ==>
          exists s :: s in st.sessions.sessions && InviteOf(st, s) == Some(i))
  }

  lemma InviteOfStays(st: FlockState, a: Intake, st': FlockState, s: string)
    requires RowsOk(st) && Moves(st, a, st') && s in st.sessions.sessions
    ensures s in st'.sessions.sessions && InviteOf(st', s) == InviteOf(st, s)
    ensures InviteOf(st, s).Some? && InviteOf(st, s).value in st.sessions.invites
    ensures st.sessions.invites[InviteOf(st, s).value].consumed
  {
    hide VerifyAt, CertOk, ChainHead, EntryOf, KindOf, LastWord, Changed, Legal, RoleOk, HolderOk;
    assert StartOk(st, s) && RoleOk(st.sessions, s);
    RowStep(st.sessions, ChangeOf(EventId(a.node), a.Ev()), a.Epoch(), st.chain.serverPub, s);
  }

  lemma NewSessionInvite(st: FlockState, a: Intake, st': FlockState, s: string)
    requires RowsOk(st) && Moves(st, a, st') && s !in st.sessions.sessions && s in st'.sessions.sessions
    ensures
      var c := ChangeOf(EventId(a.node), a.Ev());
      && c.Started? && c.session == s && InviteOf(st', s) == Some(c.invite)
      && c.invite in st.sessions.invites && !st.sessions.invites[c.invite].consumed
  {
    hide VerifyAt, CertOk, ChainHead, EntryOf, KindOf, LastWord, Changed, Legal, RoleOk, HolderOk;
    EntryEvent(st, a);
    NewRow(st.sessions, ChangeOf(EventId(a.node), a.Ev()), a.Epoch(), st.chain.serverPub, s);
  }

  /** An invite is consumed by nothing but a session's start. */
  lemma ConsumedNow(t: SessionTable, c: Change, epoch: nat, server: Key, i: Id)
    requires Legal(t, c, epoch, server)
    requires i in Changed(t, c, epoch, server).invites && Changed(t, c, epoch, server).invites[i].consumed
    ensures (i in t.invites && t.invites[i].consumed) || (c.Started? && c.invite == i)
    ensures c.Started? ==> c.session in Changed(t, c, epoch, server).sessions && c.session !in t.sessions
  {
    hide CertOk;
  }

  lemma InvitesStep(st: FlockState, a: Intake, st': FlockState)
    requires RowsOk(st) && InvitesSpentOnce(st) && Moves(st, a, st')
    ensures InvitesSpentOnce(st')
  {
    hide RowsOk, InviteOf, VerifyAt, CertOk, ChainHead, EntryOf, KindOf, LastWord, Changed, Legal, Grown;
    var c := ChangeOf(EventId(a.node), a.Ev());
    forall s, s' | s in st'.sessions.sessions && s' in st'.sessions.sessions && InviteOf(st', s) == InviteOf(st', s')
      ensures s == s'
    {
      InviteHistory(st, a, st', s);
      InviteHistory(st, a, st', s');
    }
    forall i | i in st'.sessions.invites && st'.sessions.invites[i].consumed
      ensures exists s :: s in st'.sessions.sessions && InviteOf(st', s) == Some(i)
    {
      ConsumedNow(st.sessions, c, a.Epoch(), st.chain.serverPub, i);
      if i in st.sessions.invites && st.sessions.invites[i].consumed {
        var s :| s in st.sessions.sessions && InviteOf(st, s) == Some(i);
        InviteHistory(st, a, st', s);
      } else {
        InviteHistory(st, a, st', c.session);
      }
    }
  }

  lemma InviteHistory(st: FlockState, a: Intake, st': FlockState, s: string)
    requires RowsOk(st) && Moves(st, a, st')
    ensures s in st.sessions.sessions ==>
              && s in st'.sessions.sessions && InviteOf(st', s) == InviteOf(st, s)
              && InviteOf(st, s).Some? && InviteOf(st, s).value in st.sessions.invites
              && st.sessions.invites[InviteOf(st, s).value].consumed
    ensures s !in st.sessions.sessions && s in st'.sessions.sessions ==>
              var c := ChangeOf(EventId(a.node), a.Ev());
              && c.Started? && c.session == s && InviteOf(st', s) == Some(c.invite)
              && c.invite in st.sessions.invites && !st.sessions.invites[c.invite].consumed
  {
    hide RowsOk, Moves, InviteOf, ChangeOf;
    if s in st.sessions.sessions {
      InviteOfStays(st, a, st', s);
    } else if s in st'.sessions.sessions {
      NewSessionInvite(st, a, st', s);
    }
  }

  /** Event `i` is a hand-off spending approval `ap`. */
  ghost predicate Spends(h: seq<Entry>, i: int, ap: Id) {
    0 <= i < |h| && h[i].event.body.HandoffBody? && ApprovalId(h[i].event.body.approval) == ap
  }

  /** The approvals consumed are those of the hand-offs in the log, each of exactly one. */
  ghost predicate ApprovalsSpentOnce(h: seq<Entry>, t: SessionTable) {
    && (forall ap {:trigger ap in t.approvals} :: ap in t.approvals ==> exists i :: Spends(h, i, ap))
    && (forall i, ap {:trigger Spends(h, i, ap)} :: Spends(h, i, ap) ==> ap in t.approvals)
    && (forall i, j, ap {:trigger Spends(h, i, ap), Spends(h, j, ap)} :: Spends(h, i, ap) && Spends(h, j, ap) ==> i == j)
  }

  lemma ApprovalsStep(h: seq<Entry>, e: Entry, t: SessionTable, epoch: nat, server: Key)
    requires ApprovalsSpentOnce(h, t)
    requires Legal(t, ChangeOf(e.id, e.event), epoch, server)
    ensures ApprovalsSpentOnce(h + [e], Changed(t, ChangeOf(e.id, e.event), epoch, server))
  {
    hide CertOk;
    var h' := h + [e];
    var t' := Changed(t, ChangeOf(e.id, e.event), epoch, server);
    forall i, ap
      ensures Spends(h', i, ap) <==> Spends(h, i, ap) || (i == |h| && e.event.body.HandoffBody? && ApprovalId(e.event.body.approval) == ap)
    {
    }
    assert e.event.body.HandoffBody? ==> t'.approvals == t.approvals + {ApprovalId(e.event.body.approval)};
    assert !e.event.body.HandoffBody? ==> t'.approvals == t.approvals;
    forall ap | ap in t'.approvals
      ensures exists i :: Spends(h', i, ap)
    {
      if ap in t.approvals {
        var i :| Spends(h, i, ap);
        assert Spends(h', i, ap);
      } else {
        assert Spends(h', |h|, ap);
      }
    }
  }
}
