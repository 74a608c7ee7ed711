/** A member's work is one unbranched line across any number of hand-offs. */
module WorkLines {
  import opened Results
  import opened Schema
  import opened BoardModel
  import opened SessionModel
  import opened StateModel
  import opened Steps
  import opened History
  import opened SessionLaws

  ghost predicate Distinct(xs: seq<string>) {
    forall i, j :: 0 <= i < j < |xs| ==> xs[i] != xs[j]
  }

  ghost function LastOf(xs: seq<string>): Option<string> {
    if xs == [] then None else Some(xs[|xs| - 1])
  }

  /** The holder is the last of the line; nobody is in it twice; everyone in it is one of
      the member's sessions and past pending. */
  ghost predicate LineOk(h: seq<Entry>, t: SessionTable, m: string) {
    && LastOf(Line(h, m)) == Get(t.holders, m)
    && Distinct(Line(h, m))
    && forall k {:trigger Line(h, m)[k]} :: 0 <= k < |Line(h, m)| ==>
         && Line(h, m)[k] in t.sessions
         && t.sessions[Line(h, m)[k]].member == m
         && t.sessions[Line(h, m)[k]].status != Pending
  }

  /** What an event of `author` after `h` must have as `prev`. */
  ghost function PrevAfter(h: seq<Entry>, t: SessionTable, author: string): Option<Id>
    requires author in t.sessions
  {
    var last := LastBy(h, author);
    if last.Some? then last else t.sessions[author].activatedBy
  }

  /** A session-signed event: by a session of that member past pending, the holder at that
      moment, and following the author's previous event or its activating hand-off. */
  ghost predicate WorkOk(h: seq<Entry>, t: SessionTable, i: int) {
    0 <= i < |h| && h[i].member.Some? ==>
      var author, m := h[i].event.author, h[i].member.value;
      && author in t.sessions
      && t.sessions[author].member == m
      && t.sessions[author].status != Pending
      && LastOf(Line(h[..i], m)) == Some(author)
      && h[i].event.prev == PrevAfter(h[..i], t, author)
  }

  /** A hand-off: moves the role from the holder of that moment, ends it, activates the
      other, and extends the line by it. */
  ghost predicate HandoffOk(h: seq<Entry>, t: SessionTable, i: int) {
    0 <= i < |h| && h[i].event.body.HandoffBody? ==>
      var b := h[i].event.body;
      var m := b.approval.payload.member;
      && b.from in t.sessions && b.to in t.sessions && b.from != b.to
      && t.sessions[b.from].member == m == t.sessions[b.to].member
      && t.sessions[b.from].status == Ended
      && t.sessions[b.to].activatedBy == Some(h[i].id)
      && t.sessions[b.to].status != Pending
      && LastOf(Line(h[..i], m)) == Some(b.from)
      && Line(h[..i + 1], m) == Line(h[..i], m) + [b.to]
  }

  ghost predicate LinesOk(st: FlockState, h: seq<Entry>) {
    && (forall a {:trigger LastBy(h, a)} :: LastBy(h, a) == Get(st.board.heads, a))
    && (forall m {:trigger LineOk(h, st.sessions, m)} :: LineOk(h, st.sessions, m))
    && (forall i {:trigger WorkOk(h, st.sessions, i)} :: WorkOk(h, st.sessions, i))
    && (forall i {:trigger HandoffOk(h, st.sessions, i)} :: HandoffOk(h, st.sessions, i))
  }

  // ------------------------------------------------------------------ one step

  lemma HeadsStep(b: BoardState, b': BoardState, h: seq<Entry>, e: Entry, a: string)
    requires Grown(b, b', e) && LastBy(h, a) == Get(b.heads, a)
    ensures LastBy(h + [e], a) == Get(b'.heads, a)
  {
    assert (h + [e])[..|h|] == h;
  }

  /** A line grows only by the member's first start or a hand-off to it. */
  lemma LineAfter(h: seq<Entry>, e: Entry, m: string)
    ensures
      var c := ChangeOf(e.id, e.event);
      Line(h + [e], m) ==
        if c.Started? && c.member == m && Line(h, m) == [] then [c.session]
        else if c.HandedOff? && c.member == m then Line(h, m) + [c.to]
        else Line(h, m)
  {
    assert (h + [e])[..|h|] == h;
  }

  /** So do the holders. */
  lemma HolderAfter(t: SessionTable, c: Change, epoch: nat, server: Key, m: string)
    requires Legal(t, c, epoch, server) && HolderOk(t, m)
    ensures
      var t' := Changed(t, c, epoch, server);
      && Get(t'.holders, m) ==
           (if c.Started? && c.member == m && m !in t.holders then Some(c.session)
            else if c.HandedOff? && c.member == m then Some(c.to)
            else Get(t.holders, m))
      && (c.Started? && c.member == m && m !in t.holders ==>
            && c.session in t'.sessions && t'.sessions[c.session].member == m
            && t'.sessions[c.session].status == Active)
      && (c.HandedOff? && c.member == m ==>
            && c.to in t.sessions && t.sessions[c.to].status == Pending
            && c.to in t'.sessions && t'.sessions[c.to].member == m && t'.sessions[c.to].status == Active)
  {
    hide CertOk;
  }

  lemma LineStep(h: seq<Entry>, e: Entry, t: SessionTable, epoch: nat, server: Key, m: string)
    requires Legal(t, ChangeOf(e.id, e.event), epoch, server)
    requires LineOk(h, t, m) && (forall n {:trigger HolderOk(t, n)} :: HolderOk(t, n))
    requires forall s {:trigger RoleOk(t, s)} :: RoleOk(t, s)
    ensures LineOk(h + [e], Changed(t, ChangeOf(e.id, e.event), epoch, server), m)
  {
    hide Changed, Legal, ChangeOf, Line, HolderOk, RoleOk;
    var c := ChangeOf(e.id, e.event);
    var t' := Changed(t, c, epoch, server);
    var line, line' := Line(h, m), Line(h + [e], m);
    assert HolderOk(t, m);
    LineAfter(h, e, m);
    HolderAfter(t, c, epoch, server, m);
    forall k | 0 <= k < |line|
      ensures line[k] in t'.sessions && t'.sessions[line[k]].member == m && t'.sessions[line[k]].status != Pending
    {
      assert RoleOk(t, line[k]);
      RowStep(t, c, epoch, server, line[k]);
    }
  }

  /** Nothing about an earlier event is undone by a later one. */
  lemma WorkStays(h: seq<Entry>, e: Entry, t: SessionTable, epoch: nat, server: Key, i: int)
    requires Legal(t, ChangeOf(e.id, e.event), epoch, server) && i < |h|
    requires forall m {:trigger HolderOk(t, m)} :: HolderOk(t, m)
    requires forall s {:trigger RoleOk(t, s)} :: RoleOk(t, s)
    requires WorkOk(h, t, i) && HandoffOk(h, t, i)
    ensures
      var t' := Changed(t, ChangeOf(e.id, e.event), epoch, server);
      WorkOk(h + [e], t', i) && HandoffOk(h + [e], t', i)
  {
    hide Changed, Legal, ChangeOf, Line, HolderOk, RoleOk;
    if 0 <= i {
      var c := ChangeOf(e.id, e.event);
      var h' := h + [e];
      assert h'[i] == h[i] && h'[..i] == h[..i] && h'[..i + 1] == h[..i + 1];
      if h[i].member.Some? {
        assert RoleOk(t, h[i].event.author);
        RowStep(t, c, epoch, server, h[i].event.author);
      }
      if h[i].event.body.HandoffBody? {
        assert RoleOk(t, h[i].event.body.from) && RoleOk(t, h[i].event.body.to);
        RowStep(t, c, epoch, server, h[i].event.body.from);
        RowStep(t, c, epoch, server, h[i].event.body.to);
      }
    }
  }

  /** A new session-signed event is by the current holder and follows the line. */
  lemma NewWork(st: FlockState, a: Intake, st': FlockState, h: seq<Entry>)
    requires RowsOk(st) && LinesOk(st, h) && Moves(st, a, st')
    ensures WorkOk(h + [EntryOf(st, a)], st'.sessions, |h|)
  {
    hide VerifyAt, KindOf, LastWord, Changed, Legal, ChangeOf, Line, HolderOk, StartOk, InviteOk, EntryOf, Grown;
    EntryEvent(st, a);
    var h', author := h + [EntryOf(st, a)], a.Ev().author;
    assert h'[|h|] == EntryOf(st, a) && h'[..|h|] == h;
    if a.signer.class_.Session? {
      assert RoleOk(st.sessions, author);
      assert LineOk(h, st.sessions, a.signer.class_.member);
      RowStep(st.sessions, ChangeOf(EventId(a.node), a.Ev()), a.Epoch(), st.chain.serverPub, author);
      assert LastBy(h, author) == Get(st.board.heads, author);
    }
  }

  lemma NewHandoff(h: seq<Entry>, e: Entry, t: SessionTable, epoch: nat, server: Key)
    requires Legal(t, ChangeOf(e.id, e.event), epoch, server) && e.event.body.HandoffBody?
    requires LineOk(h, t, e.event.body.approval.payload.member)
    requires HolderOk(t, e.event.body.approval.payload.member)
    ensures HandoffOk(h + [e], Changed(t, ChangeOf(e.id, e.event), epoch, server), |h|)
  {
    hide Line;
    var h' := h + [e];
    assert h'[|h|] == e && h'[..|h|] == h && h'[..|h| + 1] == h';
    LineAfter(h, e, e.event.body.approval.payload.member);
  }

  lemma LinesStep(st: FlockState, a: Intake, st': FlockState, h: seq<Entry>)
    requires RowsOk(st) && LinesOk(st, h) && Moves(st, a, st')
    ensures LinesOk(st', h + [EntryOf(st, a)])
  {
    hide VerifyAt, KindOf, LastWord, ChainHead, Changed, Legal, ChangeOf, Line, LastBy, HolderOk, RoleOk, StartOk,
         InviteOk, EntryOf, Grown, LineOk, WorkOk, HandoffOk;
    EntryEvent(st, a);
    var e := EntryOf(st, a);
    var h', t := h + [e], st.sessions;
    forall x
      ensures LastBy(h', x) == Get(st'.board.heads, x)
    {
      HeadsStep(st.board, st'.board, h, e, x);
    }
    forall m
      ensures LineOk(h', st'.sessions, m)
    {
      assert LineOk(h, t, m);
      LineStep(h, e, t, a.Epoch(), st.chain.serverPub, m);
    }
    forall i
      ensures WorkOk(h', st'.sessions, i) && HandoffOk(h', st'.sessions, i)
    {
      if i < |h| {
        assert WorkOk(h, t, i) && HandoffOk(h, t, i);
        WorkStays(h, e, t, a.Epoch(), st.chain.serverPub, i);
      } else if i == |h| {
        NewWork(st, a, st', h);
        if e.event.body.HandoffBody? {
          assert LineOk(h, t, e.event.body.approval.payload.member) && HolderOk(t, e.event.body.approval.payload.member);
          NewHandoff(h, e, t, a.Epoch(), st.chain.serverPub);
        } else {
          NotAHandoff(h', st'.sessions, i);
        }
      } else {
        OutOfRange(h', st'.sessions, i);
      }
    }
  }

  lemma NotAHandoff(h: seq<Entry>, t: SessionTable, i: int)
    requires 0 <= i < |h| && !h[i].event.body.HandoffBody?
    ensures HandoffOk(h, t, i)
  {
  }

  lemma OutOfRange(h: seq<Entry>, t: SessionTable, i: int)
    requires !(0 <= i < |h|)
    ensures WorkOk(h, t, i) && HandoffOk(h, t, i)
  {
  }
}
