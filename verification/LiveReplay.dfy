/** Live equals replay over whole transactions: what the server seals, every reader of the
    log takes in, to exactly the state the server holds. */
module LiveReplay {
  import opened Results
  import opened Schema
  import opened BoardModel
  import opened Admission
  import opened BoardFold
  import opened BoardLaws
  import opened ChainModel
  import opened SessionModel
  import opened StateModel
  import opened Steps
  import opened SessionLaws
  import opened Ratchet
  import opened WorkLines
  import opened FlockLaws
  import opened ServerModel

  // ------------------------------------------------------------------ certificates of the server's key

  /** A logged certificate of the server's own key is tied to an epoch that has been. */
  ghost predicate ServerKeyed(st: FlockState) {
    forall cid {:trigger st.sessions.chains[cid]} ::
      cid in st.sessions.chains && st.sessions.chains[cid].key == st.chain.serverPub ==>
        Tied(st.sessions.chains[cid], st.chain.epoch)
  }

  ghost predicate Sound(st: FlockState, g: Genesis) {
    Inv(st, g) && ServerKeyed(st)
  }

  /** Where a logged certificate comes from. */
  lemma ChainsComeFrom(t: SessionTable, c: Change, epoch: nat, server: Key, cid: Id)
    requires Legal(t, c, epoch, server) && cid in Changed(t, c, epoch, server).chains
    ensures
      var cert := Changed(t, c, epoch, server).chains[cid];
      || (cid in t.chains && t.chains[cid] == cert)
      || (c.Registered? && c.cert == cert)
      || ((c.Started? || c.Renewed?) && c.cert == cert && cert.meta.caveats == Bounded(epoch))
  {
    hide VerifyAt;
  }

  lemma RegisteredIsADevice(st: FlockState, a: Intake)
    requires Passes(st, a) && ChangeOf(EventId(a.node), a.Ev()).Registered?
    ensures ChangeOf(EventId(a.node), a.Ev()).cert.key != st.chain.serverPub
  {
    hide Resolve, Admitted, FirstLink, VerifyAt;
  }

  lemma KeyedStep(st: FlockState, a: Intake)
    requires ServerKeyed(st) && Passes(st, a) && Moves(st, a, After(st, a))
    ensures ServerKeyed(After(st, a))
  {
    hide Passes, Taken, VerifyAt, Grown, KindOf, ChainHead, Changed, Legal, LastWord, EntryOf, ChangeOf;
    var st', c := After(st, a), ChangeOf(EventId(a.node), a.Ev());
    forall cid | cid in st'.sessions.chains && st'.sessions.chains[cid].key == st'.chain.serverPub
      ensures Tied(st'.sessions.chains[cid], st'.chain.epoch)
    {
      ChainsComeFrom(st.sessions, c, a.Epoch(), st.chain.serverPub, cid);
      if c.Registered? {
        RegisteredIsADevice(st, a);
      }
    }
  }

  lemma SoundReplay(st: FlockState, g: Genesis, s: Sealed)
    requires Sound(st, g) && Replayed(st, s).Ok?
    ensures Sound(Replayed(st, s).value, g)
    ensures Grown(st.board, Replayed(st, s).value.board, EntryOf(st, IntakeOf(st, s)))
  {
    hide Replayed, Inv, ServerKeyed, Passes, EntryOf, Taken;
    InvReplay(st, g, s);
    ReplayPasses(st, s);
    KeyedStep(st, IntakeOf(st, s));
  }

  /** Nothing but the genesis certificate signs an epoch bump: every other certificate of
      the server's key is already behind. */
  lemma BumpUnderGenesisCert(st: FlockState, key: AgentKey, node: EventNode, sig: Assertion)
    requires ServerKeyed(st) && CertsNamed(st.sessions) && node.payload.kind.Epoch? && Prepare(st, key, node, sig).Ok?
    ensures VerifyAt(st.chain.serverCert, st.chain.epoch + 1)
  {
    hide Vet, Seal, Taken, Check, FirstLink, Decide, Admitted, KindOf;
    PreparePasses(st, key, node, sig);
    var p := Prepare(st, key, node, sig).value;
    WhoMaySign(st, Intake(node, sig, p.signer, p.sealed.record));
    assert CitedCert(st, CertId(sig.author)) == Ok(sig.author);
    assert sig.author != st.chain.serverCert ==> !GenerationOk(sig.author.meta.caveats.generation, st.chain.epoch + 1) by {
      assert sig.author != st.chain.serverCert ==> Tied(sig.author, st.chain.epoch);
    }
  }

  /** One admission: replay takes it in whenever the live path sealed it. */
  lemma PreparedReplays(st: FlockState, g: Genesis, key: AgentKey, node: EventNode, sig: Assertion)
    requires Sound(st, g) && key.cert == g.serverCert && Prepare(st, key, node, sig).Ok?
    ensures
      var p := Prepare(st, key, node, sig).value;
      Replayed(st, p.sealed) == Ok(Committed(st, p)) && Sound(Committed(st, p), g)
  {
    hide BoardInv, VerifyAt, RowsOk, InvitesSpentOnce, ApprovalsSpentOnce, LinesOk, ResumesKept, Prepare, Taken, Replayed;
    LiveIsReplay(st, key, node, sig);
    if node.payload.kind.Epoch? {
      BumpUnderGenesisCert(st, key, node, sig);
    }
    SoundReplay(st, g, Prepare(st, key, node, sig).value.sealed);
  }

  // ------------------------------------------------------------------ frames

  lemma OneEntryFrame(st: FlockState, s: Sealed, st': FlockState)
    requires Replayed(st, s) == Ok(st')
    requires !s.event.payload.kind.SessionEnd? && !s.event.payload.kind.Handoff?
    requires s.event.payload.kind.Roster? ==> !DropsMember(st.board.members, st'.board.members)
    ensures FrameTaken(st, [s]) == Ok(st')
  {
    hide Replayed, DropsMember;
    assert ReplayedFrom(st', [s], 1) == Ok(st');
  }

  /** An entry and the bump that follows it. */
  lemma BumpedFrame(st: FlockState, s: Sealed, st': FlockState, e: Sealed, st'': FlockState)
    requires Replayed(st, s) == Ok(st') && Replayed(st', e) == Ok(st'') && e.event.payload.kind.Epoch?
    ensures FrameTaken(st, [s, e]) == Ok(st'')
  {
    hide Replayed, DropsMember;
    var f := [s, e];
    assert KindAt(f, 1) == Some(Kind.Epoch);
    assert ReplayedFrom(st'', f, 2) == Ok(st'');
    assert ReplayedFrom(st', f, 1) == Ok(st'');
  }

  /** The last event of a transaction replays onto what the ones before it left. */
  lemma BuiltLast(cfg: Config, st: FlockState, specs: seq<Spec>)
    requires cfg.key.cert == cfg.genesis.serverCert && |specs| > 0 && Built(cfg, st, specs).Ok?
    requires Sound(Built(cfg, st, specs[..|specs| - 1]).value.1, cfg.genesis)
    ensures
      var spec := specs[|specs| - 1];
      var (f, before) := Built(cfg, st, specs[..|specs| - 1]).value;
      var (f', next) := Built(cfg, st, specs).value;
      && |f'| == |f| + 1 && f'[..|f|] == f
      && f'[|f|].event.payload.kind == spec.kind == KindOf(spec.body) && f'[|f|].event.payload.body == spec.body
      && Replayed(before, f'[|f|]) == Ok(next) && Sound(next, cfg.genesis)
  {
    hide Sound, Prepare, Taken, Replayed, KindOf;
    var spec, before := specs[|specs| - 1], Built(cfg, st, specs[..|specs| - 1]).value.1;
    var (node, sig) := ServerEvent(before, cfg.key, spec.kind, spec.refs, spec.body);
    PreparedReplays(before, cfg.genesis, cfg.key, node, sig);
    SealedEvent(before, cfg.key, node, sig);
  }

  /** One server event that shrinks nothing, as a frame. */
  lemma OneBuilt(cfg: Config, st: FlockState, specs: seq<Spec>)
    requires Sound(st, cfg.genesis) && cfg.key.cert == cfg.genesis.serverCert && |specs| == 1 && Built(cfg, st, specs).Ok?
    requires !specs[0].kind.SessionEnd? && !specs[0].kind.Handoff?
    requires specs[0].body.RosterBody? ==> !DropsMember(st.board.members, specs[0].body.members)
    ensures var (f, next) := Built(cfg, st, specs).value; FrameTaken(st, f) == Ok(next) && Sound(next, cfg.genesis)
  {
    hide Sound, Prepare, Taken, Replayed, DropsMember, FrameTaken;
    assert specs[..0] == [];
    assert Built(cfg, st, specs[..0]) == Ok(([], st));
    BuiltLast(cfg, st, specs);
    var (f, next) := Built(cfg, st, specs).value;
    assert f == [f[0]];
    if f[0].event.payload.kind.Roster? {
      RosterTakes(st, cfg.genesis, f[0]);
    }
    OneEntryFrame(st, f[0], next);
  }

  /** A server event and the bump after it, as a frame. */
  lemma TwoBuilt(cfg: Config, st: FlockState, specs: seq<Spec>)
    requires Sound(st, cfg.genesis) && cfg.key.cert == cfg.genesis.serverCert && |specs| == 2 && Built(cfg, st, specs).Ok?
    requires specs[1].kind.Epoch?
    ensures var (f, next) := Built(cfg, st, specs).value; FrameTaken(st, f) == Ok(next) && Sound(next, cfg.genesis)
  {
    hide Sound, Prepare, Taken, Replayed, FrameTaken, KindOf;
    var first := specs[..1];
    assert first[..0] == [];
    assert Built(cfg, st, first[..0]) == Ok(([], st));
    BuiltLast(cfg, st, first);
    BuiltLast(cfg, st, specs);
    var (f, next) := Built(cfg, st, specs).value;
    assert f == [f[0], f[1]];
    BumpedFrame(st, f[0], Built(cfg, st, first).value.1, f[1], next);
  }

  /** A roster that gets in is the roster. */
  lemma RosterTakes(st: FlockState, g: Genesis, s: Sealed)
    requires Sound(st, g) && Replayed(st, s).Ok? && s.event.payload.kind.Roster?
    ensures s.event.payload.body.RosterBody? && Replayed(st, s).value.board.members == s.event.payload.body.members
  {
    hide Replayed, BoardInv, ChainOk, RowsOk, InvitesSpentOnce, ApprovalsSpentOnce, LinesOk, ResumesKept, ServerKeyed,
         VerifyAt, Check, FirstLink, Resolve, Decide, Flagged, SessionCerts;
    ReplayPasses(st, s);
    var a := IntakeOf(st, s);
    BoardAfter(st, a);
    AdmissionFacts(st.board, LogEntry(a.node, a.signer));
    NoFlagOnRosters(st.board, a.Ev());
  }

  lemma NoFlagOnRosters(b: BoardState, ev: Event)
    requires ev.kind.Roster?
    ensures Flagged(b, ClosedBy(ev)).None?
  {
  }

  lemma SealedEvent(st: FlockState, key: AgentKey, node: EventNode, sig: Assertion)
    requires Prepare(st, key, node, sig).Ok?
    ensures Prepare(st, key, node, sig).value.sealed.event == node
    ensures Prepare(st, key, node, sig).value.sealed.record.payload.index == st.chain.nextIndex
    ensures KindOf(node.payload.body) == node.payload.kind
  {
    hide Vet, CitedCert, Taken, Passes, Admitted;
    PreparePasses(st, key, node, sig);
    WhoMaySign(st, Intake(node, sig, Prepare(st, key, node, sig).value.signer, Prepare(st, key, node, sig).value.sealed.record));
  }

  // ------------------------------------------------------------------ whole transactions

  /** What `admit` decides to write replays, as one frame, to the state it will hold. */
  lemma DecisionReplays(cfg: Config, st: FlockState, node: EventNode, sig: Assertion)
    requires Sound(st, cfg.genesis) && cfg.key.cert == cfg.genesis.serverCert && Decided(cfg, st, node, sig).Takes?
    ensures
      var d := Decided(cfg, st, node, sig);
      && FrameTaken(st, d.frame) == Ok(d.next) && Sound(d.next, cfg.genesis)
      && EventId(node) in d.next.board.entries && d.next.board.entries[EventId(node)].index == d.index
  {
    hide Sound, Prepare, Taken, Replayed, FrameTaken, KindOf, DropsMember, Built;
    var d, p := Decided(cfg, st, node, sig), Prepare(st, cfg.key, node, sig).value;
    PreparedReplays(st, cfg.genesis, cfg.key, node, sig);
    SealedEvent(st, cfg.key, node, sig);
    EntryLands(st, cfg.genesis, p.sealed);
    var next := Committed(st, p);
    if node.payload.kind.Roster? && DropsMember(st.board.members, next.board.members) {
      BumpBuilds(cfg, next);
      var (bump, after) := Built(cfg, next, [BumpSpec(next)]).value;
      assert [p.sealed] + bump == [p.sealed, bump[0]];
      BumpedFrame(st, p.sealed, next, bump[0], after);
      SoundReplay(next, cfg.genesis, bump[0]);
      EntryStays(next, cfg.genesis, bump[0], EventId(node));
    } else {
      OneEntryFrame(st, p.sealed, next);
    }
  }

  lemma BumpBuilds(cfg: Config, st: FlockState)
    requires Sound(st, cfg.genesis) && cfg.key.cert == cfg.genesis.serverCert && Built(cfg, st, [BumpSpec(st)]).Ok?
    ensures
      var (f, next) := Built(cfg, st, [BumpSpec(st)]).value;
      |f| == 1 && f[0].event.payload.kind.Epoch? && Replayed(st, f[0]) == Ok(next) && Sound(next, cfg.genesis)
  {
    hide Sound, Prepare, Taken, Replayed, KindOf;
    var specs := [BumpSpec(st)];
    assert specs[..0] == [];
    assert Built(cfg, st, specs[..0]) == Ok(([], st));
    BuiltLast(cfg, st, specs);
  }

  /** What a replayed entry puts on the board, and what it leaves there. */
  lemma EntryLands(st: FlockState, g: Genesis, s: Sealed)
    requires Sound(st, g) && Replayed(st, s).Ok?
    ensures
      var b := Replayed(st, s).value.board;
      EventId(s.event) in b.entries && b.entries[EventId(s.event)].index == s.record.payload.index
  {
    hide Replayed, Inv, ServerKeyed, EntryOf;
    SoundReplay(st, g, s);
    EntryEvent(st, IntakeOf(st, s));
    IndexIsNext(st, g, s);
  }

  lemma IndexIsNext(st: FlockState, g: Genesis, s: Sealed)
    requires Sound(st, g) && Replayed(st, s).Ok?
    ensures s.record.payload.index == |st.board.order| + 1 && IntakeOf(st, s).node == s.event
  {
    hide BoardInv, RowsOk, InvitesSpentOnce, ApprovalsSpentOnce, LinesOk, ResumesKept, ServerKeyed, VerifyAt, Vet, Taken,
         CertsOk, CitedCert, Consistent;
  }

  lemma EntryStays(st: FlockState, g: Genesis, s: Sealed, id: Id)
    requires Sound(st, g) && Replayed(st, s).Ok? && id in st.board.entries
    ensures id in Replayed(st, s).value.board.entries && Replayed(st, s).value.board.entries[id] == st.board.entries[id]
  {
    hide Replayed, Inv, ServerKeyed, EntryOf;
    SoundReplay(st, g, s);
  }

  /** What a server call builds replays, as one frame, to the state it will hold. */
  lemma BuiltReplays(cfg: Config, st: FlockState, c: Call)
    requires Sound(st, cfg.genesis) && cfg.key.cert == cfg.genesis.serverCert
    requires SpecsOf(st, c).Ok? && Built(cfg, st, SpecsOf(st, c).value).Ok?
    ensures var (f, next) := Built(cfg, st, SpecsOf(st, c).value).value; FrameTaken(st, f) == Ok(next) && Sound(next, cfg.genesis)
  {
    hide Sound, Built, FrameTaken;
    var specs := SpecsOf(st, c).value;
    assert |specs| == 1 || |specs| == 2;
    if |specs| == 1 {
      OneBuilt(cfg, st, specs);
    } else {
      TwoBuilt(cfg, st, specs);
    }
  }

  /** What a server transaction writes replays, as one frame, to the state it will hold. */
  lemma TransactionReplays(cfg: Config, st: FlockState, c: Call)
    requires Sound(st, cfg.genesis) && cfg.key.cert == cfg.genesis.serverCert && Transacted(cfg, st, c).Ok?
    ensures var (f, next) := Transacted(cfg, st, c).value; FrameTaken(st, f) == Ok(next) && Sound(next, cfg.genesis)
  {
    hide Sound, Built, FrameTaken, SpecsOf;
    BuiltReplays(cfg, st, c);
  }
}
