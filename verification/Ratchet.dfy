/** The epoch ratchet: what a certificate is good for, and when. */
module Ratchet {
  import opened Schema
  import opened BoardModel
  import opened BoardFold
  import opened SessionModel
  import opened StateModel
  import opened Steps
  import opened History

  /** Bounded to one epoch, no later than `top`. */
  ghost predicate Tied(cert: Cert, top: nat) {
    exists e: nat :: e <= top && cert.meta.caveats == Bounded(e)
  }

  /** A certificate of a session: filed, its own, tied to an epoch, and in the log. */
  ghost predicate CertFits(h: seq<Entry>, t: SessionTable, s: string, cid: Id)
    requires s in t.sessions
  {
    && cid.CertId? && cid in t.chains
    && cid.cert.key == s
    && Tied(cid.cert, t.sessions[s].epoch)
    && exists i :: LogsCert(h, i, s, cid)
  }

  ghost predicate SessionCerts(h: seq<Entry>, t: SessionTable, epoch: nat, s: string) {
    s in t.sessions ==>
      && t.sessions[s].epoch <= epoch
      && forall cid {:trigger cid in t.sessions[s].certs} :: cid in t.sessions[s].certs ==> CertFits(h, t, s, cid)
  }

  ghost predicate CertsOk(h: seq<Entry>, t: SessionTable, epoch: nat) {
    && CertsNamed(t)
    && forall s {:trigger SessionCerts(h, t, epoch, s)} :: SessionCerts(h, t, epoch, s)
  }

  lemma LogsCertStays(h: seq<Entry>, e: Entry, i: int, s: string, cid: Id)
    requires LogsCert(h, i, s, cid)
    ensures LogsCert(h + [e], i, s, cid)
  {
    assert (h + [e])[i] == h[i];
  }

  lemma NamedStep(t: SessionTable, c: Change, epoch: nat, server: Key)
    requires CertsNamed(t) && Legal(t, c, epoch, server)
    ensures CertsNamed(Changed(t, c, epoch, server))
    ensures t.chains.Keys <= Changed(t, c, epoch, server).chains.Keys
  {
    hide CertOk;
  }

  /** Where a session's certificates and epoch come from. */
  lemma CertsComeFrom(t: SessionTable, c: Change, epoch: nat, server: Key, s: string)
    requires Legal(t, c, epoch, server) && s in Changed(t, c, epoch, server).sessions
    ensures
      var row' := Changed(t, c, epoch, server).sessions[s];
      if c.Started? && c.session == s then
        && row'.certs == {CertId(c.cert)} && row'.epoch == epoch && CertOk(c.cert, s, epoch, server).Ok?
        && CertId(c.cert) in Changed(t, c, epoch, server).chains
      else if c.Renewed? && c.session == s then
        && s in t.sessions
        && row'.certs == t.sessions[s].certs + {CertId(c.cert)}
        && row'.epoch == epoch > t.sessions[s].epoch && CertOk(c.cert, s, epoch, server).Ok?
        && CertId(c.cert) in Changed(t, c, epoch, server).chains
      else
        && s in t.sessions && row'.certs == t.sessions[s].certs && row'.epoch == t.sessions[s].epoch
  {
    hide CertOk;
  }

  lemma SessionCertsStep(h: seq<Entry>, e: Entry, t: SessionTable, epoch: nat, epoch': nat, server: Key, s: string)
    requires CertsOk(h, t, epoch) && epoch <= epoch' && Legal(t, ChangeOf(e.id, e.event), epoch', server)
    ensures SessionCerts(h + [e], Changed(t, ChangeOf(e.id, e.event), epoch', server), epoch', s)
  {
    hide Changed, Legal, VerifyAt;
    var c := ChangeOf(e.id, e.event);
    var t' := Changed(t, c, epoch', server);
    if s in t'.sessions {
      CertsComeFrom(t, c, epoch', server, s);
      NamedStep(t, c, epoch', server);
      assert SessionCerts(h, t, epoch, s);
      forall cid | cid in t'.sessions[s].certs
        ensures CertFits(h + [e], t', s, cid)
      {
        if s in t.sessions && cid in t.sessions[s].certs && !(c.Started? && c.session == s) {
          assert CertFits(h, t, s, cid);
          var i :| LogsCert(h, i, s, cid);
          LogsCertStays(h, e, i, s, cid);
        } else {
          assert cid == CertId(c.cert) && cid.cert.meta.caveats == Bounded(epoch');
          assert (h + [e])[|h|] == e;
          assert LogsCert(h + [e], |h|, s, cid);
        }
      }
    }
  }

  lemma CertsStep(h: seq<Entry>, e: Entry, t: SessionTable, epoch: nat, epoch': nat, server: Key)
    requires CertsOk(h, t, epoch) && epoch <= epoch' && Legal(t, ChangeOf(e.id, e.event), epoch', server)
    ensures CertsOk(h + [e], Changed(t, ChangeOf(e.id, e.event), epoch', server), epoch')
  {
    hide Changed, Legal, SessionCerts, ChangeOf;
    NamedStep(t, ChangeOf(e.id, e.event), epoch', server);
    forall s
      ensures SessionCerts(h + [e], Changed(t, ChangeOf(e.id, e.event), epoch', server), epoch', s)
    {
      SessionCertsStep(h, e, t, epoch, epoch', server, s);
    }
  }

  // ------------------------------------------------------------------ what the ratchet means

  /** Every session-signed admission was made under a certificate the log had already put
      down for that same active session, bounded to exactly the record's epoch, which is
      the current one and the one the session last renewed at. */
  lemma SignedAtItsOwnEpoch(st: FlockState, a: Intake, st': FlockState)
    requires Consistent(st.board) && CertsOk(Hist(st.board), st.sessions, st.chain.epoch)
    requires Moves(st, a, st') && a.signer.class_.Session?
    ensures a.Ev().author in st.sessions.sessions
    ensures st.sessions.sessions[a.Ev().author].status == Active
    ensures st.sessions.sessions[a.Ev().author].epoch == st.chain.epoch == a.Epoch()
    ensures a.sig.author.meta.caveats == Bounded(a.Epoch())
    ensures exists i :: LogsCert(Hist(st.board), i, a.Ev().author, a.record.payload.cert)
  {
    hide Effect, Grown, KindOf, ChainHead, Consistent;
    var s := a.Ev().author;
    assert SessionCerts(Hist(st.board), st.sessions, st.chain.epoch, s);
    assert CertFits(Hist(st.board), st.sessions, s, CertId(a.sig.author));
    var e: nat :| e <= st.sessions.sessions[s].epoch && a.sig.author.meta.caveats == Bounded(e);
    assert GenerationOk(a.sig.author.meta.caveats.generation, a.Epoch());
  }

  /** After a bump every session's certificate is behind. */
  lemma BumpLeavesAllBehind(st: FlockState, a: Intake, st': FlockState, s: string)
    requires Consistent(st.board) && CertsOk(Hist(st.board), st.sessions, st.chain.epoch)
    requires Moves(st, a, st') && a.Ev().kind.Epoch? && s in st'.sessions.sessions
    ensures st'.sessions.sessions[s].epoch < st'.chain.epoch == st.chain.epoch + 1
  {
    hide Grown, ChainHead, CertFits;
    assert SessionCerts(Hist(st.board), st.sessions, st.chain.epoch, s);
  }

  /** A session behind the epoch signs nothing. */
  lemma BehindSignsNothing(st: FlockState, a: Intake, st': FlockState)
    requires Consistent(st.board) && CertsOk(Hist(st.board), st.sessions, st.chain.epoch)
    requires Moves(st, a, st') && a.Ev().author in st.sessions.sessions
    requires st.sessions.sessions[a.Ev().author].epoch < st.chain.epoch
    ensures !a.signer.class_.Session?
  {
    if a.signer.class_.Session? {
      SignedAtItsOwnEpoch(st, a, st');
    }
  }

  /** Only its own renewal, and only up to the current epoch, moves a session forward. */
  lemma OnlyRenewalCatchesUp(st: FlockState, a: Intake, st': FlockState, s: string)
    requires Moves(st, a, st') && s in st.sessions.sessions && s in st'.sessions.sessions
    requires st'.sessions.sessions[s].epoch != st.sessions.sessions[s].epoch
    ensures a.Ev().body.RenewalBody? && a.Ev().body.session == s
    ensures st'.sessions.sessions[s].epoch == st'.chain.epoch == st.chain.epoch
  {
    hide Changed, Legal, Grown, ChainHead, CertOk, LastWord;
    CertsComeFrom(st.sessions, ChangeOf(EventId(a.node), a.Ev()), a.Epoch(), st.chain.serverPub, s);
    assert Legal(st.sessions, ChangeOf(EventId(a.node), a.Ev()), a.Epoch(), st.chain.serverPub);
    StartedIsNew(st.sessions, ChangeOf(EventId(a.node), a.Ev()), a.Epoch(), st.chain.serverPub);
  }

  lemma StartedIsNew(t: SessionTable, c: Change, epoch: nat, server: Key)
    requires Legal(t, c, epoch, server)
    ensures c.Started? ==> c.session !in t.sessions
  {
    hide CertOk;
  }
}
