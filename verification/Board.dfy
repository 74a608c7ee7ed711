/** The board as a left fold of `Applied` over the log, and the views read off it. */
module BoardFold {
  import opened Results
  import opened Schema
  import opened BoardModel
  import opened Admission

  /** An event node and who signed it, as the caller established. */
  datatype LogEntry = LogEntry(node: EventNode, signer: Signer)

  datatype FoldError = FoldError(position: nat, refusal: Refusal)

  /** The name under which an event of this kind names what it closes. */
  function CloserRole(k: Kind): Option<RefRole> {
    match k
    case Result => Some(BriefRef)
    case Verdict => Some(ReviewRef)
    case JobEnd => Some(JobRef)
    case Answer => Some(AskRef)
    case _ => None
  }

  /** What an event would close, read off its kind and references without the table. */
  function ClosedBy(ev: Event): Option<Id> {
    var role := CloserRole(ev.kind);
    if role.Some? then Get(ev.refs, role.value) else None
  }

  function SigningMember(s: Signer): Option<string> {
    if s.class_.Session? then Some(s.class_.member) else None
  }

  /** Record an event the table let in, flagged or not. */
  function Recorded(b: BoardState, node: EventNode, signer: Signer, conflict: Option<ConflictKind>): BoardState {
    var id := EventId(node);
    var ev := node.payload;
    var newRoster := ev.kind.Roster? && ev.body.RosterBody? && conflict.None?;
    b.(
      heads := b.heads[ev.author := id],
      closers := if conflict.None? && ClosedBy(ev).Some? then b.closers[ClosedBy(ev).value := id] else b.closers,
      members := if newRoster then ev.body.members else b.members,
      roots := if newRoster then ev.body.roots else b.roots,
      rosterId := if newRoster then id else b.rosterId,
      order := b.order + [id],
      entries := b.entries[id := Entry(id, |b.order| + 1, ev, SigningMember(signer), conflict)])
  }

  /** Decide, and record unless refused or a duplicate. */
  function Applied(b: BoardState, e: LogEntry): (BoardState, Verdict) {
    var v := AdmitVerdict(b, e.node, e.signer);
    match v
    case Admit => (Recorded(b, e.node, e.signer, None), v)
    case Conflict(kind) => (Recorded(b, e.node, e.signer, Some(kind)), v)
    case Duplicate(_) => (b, v)
    case Refuse(_) => (b, v)
  }

  /** The board after any sequence of entries, refused ones included (they change nothing). */
  function Run(g: Genesis, log: seq<LogEntry>): BoardState {
    if |log| == 0 then Genesised(g)
    else Applied(Run(g, log[..|log| - 1]), log[|log| - 1]).0
  }

  /** The fold a reader runs: the first refused entry ends it. */
  function Folded(g: Genesis, log: seq<LogEntry>): Result<BoardState, FoldError> {
    if |log| == 0 then Ok(Genesised(g))
    else
      var b :- Folded(g, log[..|log| - 1]);
      var (b', v) := Applied(b, log[|log| - 1]);
      if v.Refuse? then Err(FoldError(|log| - 1, v.refusal)) else Ok(b')
  }

  // ------------------------------------------------------------------ views

  datatype AttemptState = Submitted | Working | InputRequired | Done(outcome: Outcome)

  datatype AttemptView = AttemptView(brief: Id, state: AttemptState, jobOpen: bool, conflicts: seq<Id>)

  predicate HasEntry(b: BoardState, i: int) {
    0 <= i < |b.order| && b.order[i] in b.entries
  }

  function At(b: BoardState, i: int): Entry
    requires HasEntry(b, i)
  {
    b.entries[b.order[i]]
  }

  /** Some unanswered, unflagged ask is about `brief`. */
  predicate OpenAsk(b: BoardState, brief: Id) {
    exists i {:trigger HasEntry(b, i)} :: 0 <= i < |b.order| && HasEntry(b, i) && At(b, i).event.kind.Ask?
      && Get(At(b, i).event.refs, About) == Some(brief) && At(b, i).conflict.None? && At(b, i).id !in b.closers
  }

  predicate Acked(b: BoardState, brief: Id) {
    exists i {:trigger HasEntry(b, i)} :: 0 <= i < |b.order| && HasEntry(b, i) && At(b, i).event.kind.Ack?
      && Get(At(b, i).event.refs, OfRef) == Some(brief)
  }

  predicate JobOpen(b: BoardState, lane: string) {
    exists i {:trigger HasEntry(b, i)} :: 0 <= i < |b.order| && HasEntry(b, i) && At(b, i).event.body.JobBody?
      && At(b, i).event.body.lane == lane && At(b, i).id !in b.closers
  }

  /** The outcome of the result that closed `brief`, if its closer is a result. */
  function OutcomeOf(b: BoardState, brief: Id): Option<Outcome> {
    if brief in b.closers && b.closers[brief] in b.entries && b.entries[b.closers[brief]].event.body.ResultBody?
    then Some(b.entries[b.closers[brief]].event.body.outcome)
    else None
  }

  /** Flagged events among the first `n` that cite `brief`, in admission order. */
  function ConflictsOn(b: BoardState, brief: Id, n: nat): seq<Id>
    requires n <= |b.order|
  {
    if n == 0 then []
    else
      var rest := ConflictsOn(b, brief, n - 1);
      if HasEntry(b, n - 1) && At(b, n - 1).conflict.Some? && brief in At(b, n - 1).event.refs.Values
      then rest + [At(b, n - 1).id] else rest
  }

  function Attempt(b: BoardState, brief: Id): Option<AttemptView> {
    if brief !in b.entries || !b.entries[brief].event.body.BriefBody? then None
    else
      var outcome := OutcomeOf(b, brief);
      var state :=
        if outcome.Some? then Done(outcome.value)
        else if OpenAsk(b, brief) then InputRequired
        else if Acked(b, brief) then Working
        else Submitted;
      Some(AttemptView(brief, state, JobOpen(b, b.entries[brief].event.body.lane), ConflictsOn(b, brief, |b.order|)))
  }

  // ------------------------------------------------------------------ the board as the server holds it

  class Board {
    const flock: Id
    var rosterId: Id
    var members: seq<Member>
    var roots: seq<string>
    var entries: map<Id, Entry>
    var order: seq<Id>
    var heads: map<string, Id>
    var closers: map<Id, Id>

    ghost function View(): BoardState
      reads this
    {
      BoardState(flock, rosterId, members, roots, entries, order, heads, closers)
    }

    function Snapshot(): (s: BoardState)
      reads this
      ensures s == View()
    {
      BoardState(flock, rosterId, members, roots, entries, order, heads, closers)
    }

    constructor (g: Genesis)
      ensures View() == Genesised(g)
    {
      flock, rosterId, members, roots := GenesisId(g), GenesisId(g), g.roster, [];
      entries, order, heads, closers := map[], [], map[], map[];
    }

    constructor Clone(b: BoardState)
      ensures View() == b
    {
      flock, rosterId, members, roots := b.flock, b.rosterId, b.members, b.roots;
      entries, order, heads, closers := b.entries, b.order, b.heads, b.closers;
    }

    method Apply(e: LogEntry) returns (verdict: Verdict)
      modifies this
      ensures (View(), verdict) == Applied(old(View()), e)
    {
      verdict := AdmitVerdict(Snapshot(), e.node, e.signer);
      var conflict: Option<ConflictKind>;
      match verdict {
        case Admit => conflict := None;
        case Conflict(kind) => conflict := Some(kind);
        case _ => return;
      }
      var id, ev := EventId(e.node), e.node.payload;
      var index := |order| + 1;
      heads := heads[ev.author := id];
      if conflict.None? {
        var target := ClosedBy(ev);
        if target.Some? {
          closers := closers[target.value := id];
        }
      }
      if ev.kind.Roster? && ev.body.RosterBody? {
        if conflict.None? {
          members, roots, rosterId := ev.body.members, ev.body.roots, id;
        }
      }
      order := order + [id];
      entries := entries[id := Entry(id, index, ev, SigningMember(e.signer), conflict)];
    }

    static method Fold(g: Genesis, log: seq<LogEntry>) returns (board: Board?, error: Option<FoldError>)
      ensures error.None? ==> board != null && fresh(board) && Folded(g, log) == Ok(board.View())
      ensures error.Some? ==> board == null && Folded(g, log) == Err(error.value)
    {
      var b := new Board(g);
      for position := 0 to |log|
        invariant fresh(b)
        invariant Folded(g, log[..position]) == Ok(b.View())
      {
        assert log[..position + 1][..position] == log[..position];
        var v := b.Apply(log[position]);
        if v.Refuse? {
          FailureSticks(g, log, position + 1);
          return null, Some(FoldError(position, v.refusal));
        }
      }
      assert log[..|log|] == log;
      return b, None;
    }
  }

  /** Once an entry is refused the fold keeps that error, whatever follows. */
  lemma {:induction false} FailureSticks(g: Genesis, log: seq<LogEntry>, n: nat)
    requires n <= |log| && Folded(g, log[..n]).Err?
    ensures Folded(g, log) == Folded(g, log[..n])
    decreases |log| - n
  {
    if n < |log| {
      assert log[..n + 1][..n] == log[..n];
      FailureSticks(g, log, n + 1);
    } else {
      assert log[..n] == log;
    }
  }

  /** An entry is filed under its own id, at its position in `order`. */
  ghost predicate Filed(b: BoardState, id: Id) {
    id in b.entries ==>
      && b.entries[id].id == id
      && id.EventId? && id.event.payload == b.entries[id].event
      && 1 <= b.entries[id].index <= |b.order| && b.order[b.entries[id].index - 1] == id
  }

  /** `order` lists exactly the entries, each once. */
  ghost predicate Consistent(b: BoardState) {
    && (forall i {:trigger b.order[i]} :: 0 <= i < |b.order| ==>
          b.order[i] in b.entries && b.entries[b.order[i]].index == i + 1)
    && (forall id {:trigger Filed(b, id)} :: Filed(b, id))
  }
}
