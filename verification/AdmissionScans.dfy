/** The loops behind the admission rules: each fills a local set or carries a local result,
    and decides exactly what the rule says. */
module AdmissionScans {
  import opened Results
  import opened Schema
  import opened BoardModel
  import opened Admission

  ghost function NamesOf(ms: seq<Member>): set<string> {
    set m | m in ms :: m.name
  }

  lemma NameIsNew(ms: seq<Member>, i: nat)
    requires i < |ms| && DistinctNames(ms[..i])
    ensures DistinctNames(ms[..i + 1]) <==> ms[i].name !in NamesOf(ms[..i])
    ensures NamesOf(ms[..i + 1]) == NamesOf(ms[..i]) + {ms[i].name}
  {
    var more := ms[..i + 1];
    assert more == ms[..i] + [ms[i]];
    if ms[i].name in NamesOf(ms[..i]) {
      var m :| m in ms[..i] && m.name == ms[i].name;
      var j :| 0 <= j < i && ms[..i][j] == m;
      assert more[j].name == more[i].name;
    } else {
      forall j, k | 0 <= j < k < i + 1
        ensures more[j].name != more[k].name
      {
        assert ms[..i][j] in ms[..i];
        if k < i {
          assert ms[..i][j].name != ms[..i][k].name;
        }
      }
    }
  }

  lemma DistinctStays(ms: seq<Member>, i: nat)
    requires i <= |ms| && !DistinctNames(ms[..i])
    ensures !DistinctNames(ms)
  {
    var j, k :| 0 <= j < k < i && ms[..i][j].name == ms[..i][k].name;
    assert ms[j].name == ms[k].name;
  }

  /** At most one delegate, and names unique with devices on operators only, in one pass. */
  method RosterIsWellFormed(ms: seq<Member>) returns (ok: bool)
    ensures ok <==> RosterWellFormed(ms)
  {
    var delegates := 0;
    for i := 0 to |ms|
      invariant delegates == Delegates(ms[..i])
    {
      assert ms[..i + 1][..i] == ms[..i];
      if ms[i].delegate {
        delegates := delegates + 1;
      }
    }
    assert ms[..|ms|] == ms;
    if delegates > 1 {
      return false;
    }
    var names: set<string> := {};
    for i := 0 to |ms|
      invariant names == NamesOf(ms[..i]) && DistinctNames(ms[..i])
      invariant forall k :: 0 <= k < i && ms[k].role != Operator ==> ms[k].devices == []
    {
      NameIsNew(ms, i);
      if ms[i].name in names {
        DistinctStays(ms, i + 1);
        return false;
      }
      names := names + {ms[i].name};
      if ms[i].role != Operator && ms[i].devices != [] {
        return false;
      }
    }
    return true;
  }

  method RootIsPlain(r: string) returns (ok: bool)
    ensures ok <==> PlainRoot(r)
  {
    if !(1 <= |r| <= 64) {
      return false;
    }
    for i := 0 to |r|
      invariant forall k :: 0 <= k < i ==> PlainChar(r[k])
    {
      if !PlainChar(r[i]) {
        return false;
      }
    }
    return r != "." && r != "..";
  }

  /** Plain names, each once. */
  method RootsAreWellFormed(roots: seq<string>) returns (ok: bool)
    ensures ok <==> RootsWellFormed(roots)
  {
    hide PlainRoot;
    var seen: set<string> := {};
    for i := 0 to |roots|
      invariant seen == set k | 0 <= k < i :: roots[k]
      invariant forall k :: 0 <= k < i ==> PlainRoot(roots[k])
      invariant forall j, k :: 0 <= j < k < i ==> roots[j] != roots[k]
    {
      var plain := RootIsPlain(roots[i]);
      if !plain || roots[i] in seen {
        return false;
      }
      seen := seen + {roots[i]};
    }
    return true;
  }

  /** The spec's rules one after another, carrying what the event acts on. */
  method RefsChecked(b: BoardState, ev: Event) returns (r: Result<Option<Id>, Refusal>)
    ensures r == CheckRefs(b, ev)
  {
    if IsServerKind(ev.kind) {
      if exists role :: role in ev.refs && ev.refs[role] !in b.entries {
        return Err(UnknownRef);
      }
      return Ok(None);
    }
    var spec := RefSpec(ev.kind);
    if exists role :: role in ev.refs && !InSpec(spec, role) {
      return Err(UnexpectedRef);
    }
    hide CheckRef, CheckRefs, RefSpec, InSpec;
    assert CheckRefs(b, ev) == CheckRules(b, ev, spec, None) by { SpecDecides(b, ev); }
    var actsOn: Option<Id> := None;
    for i := 0 to |spec|
      invariant CheckRules(b, ev, spec, None) == CheckRules(b, ev, spec[i..], actsOn)
    {
      assert spec[i..][1..] == spec[i + 1..];
      var one := CheckRef(b, ev, spec[i]);
      if one.Err? {
        return Err(one.error);
      }
      if one.value.Some? {
        actsOn := one.value;
      }
    }
    return Ok(actsOn);
  }

  lemma SpecDecides(b: BoardState, ev: Event)
    requires !IsServerKind(ev.kind) && !exists role :: role in ev.refs && !InSpec(RefSpec(ev.kind), role)
    ensures CheckRefs(b, ev) == CheckRules(b, ev, RefSpec(ev.kind), None)
  {
  }
}
