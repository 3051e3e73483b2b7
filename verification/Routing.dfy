/** From a snapshot to the ordered candidates of a request: resolution of the
    requested name and filtering by requirements. */
module Routing {
  import opened GroupOrder
  import opened Configuration
  import Failover
  import Precommit

  datatype Requirements = Requirements(tools: bool, vision: bool, reasoning: bool)

  const NO_REQUIREMENTS := Requirements(false, false, false)

  // ------------------------------------------------------------------- resolution

  datatype Reason = ByGroup | Direct | ByDefault

  datatype Resolved = Resolved(ids: seq<string>, reason: Reason) | MissingModel | UnknownModel

  /** An exact group, else an exact model, else the default group. */
  function Resolve(c: Snapshot, requested: string): Resolved {
    var name := Precommit.Trim(requested);
    if name == "" then MissingModel
    else if name in c.groups then Resolved(c.groups[name], ByGroup)
    else if name in c.models then Resolved([name], Direct)
    else if c.defaultGroup == "" || c.defaultGroup !in c.groups then UnknownModel
    else Resolved(c.groups[c.defaultGroup], ByDefault)
  }

  predicate Admits(m: Model, r: Requirements) {
    && !(r.tools && m.capabilities.tools.Unsupported?)
    && !(r.vision && m.capabilities.vision.Unsupported?)
    && !(r.reasoning && m.capabilities.reasoning.Unsupported?)
  }

  predicate Selectable(c: Snapshot, id: string, r: Requirements) {
    id in c.models && c.models[id].provider in c.providers && Admits(c.models[id], r)
  }

  function CandidateOf(c: Snapshot, id: string): Failover.Candidate
    requires id in c.models && c.models[id].provider in c.providers
  {
    var m := c.models[id];
    Failover.Candidate(id, m.provider, m.upstreamModel, c.providers[m.provider].key)
  }

  function Filtered(c: Snapshot, ids: seq<string>, r: Requirements): seq<Failover.Candidate> {
    if ids == [] then []
    else
      var last := ids[|ids| - 1];
      Filtered(c, ids[..|ids| - 1], r) + if Selectable(c, last, r) then [CandidateOf(c, last)] else []
  }

  method FilterCandidates(c: Snapshot, ids: seq<string>, r: Requirements) returns (out: seq<Failover.Candidate>)
    ensures out == Filtered(c, ids, r)
  {
    out := [];
    var i := 0;
    while i < |ids|
      invariant i <= |ids| && out == Filtered(c, ids[..i], r)
    {
      assert ids[..i + 1][..i] == ids[..i];
      var id := ids[i];
      i := i + 1;
      if id !in c.models { continue; }
      var m := c.models[id];
      if m.provider !in c.providers { continue; }
      if r.tools && m.capabilities.tools.Unsupported? { continue; }
      if r.vision && m.capabilities.vision.Unsupported? { continue; }
      if r.reasoning && m.capabilities.reasoning.Unsupported? { continue; }
      out := out + [Failover.Candidate(id, m.provider, m.upstreamModel, c.providers[m.provider].key)];
    }
    assert ids[..|ids|] == ids;
  }

  // ---------------------------------------------------------------- what it is for

  /** `short` is `long` at the ascending positions `at`. */
  ghost predicate Embeds(short: seq<Failover.Candidate>, long: seq<Failover.Candidate>, at: seq<nat>) {
    && |at| == |short|
    && (forall i :: 0 <= i < |at| ==> at[i] < |long| && short[i] == long[at[i]])
    && (forall i, j :: 0 <= i < j < |at| ==> at[i] < at[j])
  }

  /** Requirements only take candidates away. */
  lemma {:induction false} RequirementsNarrow(c: Snapshot, ids: seq<string>, r: Requirements) returns (at: seq<nat>)
    ensures Embeds(Filtered(c, ids, r), Filtered(c, ids, NO_REQUIREMENTS), at)
  {
    if ids == [] {
      at := [];
    } else {
      var n := |ids| - 1;
      at := RequirementsNarrow(c, ids[..n], r);
      var short, long := Filtered(c, ids[..n], r), Filtered(c, ids[..n], NO_REQUIREMENTS);
      if Selectable(c, ids[n], r) {
        Extend(short, long, at, CandidateOf(c, ids[n]));
        at := at + [|long|];
      } else {
        assert Filtered(c, ids, r) == short;
      }
    }
  }

  lemma Extend(short: seq<Failover.Candidate>, long: seq<Failover.Candidate>, at: seq<nat>, last: Failover.Candidate)
    requires Embeds(short, long, at)
    ensures Embeds(short + [last], long + [last], at + [|long|])
  {
  }

  lemma {:induction false} AllPresent(c: Snapshot, ids: seq<string>)
    requires forall i :: 0 <= i < |ids| ==> ids[i] in c.models && c.models[ids[i]].provider in c.providers
    ensures |Filtered(c, ids, NO_REQUIREMENTS)| == |ids|
    ensures forall i :: 0 <= i < |ids| ==> Filtered(c, ids, NO_REQUIREMENTS)[i] == CandidateOf(c, ids[i])
  {
    if ids != [] { AllPresent(c, ids[..|ids| - 1]); }
  }

  lemma MembersPresent(urlFine: string -> bool, snap: Snapshot, requested: string)
    requires Served(urlFine, snap) && !Blank(requested)
    ensures Resolve(snap, requested).Resolved?
    ensures var ids := Resolve(snap, requested).ids;
            Distinct(ids) && forall i :: 0 <= i < |ids| ==> ids[i] in snap.models && snap.models[ids[i]].provider in snap.providers
  {
    ServedIsUsable(urlFine, snap);
    hide Served;
  }

  /** Whatever snapshot is in service: every name that is not blank resolves;
      without requirements a request gets every member of its group in declared
      order, none twice; requirements leave a subsequence. */
  lemma RoutingIsTotal(urlFine: string -> bool, snap: Snapshot, requested: string, r: Requirements) returns (at: seq<nat>)
    requires Served(urlFine, snap) && !Blank(requested)
    ensures Resolve(snap, requested).Resolved?
    ensures var ids := Resolve(snap, requested).ids;
            var all := Filtered(snap, ids, NO_REQUIREMENTS);
            && |all| == |ids| && Distinct(ids)
            && (forall i :: 0 <= i < |ids| ==>
                  && ids[i] in snap.models && all[i].model == ids[i] && all[i].upstreamModel == snap.models[ids[i]].upstreamModel
                  && all[i].provider == snap.models[ids[i]].provider && all[i].provider in snap.providers
                  && all[i].key == snap.providers[all[i].provider].key)
            && Embeds(Filtered(snap, ids, r), all, at)
  {
    hide Served;
    hide Resolve;
    hide Embeds;
    hide Filtered;
    hide Distinct;
    hide Blank;
    MembersPresent(urlFine, snap, requested);
    var ids := Resolve(snap, requested).ids;
    AllPresent(snap, ids);
    at := RequirementsNarrow(snap, ids, r);
  }

  /** A group the order leaves out may hold a member twice and still be valid, and
      a snapshot of it resolves to that member twice. */
  lemma UnorderedDuplicatesPass(urlFine: string -> bool, env: Environment, snap: Snapshot)
    requires urlFine("http://p")
    ensures var m := Model("p", "u", false, Capabilities(Unknown, Unknown, Unknown));
            var c := Config(Basics(1, 80, 1, 1, 1), map["p" := Provider("http://p", "", "")], map["m" := m], map["g" := ["m", "m"]], [], "g");
            Valid(urlFine, c) && (Reflects(snap, c, env) ==> Resolve(snap, "g") == Resolved(["m", "m"], ByGroup))
  {
    assert Precommit.Trim("p") == "p" && Precommit.Trim("m") == "m" && Precommit.Trim("u") == "u" && Precommit.Trim("g") == "g";
  }

  // ---------------------------------------------------------------- what a name means

  /** Groups and models that are served do not share names. */
  lemma NamesApart(urlFine: string -> bool, snap: Snapshot)
    requires Served(urlFine, snap)
    ensures forall g :: g in snap.groups ==> g !in snap.models
    ensures snap.defaultGroup in snap.groups && snap.defaultGroup != ""
  {
    var c: Config, env: Environment :| Loaded(c) && Valid(urlFine, c) && Reflects(snap, c, env);
    hide Loaded, GroupsFine, ModelFine, ProviderFine, Runtime;
  }

  /** In service a name means one thing: a group its members, a model that model
      alone, anything else the members of the default group, and nothing at all is an
      error. */
  lemma NamesResolve(urlFine: string -> bool, snap: Snapshot, requested: string)
    requires Served(urlFine, snap)
    ensures var name, resolved := Precommit.Trim(requested), Resolve(snap, requested);
            && (name in snap.groups && name != "" ==> resolved == Resolved(snap.groups[name], ByGroup))
            && (name in snap.models && name != "" ==> resolved == Resolved([name], Direct))
            && (name !in snap.groups && name !in snap.models && name != "" ==>
                  resolved == Resolved(snap.groups[snap.defaultGroup], ByDefault))
            && (name == "" ==> resolved == MissingModel)
  {
    hide Served;
    NamesApart(urlFine, snap);
  }

  lemma {:induction false} TrimmedLeft(s: string)
    ensures var t := Precommit.TrimLeft(s); t == "" || !Precommit.IsSpace(t[0])
    ensures |Precommit.TrimLeft(s)| <= |s|
  {
    hide Precommit.IsSpace;
    if s != "" && Precommit.IsSpace(s[0]) { TrimmedLeft(s[1..]); }
  }

  lemma {:induction false} TrimmedRight(s: string)
    ensures var t := Precommit.TrimRight(s); t <= s && (t == "" || !Precommit.IsSpace(t[|t| - 1]))
  {
    hide Precommit.IsSpace;
    if s != "" && Precommit.IsSpace(s[|s| - 1]) { TrimmedRight(s[..|s| - 1]); }
  }

  /** Trimming once is enough. */
  lemma TrimTwice(s: string)
    ensures Precommit.Trim(Precommit.Trim(s)) == Precommit.Trim(s)
  {
    hide Precommit.IsSpace;
    var left := Precommit.TrimLeft(s);
    var t := Precommit.TrimRight(left);
    TrimmedLeft(s);
    TrimmedRight(left);
    assert t == "" || t[0] == left[0];
    assert Precommit.TrimLeft(t) == t;
    assert Precommit.TrimRight(t) == t;
  }

  /** A model in service can be asked for by its own name exactly if the name has no
      space around it: such names validate, and no request reaches them directly. */
  lemma ReachableByName(urlFine: string -> bool, snap: Snapshot, id: string)
    requires Served(urlFine, snap) && id in snap.models && id != ""
    ensures (exists requested :: Resolve(snap, requested) == Resolved([id], Direct)) <==> Precommit.Trim(id) == id
  {
    hide Served, Precommit.Trim;
    if Precommit.Trim(id) == id {
      NamesResolve(urlFine, snap, id);
      assert Resolve(snap, id) == Resolved([id], Direct);
    }
    if requested :| Resolve(snap, requested) == Resolved([id], Direct) {
      assert [Precommit.Trim(requested)] == [id] by { DirectName(snap, requested); }
      assert Precommit.Trim(requested) == id by { assert [Precommit.Trim(requested)][0] == [id][0]; }
      TrimTwice(requested);
    }
  }

  lemma DirectName(snap: Snapshot, requested: string)
    requires Resolve(snap, requested).Resolved? && Resolve(snap, requested).reason == Direct
    ensures Resolve(snap, requested).ids == [Precommit.Trim(requested)]
  {
  }

  /** One id is a candidate exactly if its model and provider are known and the model
      is not declared to lack what the request needs. */
  lemma OneFiltered(c: Snapshot, id: string, r: Requirements)
    ensures var fits :=
              && id in c.models && c.models[id].provider in c.providers
              && (r.tools ==> c.models[id].capabilities.tools != Unsupported)
              && (r.vision ==> c.models[id].capabilities.vision != Unsupported)
              && (r.reasoning ==> c.models[id].capabilities.reasoning != Unsupported);
            Filtered(c, [id], r) ==
              if fits then [Failover.Candidate(id, c.models[id].provider, c.models[id].upstreamModel, c.providers[c.models[id].provider].key)]
              else []
  {
    assert [id][..0] == [];
  }

  /** And a list gives its ids' candidates in their order. */
  lemma {:induction false} FilteredConcat(c: Snapshot, a: seq<string>, b: seq<string>, r: Requirements)
    ensures Filtered(c, a + b, r) == Filtered(c, a, r) + Filtered(c, b, r)
  {
    if b == [] {
      assert a + b == a;
    } else {
      hide Selectable, CandidateOf;
      FilteredConcat(c, a, b[..|b| - 1], r);
      assert (a + b)[..|a + b| - 1] == a + b[..|b| - 1];
    }
  }
}
