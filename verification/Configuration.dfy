/** Validation of a configuration, the runtime snapshot built from one, and the
    store that serves the current snapshot through reloads. */
module Configuration {
  import opened GroupOrder
  import Precommit

  datatype Support = Supported | Unsupported | Unknown

  datatype Capabilities = Capabilities(tools: Support, vision: Support, reasoning: Support)

  datatype Provider = Provider(baseURL: string, wireAPI: string, keyEnv: string)

  datatype Model = Model(provider: string, upstreamModel: string, thinkingBudget: bool, capabilities: Capabilities)

  /** Version, port and the three timeouts. */
  datatype Basics = Basics(version: int, port: int, request: int, firstEvent: int, streamIdle: int)

  datatype Config = Config(
    basics: Basics,
    providers: map<string, Provider>,
    models: map<string, Model>,
    groups: map<string, seq<string>>,
    groupOrder: seq<string>,
    defaultGroup: string)

  predicate Blank(s: string) {
    Precommit.Trim(s) == ""
  }

  // ------------------------------------------------------------------- validation

  predicate BasicsFine(b: Basics) {
    b.version == 1 && 1 <= b.port <= 65535 && b.request > 0 && b.firstEvent > 0 && b.streamIdle > 0
  }

  predicate ProviderFine(urlFine: string -> bool, id: string, p: Provider) {
    !Blank(id) && p.baseURL != "" && urlFine(p.baseURL) && p.wireAPI in {"", "responses", "chat_completions"}
  }

  predicate ModelFine(c: Config, id: string, m: Model) {
    !Blank(id) && !Blank(m.provider) && m.provider in c.providers && !Blank(m.upstreamModel) && !m.thinkingBudget
  }

  predicate MembersKnown(c: Config, members: seq<string>) {
    forall i | 0 <= i < |members| :: members[i] in c.models
  }

  /** The members of a name in the group order; none if there is no such group. */
  function MembersOf(c: Config, g: string): seq<string> {
    if g in c.groups then c.groups[g] else []
  }

  /** Groups are sound: members are known in all of them and distinct in those the
      order names, where only groups without members may be named twice. */
  ghost predicate GroupsFine(c: Config) {
    && (forall g :: g in c.groups ==> MembersKnown(c, c.groups[g]))
    && (forall i :: 0 <= i < |c.groupOrder| ==> Distinct(MembersOf(c, c.groupOrder[i])))
    && (forall i, j :: 0 <= i < j < |c.groupOrder| && c.groupOrder[i] == c.groupOrder[j] ==> MembersOf(c, c.groupOrder[i]) == [])
  }

  /** What validation accepts. */
  ghost predicate Valid(urlFine: string -> bool, c: Config) {
    && BasicsFine(c.basics)
    && (forall id :: id in c.providers ==> ProviderFine(urlFine, id, c.providers[id]))
    && (forall id :: id in c.models ==> ModelFine(c, id, c.models[id]))
    && (forall g :: g in c.groups ==> g !in c.models)
    && GroupsFine(c)
    && c.defaultGroup != "" && c.defaultGroup in c.groups
  }

  /** The members of one group against what was seen in the group before. */
  method CheckMembers(c: Config, members: seq<string>, before: set<string>) returns (ok: bool, seen: set<string>)
    ensures ok <==> MembersKnown(c, members) && Distinct(members) && forall i | 0 <= i < |members| :: members[i] !in before
    ensures ok ==> seen == before + set i | 0 <= i < |members| :: members[i]
  {
    seen := before;
    ok := true;
    var i := 0;
    while i < |members|
      invariant i <= |members| && seen == before + set j | 0 <= j < i :: members[j]
      invariant forall j | 0 <= j < i :: members[j] in c.models && members[j] !in before
      invariant forall a, b :: 0 <= a < b < i ==> members[a] != members[b]
    {
      if members[i] !in c.models { return false, seen; }
      if members[i] in seen { return false, seen; }
      seen := seen + {members[i]};
      i := i + 1;
    }
  }

  method CheckKnown(c: Config, members: seq<string>) returns (ok: bool)
    ensures ok <==> MembersKnown(c, members)
  {
    ok := true;
    var i := 0;
    while i < |members|
      invariant i <= |members| && forall j | 0 <= j < i :: members[j] in c.models
    {
      if members[i] !in c.models { return false; }
      i := i + 1;
    }
  }

  method CheckProviders(urlFine: string -> bool, c: Config) returns (ok: bool)
    ensures ok <==> forall id :: id in c.providers ==> ProviderFine(urlFine, id, c.providers[id])
  {
    var rest := c.providers.Keys;
    while rest != {}
      invariant rest <= c.providers.Keys
      invariant forall id :: id in c.providers && id !in rest ==> ProviderFine(urlFine, id, c.providers[id])
      decreases |rest|
    {
      var id :| id in rest;
      rest := rest - {id};
      if !ProviderFine(urlFine, id, c.providers[id]) { return false; }
    }
    ok := true;
  }

  method CheckModels(c: Config) returns (ok: bool)
    ensures ok <==> forall id :: id in c.models ==> ModelFine(c, id, c.models[id])
  {
    var rest := c.models.Keys;
    while rest != {}
      invariant rest <= c.models.Keys
      invariant forall id :: id in c.models && id !in rest ==> ModelFine(c, id, c.models[id])
      decreases |rest|
    {
      var id :| id in rest;
      rest := rest - {id};
      if !ModelFine(c, id, c.models[id]) { return false; }
    }
    ok := true;
  }

  /** The part of the group order already looked at is sound. */
  ghost predicate OrderFine(c: Config, n: nat)
    requires n <= |c.groupOrder|
  {
    && (forall i :: 0 <= i < n ==> MembersKnown(c, MembersOf(c, c.groupOrder[i])) && Distinct(MembersOf(c, c.groupOrder[i])))
    && (forall i, j :: 0 <= i < j < n && c.groupOrder[i] == c.groupOrder[j] ==> MembersOf(c, c.groupOrder[i]) == [])
  }

  /** What was seen in each group: nothing in those not yet met, all members in the
      others. */
  ghost predicate SeenSoFar(c: Config, n: nat, seenInGroup: map<string, set<string>>)
    requires n <= |c.groupOrder|
  {
    && (forall g :: g in seenInGroup <==> g in c.groupOrder[..n])
    && (forall g :: g in seenInGroup ==> seenInGroup[g] == set i | 0 <= i < |MembersOf(c, g)| :: MembersOf(c, g)[i])
  }

  lemma NextGroup(c: Config, n: nat, seenInGroup: map<string, set<string>>)
    requires n < |c.groupOrder| && SeenSoFar(c, n, seenInGroup) && OrderFine(c, n)
    ensures var g := c.groupOrder[n];
            var members, before := MembersOf(c, g), if g in seenInGroup then seenInGroup[g] else {};
            OrderFine(c, n + 1) <==>
              MembersKnown(c, members) && Distinct(members) && forall i | 0 <= i < |members| :: members[i] !in before
  {
    var g := c.groupOrder[n];
    var members := MembersOf(c, g);
    if g in seenInGroup {
      assert g in c.groupOrder[..n];
      var j :| 0 <= j < n && c.groupOrder[..n][j] == g;
      assert c.groupOrder[j] == g;
      if members != [] { assert members[0] in seenInGroup[g]; }
    } else {
      assert forall i :: 0 <= i < n ==> c.groupOrder[i] in c.groupOrder[..n];
    }
  }

  /** The groups in order, then, for the members only, those left out of it. */
  method CheckGroups(c: Config) returns (ok: bool)
    ensures ok <==> GroupsFine(c)
  {
    var seenInGroup: map<string, set<string>> := map[];
    var i := 0;
    while i < |c.groupOrder|
      invariant i <= |c.groupOrder| && OrderFine(c, i) && SeenSoFar(c, i, seenInGroup)
    {
      NextGroup(c, i, seenInGroup);
      var g := c.groupOrder[i];
      var fine, seen := CheckMembers(c, MembersOf(c, g), if g in seenInGroup then seenInGroup[g] else {});
      if !fine {
        NotFine(c, i + 1);
        return false;
      }
      assert c.groupOrder[..i + 1] == c.groupOrder[..i] + [g];
      seenInGroup := seenInGroup[g := seen];
      i := i + 1;
    }
    ok := CheckUnordered(c);
    AllFine(c);
  }

  lemma NotFine(c: Config, n: nat)
    requires n <= |c.groupOrder| && !OrderFine(c, n)
    ensures !GroupsFine(c)
  {
  }

  lemma AllFine(c: Config)
    requires OrderFine(c, |c.groupOrder|)
    ensures GroupsFine(c) <==> forall g :: g in c.groups && g !in c.groupOrder ==> MembersKnown(c, c.groups[g])
  {
    forall g | g in c.groups && g in c.groupOrder ensures MembersKnown(c, c.groups[g]) {
      var i :| 0 <= i < |c.groupOrder| && c.groupOrder[i] == g;
      assert MembersKnown(c, MembersOf(c, c.groupOrder[i]));
    }
  }

  method CheckUnordered(c: Config) returns (ok: bool)
    ensures ok <==> forall g :: g in c.groups && g !in c.groupOrder ==> MembersKnown(c, c.groups[g])
  {
    var rest := c.groups.Keys;
    while rest != {}
      invariant rest <= c.groups.Keys
      invariant forall g :: g in c.groups && g !in rest && g !in c.groupOrder ==> MembersKnown(c, c.groups[g])
      decreases |rest|
    {
      var g :| g in rest;
      rest := rest - {g};
      if g !in c.groupOrder {
        var fine := CheckKnown(c, c.groups[g]);
        if !fine { return false; }
      }
    }
    ok := true;
  }

  method CheckNames(c: Config) returns (ok: bool)
    ensures ok <==> forall g :: g in c.groups ==> g !in c.models
  {
    var rest := c.groups.Keys;
    while rest != {}
      invariant rest <= c.groups.Keys && forall g :: g in c.groups && g !in rest ==> g !in c.models
      decreases |rest|
    {
      var g :| g in rest;
      rest := rest - {g};
      if g in c.models { return false; }
    }
    ok := true;
  }

  /** Validation leaves duplicates unchecked only where the order leaves groups out. */
  lemma DuplicatesOutsideOrder(urlFine: string -> bool, c: Config)
    requires Valid(urlFine, c)
    ensures (forall g :: g in c.groups ==> Distinct(c.groups[g])) <==>
            (forall g :: g in c.groups && g !in c.groupOrder ==> Distinct(c.groups[g]))
  {
    forall g | g in c.groups && g in c.groupOrder ensures Distinct(c.groups[g]) {
      var i :| 0 <= i < |c.groupOrder| && c.groupOrder[i] == g;
      assert Distinct(MembersOf(c, c.groupOrder[i]));
    }
    hide Distinct;
    hide MembersKnown;
  }

  method Validate(urlFine: string -> bool, c: Config) returns (ok: bool)
    ensures ok <==> Valid(urlFine, c)
  {
    if !BasicsFine(c.basics) { return false; }
    ok := CheckProviders(urlFine, c);
    if !ok { return; }
    ok := CheckModels(c);
    if !ok { return; }
    ok := CheckNames(c);
    if !ok { return; }
    ok := CheckGroups(c);
    if !ok { return; }
    ok := c.defaultGroup != "" && c.defaultGroup in c.groups;
  }

  // --------------------------------------------------------------------- snapshot

  datatype RuntimeProvider = RuntimeProvider(baseURL: string, wireAPI: string, key: string)

  datatype Snapshot = Snapshot(
    generation: int,
    providers: map<string, RuntimeProvider>,
    models: map<string, Model>,
    groups: map<string, seq<string>>,
    groupOrder: seq<string>,
    defaultGroup: string)

  /** Where keys come from: the process environment first, then the dotenv file;
      a blank value counts as missing. */
  datatype Environment = Environment(process: map<string, string>, dotenv: map<string, string>, defaultName: string -> string)

  function LookupEnv(env: Environment, name: string): string {
    if name in env.process && !Blank(env.process[name]) then Precommit.Trim(env.process[name])
    else if name in env.dotenv && !Blank(env.dotenv[name]) then Precommit.Trim(env.dotenv[name])
    else ""
  }

  function Runtime(env: Environment, id: string, p: Provider): RuntimeProvider {
    RuntimeProvider(p.baseURL, p.wireAPI, LookupEnv(env, if p.keyEnv == "" then env.defaultName(id) else p.keyEnv))
  }

  /** A snapshot has the configuration's providers, with their keys, its models,
      its groups and their order, and nothing else. */
  ghost predicate Reflects(snap: Snapshot, c: Config, env: Environment) {
    && (forall id :: id in snap.providers <==> id in c.providers)
    && (forall id :: id in c.providers ==> snap.providers[id] == Runtime(env, id, c.providers[id]))
    && snap.models == c.models && snap.groups == c.groups
    && snap.groupOrder == c.groupOrder && snap.defaultGroup == c.defaultGroup
  }

  method BuildSnapshot(c: Config, env: Environment, generation: int) returns (snap: Snapshot)
    ensures snap.generation == generation && Reflects(snap, c, env)
  {
    var providers: map<string, RuntimeProvider> := map[];
    var rest := c.providers.Keys;
    while rest != {}
      invariant rest <= c.providers.Keys && providers.Keys == c.providers.Keys - rest
      invariant forall id :: id in providers ==> providers[id] == Runtime(env, id, c.providers[id])
      decreases |rest|
    {
      var id :| id in rest;
      rest := rest - {id};
      var p := c.providers[id];
      var name := p.keyEnv;
      if name == "" { name := env.defaultName(id); }
      providers := providers[id := RuntimeProvider(p.baseURL, p.wireAPI, LookupEnv(env, name))];
    }
    var models := CopyOf(c.models);
    var groups := CopyOf(c.groups);
    snap := Snapshot(generation, providers, models, groups, c.groupOrder, c.defaultGroup);
  }

  method CopyOf<V>(m: map<string, V>) returns (copy: map<string, V>)
    ensures copy == m
  {
    copy := map[];
    var rest := m.Keys;
    while rest != {}
      invariant rest <= m.Keys && copy.Keys == m.Keys - rest
      invariant forall key :: key in copy ==> copy[key] == m[key]
      decreases |rest|
    {
      var key :| key in rest;
      rest := rest - {key};
      copy := copy[key := m[key]];
    }
  }

  /** A configuration as the loader makes it: the order lists every group once. */
  ghost predicate Loaded(c: Config) {
    Distinct(c.groupOrder) && forall g :: g in c.groupOrder <==> g in c.groups
  }

  /** What can be relied on of a snapshot that is served. */
  ghost predicate Served(urlFine: string -> bool, snap: Snapshot) {
    exists c: Config, env: Environment :: Loaded(c) && Valid(urlFine, c) && Reflects(snap, c, env)
  }

  /** Groups have known members, each once, models have known providers, and there
      is a default group. */
  ghost predicate Usable(snap: Snapshot) {
    && (forall g :: g in snap.groups ==> Distinct(snap.groups[g]))
    && (forall g, i :: g in snap.groups && 0 <= i < |snap.groups[g]| ==> snap.groups[g][i] in snap.models)
    && (forall id :: id in snap.models ==> snap.models[id].provider in snap.providers)
    && snap.defaultGroup != "" && snap.defaultGroup in snap.groups
  }

  lemma {:induction false} ListedDistinct(c: Config, g: string)
    requires Loaded(c) && GroupsFine(c) && g in c.groups
    ensures Distinct(c.groups[g]) && MembersKnown(c, c.groups[g])
  {
    assert g in c.groupOrder;
    var i :| 0 <= i < |c.groupOrder| && c.groupOrder[i] == g;
    assert Distinct(MembersOf(c, c.groupOrder[i]));
    hide MembersKnown;
    hide Distinct;
  }

  /** Whatever is served is usable. */
  lemma ServedIsUsable(urlFine: string -> bool, snap: Snapshot)
    requires Served(urlFine, snap)
    ensures Usable(snap)
  {
    var c: Config, env: Environment :| Loaded(c) && Valid(urlFine, c) && Reflects(snap, c, env);
    forall g | g in snap.groups ensures Distinct(snap.groups[g]) && MembersKnown(c, snap.groups[g]) {
      ListedDistinct(c, g);
    }
    forall id | id in snap.models ensures snap.models[id].provider in snap.providers {
      assert ModelFine(c, id, c.models[id]);
    }
    hide Distinct;
    hide GroupsFine;
    hide Loaded;
    hide Runtime;
    hide ProviderFine;
    hide Blank;
  }

  /** The snapshot in service. A reload that does not validate changes nothing. */
  class Store {
    ghost const urlFine: string -> bool
    var current: Snapshot

    ghost predicate Sound()
      reads this
    {
      Served(urlFine, current)
    }

    constructor (ghost urlFine: string -> bool, snap: Snapshot)
      ensures this.urlFine == urlFine && current == snap
    {
      this.urlFine := urlFine;
      current := snap;
    }

    method TryReload(fine: string -> bool, c: Config, env: Environment, generation: int) returns (ok: bool)
      modifies `current
      ensures ok <==> Valid(fine, c)
      ensures old(Sound()) && Loaded(c) && fine == urlFine ==> Sound()
      ensures if ok then current.generation == generation && Reflects(current, c, env) else current == old(current)
    {
      ok := Validate(fine, c);
      if ok {
        var snap := BuildSnapshot(c, env, generation);
        current := snap;
        assert Loaded(c) ==> Served(fine, current);
      }
    }
  }

  method NewStore(urlFine: string -> bool, c: Config, env: Environment, generation: int) returns (store: Store?)
    ensures store != null <==> Valid(urlFine, c)
    ensures store != null ==> fresh(store) && store.urlFine == urlFine && (Loaded(c) ==> store.Sound()) &&
                              store.current.generation == generation && Reflects(store.current, c, env)
  {
    var ok := Validate(urlFine, c);
    if !ok { return null; }
    var snap := BuildSnapshot(c, env, generation);
    store := new Store(urlFine, snap);
    assert Loaded(c) ==> Served(urlFine, snap);
  }

  /** Where a key in a snapshot comes from: the variable the provider names, or its
      default one, first as the process has it, then as the dotenv file has it, and
      without space around it; blank values count for nothing. */
  lemma KeyComesFrom(snap: Snapshot, c: Config, env: Environment, id: string)
    requires Reflects(snap, c, env) && id in c.providers
    ensures var named := c.providers[id].keyEnv;
            var name := if named != "" then named else env.defaultName(id);
            var inProcess := name in env.process && Precommit.Trim(env.process[name]) != "";
            var inFile := name in env.dotenv && Precommit.Trim(env.dotenv[name]) != "";
            && snap.providers[id].baseURL == c.providers[id].baseURL && snap.providers[id].wireAPI == c.providers[id].wireAPI
            && (inProcess ==> snap.providers[id].key == Precommit.Trim(env.process[name]))
            && (!inProcess && inFile ==> snap.providers[id].key == Precommit.Trim(env.dotenv[name]))
            && (snap.providers[id].key == "" <==> !inProcess && !inFile)
  {
    hide Precommit.Trim;
  }

  /** What a request can rely on of everything in service: providers have an address
      that is an address and speak one of the two wires, models name a provider and an
      upstream model, and every name is more than space. */
  lemma ServedIsSound(urlFine: string -> bool, snap: Snapshot)
    requires Served(urlFine, snap)
    ensures forall id :: id in snap.providers ==>
              && Precommit.Trim(id) != "" && snap.providers[id].baseURL != "" && urlFine(snap.providers[id].baseURL)
              && (snap.providers[id].wireAPI == "" || snap.providers[id].wireAPI == "responses" || snap.providers[id].wireAPI == "chat_completions")
    ensures forall id :: id in snap.models ==>
              && Precommit.Trim(id) != "" && snap.models[id].provider in snap.providers
              && Precommit.Trim(snap.models[id].upstreamModel) != "" && !snap.models[id].thinkingBudget
  {
    hide Precommit.Trim;
    var c: Config, env: Environment :| Loaded(c) && Valid(urlFine, c) && Reflects(snap, c, env);
    forall id | id in snap.providers
      ensures ProviderFine(urlFine, id, c.providers[id]) && snap.providers[id].baseURL == c.providers[id].baseURL &&
              snap.providers[id].wireAPI == c.providers[id].wireAPI
    {
      assert id in c.providers;
    }
    forall id | id in snap.models ensures ModelFine(c, id, snap.models[id]) {
    }
    hide Loaded, GroupsFine, LookupEnv;
  }
}
