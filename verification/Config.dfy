/** Layered configuration: a project's layer over the user's own, and which of
    its settings count before the user has accepted them. */
module Config {
  import opened Wrappers

  datatype Effect = Allow | Deny | Ask
  datatype Rule = Rule(action: string, resource: string, effect: Effect)
  datatype Agent = Agent(id: string, model: Option<string>, prompt: Option<string>, maxSteps: Option<int>,
                         color: string, permissions: seq<Rule>)
  datatype Provider = Provider(id: string, kind: string, apiKey: string, baseUrl: string)
  datatype Price = Price(input: real, output: real, cacheRead: real, cacheWrite: real)

  datatype Scalar = TextSetting(text: string) | BoolSetting(on: bool) | IntSetting(n: int) | RealSetting(r: real)

  /** `scalars` holds the single-valued settings by their key, `build_command`
      apart. */
  datatype Values = Values(scalars: map<string, Scalar>, buildCommand: string, providers: map<string, Provider>,
                           agents: map<string, Agent>, permissions: seq<Rule>, instructions: seq<string>,
                           skills: seq<string>, contexts: map<string, int>, vision: map<string, bool>,
                           maxOutput: map<string, int>, pricing: map<string, Price>, searchKeys: map<string, string>)

  /** `present` lists the keys the layer's file gave a valid value for. */
  datatype Layer = Layer(values: Values, present: set<string>)

  const SEARCH_KEYS := "web_search/api_keys/"
  const PROVIDERS := "providers/"

  predicate Under(prefix: string, key: string) {
    prefix <= key
  }

  // ---- Merging ----

  function MergedScalars(base: map<string, Scalar>, over: map<string, Scalar>, present: set<string>): map<string, Scalar> {
    map k | k in base :: if k in present && k in over then over[k] else base[k]
  }

  function MergedProvider(base: Provider, over: Provider, id: string, present: set<string>): Provider {
    var pk := PROVIDERS + id + "/";
    Provider(base.id,
             if pk + "type" in present then over.kind else base.kind,
             if pk + "api_key" in present then over.apiKey else base.apiKey,
             if pk + "base_url" in present then over.baseUrl else base.baseUrl)
  }

  function OneProvider(base: map<string, Provider>, over: map<string, Provider>, present: set<string>, id: string): Provider
    requires id in base || id in over
  {
    if id !in over then base[id]
    else if id !in base then over[id]
    else MergedProvider(base[id], over[id], id, present)
  }

  function MergedProviders(base: map<string, Provider>, over: map<string, Provider>, present: set<string>): map<string, Provider> {
    map id | id in base.Keys + over.Keys :: OneProvider(base, over, present, id)
  }

  function MergedAgent(base: Agent, over: Agent, id: string): Agent {
    Agent(id,
          if over.model.Some? then over.model else base.model,
          if over.prompt.Some? then over.prompt else base.prompt,
          if over.maxSteps.Some? then over.maxSteps else base.maxSteps,
          if over.color != "" then over.color else base.color,
          if over.permissions != [] then over.permissions else base.permissions)
  }

  const BLANK := Agent("", None, None, None, "", [])

  function OneAgent(base: map<string, Agent>, over: map<string, Agent>, id: string): Agent
    requires id in base || id in over
  {
    if id !in over then base[id] else MergedAgent(if id in base then base[id] else BLANK, over[id], id)
  }

  function MergedAgents(base: map<string, Agent>, over: map<string, Agent>): map<string, Agent> {
    map id | id in base.Keys + over.Keys :: OneAgent(base, over, id)
  }

  function WithNew(base: seq<string>, over: seq<string>): seq<string> {
    if over == [] then base
    else
      var n := |over| - 1;
      var head := WithNew(base, over[..n]);
      if over[n] in head then head else head + [over[n]]
  }

  function Merged(base: Layer, over: Layer): Values {
    var b, o := base.values, over.values;
    Values(MergedScalars(b.scalars, o.scalars, over.present),
           if "build_command" in over.present then o.buildCommand else b.buildCommand,
           MergedProviders(b.providers, o.providers, over.present),
           MergedAgents(b.agents, o.agents),
           b.permissions + o.permissions,
           b.instructions + o.instructions,
           WithNew(b.skills, o.skills),
           b.contexts + o.contexts, b.vision + o.vision, b.maxOutput + o.maxOutput, b.pricing + o.pricing,
           b.searchKeys + o.searchKeys)
  }

  // ---- The loops ----

  method MergeScalars(base: map<string, Scalar>, over: map<string, Scalar>, present: set<string>)
    returns (r: map<string, Scalar>)
    ensures r == MergedScalars(base, over, present)
  {
    r := base;
    var todo := base.Keys;
    while todo != {}
      invariant todo <= base.Keys == r.Keys
      invariant forall k :: k in base ==>
        r[k] == if k !in todo && k in present && k in over then over[k] else base[k]
      decreases |todo|
    {
      var k :| k in todo;
      if k in present && k in over {
        r := r[k := over[k]];
      }
      todo := todo - {k};
    }
  }

  method MergeProviders(base: map<string, Provider>, over: map<string, Provider>, present: set<string>)
    returns (r: map<string, Provider>)
    ensures r == MergedProviders(base, over, present)
  {
    hide MergedProvider;
    r := base;
    var todo := over.Keys;
    while todo != {}
      invariant todo <= over.Keys && r.Keys == base.Keys + (over.Keys - todo)
      invariant forall id :: id in r ==> r[id] == if id in todo then base[id] else OneProvider(base, over, present, id)
      decreases |todo|
    {
      var id :| id in todo;
      if id !in r {
        r := r[id := over[id]];
      } else {
        var merged := OverlayProvider(r[id], over[id], id, present);
        r := r[id := merged];
      }
      todo := todo - {id};
    }
  }

  method OverlayProvider(base: Provider, over: Provider, id: string, present: set<string>) returns (dst: Provider)
    ensures dst == MergedProvider(base, over, id, present)
  {
    var pk := PROVIDERS + id + "/";
    dst := base;
    if pk + "type" in present { dst := dst.(kind := over.kind); }
    if pk + "api_key" in present { dst := dst.(apiKey := over.apiKey); }
    if pk + "base_url" in present { dst := dst.(baseUrl := over.baseUrl); }
  }

  method MergeAgents(base: map<string, Agent>, over: map<string, Agent>) returns (r: map<string, Agent>)
    ensures r == MergedAgents(base, over)
  {
    hide MergedAgent;
    r := base;
    var todo := over.Keys;
    while todo != {}
      invariant todo <= over.Keys && r.Keys == base.Keys + (over.Keys - todo)
      invariant forall id :: id in r ==> r[id] == if id in todo then base[id] else OneAgent(base, over, id)
      decreases |todo|
    {
      var id :| id in todo;
      var merged := OverlayAgent(if id in r then r[id] else BLANK, over[id], id);
      r := r[id := merged];
      todo := todo - {id};
    }
  }

  method OverlayAgent(base: Agent, over: Agent, id: string) returns (dst: Agent)
    ensures dst == MergedAgent(base, over, id)
  {
    dst := base.(id := id);
    if over.model.Some? { dst := dst.(model := over.model); }
    if over.prompt.Some? { dst := dst.(prompt := over.prompt); }
    if over.maxSteps.Some? { dst := dst.(maxSteps := over.maxSteps); }
    if over.color != "" { dst := dst.(color := over.color); }
    if over.permissions != [] { dst := dst.(permissions := over.permissions); }
  }

  method AddSkills(base: seq<string>, over: seq<string>) returns (r: seq<string>)
    ensures r == WithNew(base, over)
  {
    r := base;
    for i := 0 to |over|
      invariant r == WithNew(base, over[..i])
    {
      assert over[..i + 1][..i] == over[..i];
      if over[i] !in r {
        r := r + [over[i]];
      }
    }
    assert over[..|over|] == over;
  }

  method Merge(base: Layer, over: Layer) returns (r: Values)
    ensures r == Merged(base, over)
  {
    var b, o := base.values, over.values;
    var scalars := MergeScalars(b.scalars, o.scalars, over.present);
    var providers := MergeProviders(b.providers, o.providers, over.present);
    var agents := MergeAgents(b.agents, o.agents);
    var skills := AddSkills(b.skills, o.skills);
    r := Values(scalars, if "build_command" in over.present then o.buildCommand else b.buildCommand, providers, agents,
                b.permissions + o.permissions, b.instructions + o.instructions, skills,
                b.contexts + o.contexts, b.vision + o.vision, b.maxOutput + o.maxOutput, b.pricing + o.pricing,
                b.searchKeys + o.searchKeys);
  }

  // ---- Gated settings ----

  predicate HasGatedKeys(p: Layer) {
    || ("permissions" in p.present && p.values.permissions != [])
    || ("build_command" in p.present && p.values.buildCommand != "")
    || ("agents" in p.present && p.values.agents != map[])
    || exists k :: k in p.present && Under(SEARCH_KEYS, k)
  }

  function WithoutGated(p: Layer): Layer {
    Layer(p.values.(permissions := [], buildCommand := "", agents := map[], searchKeys := map[]),
          set k | k in p.present && k != "permissions" && k != "build_command" && k != "agents" && !Under(SEARCH_KEYS, k))
  }

  function WithoutProviders(p: Layer): Layer {
    Layer(p.values.(providers := map[]), set k | k in p.present && !Under(PROVIDERS, k))
  }

  /** The document that is hashed, as parsed: dumping it and hashing the dump
      are taken to keep different documents apart. */
  datatype Json = Str(s: string) | Num(n: int) | Arr(elems: seq<Json>) | Obj(fields: map<string, Json>)

  function EffectString(e: Effect): string {
    match e case Allow => "allow" case Deny => "deny" case Ask => "ask"
  }

  function RuleJson(r: Rule): Json {
    Obj(map["action" := Str(r.action), "resource" := Str(r.resource), "effect" := Str(EffectString(r.effect))])
  }

  function RulesJson(rules: seq<Rule>): Json {
    Arr(seq(|rules|, i requires 0 <= i < |rules| => RuleJson(rules[i])))
  }

  function AgentJson(a: Agent): Json {
    var o0: map<string, Json> := map[];
    var o1 := if a.model.Some? then o0["model" := Str(a.model.value)] else o0;
    var o2 := if a.prompt.Some? then o1["system_prompt" := Str(a.prompt.value)] else o1;
    var o3 := if a.maxSteps.Some? then o2["max_steps" := Num(a.maxSteps.value)] else o2;
    var o4 := if a.color != "" then o3["color" := Str(a.color)] else o3;
    Obj(if a.permissions != [] then o4["permissions" := RulesJson(a.permissions)] else o4)
  }

  function AgentsJson(agents: map<string, Agent>): Json {
    Obj(map id | id in agents :: AgentJson(agents[id]))
  }

  function KeysJson(p: Layer): map<string, Json> {
    map e | e in p.values.searchKeys && SEARCH_KEYS + e in p.present :: Str(p.values.searchKeys[e])
  }

  function Fingerprint(p: Layer): (j: Json)
    ensures j.Obj?
  {
    var j0: map<string, Json> := map[];
    var j1 := if "permissions" in p.present && p.values.permissions != [] then j0["permissions" := RulesJson(p.values.permissions)] else j0;
    var j2 := if "build_command" in p.present && p.values.buildCommand != "" then j1["build_command" := Str(p.values.buildCommand)] else j1;
    var j3 := if "agents" in p.present && p.values.agents != map[] then j2["agents" := AgentsJson(p.values.agents)] else j2;
    Obj(if KeysJson(p) != map[] then j3["web_search_api_keys" := Obj(KeysJson(p))] else j3)
  }

  datatype Trust = Trust(needed: bool, fingerprint: Json, granted: bool)

  /** The layer as it is merged, given the accepted fingerprints by project. */
  function ProjectLayer(file: Layer, trusted: map<string, Json>, key: string): (Layer, Trust) {
    var p := WithoutProviders(file);
    if !HasGatedKeys(p) then (p, Trust(false, Obj(map[]), false))
    else
      var granted := key in trusted && trusted[key] == Fingerprint(p);
      (if granted then p else WithoutGated(p), Trust(true, Fingerprint(p), granted))
  }

  /** A layer in place, as the strip functions change it. */
  class LayerBox {
    var values: Values
    var present: set<string>

    ghost function Abs(): Layer
      reads this
    {
      Layer(values, present)
    }

    constructor (layer: Layer)
      ensures Abs() == layer
    {
      values, present := layer.values, layer.present;
    }

    method EraseUnder(prefix: string)
      modifies `present
      ensures present == set k | k in old(present) && !Under(prefix, k)
    {
      var todo := present;
      while todo != {}
        invariant todo <= old(present)
        invariant present == set k | k in old(present) && (k in todo || !Under(prefix, k))
        decreases |todo|
      {
        var k :| k in todo;
        if Under(prefix, k) {
          present := present - {k};
        }
        todo := todo - {k};
      }
    }

    method StripUntrusted()
      modifies this
      ensures Abs() == WithoutGated(old(Abs()))
    {
      values := values.(permissions := []);
      present := present - {"permissions"};
      values := values.(buildCommand := "");
      present := present - {"build_command"};
      values := values.(agents := map[]);
      present := present - {"agents"};
      values := values.(searchKeys := map[]);
      EraseUnder(SEARCH_KEYS);
    }

    method StripProjectProviders()
      modifies this
      ensures Abs() == WithoutProviders(old(Abs()))
    {
      values := values.(providers := map[]);
      EraseUnder(PROVIDERS);
    }

    method LoadProjectLayer(trusted: map<string, Json>, key: string) returns (state: Trust)
      modifies this
      ensures (Abs(), state) == ProjectLayer(old(Abs()), trusted, key)
    {
      StripProjectProviders();
      var p := Layer(values, present);
      state := Trust(false, Obj(map[]), false);
      if HasGatedKeys(p) {
        var fingerprint := Fingerprint(p);
        state := Trust(true, fingerprint, key in trusted && trusted[key] == fingerprint);
        if !state.granted {
          StripUntrusted();
        }
      }
    }
  }

  // ---- What merging leaves of the user's own settings ----

  /** The settings that need the user's acceptance. */
  datatype Authority = Authority(permissions: seq<Rule>, buildCommand: string, agents: map<string, Agent>,
                                 searchKeys: map<string, string>)

  function AuthorityOf(v: Values): Authority {
    Authority(v.permissions, v.buildCommand, v.agents, v.searchKeys)
  }

  /** Whenever the layer holds a gated value, its presence is recorded. */
  predicate PresenceRecorded(p: Layer) {
    && (p.values.permissions != [] ==> "permissions" in p.present)
    && (p.values.agents != map[] ==> "agents" in p.present)
    && (forall e :: e in p.values.searchKeys ==> SEARCH_KEYS + e in p.present)
    && (p.values.buildCommand != "" ==> "build_command" in p.present)
  }

  lemma {:induction false} NoProviders(base: map<string, Provider>, present: set<string>)
    ensures MergedProviders(base, map[], present) == base
  {
  }

  lemma {:induction false} NoAgents(base: map<string, Agent>)
    ensures MergedAgents(base, map[]) == base
  {
  }

  /** Whatever a project's file says, accepted or not: the providers are the
      user's own. */
  lemma {:induction false} ProvidersAreGlobal(base: Layer, file: Layer, trusted: map<string, Json>, key: string)
    ensures Merged(base, ProjectLayer(file, trusted, key).0).providers == base.values.providers
  {
    NoProviders(base.values.providers, ProjectLayer(file, trusted, key).0.present);
  }

  lemma {:induction false} KeysApart(e: string)
    ensures !Under(PROVIDERS, "permissions") && !Under(PROVIDERS, "build_command") && !Under(PROVIDERS, "agents")
    ensures !Under(PROVIDERS, SEARCH_KEYS + e)
  {
    assert PROVIDERS[1] != "permissions"[1] && PROVIDERS[0] != "build_command"[0] && PROVIDERS[0] != "agents"[0];
    assert (SEARCH_KEYS + e)[0] != PROVIDERS[0];
  }

  /** These agents change nothing over those: each is there, and gives what is
      there already or nothing. */
  predicate AgentsAddNothing(base: map<string, Agent>, over: map<string, Agent>) {
    forall id :: id in over ==> id in base && MergedAgent(base[id], over[id], id) == base[id]
  }

  lemma {:induction false} AddNothing(base: map<string, Agent>, over: map<string, Agent>)
    ensures MergedAgents(base, over) == base <==> AgentsAddNothing(base, over)
  {
    hide MergedAgent;
    var m := MergedAgents(base, over);
    if AgentsAddNothing(base, over) {
      assert m.Keys == base.Keys;
      assert forall id :: id in m ==> m[id] == base[id];
    }
    if m == base {
      forall id | id in over ensures id in base && MergedAgent(base[id], over[id], id) == base[id] {
        assert id in m;
        assert m[id] == OneAgent(base, over, id);
      }
    }
  }

  /** Values that the layer holds without a gated key to show for it, and that
      change what they are merged over. */
  predicate Slips(base: Values, p: Layer) {
    || p.values.permissions != []
    || !AgentsAddNothing(base.agents, p.values.agents)
    || (exists e :: e in p.values.searchKeys && !(e in base.searchKeys && base.searchKeys[e] == p.values.searchKeys[e]))
    || ("build_command" in p.present && base.buildCommand != p.values.buildCommand)
  }

  lemma {:induction false} KeysKeep(base: map<string, string>, over: map<string, string>)
    ensures base + over == base <==> forall e :: e in over ==> e in base && base[e] == over[e]
  {
    if base + over == base {
      forall e | e in over ensures e in base && base[e] == over[e] {
        assert e in base + over && (base + over)[e] == over[e];
      }
    }
  }

  /** Without the user's acceptance of exactly this content, the merged gated
      settings are the user's own if and only if a gated key was seen, and all
      of them stripped, or nothing slips by. */
  lemma {:induction false} AuthorityIsGlobal(base: Layer, file: Layer, trusted: map<string, Json>, key: string)
    requires !ProjectLayer(file, trusted, key).1.granted
    ensures AuthorityOf(Merged(base, ProjectLayer(file, trusted, key).0)) == AuthorityOf(base.values)
            <==> ProjectLayer(file, trusted, key).1.needed || !Slips(base.values, file)
  {
    hide MergedProviders, MergedScalars, MergedAgents, AgentsAddNothing;
    var p := WithoutProviders(file);
    KeysApart("");
    NoAgents(base.values.agents);
    AddNothing(base.values.agents, p.values.agents);
    KeysKeep(base.values.searchKeys, p.values.searchKeys);
    assert base.values.permissions + p.values.permissions == base.values.permissions <==> p.values.permissions == [];
    assert base.values.permissions + [] == base.values.permissions && base.values.searchKeys + map[] == base.values.searchKeys;
  }

  /** What is not gated and not a provider counts, accepted or not. */
  lemma {:induction false} OnlyGatedLost(base: Layer, p: Layer)
    requires forall k :: k in base.values.scalars ==>
               k != "permissions" && k != "build_command" && k != "agents" && !Under(SEARCH_KEYS, k)
    ensures var all, kept := Merged(base, WithoutProviders(p)), Merged(base, WithoutGated(WithoutProviders(p)));
            all == kept.(permissions := all.permissions, buildCommand := all.buildCommand, agents := all.agents,
                         searchKeys := all.searchKeys)
  {
    NoProviders(base.values.providers, WithoutProviders(p).present);
    NoProviders(base.values.providers, WithoutGated(WithoutProviders(p)).present);
  }

  // ---- What a fingerprint stands for ----

  /** The user's gated settings with exactly this content added. */
  function Added(base: Values, c: Authority): Authority {
    Authority(base.permissions + c.permissions, if c.buildCommand != "" then c.buildCommand else base.buildCommand,
              MergedAgents(base.agents, c.agents), base.searchKeys + c.searchKeys)
  }

  /** The gated content of a layer; an agent's own id is its key. */
  function GatedContent(p: Layer): Authority {
    Authority(if "permissions" in p.present then p.values.permissions else [],
              if "build_command" in p.present then p.values.buildCommand else "",
              if "agents" in p.present then map id | id in p.values.agents :: p.values.agents[id].(id := id) else map[],
              map e | e in p.values.searchKeys && SEARCH_KEYS + e in p.present :: p.values.searchKeys[e])
  }

  lemma {:induction false} RuleJsonSame(a: Rule, b: Rule)
    ensures RuleJson(a) == RuleJson(b) <==> a == b
  {
    if RuleJson(a) == RuleJson(b) {
      var x, y := RuleJson(a).fields, RuleJson(b).fields;
      assert x["action"] == y["action"] && x["resource"] == y["resource"] && x["effect"] == y["effect"];
    }
  }

  lemma {:induction false} RulesJsonSame(a: seq<Rule>, b: seq<Rule>)
    ensures RulesJson(a) == RulesJson(b) <==> a == b
  {
    hide RuleJson;
    if RulesJson(a) == RulesJson(b) {
      var x, y := RulesJson(a).elems, RulesJson(b).elems;
      assert |x| == |a| && |y| == |b|;
      forall i | 0 <= i < |a| ensures a[i] == b[i] {
        assert x[i] == y[i];
        RuleJsonSame(a[i], b[i]);
      }
    }
  }

  lemma {:induction false} AgentFields(a: Agent)
    ensures var f := AgentJson(a).fields;
            && ("model" in f <==> a.model.Some?) && (a.model.Some? ==> f["model"] == Str(a.model.value))
            && ("system_prompt" in f <==> a.prompt.Some?) && (a.prompt.Some? ==> f["system_prompt"] == Str(a.prompt.value))
            && ("max_steps" in f <==> a.maxSteps.Some?) && (a.maxSteps.Some? ==> f["max_steps"] == Num(a.maxSteps.value))
            && ("color" in f <==> a.color != "") && (a.color != "" ==> f["color"] == Str(a.color))
            && ("permissions" in f <==> a.permissions != [])
            && (a.permissions != [] ==> f["permissions"] == RulesJson(a.permissions))
  {
  }

  lemma {:induction false} AgentJsonSame(a: Agent, b: Agent)
    ensures AgentJson(a) == AgentJson(b) <==> a.(id := "") == b.(id := "")
  {
    hide RulesJson;
    AgentFields(a);
    AgentFields(b);
    RulesJsonSame(a.permissions, b.permissions);
    if AgentJson(a) == AgentJson(b) {
      hide AgentJson;
      assert a.model == b.model && a.prompt == b.prompt && a.maxSteps == b.maxSteps;
      assert a.color == b.color && a.permissions == b.permissions;
    }
  }

  /** Agents by key, each under its own id. */
  function Keyed(agents: map<string, Agent>): map<string, Agent> {
    map id | id in agents :: agents[id].(id := id)
  }

  lemma {:induction false} AgentsJsonSame(a: map<string, Agent>, b: map<string, Agent>)
    ensures AgentsJson(a) == AgentsJson(b) <==> Keyed(a) == Keyed(b)
  {
    hide AgentJson;
    var x, y := AgentsJson(a).fields, AgentsJson(b).fields;
    assert x.Keys == a.Keys && y.Keys == b.Keys && Keyed(a).Keys == a.Keys && Keyed(b).Keys == b.Keys;
    forall id | id in a && id in b
      ensures x[id] == y[id] <==> Keyed(a)[id] == Keyed(b)[id]
    {
      AgentJsonSame(a[id], b[id]);
      assert a[id].(id := "") == b[id].(id := "") <==> a[id].(id := id) == b[id].(id := id);
    }
    if x == y {
      assert a.Keys == b.Keys;
      assert Keyed(a) == Keyed(b);
    }
    if Keyed(a) == Keyed(b) {
      assert a.Keys == b.Keys;
      assert x == y;
    }
  }

  lemma {:induction false} PrintFields(p: Layer)
    ensures var f, c := Fingerprint(p).fields, GatedContent(p);
            && ("permissions" in f <==> c.permissions != [])
            && (c.permissions != [] ==> f["permissions"] == RulesJson(c.permissions))
            && ("build_command" in f <==> c.buildCommand != "")
            && (c.buildCommand != "" ==> f["build_command"] == Str(c.buildCommand))
            && ("agents" in f <==> c.agents != map[])
            && (c.agents != map[] ==> f["agents"] == AgentsJson(p.values.agents) && c.agents == Keyed(p.values.agents))
            && ("web_search_api_keys" in f <==> c.searchKeys != map[])
            && (c.searchKeys != map[] ==> f["web_search_api_keys"] == Obj(KeysJson(p)))
            && f.Keys <= {"permissions", "build_command", "agents", "web_search_api_keys"}
  {
    hide RulesJson, AgentsJson;
    var c := GatedContent(p);
    assert KeysJson(p).Keys == c.searchKeys.Keys;
    assert KeysJson(p) == map[] <==> c.searchKeys == map[];
    assert Keyed(p.values.agents).Keys == p.values.agents.Keys;
    assert Keyed(p.values.agents) == map[] <==> p.values.agents == map[];
  }

  lemma {:induction false} KeysJsonSame(p: Layer, q: Layer)
    ensures KeysJson(p) == KeysJson(q) <==> GatedContent(p).searchKeys == GatedContent(q).searchKeys
  {
  }

  /** Two layers have one fingerprint exactly when their gated content is the
      same. */
  lemma {:induction false} FingerprintExact(p: Layer, q: Layer)
    ensures Fingerprint(p) == Fingerprint(q) <==> GatedContent(p) == GatedContent(q)
  {
    hide RulesJson, AgentsJson, Fingerprint, GatedContent, KeysJson, Keyed;
    var f, g, c, d := Fingerprint(p).fields, Fingerprint(q).fields, GatedContent(p), GatedContent(q);
    PrintFields(p);
    PrintFields(q);
    RulesJsonSame(c.permissions, d.permissions);
    AgentsJsonSame(p.values.agents, q.values.agents);
    KeysJsonSame(p, q);
    if f == g {
      assert c.permissions == d.permissions;
      assert c.buildCommand == d.buildCommand;
      assert c.agents == d.agents;
      assert c.searchKeys == d.searchKeys;
    }
    if c == d {
      assert f.Keys == g.Keys;
      assert forall k :: k in f ==> f[k] == g[k];
      assert f == g;
    }
  }

  const EMPTY := Layer(Values(map[], "", map[], map[], [], [], [], map[], map[], map[], map[], map[]), {})

  /** What merging takes from a layer. */
  function EffectOf(p: Layer): Authority {
    Authority(p.values.permissions, if "build_command" in p.present then p.values.buildCommand else "",
              Keyed(p.values.agents), p.values.searchKeys)
  }

  /** Over an empty configuration a layer's gated settings are its effect. */
  lemma {:induction false} OverEmpty(p: Layer)
    ensures AuthorityOf(Merged(EMPTY, p)) == EffectOf(p)
  {
    hide MergedProviders, MergedScalars;
    assert MergedAgents(map[], p.values.agents) == Keyed(p.values.agents);
  }

  lemma {:induction false} AgentsByKey(base: map<string, Agent>, over: map<string, Agent>)
    ensures MergedAgents(base, over) == MergedAgents(base, Keyed(over))
  {
    assert Keyed(over).Keys == over.Keys;
  }

  lemma {:induction false} SameEffect(base: Layer, p: Layer, q: Layer)
    requires EffectOf(p) == EffectOf(q) && ("build_command" in p.present <==> "build_command" in q.present)
    ensures AuthorityOf(Merged(base, p)) == AuthorityOf(Merged(base, q))
  {
    hide MergedProviders, MergedScalars;
    AgentsByKey(base.values.agents, p.values.agents);
    AgentsByKey(base.values.agents, q.values.agents);
  }

  /** A user configuration with a build command. */
  const BUILDING := Layer(EMPTY.values.(buildCommand := "x"), {})

  /** A build command that only one of two layers gives shows over one of these
      two user configurations. */
  lemma {:induction false} BuildShows(p: Layer, q: Layer)
    requires "build_command" in p.present && "build_command" !in q.present
    ensures AuthorityOf(Merged(EMPTY, p)) != AuthorityOf(Merged(EMPTY, q))
            || AuthorityOf(Merged(BUILDING, p)) != AuthorityOf(Merged(BUILDING, q))
  {
    hide MergedProviders, MergedScalars, MergedAgents;
    assert Merged(EMPTY, p).buildCommand == p.values.buildCommand && Merged(EMPTY, q).buildCommand == "";
    assert Merged(BUILDING, p).buildCommand == p.values.buildCommand && Merged(BUILDING, q).buildCommand == "x";
  }

  /** Two layers leave the same gated settings over every user configuration
      exactly when their effects are the same and both give a build command or
      neither does. */
  lemma {:induction false} EffectExact(p: Layer, q: Layer)
    ensures (forall base :: AuthorityOf(Merged(base, p)) == AuthorityOf(Merged(base, q)))
            <==> EffectOf(p) == EffectOf(q) && ("build_command" in p.present <==> "build_command" in q.present)
  {
    hide Merged, EffectOf;
    OverEmpty(p);
    OverEmpty(q);
    if "build_command" in p.present && "build_command" !in q.present {
      BuildShows(p, q);
    } else if "build_command" in q.present && "build_command" !in p.present {
      BuildShows(q, p);
    } else if EffectOf(p) == EffectOf(q) {
      forall base ensures AuthorityOf(Merged(base, p)) == AuthorityOf(Merged(base, q)) {
        SameEffect(base, p, q);
      }
    } else {
      assert AuthorityOf(Merged(EMPTY, p)) != AuthorityOf(Merged(EMPTY, q));
    }
  }

  /** Gated values the layer holds without a record that they are there. */
  function Unrecorded(p: Layer): Authority {
    Authority(if "permissions" in p.present then [] else p.values.permissions, "",
              if "agents" in p.present then map[] else Keyed(p.values.agents),
              map e | e in p.values.searchKeys && SEARCH_KEYS + e !in p.present :: p.values.searchKeys[e])
  }

  /** Of what a layer records, what it holds unrecorded and its whole effect,
      two that are the same in two layers make the third the same. */
  lemma {:induction false} TwoGiveThird(p: Layer, q: Layer)
    requires "build_command" in p.present <==> "build_command" in q.present
    ensures var c, u, e := GatedContent(p) == GatedContent(q), Unrecorded(p) == Unrecorded(q), EffectOf(p) == EffectOf(q);
            (c && u ==> e) && (c && e ==> u) && (u && e ==> c)
  {
    KeysThird(p, q);
    assert Keyed(p.values.agents) == (map id | id in p.values.agents :: p.values.agents[id].(id := id));
    assert Keyed(q.values.agents) == (map id | id in q.values.agents :: q.values.agents[id].(id := id));
  }

  lemma {:induction false} KeysThird(p: Layer, q: Layer)
    ensures var c, u, e := GatedContent(p).searchKeys == GatedContent(q).searchKeys,
                           Unrecorded(p).searchKeys == Unrecorded(q).searchKeys,
                           p.values.searchKeys == q.values.searchKeys;
            (c && u ==> e) && (c && e ==> u) && (u && e ==> c)
  {
    var a, b, m := GatedContent(p).searchKeys, Unrecorded(p).searchKeys, p.values.searchKeys;
    var a', b', m' := GatedContent(q).searchKeys, Unrecorded(q).searchKeys, q.values.searchKeys;
    assert a.Keys !! b.Keys && a'.Keys !! b'.Keys;
    assert m == a + b && m' == a' + b';
    assert a == m - b.Keys && a' == m' - b'.Keys;
    assert b == m - a.Keys && b' == m' - a'.Keys;
  }

  /** For all layers: where what is unrecorded is the same, fingerprints agree,
      and both or neither give a build command, empty or not, exactly when the
      layers leave the same gated settings over every user configuration; where
      it is not, the two never go together. */
  lemma {:induction false} FingerprintIsEffect(p: Layer, q: Layer)
    ensures var effect := forall base :: AuthorityOf(Merged(base, p)) == AuthorityOf(Merged(base, q));
            var same := Fingerprint(p) == Fingerprint(q) && ("build_command" in p.present <==> "build_command" in q.present);
            && (Unrecorded(p) == Unrecorded(q) ==> (effect <==> same))
            && (Unrecorded(p) != Unrecorded(q) ==> !(effect && same))
  {
    hide Fingerprint, Merged, GatedContent, Unrecorded, EffectOf;
    FingerprintExact(p, q);
    EffectExact(p, q);
    if "build_command" in p.present <==> "build_command" in q.present {
      TwoGiveThird(p, q);
    }
  }

  /** An empty build command has no fingerprint of its own. */
  lemma {:induction false} EmptyBuildCommand()
    ensures var p := Layer(EMPTY.values, {"build_command"});
            && Unrecorded(p) == Unrecorded(EMPTY) && Fingerprint(p) == Fingerprint(EMPTY)
            && Merged(BUILDING, p).buildCommand == "" && Merged(BUILDING, EMPTY).buildCommand == "x"
  {
    hide MergedProviders, MergedScalars, MergedAgents, Fingerprint;
    var p := Layer(EMPTY.values, {"build_command"});
    FingerprintExact(p, EMPTY);
    assert GatedContent(p).agents == map[] && GatedContent(EMPTY).agents == map[];
    assert GatedContent(p).searchKeys == map[] && GatedContent(EMPTY).searchKeys == map[];
  }
}
