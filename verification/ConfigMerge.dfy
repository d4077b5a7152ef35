/** What merging a project's layer over the user's own gives, setting by
    setting, and the laws it obeys. */
module ConfigMerge {
  import opened Wrappers
  import opened Config

  // ---- Setting by setting ----

  /** A single-valued setting the layer recorded wins; any other, even one with
      a value that came from no file, leaves the user's. */
  lemma {:induction false} ScalarMerged(base: Layer, over: Layer, key: string)
    requires key in base.values.scalars && key in over.values.scalars
    ensures var m := Merged(base, over).scalars;
            && m.Keys == base.values.scalars.Keys
            && (key in over.present ==> m[key] == over.values.scalars[key])
            && (key !in over.present ==> m[key] == base.values.scalars[key])
    ensures Merged(base, over).buildCommand
            == if "build_command" in over.present then over.values.buildCommand else base.values.buildCommand
  {
  }

  /** In the maps the layer's keys win, and all others stay. */
  lemma {:induction false} MapsMerged(base: Layer, over: Layer, key: string)
    ensures var m, b, o := Merged(base, over), base.values, over.values;
            && (key in o.contexts ==> key in m.contexts && m.contexts[key] == o.contexts[key])
            && (key !in o.contexts ==> (key in m.contexts <==> key in b.contexts))
            && (key !in o.contexts && key in b.contexts ==> m.contexts[key] == b.contexts[key])
            && (key in o.vision ==> key in m.vision && m.vision[key] == o.vision[key])
            && (key !in o.vision ==> (key in m.vision <==> key in b.vision))
            && (key !in o.vision && key in b.vision ==> m.vision[key] == b.vision[key])
            && (key in o.maxOutput ==> key in m.maxOutput && m.maxOutput[key] == o.maxOutput[key])
            && (key !in o.maxOutput ==> (key in m.maxOutput <==> key in b.maxOutput))
            && (key !in o.maxOutput && key in b.maxOutput ==> m.maxOutput[key] == b.maxOutput[key])
            && (key in o.pricing ==> key in m.pricing && m.pricing[key] == o.pricing[key])
            && (key !in o.pricing ==> (key in m.pricing <==> key in b.pricing))
            && (key !in o.pricing && key in b.pricing ==> m.pricing[key] == b.pricing[key])
            && (key in o.searchKeys ==> key in m.searchKeys && m.searchKeys[key] == o.searchKeys[key])
            && (key !in o.searchKeys ==> (key in m.searchKeys <==> key in b.searchKeys))
            && (key !in o.searchKeys && key in b.searchKeys ==> m.searchKeys[key] == b.searchKeys[key])
  {
    hide MergedProviders, MergedAgents, MergedScalars, WithNew;
  }

  /** A provider both have keeps every part the layer does not give: naming only
      an address drops no key. */
  lemma {:induction false} ProviderMerged(base: Layer, over: Layer, id: string)
    ensures var m, b, o := Merged(base, over).providers, base.values.providers, over.values.providers;
            && (id in m <==> id in b || id in o)
            && (id in b && id !in o ==> m[id] == b[id]) && (id in o && id !in b ==> m[id] == o[id])
            && (id in b && id in o ==>
                  && m[id].id == b[id].id
                  && m[id].kind == (if "providers/" + id + "/type" in over.present then o[id].kind else b[id].kind)
                  && m[id].apiKey == (if "providers/" + id + "/api_key" in over.present then o[id].apiKey else b[id].apiKey)
                  && m[id].baseUrl == (if "providers/" + id + "/base_url" in over.present then o[id].baseUrl else b[id].baseUrl))
  {
    assert "providers/" + id + "/type" == PROVIDERS + id + "/" + "type";
    assert "providers/" + id + "/api_key" == PROVIDERS + id + "/" + "api_key";
    assert "providers/" + id + "/base_url" == PROVIDERS + id + "/" + "base_url";
  }

  /** An agent both have keeps every part the layer's leaves out; rules replace
      the user's for that agent, or stay. */
  lemma {:induction false} AgentMerged(base: Layer, over: Layer, id: string)
    ensures var m, b, o := Merged(base, over).agents, base.values.agents, over.values.agents;
            && (id in m <==> id in b || id in o) && (id in b && id !in o ==> m[id] == b[id])
            && (id in o && id !in b ==> m[id] == o[id].(id := id))
            && (id in b && id in o ==>
                  && m[id].id == id
                  && (o[id].model.Some? ==> m[id].model == o[id].model) && (o[id].model.None? ==> m[id].model == b[id].model)
                  && (o[id].prompt.Some? ==> m[id].prompt == o[id].prompt) && (o[id].prompt.None? ==> m[id].prompt == b[id].prompt)
                  && (o[id].maxSteps.Some? ==> m[id].maxSteps == o[id].maxSteps)
                  && (o[id].maxSteps.None? ==> m[id].maxSteps == b[id].maxSteps)
                  && (o[id].color != "" ==> m[id].color == o[id].color) && (o[id].color == "" ==> m[id].color == b[id].color)
                  && (o[id].permissions != [] ==> m[id].permissions == o[id].permissions)
                  && (o[id].permissions == [] ==> m[id].permissions == b[id].permissions))
  {
    hide MergedProviders, MergedScalars, WithNew;
  }

  predicate Once(s: seq<string>) {
    forall i, k :: 0 <= i < k < |s| ==> s[i] != s[k]
  }

  lemma {:induction false} NewAdded(base: seq<string>, over: seq<string>)
    ensures base <= WithNew(base, over) && (Once(base) ==> Once(WithNew(base, over)))
    ensures forall s :: s in WithNew(base, over) <==> s in base || s in over
    decreases |over|
  {
    if over != [] {
      var n := |over| - 1;
      NewAdded(base, over[..n]);
      assert forall s :: s in over <==> s in over[..n] || s == over[n];
      var head := WithNew(base, over[..n]);
      if over[n] !in head {
        assert forall s :: s in head + [over[n]] <==> s in head || s == over[n];
      }
    }
  }

  /** Rules and instructions come after the user's own, in order; skills too,
      each once. */
  lemma {:induction false} ListsMerged(base: Layer, over: Layer)
    ensures var m, b, o := Merged(base, over), base.values, over.values;
            && |m.permissions| == |b.permissions| + |o.permissions|
            && b.permissions <= m.permissions && m.permissions[|b.permissions|..] == o.permissions
            && |m.instructions| == |b.instructions| + |o.instructions|
            && b.instructions <= m.instructions && m.instructions[|b.instructions|..] == o.instructions
            && b.skills <= m.skills && (Once(b.skills) ==> Once(m.skills))
            && (forall s :: s in m.skills <==> s in b.skills || s in o.skills)
  {
    hide MergedProviders, MergedAgents, MergedScalars, WithNew, Once;
    NewAdded(base.values.skills, over.values.skills);
  }

  // ---- Laws ----

  /** A layer whose file gave nothing changes nothing. */
  lemma {:induction false} NothingMerged(base: Layer, defaults: map<string, Scalar>)
    ensures Merged(base, Layer(Values(defaults, "", map[], map[], [], [], [], map[], map[], map[], map[], map[]), {})) == base.values
  {
    var over := Layer(Values(defaults, "", map[], map[], [], [], [], map[], map[], map[], map[], map[]), {});
    NoProviders(base.values.providers, {});
    NoAgents(base.values.agents);
    assert MergedScalars(base.values.scalars, defaults, {}) == base.values.scalars;
    assert base.values.permissions + [] == base.values.permissions && base.values.instructions + [] == base.values.instructions;
    assert WithNew(base.values.skills, []) == base.values.skills;
  }

  lemma {:induction false} NewTwice(base: seq<string>, over: seq<string>)
    ensures WithNew(WithNew(base, over), over) == WithNew(base, over)
  {
    NewAdded(base, over);
    NoneNew(WithNew(base, over), over);
  }

  lemma {:induction false} NoneNew(base: seq<string>, over: seq<string>)
    requires forall s :: s in over ==> s in base
    ensures WithNew(base, over) == base
    decreases |over|
  {
    if over != [] {
      var n := |over| - 1;
      assert over[n] in over && forall s :: s in over[..n] ==> s in over;
      NoneNew(base, over[..n]);
    }
  }

  /** Merging a layer twice gives no more than merging it once, but for rules
      and instructions, which come again. */
  lemma {:induction false} MergedTwice(base: Layer, over: Layer)
    ensures var once := Merged(base, over);
            Merged(Layer(once, base.present), over)
            == once.(permissions := once.permissions + over.values.permissions,
                     instructions := once.instructions + over.values.instructions)
  {
    hide WithNew, MergedProviders, MergedAgents, MergedScalars;
    var b, o := base.values, over.values;
    NewTwice(b.skills, o.skills);
    ScalarsTwice(b.scalars, o.scalars, over.present);
    ProvidersTwice(b.providers, o.providers, over.present);
    AgentsTwice(b.agents, o.agents);
    MapTwice(b.contexts, o.contexts);
    MapTwice(b.vision, o.vision);
    MapTwice(b.maxOutput, o.maxOutput);
    MapTwice(b.pricing, o.pricing);
    MapTwice(b.searchKeys, o.searchKeys);
  }

  lemma {:induction false} MapTwice<T>(b: map<string, T>, o: map<string, T>)
    ensures (b + o) + o == b + o
  {
  }

  lemma {:induction false} ScalarsTwice(b: map<string, Scalar>, o: map<string, Scalar>, present: set<string>)
    ensures MergedScalars(MergedScalars(b, o, present), o, present) == MergedScalars(b, o, present)
  {
  }

  lemma {:induction false} ProvidersTwice(b: map<string, Provider>, o: map<string, Provider>, present: set<string>)
    ensures MergedProviders(MergedProviders(b, o, present), o, present) == MergedProviders(b, o, present)
  {
    hide OneProvider;
    var once := MergedProviders(b, o, present);
    forall id | id in once ensures MergedProviders(once, o, present)[id] == once[id] {
      OneProviderTwice(b, o, present, id);
    }
  }

  lemma {:induction false} AgentsTwice(b: map<string, Agent>, o: map<string, Agent>)
    ensures MergedAgents(MergedAgents(b, o), o) == MergedAgents(b, o)
  {
    hide OneAgent;
    var once := MergedAgents(b, o);
    forall id | id in once ensures MergedAgents(once, o)[id] == once[id] {
      OneAgentTwice(b, o, id);
    }
  }

  lemma {:induction false} OneProviderTwice(b: map<string, Provider>, o: map<string, Provider>, present: set<string>, id: string)
    requires id in b || id in o
    ensures var once := MergedProviders(b, o, present); OneProvider(once, o, present, id) == once[id]
  {
  }

  lemma {:induction false} OneAgentTwice(b: map<string, Agent>, o: map<string, Agent>, id: string)
    requires id in b || id in o
    ensures var once := MergedAgents(b, o); OneAgent(once, o, id) == once[id]
  {
  }
}
