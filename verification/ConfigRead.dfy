/** What a configuration file means: rules, agents and tables as they are
    written, and each setting from its own place. */
module ConfigRead {
  import opened Wrappers
  import opened Config
  import opened ConfigFile

  // ---- Rules ----

  /** A rule counts if it names an action. It allows or denies exactly when it
      says so; anything else, or nothing, asks. A missing resource is any. */
  lemma {:induction false} RuleRead(rule: Node)
    ensures RuleOf(rule) != [] <==> TextAt(rule, "action").Some? && TextAt(rule, "action") != Some("")
    ensures RuleOf(rule) != [] ==>
              var r := RuleOf(rule)[0];
              && |RuleOf(rule)| == 1 && Some(r.action) == TextAt(rule, "action")
              && (r.effect == Allow <==> TextAt(rule, "effect") == Some("allow"))
              && (r.effect == Deny <==> TextAt(rule, "effect") == Some("deny"))
              && (TextAt(rule, "resource").Some? ==> Some(r.resource) == TextAt(rule, "resource"))
              && (TextAt(rule, "resource").None? ==> r.resource == "*")
  {
  }

  /** A rule ends the reading exactly when one of its three members is there and
      is no string; a price exactly when one of its four is no number. */
  lemma {:induction false} FailsExact(v: Node)
    ensures RuleFails(v) <==>
              exists k :: k in ["action", "resource", "effect"] && Lookup(v, k).Some? && !Lookup(v, k).value.Text?
    ensures PriceOf(v).None? <==>
              exists k :: k in ["input", "output", "cache_read", "cache_write"]
                          && Lookup(v, k).Some? && !Lookup(v, k).value.Int? && !Lookup(v, k).value.Float?
  {
    hide Find;
    var names, prices := ["action", "resource", "effect"], ["input", "output", "cache_read", "cache_write"];
    assert names[0] in names && names[1] in names && names[2] in names;
    assert prices[0] in prices && prices[1] in prices && prices[2] in prices && prices[3] in prices;
    assert RuleFails(v) <==> BadMember(v, "action") || BadMember(v, "resource") || BadMember(v, "effect");
  }

  function RuleNode(r: Rule): Node {
    Object([Field("action", Text(r.action)), Field("resource", Text(r.resource)), Field("effect", Text(EffectString(r.effect)))])
  }

  lemma {:induction false} FindThree(a: Field, b: Field, c: Field, key: string)
    ensures Find([a, b, c], key)
            == if a.key == key then Some(a.value) else if b.key == key then Some(b.value)
               else if c.key == key then Some(c.value) else None
  {
    assert [a, b, c][1..] == [b, c] && [b, c][1..] == [c] && [c][1..] == [];
    assert Find([c], key) == if c.key == key then Some(c.value) else None;
    assert Find([b, c], key) == if b.key == key then Some(b.value) else Find([c], key);
  }

  lemma {:induction false} RuleFields(r: Rule)
    ensures var n := RuleNode(r);
            && Lookup(n, "action") == Some(Text(r.action)) && Lookup(n, "resource") == Some(Text(r.resource))
            && Lookup(n, "effect") == Some(Text(EffectString(r.effect)))
  {
    hide Find;
    var f := RuleNode(r).fields;
    assert "action"[0] == 'a' && "resource"[0] == 'r' && "effect"[0] == 'e';
    FindThree(f[0], f[1], f[2], "action");
    FindThree(f[0], f[1], f[2], "resource");
    FindThree(f[0], f[1], f[2], "effect");
    assert f == [f[0], f[1], f[2]];
  }

  /** The strings of the three effects. */
  lemma {:induction false} EffectsNamed()
    ensures EffectString(Allow) == "allow" && EffectString(Deny) == "deny" && EffectString(Ask) == "ask"
    ensures forall s, t :: s != t ==> EffectString(s) != EffectString(t)
  {
    assert "allow"[0] == 'a' && "allow"[1] == 'l' && "ask"[1] == 's' && "deny"[0] == 'd';
  }

  /** A rule written with its own strings reads back as itself. */
  lemma {:induction false} RuleRoundTrip(r: Rule)
    requires r.action != ""
    ensures RuleOf(RuleNode(r)) == [r] && !RuleFails(RuleNode(r))
  {
    RuleFields(r);
    EffectsNamed();
    RuleRead(RuleNode(r));
  }

  function RuleNodes(rules: seq<Rule>): (r: seq<Node>)
    ensures |r| == |rules|
  {
    seq(|rules|, i requires 0 <= i < |rules| => RuleNode(rules[i]))
  }

  predicate Named(rules: seq<Rule>) {
    forall k :: 0 <= k < |rules| ==> rules[k].action != ""
  }

  /** So do lists of rules, in order. */
  lemma {:induction false} RulesRoundTrip(rules: seq<Rule>)
    requires Named(rules)
    ensures RulesOf(RuleNodes(rules)) == (rules, false)
    decreases |rules|
  {
    hide RuleNode, RuleOf, RuleFails;
    if rules != [] {
      var n := |rules| - 1;
      RulesRoundTrip(rules[..n]);
      assert RuleNodes(rules)[..n] == RuleNodes(rules[..n]);
      RuleRoundTrip(rules[n]);
      assert rules == rules[..n] + [rules[n]];
    }
  }

  // ---- Agents ----

  function TextField(key: string, s: Option<string>): seq<Field> {
    match s case Some(v) => [Field(key, Text(v))] case None => []
  }

  function AgentFields(a: Agent): seq<Field> {
    TextField("model", a.model) + TextField("system_prompt", a.prompt)
    + (if a.color == "" then [] else [Field("color", Text(a.color))])
    + (match a.maxSteps case Some(n) => [Field("max_steps", Int(n))] case None => [])
    + [Field("permissions", List(RuleNodes(a.permissions)))]
  }

  lemma {:induction false} FindJoin(a: seq<Field>, b: seq<Field>, key: string)
    ensures Find(a + b, key) == if Find(a, key).Some? then Find(a, key) else Find(b, key)
    decreases |a|
  {
    if a == [] {
      assert a + b == b;
    } else {
      assert (a + b)[1..] == a[1..] + b;
      FindJoin(a[1..], b, key);
    }
  }

  lemma {:induction false} FindOne(f: Field, key: string)
    ensures Find([f], key) == if f.key == key then Some(f.value) else None
  {
    assert [f][1..] == [];
  }

  lemma {:induction false} FindNone(key: string)
    ensures Find([], key) == None
  {
  }

  lemma {:induction false} FindGiven(name: string, s: Option<string>, key: string)
    ensures Find(TextField(name, s), key) == if s.Some? && name == key then Some(Text(s.value)) else None
  {
    if s.Some? {
      FindOne(Field(name, Text(s.value)), key);
    }
  }

  lemma {:induction false} AgentKeys()
    ensures "model" != "system_prompt" && "model" != "color" && "model" != "max_steps" && "model" != "permissions"
    ensures "system_prompt" != "color" && "system_prompt" != "max_steps" && "system_prompt" != "permissions"
    ensures "color" != "max_steps" && "color" != "permissions" && "max_steps" != "permissions"
  {
    assert |"model"| == 5 && |"system_prompt"| == 13 && |"color"| == 5 && |"max_steps"| == 9 && |"permissions"| == 11;
    assert "model"[0] == 'm' && "color"[0] == 'c';
  }

  lemma {:induction false} AgentFound(a: Agent)
    ensures var n := Object(AgentFields(a));
            && TextAt(n, "model") == a.model && TextAt(n, "system_prompt") == a.prompt
            && TextOr(n, "color", "") == a.color && ListAt(n, "permissions") == RuleNodes(a.permissions)
            && Lookup(n, "max_steps") == (match a.maxSteps case Some(k) => Some(Int(k)) case None => None)
  {
    hide RuleNodes, Find, AgentFields;
    AgentKeys();
    AgentFind(a, "model");
    AgentFind(a, "system_prompt");
    AgentFind(a, "color");
    AgentFind(a, "max_steps");
    AgentFind(a, "permissions");
  }

  lemma {:induction false} AgentFind(a: Agent, key: string)
    ensures Find(AgentFields(a), key)
            == if key == "model" && a.model.Some? then Some(Text(a.model.value))
               else if key == "system_prompt" && a.prompt.Some? then Some(Text(a.prompt.value))
               else if key == "color" && a.color != "" then Some(Text(a.color))
               else if key == "max_steps" && a.maxSteps.Some? then Some(Int(a.maxSteps.value))
               else if key == "permissions" then Some(List(RuleNodes(a.permissions))) else None
  {
    hide RuleNodes, Find;
    var f1, f2 := TextField("model", a.model), TextField("system_prompt", a.prompt);
    var f3 := if a.color == "" then [] else [Field("color", Text(a.color))];
    var f4 := match a.maxSteps case Some(n) => [Field("max_steps", Int(n))] case None => [];
    var f5 := [Field("permissions", List(RuleNodes(a.permissions)))];
    AgentKeys();
    FindJoin(f1, f2, key);
    FindJoin(f1 + f2, f3, key);
    FindJoin(f1 + f2 + f3, f4, key);
    FindJoin(f1 + f2 + f3 + f4, f5, key);
    assert AgentFields(a) == f1 + f2 + f3 + f4 + f5;
    FindGiven("model", a.model, key);
    FindGiven("system_prompt", a.prompt, key);
    FindGiven("color", if a.color == "" then None else Some(a.color), key);
    FindNone(key);
    if a.maxSteps.Some? {
      FindOne(Field("max_steps", Int(a.maxSteps.value)), key);
    }
    FindOne(f5[0], key);
  }

  lemma {:induction false} SameInt(n: int)
    ensures -0x8000_0000 <= n <= 0x7FFF_FFFF ==> AsInt32(n) == n
    ensures -0x8000_0000 <= AsInt32(n) <= 0x7FFF_FFFF && (AsInt32(n) - n) % 0x1_0000_0000 == 0
  {
  }

  /** What any entry gives an agent: a step limit only if it is above zero,
      strings where there are strings. */
  lemma {:induction false} AgentGiven(id: string, v: Node)
    ensures var a := AgentOf(id, v);
            && a.id == id && a.model == TextAt(v, "model") && a.prompt == TextAt(v, "system_prompt")
            && a.color == (match TextAt(v, "color") case Some(s) => s case None => "")
            && (a.maxSteps.Some? <==> Lookup(v, "max_steps").Some? && Lookup(v, "max_steps").value.Int?
                                      && AsInt32(Lookup(v, "max_steps").value.n) > 0)
            && (a.maxSteps.Some? ==> a.maxSteps.value == AsInt32(Lookup(v, "max_steps").value.n))
            && a.permissions == RulesOf(ListAt(v, "permissions")).0
  {
  }

  predicate Writable(a: Agent) {
    Named(a.permissions) && (a.maxSteps.Some? ==> 0 < a.maxSteps.value <= 0x7FFF_FFFF)
  }

  /** An agent reads back as it was written, whatever it leaves out. */
  lemma {:induction false} AgentRoundTrip(a: Agent)
    requires Writable(a)
    ensures AgentOf(a.id, Object(AgentFields(a))) == a && !AgentFails(Object(AgentFields(a)))
  {
    hide AgentFields, RuleNodes, RulesOf, Lookup;
    AgentFound(a);
    RulesRoundTrip(a.permissions);
    if a.maxSteps.Some? {
      SameInt(a.maxSteps.value);
    }
  }

  function AgentNodes(agents: seq<Agent>): (r: seq<Field>)
    ensures |r| == |agents|
  {
    seq(|agents|, i requires 0 <= i < |agents| => Field(agents[i].id, Object(AgentFields(agents[i]))))
  }

  function ByName(agents: seq<Agent>): map<string, Agent> {
    if agents == [] then map[] else ByName(agents[..|agents| - 1])[agents[|agents| - 1].id := agents[|agents| - 1]]
  }

  lemma {:induction false} NamedOnce(agents: seq<Agent>)
    requires forall j, k :: 0 <= j < k < |agents| ==> agents[j].id != agents[k].id
    ensures forall k :: 0 <= k < |agents| ==> agents[k].id in ByName(agents) && ByName(agents)[agents[k].id] == agents[k]
    ensures forall id :: id in ByName(agents) ==> exists k :: 0 <= k < |agents| && agents[k].id == id
    decreases |agents|
  {
    if agents != [] {
      var n := |agents| - 1;
      NamedOnce(agents[..n]);
      assert forall k :: 0 <= k < n ==> agents[..n][k] == agents[k];
      forall id | id in ByName(agents) ensures exists k :: 0 <= k < |agents| && agents[k].id == id {
        if id != agents[n].id {
          var k :| 0 <= k < n && agents[..n][k].id == id;
          assert agents[k].id == id;
        } else {
          assert agents[n].id == id;
        }
      }
    }
  }

  lemma {:induction false} AgentsBack(agents: seq<Agent>)
    requires forall k :: 0 <= k < |agents| ==> Writable(agents[k])
    ensures AgentsOf(AgentNodes(agents)) == (ByName(agents), false)
    decreases |agents|
  {
    hide Writable, AgentFails, AgentOf, AgentFields;
    if agents != [] {
      var n := |agents| - 1;
      AgentsBack(agents[..n]);
      assert AgentNodes(agents)[..n] == AgentNodes(agents[..n]);
      AgentRoundTrip(agents[n]);
    }
  }

  /** So does a table of agents with distinct names. */
  lemma {:induction false} AgentsRoundTrip(agents: seq<Agent>)
    requires forall k :: 0 <= k < |agents| ==> Writable(agents[k])
    requires forall j, k :: 0 <= j < k < |agents| ==> agents[j].id != agents[k].id
    ensures var (m, failed) := AgentsOf(AgentNodes(agents));
            && !failed && (forall k :: 0 <= k < |agents| ==> agents[k].id in m && m[agents[k].id] == agents[k])
            && (forall id :: id in m ==> exists k :: 0 <= k < |agents| && agents[k].id == id)
  {
    hide Writable, AgentsOf, AgentNodes, ByName;
    AgentsBack(agents);
    NamedOnce(agents);
  }

  // ---- Settings ----

  datatype Sort = Words | OneOf(choices: set<string>) | Switch | Positive | Fraction
  datatype Setting = Setting(section: string, key: string, name: string, sort: Sort)

  /** Every single-valued setting: where the file gives it and what it may be,
      in the order they are read. */
  function SettingAt(i: nat): Setting
    requires i < 16
  {
    match i
    case 0 => Setting("", "model", "model", Words)
    case 1 => Setting("", "provider", "provider", Words)
    case 2 => Setting("", "agent", "agent", Words)
    case 3 => Setting("vision_fallback", "provider", "vision_fallback/provider", Words)
    case 4 => Setting("vision_fallback", "model", "vision_fallback/model", Words)
    case 5 => Setting("", "default_mode", "default_mode", OneOf({"plan", "chat", "build"}))
    case 6 => Setting("", "thinking_display", "thinking_display", OneOf({"off", "on", "on_while_thinking"}))
    case 7 => Setting("", "auto_compact", "auto_compact", Switch)
    case 8 => Setting("", "auto_compact_threshold", "auto_compact_threshold", Fraction)
    case 9 => Setting("", "compaction_buffer", "compaction_buffer", Positive)
    case 10 => Setting("", "compaction_recent_context", "compaction_recent_context", Positive)
    case 11 => Setting("", "compaction_summary_max_tokens", "compaction_summary_max_tokens", Positive)
    case 12 => Setting("", "autoname_sessions", "autoname_sessions", Switch)
    case 13 => Setting("", "autoname_llm_refine", "autoname_llm_refine", Switch)
    case 14 => Setting("web_search", "engine", "web_search/engine", Words)
    case _ => Setting("web_search", "max_results", "web_search/max_results", Positive)
  }

  function NodeAt(j: Node, s: Setting): Option<Node> {
    if s.section == "" then Lookup(j, s.key)
    else match Lookup(j, s.section) case Some(v) => Lookup(v, s.key) case None => None
  }

  /** What a value means for a setting; a wrong one means nothing. */
  function Meaning(sort: Sort, v: Option<Node>): Option<Scalar> {
    match (sort, v)
    case (Words, Some(Text(s))) => Some(TextSetting(s))
    case (OneOf(choices), Some(Text(s))) => if s in choices then Some(TextSetting(s)) else None
    case (Switch, Some(Bool(b))) => Some(BoolSetting(b))
    case (Positive, Some(Int(n))) => if AsInt32(n) > 0 then Some(IntSetting(AsInt32(n))) else None
    case (Fraction, Some(Int(n))) => None
    case (Fraction, Some(Float(r))) => if 0.0 < r < 1.0 then Some(RealSetting(r)) else None
    case (_, _) => None
  }

  /** How many of them the reading reaches. */
  function Reached(j: Node): nat {
    if AgentsEnd(j) || RulesOf(ListAt(j, "permissions")).1 then 3
    else if PricesFail(FieldsAt(j, "pricing")) then 5
    else 16
  }

  ghost predicate Carried(defaults: map<string, Scalar>, l: Layer, j: Node, s: Setting, reached: bool) {
    var v := if reached then Meaning(s.sort, NodeAt(j, s)) else None;
    if v.Some? then s.name in l.values.scalars && l.values.scalars[s.name] == v.value && s.name in l.present
    else s.name !in l.present && (s.name in l.values.scalars <==> s.name in defaults)
         && (s.name in defaults ==> l.values.scalars[s.name] == defaults[s.name])
  }

  ghost predicate Carries(defaults: map<string, Scalar>, l: Layer, j: Node, n: nat) {
    forall i :: 0 <= i < 16 ==> Carried(defaults, l, j, SettingAt(i), i < n)
  }

  function Tag(s: string): (nat, char) {
    (|s|, if s == "" then ' ' else s[0])
  }

  lemma {:induction false} Tags1()
    ensures Tag("model") == (5, 'm')
    ensures Tag("provider") == (8, 'p')
    ensures Tag("agent") == (5, 'a')
    ensures Tag("vision_fallback/provider") == (24, 'v')
  {
  }

  lemma {:induction false} Tags2()
    ensures Tag("vision_fallback/model") == (21, 'v')
    ensures Tag("default_mode") == (12, 'd')
    ensures Tag("thinking_display") == (16, 't')
    ensures Tag("auto_compact") == (12, 'a')
  {
  }

  lemma {:induction false} Tags3()
    ensures Tag("auto_compact_threshold") == (22, 'a')
    ensures Tag("compaction_buffer") == (17, 'c')
    ensures Tag("compaction_recent_context") == (25, 'c')
    ensures Tag("compaction_summary_max_tokens") == (29, 'c')
  {
  }

  lemma {:induction false} Tags4()
    ensures Tag("autoname_sessions") == (17, 'a')
    ensures Tag("autoname_llm_refine") == (19, 'a')
    ensures Tag("web_search/engine") == (17, 'w')
    ensures Tag("web_search/max_results") == (22, 'w')
  {
  }

  /** No two names have both length and first letter in common. */
  function TagAt(i: nat): (nat, char)
    requires i < 16
  {
    match i
    case 0 => (5, 'm')
    case 1 => (8, 'p')
    case 2 => (5, 'a')
    case 3 => (24, 'v')
    case 4 => (21, 'v')
    case 5 => (12, 'd')
    case 6 => (16, 't')
    case 7 => (12, 'a')
    case 8 => (22, 'a')
    case 9 => (17, 'c')
    case 10 => (25, 'c')
    case 11 => (29, 'c')
    case 12 => (17, 'a')
    case 13 => (19, 'a')
    case 14 => (17, 'w')
    case _ => (22, 'w')
  }

  lemma {:induction false} Tags(i: nat)
    requires i < 16
    ensures Tag(SettingAt(i).name) == TagAt(i)
  {
    hide Tag;
    Tags1();
    Tags2();
    Tags3();
    Tags4();
  }

  lemma {:induction false} NamesDiffer(i: nat, k: nat)
    requires i < k < 16
    ensures SettingAt(i).name != SettingAt(k).name
  {
    hide SettingAt;
    Tags(i);
    Tags(k);
  }

  function WithMeaning(l: Layer, s: Setting, v: Option<Scalar>): Layer {
    match v case Some(x) => WithScalar(l, s.name, x) case None => l
  }

  lemma {:induction false} StepSetting(defaults: map<string, Scalar>, l: Layer, j: Node, n: nat)
    requires Carries(defaults, l, j, n) && n < 16
    ensures Carries(defaults, WithMeaning(l, SettingAt(n), Meaning(SettingAt(n).sort, NodeAt(j, SettingAt(n)))), j, n + 1)
  {
    hide SettingAt, Meaning, NodeAt;
    var l' := WithMeaning(l, SettingAt(n), Meaning(SettingAt(n).sort, NodeAt(j, SettingAt(n))));
    forall i | 0 <= i < 16 ensures Carried(defaults, l', j, SettingAt(i), i < n + 1) {
      assert Carried(defaults, l, j, SettingAt(i), i < n);
      if i < n {
        NamesDiffer(i, n);
      } else if i > n {
        NamesDiffer(n, i);
      }
    }
  }

  predicate TableName(key: string) {
    exists i :: 0 <= i < 16 && SettingAt(i).name == key
  }

  /** Another section was read. */
  lemma {:induction false} StepOther(defaults: map<string, Scalar>, l: Layer, l': Layer, j: Node, n: nat)
    requires Carries(defaults, l, j, n) && l'.values.scalars == l.values.scalars
    requires forall k :: TableName(k) ==> (k in l'.present <==> k in l.present)
    ensures Carries(defaults, l', j, n)
  {
    hide SettingAt, Meaning, NodeAt;
    forall i | 0 <= i < 16 ensures Carried(defaults, l', j, SettingAt(i), i < n) {
      assert Carried(defaults, l, j, SettingAt(i), i < n) && TableName(SettingAt(i).name);
    }
  }

  lemma {:induction false} Signs(i: nat)
    requires i < 16
    ensures var s := SettingAt(i).name;
            && |s| > 0 && (|s|, s[0]) == TagAt(i)
            && (s[0] == 'v' ==> |s| > 6 && s[6] == '_') && (s[0] == 'w' ==> |s| > 11 && s[11] != 'a')
            && (s[0] == 'p' ==> |s| > 2 && s[2] == 'o')
  {
    hide SettingAt;
    Tags(i);
    Fallbacks();
    Searches();
    SettingsAt();
  }

  lemma {:induction false} Fallbacks()
    ensures "vision_fallback/provider"[6] == '_' && "vision_fallback/model"[6] == '_'
  {
  }

  lemma {:induction false} Searches()
    ensures "web_search/engine"[11] == 'e' && "web_search/max_results"[11] == 'm'
  {
  }

  lemma {:induction false} SettingsAt()
    ensures SettingAt(1).name == "provider" && "provider"[2] == 'o'
    ensures SettingAt(3).name == "vision_fallback/provider" && SettingAt(4).name == "vision_fallback/model"
    ensures SettingAt(14).name == "web_search/engine" && SettingAt(15).name == "web_search/max_results"
  {
  }

  /** The keys that other sections record are none of these. */
  lemma {:induction false} SectionNames()
    ensures !TableName("agents") && !TableName("permissions") && !TableName("build_command")
    ensures !TableName("instructions") && !TableName("skills")
  {
    hide SettingAt, Tag;
    SectionTags();
    forall i: nat | i < 16 ensures Tag(SettingAt(i).name) == TagAt(i) {
      Tags(i);
    }
  }

  lemma {:induction false} SectionTags()
    ensures Tag("agents") == (6, 'a') && Tag("permissions") == (11, 'p') && Tag("build_command") == (13, 'b')
    ensures Tag("instructions") == (12, 'i') && Tag("skills") == (6, 's')
  {
  }

  lemma {:induction false} TableKeys(k: string)
    ensures !TableName(PROVIDERS + k) && !TableName("models/" + k) && !TableName("vision/" + k)
    ensures !TableName("max_output/" + k) && !TableName("pricing/" + k) && !TableName(SEARCH_KEYS + k)
  {
    hide SettingAt, Tag;
    forall i: nat | i < 16
      ensures var s := SettingAt(i).name;
              && s != PROVIDERS + k && s != "models/" + k && s != "vision/" + k && s != "max_output/" + k
              && s != "pricing/" + k && s != SEARCH_KEYS + k
    {
      Signs(i);
      KeySigns(k);
    }
  }

  lemma {:induction false} KeySigns(k: string)
    ensures (PROVIDERS + k)[0] == 'p' && |PROVIDERS + k| > 9 && ("pricing/" + k)[0] == 'p' && ("pricing/" + k)[1] == 'r'
    ensures |"pricing/" + k| >= 8 && ("pricing/" + k)[2] == 'i'
    ensures ("models/" + k)[0] == 'm' && |"models/" + k| >= 7 && ("max_output/" + k)[0] == 'm' && |"max_output/" + k| >= 11
    ensures ("vision/" + k)[0] == 'v' && ("vision/" + k)[6] == '/'
    ensures (SEARCH_KEYS + k)[0] == 'w' && (SEARCH_KEYS + k)[11] == 'a'
  {
  }

  lemma {:induction false} ReadIs(l: Layer, j: Node, key: string, name: string, choices: set<string>)
    ensures ReadText(l, j, key, name) == WithMeaning(l, Setting("", key, name, Words), Meaning(Words, Lookup(j, key)))
    ensures ReadChoice(l, j, key, choices)
            == WithMeaning(l, Setting("", key, key, OneOf(choices)), Meaning(OneOf(choices), Lookup(j, key)))
    ensures ReadBool(l, j, key) == WithMeaning(l, Setting("", key, key, Switch), Meaning(Switch, Lookup(j, key)))
    ensures ReadPositive(l, j, key, name)
            == WithMeaning(l, Setting("", key, name, Positive), Meaning(Positive, Lookup(j, key)))
    ensures ReadFraction(l, j, key) == WithMeaning(l, Setting("", key, key, Fraction), Meaning(Fraction, Lookup(j, key)))
  {
    if Lookup(j, key).Some? && Lookup(j, key).value.Int? {
      NoFraction(Lookup(j, key).value.n);
    }
  }

  lemma {:induction false} NoFraction(n: int)
    ensures !(0.0 < n as real < 1.0)
  {
  }

  // ---- Other sections ----

  /** Settings and their presence stay as they are. */
  ghost predicate OnlyOther(l: Layer, l': Layer) {
    l'.values.scalars == l.values.scalars && forall k :: TableName(k) ==> (k in l'.present <==> k in l.present)
  }

  lemma {:induction false} OtherTwice(a: Layer, b: Layer, c: Layer)
    requires OnlyOther(a, b) && OnlyOther(b, c)
    ensures OnlyOther(a, c)
  {
    hide TableName;
  }

  lemma {:induction false} OtherCarries(defaults: map<string, Scalar>, l: Layer, l': Layer, j: Node, n: nat)
    requires Carries(defaults, l, j, n) && OnlyOther(l, l')
    ensures Carries(defaults, l', j, n)
  {
    hide Carries;
    StepOther(defaults, l, l', j, n);
  }

  predicate DistinctKeys(fields: seq<Field>) {
    forall i, k :: 0 <= i < k < |fields| ==> fields[i].key != fields[k].key
  }

  /** The models' context sizes: each integer under its own key, nothing else. */
  ghost predicate HoldsInts(m: map<string, int>, was: map<string, int>, fields: seq<Field>) {
    && (forall i :: 0 <= i < |fields| && fields[i].value.Int? ==>
          fields[i].key in m && m[fields[i].key] == AsInt32(fields[i].value.n))
    && (forall k :: k in m ==> k in was || exists i :: 0 <= i < |fields| && fields[i].key == k && fields[i].value.Int?)
  }

  lemma {:induction false} ContextsRead(l: Layer, fields: seq<Field>)
    ensures var l' := ReadContexts(l, fields);
            && l'.values == l.values.(contexts := l'.values.contexts) && OnlyOther(l, l')
            && (DistinctKeys(fields) ==> HoldsInts(l'.values.contexts, l.values.contexts, fields))
    decreases |fields|
  {
    hide AsInt32, TableName;
    if fields != [] {
      var n := |fields| - 1;
      ContextsRead(l, fields[..n]);
      TableKeys(fields[n].key);
      IntsNext(ReadContexts(l, fields[..n]).values.contexts, ReadContexts(l, fields).values.contexts, l.values.contexts, fields);
    }
  }

  lemma {:induction false} CapsRead(l: Layer, fields: seq<Field>)
    ensures var l' := ReadCaps(l, fields);
            && l'.values == l.values.(maxOutput := l'.values.maxOutput) && OnlyOther(l, l')
            && (DistinctKeys(fields) ==> HoldsInts(l'.values.maxOutput, l.values.maxOutput, fields))
    decreases |fields|
  {
    hide AsInt32, TableName;
    if fields != [] {
      var n := |fields| - 1;
      CapsRead(l, fields[..n]);
      TableKeys(fields[n].key);
      IntsNext(ReadCaps(l, fields[..n]).values.maxOutput, ReadCaps(l, fields).values.maxOutput, l.values.maxOutput, fields);
    }
  }

  lemma {:induction false} IntsNext(m: map<string, int>, m': map<string, int>, was: map<string, int>, fields: seq<Field>)
    requires fields != []
    requires var f := fields[|fields| - 1]; m' == if f.value.Int? then m[f.key := AsInt32(f.value.n)] else m
    ensures DistinctKeys(fields) && HoldsInts(m, was, fields[..|fields| - 1]) ==> HoldsInts(m', was, fields)
  {
    hide AsInt32;
    var n := |fields| - 1;
    assert forall i :: 0 <= i < n ==> fields[..n][i] == fields[i];
    if DistinctKeys(fields) && HoldsInts(m, was, fields[..n]) {
      forall k | k in m' && k !in was
        ensures exists i :: 0 <= i < |fields| && fields[i].key == k && fields[i].value.Int?
      {
        if k in m {
          var i :| 0 <= i < n && fields[..n][i].key == k && fields[..n][i].value.Int?;
          assert fields[i].key == k && fields[i].value.Int?;
        } else {
          assert fields[n].key == k && fields[n].value.Int?;
        }
      }
    }
  }

  /** Whether models take images: each switch under its own key. */
  ghost predicate HoldsBools(m: map<string, bool>, was: map<string, bool>, fields: seq<Field>) {
    && (forall i :: 0 <= i < |fields| && fields[i].value.Bool? ==> fields[i].key in m && m[fields[i].key] == fields[i].value.on)
    && (forall k :: k in m ==> k in was || exists i :: 0 <= i < |fields| && fields[i].key == k && fields[i].value.Bool?)
  }

  lemma {:induction false} VisionRead(l: Layer, fields: seq<Field>)
    ensures var l' := ReadVision(l, fields);
            && l'.values == l.values.(vision := l'.values.vision) && OnlyOther(l, l')
            && (DistinctKeys(fields) ==> HoldsBools(l'.values.vision, l.values.vision, fields))
    decreases |fields|
  {
    hide TableName;
    if fields != [] {
      var n := |fields| - 1;
      VisionRead(l, fields[..n]);
      TableKeys(fields[n].key);
      BoolsNext(ReadVision(l, fields[..n]).values.vision, ReadVision(l, fields).values.vision, l.values.vision, fields);
    }
  }

  lemma {:induction false} BoolsNext(m: map<string, bool>, m': map<string, bool>, was: map<string, bool>, fields: seq<Field>)
    requires fields != []
    requires var f := fields[|fields| - 1]; m' == if f.value.Bool? then m[f.key := f.value.on] else m
    ensures DistinctKeys(fields) && HoldsBools(m, was, fields[..|fields| - 1]) ==> HoldsBools(m', was, fields)
  {
    var n := |fields| - 1;
    assert forall i :: 0 <= i < n ==> fields[..n][i] == fields[i];
    if DistinctKeys(fields) && HoldsBools(m, was, fields[..n]) {
      forall k | k in m' && k !in was
        ensures exists i :: 0 <= i < |fields| && fields[i].key == k && fields[i].value.Bool?
      {
        if k in m {
          var i :| 0 <= i < n && fields[..n][i].key == k && fields[..n][i].value.Bool?;
          assert fields[i].key == k && fields[i].value.Bool?;
        } else {
          assert fields[n].key == k && fields[n].value.Bool?;
        }
      }
    }
  }

  /** The search engines' keys: each string under its own engine. */
  ghost predicate HoldsTexts(m: map<string, string>, was: map<string, string>, fields: seq<Field>) {
    && (forall i :: 0 <= i < |fields| && fields[i].value.Text? ==> fields[i].key in m && m[fields[i].key] == fields[i].value.s)
    && (forall k :: k in m ==> k in was || exists i :: 0 <= i < |fields| && fields[i].key == k && fields[i].value.Text?)
  }

  lemma {:induction false} KeysRead(l: Layer, fields: seq<Field>)
    ensures var l' := ReadSearchKeys(l, fields);
            && l'.values == l.values.(searchKeys := l'.values.searchKeys) && OnlyOther(l, l')
            && (DistinctKeys(fields) ==> HoldsTexts(l'.values.searchKeys, l.values.searchKeys, fields))
    decreases |fields|
  {
    hide TableName;
    if fields != [] {
      var n := |fields| - 1;
      KeysRead(l, fields[..n]);
      TableKeys(fields[n].key);
      TextsNext(ReadSearchKeys(l, fields[..n]).values.searchKeys, ReadSearchKeys(l, fields).values.searchKeys,
                l.values.searchKeys, fields);
    }
  }

  lemma {:induction false} TextsNext(m: map<string, string>, m': map<string, string>, was: map<string, string>, fields: seq<Field>)
    requires fields != []
    requires var f := fields[|fields| - 1]; m' == if f.value.Text? then m[f.key := f.value.s] else m
    ensures DistinctKeys(fields) && HoldsTexts(m, was, fields[..|fields| - 1]) ==> HoldsTexts(m', was, fields)
  {
    var n := |fields| - 1;
    assert forall i :: 0 <= i < n ==> fields[..n][i] == fields[i];
    if DistinctKeys(fields) && HoldsTexts(m, was, fields[..n]) {
      forall k | k in m' && k !in was
        ensures exists i :: 0 <= i < |fields| && fields[i].key == k && fields[i].value.Text?
      {
        if k in m {
          var i :| 0 <= i < n && fields[..n][i].key == k && fields[..n][i].value.Text?;
          assert fields[i].key == k && fields[i].value.Text?;
        } else {
          assert fields[n].key == k && fields[n].value.Text?;
        }
      }
    }
  }

  /** A price member's number, 0 where there is none. */
  ghost predicate Costs(v: Node, key: string, r: real) {
    match Lookup(v, key)
    case None => r == 0.0
    case Some(Int(n)) => r == n as real
    case Some(Float(x)) => r == x
    case _ => false
  }

  ghost predicate HoldsPrices(m: map<string, Price>, was: map<string, Price>, fields: seq<Field>) {
    && (forall i :: 0 <= i < |fields| && fields[i].value.Object? ==>
          && fields[i].key in m
          && Costs(fields[i].value, "input", m[fields[i].key].input) && Costs(fields[i].value, "output", m[fields[i].key].output)
          && Costs(fields[i].value, "cache_read", m[fields[i].key].cacheRead)
          && Costs(fields[i].value, "cache_write", m[fields[i].key].cacheWrite))
    && (forall k :: k in m ==> k in was || exists i :: 0 <= i < |fields| && fields[i].key == k && fields[i].value.Object?)
  }

  lemma {:induction false} PricingRead(l: Layer, fields: seq<Field>)
    ensures var r := ReadPricing(l, fields);
            && r.layer.values == l.values.(pricing := r.layer.values.pricing) && OnlyOther(l, r.layer)
            && (DistinctKeys(fields) && !r.failed ==> HoldsPrices(r.layer.values.pricing, l.values.pricing, fields))
    decreases |fields|
  {
    hide TableName, Lookup;
    if fields != [] {
      var n := |fields| - 1;
      PricingRead(l, fields[..n]);
      TableKeys(fields[n].key);
      if !ReadPricing(l, fields).failed {
        PricesNext(ReadPricing(l, fields[..n]).layer.values.pricing, ReadPricing(l, fields).layer.values.pricing,
                   l.values.pricing, fields);
      }
    }
  }

  lemma {:induction false} PricesNext(m: map<string, Price>, m': map<string, Price>, was: map<string, Price>, fields: seq<Field>)
    requires fields != []
    requires var f := fields[|fields| - 1];
             if f.value.Object? then PriceOf(f.value).Some? && m' == m[f.key := PriceOf(f.value).value] else m' == m
    ensures DistinctKeys(fields) && HoldsPrices(m, was, fields[..|fields| - 1]) ==> HoldsPrices(m', was, fields)
  {
    hide Lookup;
    var n := |fields| - 1;
    assert forall i :: 0 <= i < n ==> fields[..n][i] == fields[i];
    if DistinctKeys(fields) && HoldsPrices(m, was, fields[..n]) {
      forall k | k in m' && k !in was
        ensures exists i :: 0 <= i < |fields| && fields[i].key == k && fields[i].value.Object?
      {
        if k in m {
          var i :| 0 <= i < n && fields[..n][i].key == k && fields[..n][i].value.Object?;
          assert fields[i].key == k && fields[i].value.Object?;
        } else {
          assert fields[n].key == k && fields[n].value.Object?;
        }
      }
    }
  }

  /** A provider: its own strings; without a type, that of its name, and else
      one that speaks OpenAI's protocol. */
  ghost predicate IsProvider(p: Provider, id: string, v: Node) {
    && p.id == id
    && (if TextAt(v, "type").Some? && TextAt(v, "type") != Some("") then Some(p.kind) == TextAt(v, "type")
        else p.kind == if id == "anthropic" || id == "chatgpt" then id else "openai")
    && p.apiKey == (match TextAt(v, "api_key") case Some(s) => s case None => "")
    && p.baseUrl == (match TextAt(v, "base_url") case Some(s) => s case None => "")
  }

  /** The keys a provider is recorded under: of what its entry gives. */
  ghost predicate RecordsProvider(present: set<string>, id: string, v: Node) {
    && (TextAt(v, "type").Some? ==> "providers/" + id + "/type" in present)
    && (TextAt(v, "api_key").Some? ==> "providers/" + id + "/api_key" in present)
    && (TextAt(v, "base_url").Some? ==> "providers/" + id + "/base_url" in present)
  }

  ghost predicate HoldsProviders(l: Layer, was: Layer, fields: seq<Field>) {
    && (forall i :: 0 <= i < |fields| ==>
          && fields[i].key in l.values.providers
          && IsProvider(l.values.providers[fields[i].key], fields[i].key, fields[i].value)
          && RecordsProvider(l.present, fields[i].key, fields[i].value))
    && (forall k :: k in l.values.providers ==> k in was.values.providers || exists i :: 0 <= i < |fields| && fields[i].key == k)
  }

  lemma {:induction false} ProvidersRead(l: Layer, fields: seq<Field>)
    ensures var l' := ReadProviders(l, fields);
            && l'.values == l.values.(providers := l'.values.providers) && OnlyOther(l, l')
            && (DistinctKeys(fields) ==> HoldsProviders(l', l, fields))
    decreases |fields|
  {
    hide TableName, IsProvider, RecordsProvider, ProviderOf, HoldsProviders;
    if fields == [] {
      NoProviderRead(l);
    } else {
      var n := |fields| - 1;
      ProvidersRead(l, fields[..n]);
      var k := fields[n].key;
      ProviderKeys(k);
      ProvidersNext(l, fields);
    }
  }

  lemma {:induction false} NoProviderRead(l: Layer)
    ensures HoldsProviders(l, l, [])
  {
  }

  lemma {:induction false} ProviderKeys(id: string)
    ensures !TableName(PROVIDERS + id + "/" + "type") && !TableName(PROVIDERS + id + "/" + "api_key")
    ensures !TableName(PROVIDERS + id + "/" + "base_url")
  {
    hide TableName;
    TableKeys(id + "/" + "type");
    TableKeys(id + "/" + "api_key");
    TableKeys(id + "/" + "base_url");
    assert PROVIDERS + id + "/" + "type" == PROVIDERS + (id + "/" + "type");
    assert PROVIDERS + id + "/" + "api_key" == PROVIDERS + (id + "/" + "api_key");
    assert PROVIDERS + id + "/" + "base_url" == PROVIDERS + (id + "/" + "base_url");
  }

  lemma {:induction false} ProviderIs(id: string, v: Node)
    ensures IsProvider(ProviderOf(id, v), id, v)
  {
  }

  lemma {:induction false} OneRecorded(present: set<string>, id: string, v: Node)
    ensures var pk := PROVIDERS + id + "/";
            RecordsProvider(present + ConfigFile.Given(v, "type", pk + "type") + ConfigFile.Given(v, "api_key", pk + "api_key")
                            + ConfigFile.Given(v, "base_url", pk + "base_url"), id, v)
  {
    assert "providers/" + id + "/type" == PROVIDERS + id + "/" + "type";
    assert "providers/" + id + "/api_key" == PROVIDERS + id + "/" + "api_key";
    assert "providers/" + id + "/base_url" == PROVIDERS + id + "/" + "base_url";
  }

  lemma {:induction false} RecordsMore(a: set<string>, b: set<string>, id: string, v: Node)
    requires RecordsProvider(a, id, v) && a <= b
    ensures RecordsProvider(b, id, v)
  {
  }

  lemma {:induction false} ProvidersNext(l: Layer, fields: seq<Field>)
    requires fields != []
    ensures DistinctKeys(fields) && HoldsProviders(ReadProviders(l, fields[..|fields| - 1]), l, fields[..|fields| - 1]) ==>
              HoldsProviders(ReadProviders(l, fields), l, fields)
  {
    hide IsProvider, RecordsProvider, ProviderOf, ConfigFile.Given;
    var n := |fields| - 1;
    var before, after := ReadProviders(l, fields[..n]), ReadProviders(l, fields);
    ProviderIs(fields[n].key, fields[n].value);
    OneRecorded(before.present, fields[n].key, fields[n].value);
    if DistinctKeys(fields) && HoldsProviders(before, l, fields[..n]) {
      forall i | 0 <= i < n
        ensures fields[i].key in after.values.providers
                && IsProvider(after.values.providers[fields[i].key], fields[i].key, fields[i].value)
                && RecordsProvider(after.present, fields[i].key, fields[i].value)
      {
        assert fields[..n][i] == fields[i];
        RecordsMore(before.present, after.present, fields[i].key, fields[i].value);
      }
      forall k | k in after.values.providers && k !in l.values.providers
        ensures exists i :: 0 <= i < |fields| && fields[i].key == k
      {
        if k in before.values.providers {
          var i :| 0 <= i < n && fields[..n][i].key == k;
          assert fields[i].key == k;
        } else {
          assert fields[n].key == k;
        }
      }
    }
  }

  /** Lists keep their strings, in order, and drop all else. */
  lemma {:induction false} TextsExact(items: seq<Node>, more: seq<Node>)
    ensures Texts(items + more) == Texts(items) + Texts(more)
    decreases |more|
  {
    if more == [] {
      assert items + more == items;
    } else {
      var n := |more| - 1;
      assert (items + more)[..|items| + n] == items + more[..n];
      TextsExact(items, more[..n]);
    }
  }

  lemma {:induction false} OneText(item: Node)
    ensures Texts([item]) == if item.Text? then [item.s] else []
  {
    assert [item][..0] == [];
  }

  // ---- The whole file ----

  lemma {:induction false} SettingsAre()
    ensures SettingAt(0) == Setting("", "model", "model", Words) && SettingAt(1) == Setting("", "provider", "provider", Words)
    ensures SettingAt(2) == Setting("", "agent", "agent", Words)
    ensures SettingAt(3) == Setting("vision_fallback", "provider", "vision_fallback/provider", Words)
    ensures SettingAt(4) == Setting("vision_fallback", "model", "vision_fallback/model", Words)
  {
  }

  lemma {:induction false} BlankCarries(defaults: map<string, Scalar>, j: Node)
    ensures Carries(defaults, Blank(defaults), j, 0)
  {
  }

  lemma {:induction false} HeadCarries(defaults: map<string, Scalar>, j: Node)
    ensures Carries(defaults, Head(Blank(defaults), j), j, 3)
    ensures Head(Blank(defaults), j).values
            == Blank(defaults).values.(scalars := Head(Blank(defaults), j).values.scalars,
                                       providers := Head(Blank(defaults), j).values.providers)
    ensures DistinctKeys(FieldsAt(j, "providers")) ==>
              HoldsProviders(Head(Blank(defaults), j), Blank(defaults), FieldsAt(j, "providers"))
  {
    hide Carries, SettingAt, Meaning, ReadProviders, HoldsProviders, OnlyOther;
    SettingsAre();
    var l := Blank(defaults);
    var l1 := ReadText(l, j, "model", "model");
    var l2 := ReadText(l1, j, "provider", "provider");
    var l3 := ReadText(l2, j, "agent", "agent");
    ReadIs(l, j, "model", "model", {});
    ReadIs(l1, j, "provider", "provider", {});
    ReadIs(l2, j, "agent", "agent", {});
    BlankCarries(defaults, j);
    StepSetting(defaults, l, j, 0);
    StepSetting(defaults, l1, j, 1);
    StepSetting(defaults, l2, j, 2);
    ProvidersRead(l3, FieldsAt(j, "providers"));
    OtherCarries(defaults, l3, Head(l, j), j, 3);
    if DistinctKeys(FieldsAt(j, "providers")) {
      SameProviders(Head(l, j), l3, l, FieldsAt(j, "providers"));
    }
  }

  lemma {:induction false} SameProviders(l: Layer, a: Layer, b: Layer, fields: seq<Field>)
    requires HoldsProviders(l, a, fields) && a.values.providers == b.values.providers
    ensures HoldsProviders(l, b, fields)
  {
    hide IsProvider, RecordsProvider;
  }

  lemma {:induction false} GatedOther(l: Layer, agents: map<string, Agent>, rules: seq<Rule>, texts: seq<string>, command: string)
    ensures OnlyOther(l, Layer(l.values.(agents := agents), l.present))
    ensures OnlyOther(l, Layer(l.values.(agents := agents), l.present + {"agents"}))
    ensures OnlyOther(l, Layer(l.values.(permissions := rules), l.present))
    ensures OnlyOther(l, Layer(l.values.(permissions := rules), l.present + {"permissions"}))
    ensures OnlyOther(l, Layer(l.values.(instructions := texts), l.present + {"instructions"}))
    ensures OnlyOther(l, Layer(l.values.(skills := texts), l.present + {"skills"}))
    ensures OnlyOther(l, Layer(l.values.(buildCommand := command), l.present + {"build_command"}))
    ensures OnlyOther(l, l)
  {
    hide TableName;
    SectionNames();
  }

  /** Lists and tables. */
  function WithLists(l: Layer, j: Node): Layer {
    var l1 := if IsList(j, "instructions")
              then Layer(l.values.(instructions := Texts(ListAt(j, "instructions"))), l.present + {"instructions"}) else l;
    if IsList(j, "skills") then Layer(l1.values.(skills := Texts(ListAt(j, "skills"))), l1.present + {"skills"}) else l1
  }

  lemma {:induction false} ListsOther(l: Layer, j: Node)
    ensures OnlyOther(l, WithLists(l, j))
  {
    hide OnlyOther, Texts;
    var l1 := if IsList(j, "instructions")
              then Layer(l.values.(instructions := Texts(ListAt(j, "instructions"))), l.present + {"instructions"}) else l;
    GatedOther(l, map[], [], Texts(ListAt(j, "instructions")), "");
    GatedOther(l1, map[], [], Texts(ListAt(j, "skills")), "");
    OtherTwice(l, l1, WithLists(l, j));
  }

  function WithMaps(l: Layer, j: Node): Layer {
    ReadCaps(ReadVision(ReadContexts(l, FieldsAt(j, "models")), FieldsAt(j, "vision")), FieldsAt(j, "max_output"))
  }

  lemma {:induction false} MapsOther(l: Layer, j: Node)
    ensures OnlyOther(l, WithMaps(l, j))
  {
    hide OnlyOther, HoldsInts, HoldsBools, DistinctKeys, ReadContexts, ReadVision, ReadCaps;
    var l3 := ReadContexts(l, FieldsAt(j, "models"));
    var l4 := ReadVision(l3, FieldsAt(j, "vision"));
    ContextsRead(l, FieldsAt(j, "models"));
    VisionRead(l3, FieldsAt(j, "vision"));
    CapsRead(l4, FieldsAt(j, "max_output"));
    OtherTwice(l, l3, l4);
    OtherTwice(l, l4, WithMaps(l, j));
  }

  lemma {:induction false} TablesIs(l: Layer, j: Node)
    ensures Tables(l, j) == (var l5 := WithMaps(WithLists(l, j), j);
                             match Lookup(j, "vision_fallback")
                             case Some(vf) => ReadText(ReadText(l5, vf, "provider", "vision_fallback/provider"), vf, "model",
                                                       "vision_fallback/model")
                             case None => l5)
  {
    hide ReadContexts, ReadVision, ReadCaps, ReadText, Texts;
  }

  lemma {:induction false} TablesCarry(defaults: map<string, Scalar>, l: Layer, j: Node)
    requires Carries(defaults, l, j, 3)
    ensures Carries(defaults, Tables(l, j), j, 5)
  {
    hide Carries, SettingAt, Meaning, OnlyOther, WithLists, WithMaps, Tables, ReadText;
    SettingsAre();
    var l2 := WithLists(l, j);
    var l5 := WithMaps(l2, j);
    ListsOther(l, j);
    MapsOther(l2, j);
    OtherCarries(defaults, l, l2, j, 3);
    OtherCarries(defaults, l2, l5, j, 3);
    StepSetting(defaults, l5, j, 3);
    StepSetting(defaults, WithMeaning(l5, SettingAt(3), Meaning(Words, NodeAt(j, SettingAt(3)))), j, 4);
    FallbackIs(l5, j);
    TablesIs(l, j);
  }

  lemma {:induction false} MapsAre(l: Layer, j: Node)
    ensures var l' := WithMaps(l, j);
            && l'.values == l.values.(contexts := l'.values.contexts, vision := l'.values.vision, maxOutput := l'.values.maxOutput)
            && (DistinctKeys(FieldsAt(j, "models")) ==> HoldsInts(l'.values.contexts, l.values.contexts, FieldsAt(j, "models")))
            && (DistinctKeys(FieldsAt(j, "vision")) ==> HoldsBools(l'.values.vision, l.values.vision, FieldsAt(j, "vision")))
            && (DistinctKeys(FieldsAt(j, "max_output")) ==> HoldsInts(l'.values.maxOutput, l.values.maxOutput, FieldsAt(j, "max_output")))
  {
    hide OnlyOther, HoldsInts, HoldsBools, DistinctKeys, ReadContexts, ReadVision, ReadCaps;
    var l3 := ReadContexts(l, FieldsAt(j, "models"));
    var l4 := ReadVision(l3, FieldsAt(j, "vision"));
    ContextsRead(l, FieldsAt(j, "models"));
    VisionRead(l3, FieldsAt(j, "vision"));
    CapsRead(l4, FieldsAt(j, "max_output"));
  }

  lemma {:induction false} FallbackOnly(l: Layer, j: Node)
    ensures var l' := match Lookup(j, "vision_fallback")
                      case Some(vf) => ReadText(ReadText(l, vf, "provider", "vision_fallback/provider"), vf, "model",
                                                "vision_fallback/model")
                      case None => l;
            l'.values == l.values.(scalars := l'.values.scalars)
  {
    hide ReadText;
    if Lookup(j, "vision_fallback").Some? {
      var vf := Lookup(j, "vision_fallback").value;
      ScalarsOnly(l, vf, "provider", "vision_fallback/provider", {});
      ScalarsOnly(ReadText(l, vf, "provider", "vision_fallback/provider"), vf, "model", "vision_fallback/model", {});
    }
  }

  lemma {:induction false} TablesHold(l: Layer, j: Node)
    ensures TablesAre(l, Tables(l, j), j)
  {
    hide HoldsInts, HoldsBools, DistinctKeys, WithMaps, Tables, ReadText, Texts, FieldsAt;
    MapsAre(WithLists(l, j), j);
    FallbackOnly(WithMaps(WithLists(l, j), j), j);
    TablesIs(l, j);
  }

  /** What the tables hold after reading, given what they held before. */
  ghost predicate TablesAre(l: Layer, l': Layer, j: Node) {
    && l'.values == l.values.(scalars := l'.values.scalars, instructions := l'.values.instructions, skills := l'.values.skills,
                              contexts := l'.values.contexts, vision := l'.values.vision, maxOutput := l'.values.maxOutput)
    && l'.values.instructions == (if IsList(j, "instructions") then Texts(ListAt(j, "instructions")) else l.values.instructions)
    && l'.values.skills == (if IsList(j, "skills") then Texts(ListAt(j, "skills")) else l.values.skills)
    && (DistinctKeys(FieldsAt(j, "models")) ==> HoldsInts(l'.values.contexts, l.values.contexts, FieldsAt(j, "models")))
    && (DistinctKeys(FieldsAt(j, "vision")) ==> HoldsBools(l'.values.vision, l.values.vision, FieldsAt(j, "vision")))
    && (DistinctKeys(FieldsAt(j, "max_output")) ==> HoldsInts(l'.values.maxOutput, l.values.maxOutput, FieldsAt(j, "max_output")))
  }

  lemma {:induction false} FallbackIs(l: Layer, j: Node)
    ensures var l6 := WithMeaning(l, SettingAt(3), Meaning(Words, NodeAt(j, SettingAt(3))));
            var l7 := WithMeaning(l6, SettingAt(4), Meaning(Words, NodeAt(j, SettingAt(4))));
            l7 == (match Lookup(j, "vision_fallback")
                   case Some(vf) => ReadText(ReadText(l, vf, "provider", "vision_fallback/provider"), vf, "model",
                                             "vision_fallback/model")
                   case None => l)
  {
    hide SettingAt;
    SettingsAre();
    assert "vision_fallback" != "" by { assert |"vision_fallback"| == 15; }
  }

  lemma {:induction false} TuningAre()
    ensures SettingAt(5) == Setting("", "default_mode", "default_mode", OneOf({"plan", "chat", "build"}))
    ensures SettingAt(6) == Setting("", "thinking_display", "thinking_display", OneOf({"off", "on", "on_while_thinking"}))
    ensures SettingAt(7) == Setting("", "auto_compact", "auto_compact", Switch)
    ensures SettingAt(8) == Setting("", "auto_compact_threshold", "auto_compact_threshold", Fraction)
    ensures SettingAt(9) == Setting("", "compaction_buffer", "compaction_buffer", Positive)
    ensures SettingAt(10) == Setting("", "compaction_recent_context", "compaction_recent_context", Positive)
    ensures SettingAt(11) == Setting("", "compaction_summary_max_tokens", "compaction_summary_max_tokens", Positive)
    ensures SettingAt(12) == Setting("", "autoname_sessions", "autoname_sessions", Switch)
    ensures SettingAt(13) == Setting("", "autoname_llm_refine", "autoname_llm_refine", Switch)
  {
  }

  lemma {:induction false} ScalarsOnly(l: Layer, j: Node, key: string, name: string, choices: set<string>)
    ensures var a, b, c := ReadText(l, j, key, name), ReadChoice(l, j, key, choices), ReadBool(l, j, key);
            var d, e := ReadPositive(l, j, key, name), ReadFraction(l, j, key);
            && a.values == l.values.(scalars := a.values.scalars) && b.values == l.values.(scalars := b.values.scalars)
            && c.values == l.values.(scalars := c.values.scalars) && d.values == l.values.(scalars := d.values.scalars)
            && e.values == l.values.(scalars := e.values.scalars)
  {
    hide ReadText, ReadChoice, ReadBool, ReadPositive, ReadFraction, Meaning, WithMeaning;
    ReadIs(l, j, key, name, choices);
    MeaningOnly(l, Setting("", key, name, Words), Meaning(Words, Lookup(j, key)));
    MeaningOnly(l, Setting("", key, key, OneOf(choices)), Meaning(OneOf(choices), Lookup(j, key)));
    MeaningOnly(l, Setting("", key, key, Switch), Meaning(Switch, Lookup(j, key)));
    MeaningOnly(l, Setting("", key, name, Positive), Meaning(Positive, Lookup(j, key)));
    MeaningOnly(l, Setting("", key, key, Fraction), Meaning(Fraction, Lookup(j, key)));
  }

  lemma {:induction false} MeaningOnly(l: Layer, s: Setting, v: Option<Scalar>)
    ensures var l' := WithMeaning(l, s, v); l'.values == l.values.(scalars := l'.values.scalars)
  {
  }

  lemma {:induction false} TuningCarries(defaults: map<string, Scalar>, l: Layer, j: Node)
    requires Carries(defaults, l, j, 5)
    ensures Carries(defaults, Tuning(l, j), j, 14)
    ensures Tuning(l, j).values == l.values.(scalars := Tuning(l, j).values.scalars)
  {
    hide Carries, SettingAt, Meaning, ReadChoice, ReadFraction, ReadBool, ReadPositive, WithMeaning;
    TuningAre();
    var modes, displays := {"plan", "chat", "build"}, {"off", "on", "on_while_thinking"};
    var l1 := ReadChoice(l, j, "default_mode", modes);
    var l2 := ReadChoice(l1, j, "thinking_display", displays);
    var l3 := ReadBool(l2, j, "auto_compact");
    var l4 := ReadFraction(l3, j, "auto_compact_threshold");
    var l5 := ReadPositive(l4, j, "compaction_buffer", "compaction_buffer");
    ReadIs(l, j, "default_mode", "default_mode", modes);
    ReadIs(l1, j, "thinking_display", "thinking_display", displays);
    ReadIs(l2, j, "auto_compact", "auto_compact", {});
    ReadIs(l3, j, "auto_compact_threshold", "auto_compact_threshold", {});
    ReadIs(l4, j, "compaction_buffer", "compaction_buffer", {});
    ScalarsOnly(l, j, "default_mode", "default_mode", modes);
    ScalarsOnly(l1, j, "thinking_display", "thinking_display", displays);
    ScalarsOnly(l2, j, "auto_compact", "auto_compact", {});
    ScalarsOnly(l3, j, "auto_compact_threshold", "auto_compact_threshold", {});
    ScalarsOnly(l4, j, "compaction_buffer", "compaction_buffer", {});
    StepSetting(defaults, l, j, 5);
    StepSetting(defaults, l1, j, 6);
    StepSetting(defaults, l2, j, 7);
    StepSetting(defaults, l3, j, 8);
    StepSetting(defaults, l4, j, 9);
    LaterCarries(defaults, l5, j);
  }

  lemma {:induction false} LaterCarries(defaults: map<string, Scalar>, l5: Layer, j: Node)
    requires Carries(defaults, l5, j, 10)
    ensures var l6 := ReadPositive(l5, j, "compaction_recent_context", "compaction_recent_context");
            var l7 := ReadPositive(l6, j, "compaction_summary_max_tokens", "compaction_summary_max_tokens");
            var l8 := ReadBool(l7, j, "autoname_sessions");
            var l9 := ReadBool(l8, j, "autoname_llm_refine");
            Carries(defaults, l9, j, 14) && l9.values == l5.values.(scalars := l9.values.scalars)
  {
    hide Carries, SettingAt, Meaning, ReadChoice, ReadFraction, ReadBool, ReadPositive, WithMeaning;
    TuningAre();
    var l6 := ReadPositive(l5, j, "compaction_recent_context", "compaction_recent_context");
    var l7 := ReadPositive(l6, j, "compaction_summary_max_tokens", "compaction_summary_max_tokens");
    var l8 := ReadBool(l7, j, "autoname_sessions");
    ReadIs(l5, j, "compaction_recent_context", "compaction_recent_context", {});
    ReadIs(l6, j, "compaction_summary_max_tokens", "compaction_summary_max_tokens", {});
    ReadIs(l7, j, "autoname_sessions", "autoname_sessions", {});
    ReadIs(l8, j, "autoname_llm_refine", "autoname_llm_refine", {});
    ScalarsOnly(l5, j, "compaction_recent_context", "compaction_recent_context", {});
    ScalarsOnly(l6, j, "compaction_summary_max_tokens", "compaction_summary_max_tokens", {});
    ScalarsOnly(l7, j, "autoname_sessions", "autoname_sessions", {});
    ScalarsOnly(l8, j, "autoname_llm_refine", "autoname_llm_refine", {});
    StepSetting(defaults, l5, j, 10);
    StepSetting(defaults, l6, j, 11);
    StepSetting(defaults, l7, j, 12);
    StepSetting(defaults, l8, j, 13);
  }

  lemma {:induction false} SearchAre()
    ensures SettingAt(14) == Setting("web_search", "engine", "web_search/engine", Words)
    ensures SettingAt(15) == Setting("web_search", "max_results", "web_search/max_results", Positive)
    ensures "web_search" != ""
  {
    assert |"web_search"| == 10;
  }

  function SearchFields(j: Node): seq<Field> {
    match Lookup(j, "web_search") case Some(ws) => FieldsAt(ws, "api_keys") case None => []
  }

  lemma {:induction false} SearchCarries(defaults: map<string, Scalar>, l: Layer, j: Node)
    requires Carries(defaults, l, j, 14)
    ensures var l' := WithSearch(l, j);
            && Carries(defaults, l', j, 16)
            && l'.values == l.values.(scalars := l'.values.scalars, searchKeys := l'.values.searchKeys)
            && (DistinctKeys(SearchFields(j)) ==> HoldsTexts(l'.values.searchKeys, l.values.searchKeys, SearchFields(j)))
  {
    hide Carries, SettingAt, Meaning, ReadSearchKeys, HoldsTexts, OnlyOther;
    SearchAre();
    var v14, v15 := Meaning(Words, NodeAt(j, SettingAt(14))), Meaning(Positive, NodeAt(j, SettingAt(15)));
    var l1 := WithMeaning(l, SettingAt(14), v14);
    var l2 := WithMeaning(l1, SettingAt(15), v15);
    StepSetting(defaults, l, j, 14);
    StepSetting(defaults, l1, j, 15);
    if Lookup(j, "web_search").Some? {
      var ws := Lookup(j, "web_search").value;
      ReadIs(l, ws, "engine", "web_search/engine", {});
      ReadIs(l1, ws, "max_results", "web_search/max_results", {});
      KeysRead(l2, FieldsAt(ws, "api_keys"));
      OtherCarries(defaults, l2, WithSearch(l, j), j, 16);
    } else {
      NothingMeant();
      assert HoldsTexts(l.values.searchKeys, l.values.searchKeys, []) by { NoTexts(l.values.searchKeys); }
    }
  }

  lemma {:induction false} NothingMeant()
    ensures Meaning(Words, None) == None && Meaning(Positive, None) == None
  {
  }

  lemma {:induction false} NoTexts(m: map<string, string>)
    ensures HoldsTexts(m, m, [])
  {
  }

  /** For every file: each setting reached has the value its own place in the
      file gives, if that is a value it may have, and is recorded as present;
      every other one has its default and is not. */
  lemma {:induction false} SettingsRead(defaults: map<string, Scalar>, j: Node)
    ensures Carries(defaults, LayerOf(defaults, Some(j)), j, Reached(j))
  {
    hide Carries, Head, Tables, Tuning, WithSearch, ReadPricing, AgentsOf, RulesOf, AgentFails, PricesFail, OnlyOther;
    var a := WithAgents(Head(Blank(defaults), j), j);
    HeadCarries(defaults, j);
    AgentsRead(FieldsAt(j, "agents"));
    NothingRead();
    GatedOther(Head(Blank(defaults), j), AgentsOf(FieldsAt(j, "agents")).0, [], [], "");
    OtherCarries(defaults, Head(Blank(defaults), j), a.layer, j, 3);
    if !a.failed {
      var p := WithPermissions(a.layer, j);
      GatedOther(a.layer, map[], RulesOf(ListAt(j, "permissions")).0, [], "");
      OtherCarries(defaults, a.layer, p.layer, j, 3);
      if !p.failed {
        RestCarries(defaults, p.layer, j);
        RestIs(p.layer, j);
      }
    }
  }

  lemma {:induction false} RestCarries(defaults: map<string, Scalar>, l: Layer, j: Node)
    requires Carries(defaults, l, j, 3)
    ensures Carries(defaults, Rest(l, j), j, if PricesFail(FieldsAt(j, "pricing")) then 5 else 16)
  {
    hide Carries, Tables, Tuning, WithSearch, ReadPricing, PricesFail, OnlyOther;
    TablesCarry(defaults, l, j);
    var c := ReadPricing(Tables(l, j), FieldsAt(j, "pricing"));
    PricesRead(Tables(l, j), FieldsAt(j, "pricing"));
    PricingRead(Tables(l, j), FieldsAt(j, "pricing"));
    OtherCarries(defaults, Tables(l, j), c.layer, j, 5);
    if !c.failed {
      var b := WithBuild(c.layer, j);
      GatedOther(c.layer, map[], [], [], TextOr(j, "build_command", ""));
      OtherCarries(defaults, c.layer, b, j, 5);
      TuningCarries(defaults, b, j);
      SearchCarries(defaults, Tuning(b, j), j);
    }
  }

  /** For a file read to its end, with each object's keys distinct: every other
      section holds what its own place in the file gives and nothing else. */
  lemma {:induction false} SectionsRead(defaults: map<string, Scalar>, j: Node)
    requires ReadThrough(j)
    requires DistinctKeys(FieldsAt(j, "providers")) && DistinctKeys(FieldsAt(j, "models")) && DistinctKeys(FieldsAt(j, "vision"))
    requires DistinctKeys(FieldsAt(j, "max_output")) && DistinctKeys(FieldsAt(j, "pricing")) && DistinctKeys(SearchFields(j))
    ensures var v := LayerOf(defaults, Some(j)).values;
            && v.agents == AgentsOf(FieldsAt(j, "agents")).0 && v.permissions == RulesOf(ListAt(j, "permissions")).0
            && v.instructions == Texts(ListAt(j, "instructions")) && v.skills == Texts(ListAt(j, "skills"))
            && HoldsInts(v.contexts, map[], FieldsAt(j, "models")) && HoldsBools(v.vision, map[], FieldsAt(j, "vision"))
            && HoldsInts(v.maxOutput, map[], FieldsAt(j, "max_output")) && HoldsPrices(v.pricing, map[], FieldsAt(j, "pricing"))
            && HoldsTexts(v.searchKeys, map[], SearchFields(j))
            && (forall i :: 0 <= i < |FieldsAt(j, "providers")| ==>
                  var f := FieldsAt(j, "providers")[i]; f.key in v.providers && IsProvider(v.providers[f.key], f.key, f.value))
            && (forall k :: k in v.providers ==>
                  exists i :: 0 <= i < |FieldsAt(j, "providers")| && FieldsAt(j, "providers")[i].key == k)
            && Some(v.buildCommand) == (if TextAt(j, "build_command").Some? then TextAt(j, "build_command") else Some(""))
  {
    hide Head, Rest, Tables, Tuning, WithSearch, ReadPricing, AgentsOf, RulesOf, AgentFails, PricesFail, OnlyOther, Texts,
      HoldsInts, HoldsBools, HoldsPrices, HoldsTexts, IsProvider, RecordsProvider, DistinctKeys, Carries, KeysGiven;
    var l := Blank(defaults);
    HeadCarries(defaults, j);
    GatedRead(defaults, j);
    AgentsRead(FieldsAt(j, "agents"));
    NothingRead();
    var a := WithAgents(Head(l, j), j);
    var p := WithPermissions(a.layer, j);
    RestIs(p.layer, j);
    GatedOther(Head(l, j), AgentsOf(FieldsAt(j, "agents")).0, [], [], "");
    OtherCarries(defaults, Head(l, j), a.layer, j, 3);
    GatedOther(a.layer, map[], RulesOf(ListAt(j, "permissions")).0, [], "");
    OtherCarries(defaults, a.layer, p.layer, j, 3);
    RestSections(defaults, p.layer, j);
    assert Texts([]) == [] by { TextsNone(); }
  }

  lemma {:induction false} TextsNone()
    ensures Texts([]) == []
  {
  }

  lemma {:induction false} RestSections(defaults: map<string, Scalar>, l: Layer, j: Node)
    requires Carries(defaults, l, j, 3) && !PricesFail(FieldsAt(j, "pricing"))
    requires DistinctKeys(FieldsAt(j, "models")) && DistinctKeys(FieldsAt(j, "vision"))
    requires DistinctKeys(FieldsAt(j, "max_output")) && DistinctKeys(FieldsAt(j, "pricing")) && DistinctKeys(SearchFields(j))
    ensures var v := Rest(l, j).values;
            && v.providers == l.values.providers
            && v.instructions == (if IsList(j, "instructions") then Texts(ListAt(j, "instructions")) else l.values.instructions)
            && v.skills == (if IsList(j, "skills") then Texts(ListAt(j, "skills")) else l.values.skills)
            && HoldsInts(v.contexts, l.values.contexts, FieldsAt(j, "models"))
            && HoldsBools(v.vision, l.values.vision, FieldsAt(j, "vision"))
            && HoldsInts(v.maxOutput, l.values.maxOutput, FieldsAt(j, "max_output"))
            && HoldsPrices(v.pricing, l.values.pricing, FieldsAt(j, "pricing"))
            && HoldsTexts(v.searchKeys, l.values.searchKeys, SearchFields(j))
  {
    hide Carries, Tables, Tuning, WithSearch, ReadPricing, PricesFail, OnlyOther, Texts, DistinctKeys,
      HoldsInts, HoldsBools, HoldsPrices, HoldsTexts;
    TablesCarry(defaults, l, j);
    TablesHold(l, j);
    var c := ReadPricing(Tables(l, j), FieldsAt(j, "pricing"));
    PricesRead(Tables(l, j), FieldsAt(j, "pricing"));
    PricingRead(Tables(l, j), FieldsAt(j, "pricing"));
    OtherCarries(defaults, Tables(l, j), c.layer, j, 5);
    var b := WithBuild(c.layer, j);
    GatedOther(c.layer, map[], [], [], TextOr(j, "build_command", ""));
    OtherCarries(defaults, c.layer, b, j, 5);
    TuningCarries(defaults, b, j);
    SearchCarries(defaults, Tuning(b, j), j);
  }
}
