/** Reading one configuration file into a layer. A value of the wrong kind is
    mostly passed over, but in a permission rule, or a price, it ends the
    reading there and keeps what was read so far. */
module ConfigFile {
  import opened Wrappers
  import opened Config

  /** A parsed document; an object's fields in the order they are visited. */
  datatype Node =
    | Null
    | Bool(on: bool)
    | Int(n: int)
    | Float(r: real)
    | Text(s: string)
    | List(items: seq<Node>)
    | Object(fields: seq<Field>)
  datatype Field = Field(key: string, value: Node)

  function Find(fields: seq<Field>, key: string): Option<Node> {
    if fields == [] then None
    else if fields[0].key == key then Some(fields[0].value)
    else Find(fields[1..], key)
  }

  function Lookup(j: Node, key: string): Option<Node> {
    if j.Object? then Find(j.fields, key) else None
  }

  function TextAt(j: Node, key: string): Option<string> {
    match Lookup(j, key)
    case Some(Text(s)) => Some(s)
    case _ => None
  }

  function ListAt(j: Node, key: string): seq<Node> {
    match Lookup(j, key)
    case Some(List(items)) => items
    case _ => []
  }

  function FieldsAt(j: Node, key: string): seq<Field> {
    match Lookup(j, key)
    case Some(Object(fields)) => fields
    case _ => []
  }

  predicate IsList(j: Node, key: string) {
    Lookup(j, key).Some? && Lookup(j, key).value.List?
  }

  predicate IsObject(j: Node, key: string) {
    Lookup(j, key).Some? && Lookup(j, key).value.Object?
  }

  /** A JSON integer taken as a 32-bit int. */
  function AsInt32(n: int): int {
    (n + 0x8000_0000) % 0x1_0000_0000 - 0x8000_0000
  }

  // ---- Permission rules ----

  /** A member that is there must be a string; else reading the rule fails. */
  predicate BadMember(rule: Node, key: string) {
    Lookup(rule, key).Some? && !Lookup(rule, key).value.Text?
  }

  predicate RuleFails(rule: Node) {
    rule.Object? && (BadMember(rule, "action") || BadMember(rule, "resource") || BadMember(rule, "effect"))
  }

  function TextOr(j: Node, key: string, default_: string): string {
    match TextAt(j, key) case Some(s) => s case None => default_
  }

  function EffectNamed(effect: string): Effect {
    if effect == "allow" then Allow else if effect == "deny" then Deny else Ask
  }

  /** What a rule adds: nothing when it is no object or has no action. */
  function RuleOf(rule: Node): seq<Rule> {
    if !rule.Object? || TextOr(rule, "action", "") == "" then []
    else [Rule(TextOr(rule, "action", ""), TextOr(rule, "resource", "*"), EffectNamed(TextOr(rule, "effect", "")))]
  }

  /** Rules read up to the first that fails. */
  function RulesOf(items: seq<Node>): (seq<Rule>, bool)
    decreases |items|
  {
    if items == [] then ([], false)
    else
      var n := |items| - 1;
      var (rules, failed) := RulesOf(items[..n]);
      if failed || RuleFails(items[n]) then (rules, true) else (rules + RuleOf(items[n]), false)
  }

  /** The loop leaves at the exception. */
  method AppendPermissions(items: seq<Node>) returns (out: seq<Rule>, failed: bool)
    ensures (out, failed) == RulesOf(items)
  {
    out, failed := [], false;
    var i := 0;
    while i < |items|
      invariant 0 <= i <= |items| && (out, false) == RulesOf(items[..i])
    {
      assert items[..i + 1][..i] == items[..i];
      ghost var before := out;
      if RuleFails(items[i]) {
        FailsOn(items, i + 1);
        return out, true;
      }
      if items[i].Object? {
        var action := TextOr(items[i], "action", "");
        var resource := TextOr(items[i], "resource", "*");
        var effect := EffectNamed(TextOr(items[i], "effect", ""));
        if action != "" {
          out := out + [Rule(action, resource, effect)];
        }
      }
      assert before + [] == before;
      i := i + 1;
    }
    assert items[..i] == items;
  }

  lemma {:induction false} FailsOn(items: seq<Node>, i: nat)
    requires i <= |items| && RulesOf(items[..i]).1
    ensures RulesOf(items) == RulesOf(items[..i])
    decreases |items|
  {
    if i < |items| {
      assert items[..|items| - 1][..i] == items[..i];
      FailsOn(items[..|items| - 1], i);
    } else {
      assert items[..i] == items;
    }
  }

  // ---- Agents ----

  function AgentOf(id: string, v: Node): Agent {
    var steps := match Lookup(v, "max_steps") case Some(Int(n)) => if AsInt32(n) > 0 then Some(AsInt32(n)) else None case _ => None;
    Agent(id, TextAt(v, "model"), TextAt(v, "system_prompt"), steps, TextOr(v, "color", ""),
          RulesOf(ListAt(v, "permissions")).0)
  }

  predicate AgentFails(v: Node) {
    RulesOf(ListAt(v, "permissions")).1
  }

  /** Agents read up to the first whose rules fail; that one is not stored. */
  function AgentsOf(fields: seq<Field>): (map<string, Agent>, bool)
    decreases |fields|
  {
    if fields == [] then (map[], false)
    else
      var n := |fields| - 1;
      var (agents, failed) := AgentsOf(fields[..n]);
      if failed || AgentFails(fields[n].value) then (agents, true)
      else (agents[fields[n].key := AgentOf(fields[n].key, fields[n].value)], false)
  }

  method ReadAgents(fields: seq<Field>) returns (agents: map<string, Agent>, failed: bool)
    ensures (agents, failed) == AgentsOf(fields)
  {
    agents, failed := map[], false;
    var i := 0;
    while i < |fields|
      invariant 0 <= i <= |fields| && (agents, false) == AgentsOf(fields[..i])
    {
      assert fields[..i + 1][..i] == fields[..i];
      var k, v := fields[i].key, fields[i].value;
      var rules, bad := AppendPermissions(ListAt(v, "permissions"));
      if bad {
        AgentFailsOn(fields, i + 1);
        return agents, true;
      }
      agents := agents[k := AgentOf(k, v)];
      i := i + 1;
    }
    assert fields[..i] == fields;
  }

  lemma {:induction false} AgentFailsOn(fields: seq<Field>, i: nat)
    requires i <= |fields| && AgentsOf(fields[..i]).1
    ensures AgentsOf(fields) == AgentsOf(fields[..i])
    decreases |fields|
  {
    if i < |fields| {
      assert fields[..|fields| - 1][..i] == fields[..i];
      AgentFailsOn(fields[..|fields| - 1], i);
    } else {
      assert fields[..i] == fields;
    }
  }

  // ---- Other sections ----

  function WithScalar(l: Layer, key: string, v: Scalar): Layer {
    Layer(l.values.(scalars := l.values.scalars[key := v]), l.present + {key})
  }

  function ReadText(l: Layer, j: Node, key: string, as_: string): Layer {
    match TextAt(j, key) case Some(s) => WithScalar(l, as_, TextSetting(s)) case None => l
  }

  function ReadChoice(l: Layer, j: Node, key: string, choices: set<string>): Layer {
    match TextAt(j, key) case Some(s) => if s in choices then WithScalar(l, key, TextSetting(s)) else l case None => l
  }

  function ReadBool(l: Layer, j: Node, key: string): Layer {
    match Lookup(j, key) case Some(Bool(b)) => WithScalar(l, key, BoolSetting(b)) case _ => l
  }

  function ReadPositive(l: Layer, j: Node, key: string, as_: string): Layer {
    match Lookup(j, key)
    case Some(Int(n)) => if AsInt32(n) > 0 then WithScalar(l, as_, IntSetting(AsInt32(n))) else l
    case _ => l
  }

  function ReadFraction(l: Layer, j: Node, key: string): Layer {
    match Lookup(j, key)
    case Some(Int(n)) => if 0.0 < n as real < 1.0 then WithScalar(l, key, RealSetting(n as real)) else l
    case Some(Float(r)) => if 0.0 < r < 1.0 then WithScalar(l, key, RealSetting(r)) else l
    case _ => l
  }

  function ProviderOf(id: string, v: Node): Provider {
    var kind := TextOr(v, "type", "");
    Provider(id, if kind != "" then kind else if id == "anthropic" then "anthropic"
                 else if id == "chatgpt" then "chatgpt" else "openai",
             TextOr(v, "api_key", ""), TextOr(v, "base_url", ""))
  }

  function Given(v: Node, key: string, as_: string): set<string> {
    if TextAt(v, key).Some? then {as_} else {}
  }

  function ReadProviders(l: Layer, fields: seq<Field>): Layer
    decreases |fields|
  {
    if fields == [] then l
    else
      var n := |fields| - 1;
      var (k, v) := (fields[n].key, fields[n].value);
      var pk := PROVIDERS + k + "/";
      var before := ReadProviders(l, fields[..n]);
      Layer(before.values.(providers := before.values.providers[k := ProviderOf(k, v)]),
            before.present + Given(v, "type", pk + "type") + Given(v, "api_key", pk + "api_key")
            + Given(v, "base_url", pk + "base_url"))
  }

  function Texts(items: seq<Node>): seq<string> {
    if items == [] then []
    else
      var n := |items| - 1;
      Texts(items[..n]) + (match items[n] case Text(s) => [s] case _ => [])
  }

  function ReadContexts(l: Layer, fields: seq<Field>): Layer
    decreases |fields|
  {
    if fields == [] then l
    else
      var n := |fields| - 1;
      var before := ReadContexts(l, fields[..n]);
      match fields[n].value
      case Int(v) => Layer(before.values.(contexts := before.values.contexts[fields[n].key := AsInt32(v)]),
                           before.present + {"models/" + fields[n].key})
      case _ => before
  }

  function ReadVision(l: Layer, fields: seq<Field>): Layer
    decreases |fields|
  {
    if fields == [] then l
    else
      var n := |fields| - 1;
      var before := ReadVision(l, fields[..n]);
      match fields[n].value
      case Bool(v) => Layer(before.values.(vision := before.values.vision[fields[n].key := v]),
                            before.present + {"vision/" + fields[n].key})
      case _ => before
  }

  function ReadCaps(l: Layer, fields: seq<Field>): Layer
    decreases |fields|
  {
    if fields == [] then l
    else
      var n := |fields| - 1;
      var before := ReadCaps(l, fields[..n]);
      match fields[n].value
      case Int(v) => Layer(before.values.(maxOutput := before.values.maxOutput[fields[n].key := AsInt32(v)]),
                           before.present + {"max_output/" + fields[n].key})
      case _ => before
  }

  /** A price member that is there must be a number. */
  function PriceAt(v: Node, key: string): Option<real> {
    match Lookup(v, key)
    case None => Some(0.0)
    case Some(Int(n)) => Some(n as real)
    case Some(Float(r)) => Some(r)
    case _ => None
  }

  function PriceOf(v: Node): Option<Price> {
    var (a, b, c, d) := (PriceAt(v, "input"), PriceAt(v, "output"), PriceAt(v, "cache_read"), PriceAt(v, "cache_write"));
    if a.Some? && b.Some? && c.Some? && d.Some? then Some(Price(a.value, b.value, c.value, d.value)) else None
  }

  datatype Outcome = Outcome(layer: Layer, failed: bool)

  function ReadPricing(l: Layer, fields: seq<Field>): Outcome
    decreases |fields|
  {
    if fields == [] then Outcome(l, false)
    else
      var n := |fields| - 1;
      var before := ReadPricing(l, fields[..n]);
      if before.failed || !fields[n].value.Object? then before
      else
        match PriceOf(fields[n].value)
        case None => Outcome(before.layer, true)
        case Some(p) => Outcome(Layer(before.layer.values.(pricing := before.layer.values.pricing[fields[n].key := p]),
                                      before.layer.present + {"pricing/" + fields[n].key}), false)
  }

  function ReadSearchKeys(l: Layer, fields: seq<Field>): Layer
    decreases |fields|
  {
    if fields == [] then l
    else
      var n := |fields| - 1;
      var before := ReadSearchKeys(l, fields[..n]);
      match fields[n].value
      case Text(s) => Layer(before.values.(searchKeys := before.values.searchKeys[fields[n].key := s]),
                            before.present + {SEARCH_KEYS + fields[n].key})
      case _ => before
  }

  // ---- The whole file ----

  function Blank(defaults: map<string, Scalar>): Layer {
    Layer(Values(defaults, "", map[], map[], [], [], [], map[], map[], map[], map[], map[]), {})
  }

  function Head(l: Layer, j: Node): Layer {
    var l1 := ReadText(ReadText(ReadText(l, j, "model", "model"), j, "provider", "provider"), j, "agent", "agent");
    ReadProviders(l1, FieldsAt(j, "providers"))
  }

  function WithAgents(l: Layer, j: Node): Outcome {
    if !IsObject(j, "agents") then Outcome(l, false)
    else
      var (agents, failed) := AgentsOf(FieldsAt(j, "agents"));
      Outcome(Layer(l.values.(agents := agents), if failed then l.present else l.present + {"agents"}), failed)
  }

  function WithPermissions(l: Layer, j: Node): Outcome {
    if !IsList(j, "permissions") then Outcome(l, false)
    else
      var (rules, failed) := RulesOf(ListAt(j, "permissions"));
      Outcome(Layer(l.values.(permissions := rules), if failed then l.present else l.present + {"permissions"}), failed)
  }

  function Tables(l: Layer, j: Node): Layer {
    var l1 := if IsList(j, "instructions")
              then Layer(l.values.(instructions := Texts(ListAt(j, "instructions"))), l.present + {"instructions"}) else l;
    var l2 := if IsList(j, "skills")
              then Layer(l1.values.(skills := Texts(ListAt(j, "skills"))), l1.present + {"skills"}) else l1;
    var l3 := ReadCaps(ReadVision(ReadContexts(l2, FieldsAt(j, "models")), FieldsAt(j, "vision")), FieldsAt(j, "max_output"));
    match Lookup(j, "vision_fallback")
    case Some(vf) => ReadText(ReadText(l3, vf, "provider", "vision_fallback/provider"), vf, "model", "vision_fallback/model")
    case None => l3
  }

  function WithBuild(l: Layer, j: Node): Layer {
    match TextAt(j, "build_command")
    case Some(s) => Layer(l.values.(buildCommand := s), l.present + {"build_command"})
    case None => l
  }

  function Tuning(l: Layer, j: Node): Layer {
    var l1 := ReadChoice(l, j, "default_mode", {"plan", "chat", "build"});
    var l2 := ReadChoice(l1, j, "thinking_display", {"off", "on", "on_while_thinking"});
    var l3 := ReadFraction(ReadBool(l2, j, "auto_compact"), j, "auto_compact_threshold");
    var l4 := ReadPositive(ReadPositive(l3, j, "compaction_buffer", "compaction_buffer"),
                           j, "compaction_recent_context", "compaction_recent_context");
    var l5 := ReadPositive(l4, j, "compaction_summary_max_tokens", "compaction_summary_max_tokens");
    ReadBool(ReadBool(l5, j, "autoname_sessions"), j, "autoname_llm_refine")
  }

  function WithSearch(l: Layer, j: Node): Layer {
    match Lookup(j, "web_search")
    case Some(ws) =>
      var l1 := ReadPositive(ReadText(l, ws, "engine", "web_search/engine"), ws, "max_results", "web_search/max_results");
      ReadSearchKeys(l1, FieldsAt(ws, "api_keys"))
    case None => l
  }

  /** No document, or none that parses: nothing is present. */
  function LayerOf(defaults: map<string, Scalar>, doc: Option<Node>): Layer {
    if doc.None? then Blank(defaults)
    else
      var j := doc.value;
      var a := WithAgents(Head(Blank(defaults), j), j);
      if a.failed then a.layer
      else
        var p := WithPermissions(a.layer, j);
        if p.failed then p.layer
        else
          var c := ReadPricing(Tables(p.layer, j), FieldsAt(j, "pricing"));
          if c.failed then c.layer else WithSearch(Tuning(WithBuild(c.layer, j), j), j)
  }

  method LoadLayer(defaults: map<string, Scalar>, doc: Option<Node>) returns (layer: Layer)
    ensures layer == LayerOf(defaults, doc)
  {
    hide Head, Tables, Tuning, WithSearch, ReadPricing, WithBuild, AgentsOf, RulesOf;
    layer := Blank(defaults);
    if doc.None? {
      return;
    }
    var j := doc.value;
    layer := Head(layer, j);
    if IsObject(j, "agents") {
      var agents, failed := ReadAgents(FieldsAt(j, "agents"));
      layer := Layer(layer.values.(agents := agents), layer.present);
      if failed {
        return;
      }
      layer := Layer(layer.values, layer.present + {"agents"});
    }
    if IsList(j, "permissions") {
      var rules, failed := AppendPermissions(ListAt(j, "permissions"));
      layer := Layer(layer.values.(permissions := rules), layer.present);
      if failed {
        return;
      }
      layer := Layer(layer.values, layer.present + {"permissions"});
    }
    var priced := ReadPricing(Tables(layer, j), FieldsAt(j, "pricing"));
    layer := priced.layer;
    if priced.failed {
      return;
    }
    layer := WithBuild(layer, j);
    layer := Tuning(layer, j);
    layer := WithSearch(layer, j);
  }

  // ---- What the reading records ----

  predicate Gated(key: string) {
    key == "permissions" || key == "build_command" || key == "agents" || Under(SEARCH_KEYS, key)
  }

  /** Gated values and their presence are the same. */
  ghost predicate SameGated(l: Layer, l': Layer) {
    && AuthorityOf(l.values) == AuthorityOf(l'.values)
    && forall k :: Gated(k) ==> (k in l.present <==> k in l'.present)
  }

  lemma {:induction false} Ungated(key: string)
    ensures !Gated(PROVIDERS + key) && !Gated("models/" + key) && !Gated("vision/" + key)
    ensures !Gated("max_output/" + key) && !Gated("pricing/" + key)
  {
    assert (PROVIDERS + key)[1] == 'r' && (PROVIDERS + key)[0] == 'p';
    assert ("models/" + key)[0] == 'm' && ("vision/" + key)[0] == 'v' && ("max_output/" + key)[0] == 'm';
    assert ("pricing/" + key)[0] == 'p' && ("pricing/" + key)[1] == 'r';
    assert "permissions"[0] == 'p' && "permissions"[1] == 'e' && "build_command"[0] == 'b' && "agents"[0] == 'a';
    assert SEARCH_KEYS[0] == 'w';
  }

  const PLAIN_KEYS := {"model", "provider", "agent", "instructions", "skills", "default_mode", "thinking_display",
                       "auto_compact", "auto_compact_threshold", "compaction_buffer", "compaction_recent_context",
                       "compaction_summary_max_tokens", "autoname_sessions", "autoname_llm_refine",
                       "vision_fallback/provider", "vision_fallback/model", "web_search/engine",
                       "web_search/max_results"}

  lemma {:induction false} UngatedNames()
    ensures forall k :: k in PLAIN_KEYS ==> !Gated(k)
  {
    assert SEARCH_KEYS[0] == 'w' && SEARCH_KEYS[11] == 'a';
    assert "web_search/engine"[11] == 'e' && "web_search/max_results"[11] == 'm';
    assert |"agent"| == 5 && |"agents"| == 6;
  }

  lemma {:induction false} SameTrans(a: Layer, b: Layer, c: Layer)
    requires SameGated(a, b) && SameGated(b, c)
    ensures SameGated(a, c)
  {
    hide Gated;
  }

  /** Reading one plain setting. */
  lemma {:induction false} OneSame(l: Layer, j: Node, key: string, as_: string, choices: set<string>)
    requires as_ in PLAIN_KEYS && key in PLAIN_KEYS
    ensures SameGated(l, ReadText(l, j, key, as_)) && SameGated(l, ReadPositive(l, j, key, as_))
    ensures SameGated(l, ReadChoice(l, j, key, choices)) && SameGated(l, ReadBool(l, j, key))
    ensures SameGated(l, ReadFraction(l, j, key))
  {
    hide Gated;
    UngatedNames();
  }

  lemma {:induction false} ProvidersSame(l: Layer, fields: seq<Field>)
    ensures SameGated(l, ReadProviders(l, fields))
    decreases |fields|
  {
    if fields != [] {
      var n := |fields| - 1;
      ProvidersSame(l, fields[..n]);
      var k := fields[n].key;
      Ungated(k + "/" + "type");
      Ungated(k + "/" + "api_key");
      Ungated(k + "/" + "base_url");
      var pk := PROVIDERS + k + "/";
      assert pk + "type" == PROVIDERS + (k + "/" + "type");
      assert pk + "api_key" == PROVIDERS + (k + "/" + "api_key");
      assert pk + "base_url" == PROVIDERS + (k + "/" + "base_url");
    }
  }

  lemma {:induction false} TablesSame(l: Layer, fields: seq<Field>)
    ensures SameGated(l, ReadContexts(l, fields)) && SameGated(l, ReadVision(l, fields))
    ensures SameGated(l, ReadCaps(l, fields)) && SameGated(l, ReadPricing(l, fields).layer)
    decreases |fields|
  {
    hide Gated;
    if fields != [] {
      var n := |fields| - 1;
      TablesSame(l, fields[..n]);
      Ungated(fields[n].key);
    }
  }

  lemma {:induction false} HeadSame(l: Layer, j: Node)
    ensures SameGated(l, Head(l, j))
  {
    hide SameGated, ReadText, ReadProviders;
    var l1 := ReadText(l, j, "model", "model");
    var l2 := ReadText(l1, j, "provider", "provider");
    var l3 := ReadText(l2, j, "agent", "agent");
    OneSame(l, j, "model", "model", {});
    OneSame(l1, j, "provider", "provider", {});
    OneSame(l2, j, "agent", "agent", {});
    ProvidersSame(l3, FieldsAt(j, "providers"));
    SameTrans(l, l1, l2);
    SameTrans(l, l2, l3);
    SameTrans(l, l3, Head(l, j));
  }

  lemma {:induction false} ListsSame(l: Layer, texts: seq<string>)
    ensures SameGated(l, Layer(l.values.(instructions := texts), l.present + {"instructions"}))
    ensures SameGated(l, Layer(l.values.(skills := texts), l.present + {"skills"}))
    ensures SameGated(l, l)
  {
    hide Gated;
    UngatedNames();
  }

  lemma {:induction false} MiddleSame(l: Layer, j: Node)
    ensures SameGated(l, ReadPricing(Tables(l, j), FieldsAt(j, "pricing")).layer)
  {
    hide SameGated, ReadText, ReadContexts, ReadVision, ReadCaps, ReadPricing, Texts, ListAt, FieldsAt;
    var l1 := if IsList(j, "instructions")
              then Layer(l.values.(instructions := Texts(ListAt(j, "instructions"))), l.present + {"instructions"}) else l;
    var l2 := if IsList(j, "skills")
              then Layer(l1.values.(skills := Texts(ListAt(j, "skills"))), l1.present + {"skills"}) else l1;
    ListsSame(l, Texts(ListAt(j, "instructions")));
    ListsSame(l1, Texts(ListAt(j, "skills")));
    SameTrans(l, l1, l2);
    var l3 := ReadContexts(l2, FieldsAt(j, "models"));
    var l4 := ReadVision(l3, FieldsAt(j, "vision"));
    var l5 := ReadCaps(l4, FieldsAt(j, "max_output"));
    TablesSame(l2, FieldsAt(j, "models"));
    TablesSame(l3, FieldsAt(j, "vision"));
    TablesSame(l4, FieldsAt(j, "max_output"));
    SameTrans(l, l2, l3);
    SameTrans(l, l3, l4);
    SameTrans(l, l4, l5);
    FallbackSame(l, l5, j);
    TablesSame(Tables(l, j), FieldsAt(j, "pricing"));
    SameTrans(l, Tables(l, j), ReadPricing(Tables(l, j), FieldsAt(j, "pricing")).layer);
  }

  lemma {:induction false} FallbackSame(l: Layer, l5: Layer, j: Node)
    requires SameGated(l, l5)
    ensures match Lookup(j, "vision_fallback")
            case Some(vf) => SameGated(l, ReadText(ReadText(l5, vf, "provider", "vision_fallback/provider"), vf, "model",
                                                   "vision_fallback/model"))
            case None => SameGated(l, l5)
  {
    hide SameGated, ReadText;
    if Lookup(j, "vision_fallback").Some? {
      var vf := Lookup(j, "vision_fallback").value;
      var l6 := ReadText(l5, vf, "provider", "vision_fallback/provider");
      var l7 := ReadText(l6, vf, "model", "vision_fallback/model");
      OneSame(l5, vf, "provider", "vision_fallback/provider", {});
      OneSame(l6, vf, "model", "vision_fallback/model", {});
      SameTrans(l, l5, l6);
      SameTrans(l, l6, l7);
    }
  }

  lemma {:induction false} TuningSame(l: Layer, j: Node)
    ensures SameGated(l, Tuning(l, j))
  {
    hide SameGated, ReadChoice, ReadFraction, ReadBool, ReadPositive;
    var modes, displays := {"plan", "chat", "build"}, {"off", "on", "on_while_thinking"};
    var l1 := ReadChoice(l, j, "default_mode", modes);
    var l2 := ReadChoice(l1, j, "thinking_display", displays);
    var l3 := ReadBool(l2, j, "auto_compact");
    var l4 := ReadFraction(l3, j, "auto_compact_threshold");
    OneSame(l, j, "default_mode", "default_mode", modes);
    OneSame(l1, j, "thinking_display", "thinking_display", displays);
    OneSame(l2, j, "auto_compact", "auto_compact", {});
    OneSame(l3, j, "auto_compact_threshold", "auto_compact_threshold", {});
    SameTrans(l, l1, l2);
    SameTrans(l, l2, l3);
    SameTrans(l, l3, l4);
    var l5 := ReadPositive(l4, j, "compaction_buffer", "compaction_buffer");
    var l6 := ReadPositive(l5, j, "compaction_recent_context", "compaction_recent_context");
    var l7 := ReadPositive(l6, j, "compaction_summary_max_tokens", "compaction_summary_max_tokens");
    var l8 := ReadBool(l7, j, "autoname_sessions");
    OneSame(l4, j, "compaction_buffer", "compaction_buffer", {});
    OneSame(l5, j, "compaction_recent_context", "compaction_recent_context", {});
    OneSame(l6, j, "compaction_summary_max_tokens", "compaction_summary_max_tokens", {});
    OneSame(l7, j, "autoname_sessions", "autoname_sessions", {});
    OneSame(l8, j, "autoname_llm_refine", "autoname_llm_refine", {});
    SameTrans(l, l4, l5);
    SameTrans(l, l5, l6);
    SameTrans(l, l6, l7);
    SameTrans(l, l7, l8);
    SameTrans(l, l8, Tuning(l, j));
  }

  /** Search keys and their presence go together, and nothing else changes. */
  lemma {:induction false} SearchKeysRead(l: Layer, fields: seq<Field>)
    ensures var l' := ReadSearchKeys(l, fields);
            && l'.values == l.values.(searchKeys := l'.values.searchKeys)
            && (forall k :: k in l'.present && k !in l.present ==> Under(SEARCH_KEYS, k))
            && l.present <= l'.present && l.values.searchKeys.Keys <= l'.values.searchKeys.Keys
            && (forall e :: e in l'.values.searchKeys && e !in l.values.searchKeys ==> SEARCH_KEYS + e in l'.present)
            && (forall k :: k in l'.present && k !in l.present ==> k[|SEARCH_KEYS|..] in l'.values.searchKeys)
    decreases |fields|
  {
    if fields != [] {
      var n := |fields| - 1;
      SearchKeysRead(l, fields[..n]);
      assert (SEARCH_KEYS + fields[n].key)[|SEARCH_KEYS|..] == fields[n].key;
    }
  }

  lemma {:induction false} SearchSame(l: Layer, j: Node)
    requires l.values.searchKeys == map[] && forall k :: k in l.present ==> !Under(SEARCH_KEYS, k)
    ensures var l' := WithSearch(l, j);
            && AuthorityOf(l'.values) == AuthorityOf(l.values).(searchKeys := l'.values.searchKeys)
            && (forall k :: Gated(k) && !Under(SEARCH_KEYS, k) ==> (k in l'.present <==> k in l.present))
            && (forall e :: e in l'.values.searchKeys ==> SEARCH_KEYS + e in l'.present)
            && (forall k :: k in l'.present && Under(SEARCH_KEYS, k) ==> k[|SEARCH_KEYS|..] in l'.values.searchKeys)
  {
    hide ReadSearchKeys;
    UngatedNames();
    if Lookup(j, "web_search").Some? {
      var ws := Lookup(j, "web_search").value;
      var l1 := ReadPositive(ReadText(l, ws, "engine", "web_search/engine"), ws, "max_results", "web_search/max_results");
      assert SameGated(l, l1) by { hide Gated; }
      SearchKeysRead(l1, FieldsAt(ws, "api_keys"));
    }
  }

  // ---- Where it ends early ----

  /** A rule was stored before the one that fails. */
  predicate RuleBeforeFailure(items: seq<Node>) {
    && (exists k :: 0 <= k < |items| && RuleFails(items[k]))
    && (exists i :: 0 <= i < |items| && RuleOf(items[i]) != [] && forall m :: 0 <= m <= i ==> !RuleFails(items[m]))
  }

  lemma {:induction false} RulesRead(items: seq<Node>)
    ensures RulesOf(items).1 <==> exists k :: 0 <= k < |items| && RuleFails(items[k])
    ensures RulesOf(items).0 != [] <==>
              exists i :: 0 <= i < |items| && RuleOf(items[i]) != [] && forall m :: 0 <= m <= i ==> !RuleFails(items[m])
    decreases |items|
  {
    hide RuleFails, RuleOf;
    if items != [] {
      var n := |items| - 1;
      RulesRead(items[..n]);
      assert forall k :: 0 <= k < n ==> items[..n][k] == items[k];
      if RulesOf(items).0 != [] && RulesOf(items[..n]).0 != [] {
        var i :| 0 <= i < n && RuleOf(items[..n][i]) != [] && forall m :: 0 <= m <= i ==> !RuleFails(items[..n][m]);
        assert RuleOf(items[i]) != [];
      }
      if i :| 0 <= i < |items| && RuleOf(items[i]) != [] && forall m :: 0 <= m <= i ==> !RuleFails(items[m]) {
        if i < n {
          assert RuleOf(items[..n][i]) != [];
        }
      }
    }
  }

  lemma {:induction false} AgentsRead(fields: seq<Field>)
    ensures AgentsOf(fields).1 <==> exists k :: 0 <= k < |fields| && AgentFails(fields[k].value)
    ensures AgentsOf(fields).0 != map[] <==> fields != [] && !AgentFails(fields[0].value)
    decreases |fields|
  {
    hide AgentFails;
    if fields != [] {
      var n := |fields| - 1;
      AgentsRead(fields[..n]);
      assert forall k :: 0 <= k < n ==> fields[..n][k] == fields[k];
      assert !AgentsOf(fields).1 ==> fields[n].key in AgentsOf(fields).0;
    }
  }

  /** An agent whose rules fail ends the reading after another was stored. */
  predicate AgentsLost(j: Node) {
    var fields := FieldsAt(j, "agents");
    && (exists k :: 0 <= k < |fields| && AgentFails(fields[k].value))
    && !AgentFails(fields[0].value)
  }

  predicate AgentsEnd(j: Node) {
    var fields := FieldsAt(j, "agents");
    exists k :: 0 <= k < |fields| && AgentFails(fields[k].value)
  }

  /** So does a rule that fails after another was stored, if the agents were
      read to their end. */
  predicate RulesLost(j: Node) {
    !AgentsEnd(j) && RuleBeforeFailure(ListAt(j, "permissions"))
  }

  predicate PricesFail(fields: seq<Field>) {
    exists k :: 0 <= k < |fields| && fields[k].value.Object? && PriceOf(fields[k].value).None?
  }

  lemma {:induction false} PricesRead(l: Layer, fields: seq<Field>)
    ensures ReadPricing(l, fields).failed <==> PricesFail(fields)
    decreases |fields|
  {
    hide PriceOf;
    if fields != [] {
      var n := |fields| - 1;
      PricesRead(l, fields[..n]);
      assert forall k :: 0 <= k < n ==> fields[..n][k] == fields[k];
    }
  }

  predicate TextGiven(fields: seq<Field>) {
    exists k :: 0 <= k < |fields| && fields[k].value.Text?
  }

  lemma {:induction false} SearchKeysGiven(l: Layer, fields: seq<Field>)
    requires l.values.searchKeys == map[]
    ensures ReadSearchKeys(l, fields).values.searchKeys != map[] <==> TextGiven(fields)
    decreases |fields|
  {
    if fields != [] {
      var n := |fields| - 1;
      SearchKeysGiven(l, fields[..n]);
      assert forall k :: 0 <= k < n ==> fields[..n][k] == fields[k];
      assert fields[n].value.Text? ==> fields[n].key in ReadSearchKeys(l, fields).values.searchKeys;
    }
  }

  /** The document gives a search key. */
  predicate KeysGiven(j: Node) {
    Lookup(j, "web_search").Some? && TextGiven(FieldsAt(Lookup(j, "web_search").value, "api_keys"))
  }

  lemma {:induction false} SearchGiven(l: Layer, j: Node)
    requires l.values.searchKeys == map[]
    ensures WithSearch(l, j).values.searchKeys != map[] <==> KeysGiven(j)
  {
    hide ReadSearchKeys, TextGiven;
    if Lookup(j, "web_search").Some? {
      var ws := Lookup(j, "web_search").value;
      var l1 := ReadPositive(ReadText(l, ws, "engine", "web_search/engine"), ws, "max_results", "web_search/max_results");
      SearchKeysGiven(l1, FieldsAt(ws, "api_keys"));
    }
  }

  /** What reading past the permissions adds. */
  function Rest(l: Layer, j: Node): Layer {
    var c := ReadPricing(Tables(l, j), FieldsAt(j, "pricing"));
    if c.failed then c.layer else WithSearch(Tuning(WithBuild(c.layer, j), j), j)
  }

  lemma {:induction false} RestRead(l: Layer, j: Node)
    requires l.values.searchKeys == map[] && l.values.buildCommand == "" && "build_command" !in l.present
    requires forall k :: k in l.present ==> !Under(SEARCH_KEYS, k)
    ensures var p := Rest(l, j);
            var read := !PricesFail(FieldsAt(j, "pricing"));
            && p.values.agents == l.values.agents && p.values.permissions == l.values.permissions
            && ("agents" in p.present <==> "agents" in l.present)
            && ("permissions" in p.present <==> "permissions" in l.present)
            && ("build_command" in p.present <==> read && TextAt(j, "build_command").Some?)
            && p.values.buildCommand == (if read then TextOr(j, "build_command", "") else "")
            && (p.values.searchKeys != map[] <==> read && KeysGiven(j))
            && (forall e :: e in p.values.searchKeys ==> SEARCH_KEYS + e in p.present)
            && (forall k :: k in p.present && Under(SEARCH_KEYS, k) ==> k[|SEARCH_KEYS|..] in p.values.searchKeys)
  {
    hide Tables, Tuning, WithSearch, ReadPricing, Gated, PricesFail, KeysGiven;
    GatedNames();
    MiddleSame(l, j);
    PricesRead(Tables(l, j), FieldsAt(j, "pricing"));
    var c := ReadPricing(Tables(l, j), FieldsAt(j, "pricing"));
    if !c.failed {
      var b := WithBuild(c.layer, j);
      TuningSame(b, j);
      SearchSame(Tuning(b, j), j);
      SearchGiven(Tuning(b, j), j);
    }
  }

  /** The reading comes past the prices. */
  predicate ReadThrough(j: Node) {
    !AgentsEnd(j) && !RulesOf(ListAt(j, "permissions")).1 && !PricesFail(FieldsAt(j, "pricing"))
  }

  /** The layer's gated part. */
  lemma {:induction false} GatedRead(defaults: map<string, Scalar>, j: Node)
    ensures var p := LayerOf(defaults, Some(j));
            var rules := RulesOf(ListAt(j, "permissions"));
            && p.values.agents == AgentsOf(FieldsAt(j, "agents")).0
            && ("agents" in p.present <==> IsObject(j, "agents") && !AgentsEnd(j))
            && (AgentsEnd(j) ==> p.values.permissions == [])
            && (!AgentsEnd(j) ==> p.values.permissions == rules.0)
            && ("permissions" in p.present <==> !AgentsEnd(j) && IsList(j, "permissions") && !rules.1)
            && ("build_command" in p.present <==> ReadThrough(j) && TextAt(j, "build_command").Some?)
            && p.values.buildCommand == (if ReadThrough(j) then TextOr(j, "build_command", "") else "")
            && (p.values.searchKeys != map[] <==> ReadThrough(j) && KeysGiven(j))
            && (forall e :: e in p.values.searchKeys ==> SEARCH_KEYS + e in p.present)
            && (forall k :: k in p.present && Under(SEARCH_KEYS, k) ==> k[|SEARCH_KEYS|..] in p.values.searchKeys)
  {
    hide Head, Rest, AgentsOf, RulesOf, AgentFails, Gated, Tables, Tuning, WithSearch, ReadPricing, WithBuild, PricesFail,
      KeysGiven;
    var l := Blank(defaults);
    HeadSame(l, j);
    GatedNames();
    AgentsRead(FieldsAt(j, "agents"));
    NothingRead();
    var a := WithAgents(Head(l, j), j);
    if !a.failed {
      var p := WithPermissions(a.layer, j);
      if !p.failed {
        RestRead(p.layer, j);
        RestIs(p.layer, j);
      }
    }
  }

  lemma {:induction false} RestIs(l: Layer, j: Node)
    ensures var c := ReadPricing(Tables(l, j), FieldsAt(j, "pricing"));
            Rest(l, j) == if c.failed then c.layer else WithSearch(Tuning(WithBuild(c.layer, j), j), j)
  {
  }

  lemma {:induction false} GatedNames()
    ensures Gated("agents") && Gated("permissions") && Gated("build_command")
    ensures !Under(SEARCH_KEYS, "agents") && !Under(SEARCH_KEYS, "permissions") && !Under(SEARCH_KEYS, "build_command")
    ensures forall k :: Under(SEARCH_KEYS, k) ==> Gated(k)
  {
    assert SEARCH_KEYS[0] == 'w' && |SEARCH_KEYS| > 13;
  }

  lemma {:induction false} NothingRead()
    ensures AgentsOf([]) == (map[], false) && RulesOf([]) == ([], false)
  {
  }

  // ---- Files and what they may change ----

  /** For every file: a gated value is recorded as present, unless a rule that
      is misspelt ended the reading after something was stored. */
  lemma {:induction false} RecordedExact(defaults: map<string, Scalar>, j: Node)
    ensures PresenceRecorded(LayerOf(defaults, Some(j))) <==> !AgentsLost(j) && !RulesLost(j)
  {
    hide LayerOf, RuleFails, AgentFails, RulesOf, AgentsOf, RuleOf;
    GatedRead(defaults, j);
    AgentsRead(FieldsAt(j, "agents"));
    RulesRead(ListAt(j, "permissions"));
    NothingRead();
  }

  /** A gated key is seen whenever there is a gated value, and only then, if and
      only if nothing was lost that way with no agent on record. */
  lemma {:induction false} GatedSeenExact(defaults: map<string, Scalar>, j: Node)
    ensures var p := LayerOf(defaults, Some(j));
            (HasGatedKeys(p) <==> AuthorityOf(p.values) != Authority([], "", map[], map[]))
            <==> !AgentsLost(j) && !(RulesLost(j) && FieldsAt(j, "agents") == [])
  {
    hide LayerOf, RuleFails, AgentFails, RulesOf, AgentsOf, RuleOf;
    GatedRead(defaults, j);
    AgentsRead(FieldsAt(j, "agents"));
    RulesRead(ListAt(j, "permissions"));
    NothingRead();
    var p := LayerOf(defaults, Some(j));
    if p.values.searchKeys != map[] {
      var e :| e in p.values.searchKeys;
      assert Under(SEARCH_KEYS, SEARCH_KEYS + e);
    }
  }

  /** An empty build command that is reached. */
  predicate EmptyBuild(j: Node) {
    ReadThrough(j) && TextAt(j, "build_command") == Some("")
  }

  /** The document has no agent, no rule that says anything, no search key. */
  predicate NothingElseGated(j: Node) {
    && FieldsAt(j, "agents") == [] && !KeysGiven(j)
    && forall k :: 0 <= k < |ListAt(j, "permissions")| ==> RuleOf(ListAt(j, "permissions")[k]) == []
  }

  lemma {:induction false} NoRules(items: seq<Node>)
    requires !RulesOf(items).1
    ensures RulesOf(items).0 == [] <==> forall k :: 0 <= k < |items| ==> RuleOf(items[k]) == []
  {
    hide RulesOf, RuleFails, RuleOf;
    RulesRead(items);
  }

  /** Whether the user is asked, from the document. */
  lemma {:induction false} NeededExact(defaults: map<string, Scalar>, j: Node)
    ensures var p := LayerOf(defaults, Some(j));
            && (AgentsEnd(j) ==> !HasGatedKeys(p))
            && (RulesLost(j) ==> (HasGatedKeys(p) <==> FieldsAt(j, "agents") != []))
            && (EmptyBuild(j) ==> (HasGatedKeys(p) <==> !NothingElseGated(j)))
            && (p.values.searchKeys != map[] || p.values.buildCommand != "" ==> HasGatedKeys(p))
            && (!AgentsEnd(j) && p.values.agents != map[] ==> HasGatedKeys(p))
            && ("permissions" in p.present && p.values.permissions != [] ==> HasGatedKeys(p))
  {
    hide LayerOf, RuleFails, AgentFails, RulesOf, AgentsOf, RuleOf, PricesFail, KeysGiven;
    var p := LayerOf(defaults, Some(j));
    GatedRead(defaults, j);
    AgentsRead(FieldsAt(j, "agents"));
    RulesRead(ListAt(j, "permissions"));
    NothingRead();
    if ReadThrough(j) {
      NoRules(ListAt(j, "permissions"));
    }
    if p.values.searchKeys != map[] {
      var e :| e in p.values.searchKeys;
      assert Under(SEARCH_KEYS, SEARCH_KEYS + e);
    }
  }

  /** What the user's gated settings should become: with the content of the
      accepted fingerprint added, or else as they are. */
  function Expected(base: Values, file: Layer, granted: bool): Authority {
    if granted then Added(base, GatedContent(file)) else AuthorityOf(base)
  }

  /** For every project file, accepted or not, and every user configuration:
      the merged gated settings are what they should be if and only if none of
      this holds: an agent's misspelt rule ended the reading, and the agents
      stored before it change the user's; a misspelt rule did after a rule was
      stored, and the file was accepted for its agents or has none; an empty
      build command is reached over one of the user's, and the file was accepted
      for something else or gives nothing else that is gated. */
  lemma {:induction false} AuthorityOfFile(base: Layer, defaults: map<string, Scalar>, j: Node,
                                           trusted: map<string, Json>, key: string)
    ensures var file := LayerOf(defaults, Some(j));
            var (p, trust) := ProjectLayer(file, trusted, key);
            AuthorityOf(Merged(base, p)) == Expected(base.values, file, trust.granted)
            <==> !(AgentsLost(j) && !AgentsAddNothing(base.values.agents, AgentsOf(FieldsAt(j, "agents")).0))
                 && !(RulesLost(j) && (trust.granted || FieldsAt(j, "agents") == []))
                 && !(EmptyBuild(j) && base.values.buildCommand != "" && (trust.granted || NothingElseGated(j)))
  {
    hide LayerOf, Merged, EmptyBuild, RulesLost, AgentsLost, AgentsAddNothing, AgentsOf, NothingElseGated, Expected;
    if ProjectLayer(LayerOf(defaults, Some(j)), trusted, key).1.granted {
      AcceptedFile(base, defaults, j, trusted, key);
    } else {
      UnacceptedFile(base, defaults, j, trusted, key);
    }
  }

  lemma {:induction false} UnacceptedFile(base: Layer, defaults: map<string, Scalar>, j: Node,
                                          trusted: map<string, Json>, key: string)
    requires !ProjectLayer(LayerOf(defaults, Some(j)), trusted, key).1.granted
    ensures var file := LayerOf(defaults, Some(j));
            var (p, trust) := ProjectLayer(file, trusted, key);
            AuthorityOf(Merged(base, p)) == Expected(base.values, file, false)
            <==> !(AgentsLost(j) && !AgentsAddNothing(base.values.agents, AgentsOf(FieldsAt(j, "agents")).0))
                 && !(RulesLost(j) && FieldsAt(j, "agents") == [])
                 && !(EmptyBuild(j) && base.values.buildCommand != "" && NothingElseGated(j))
  {
    hide LayerOf, RuleFails, AgentFails, RulesOf, AgentsOf, RuleOf, Merged, MergedAgent, PricesFail, KeysGiven,
      NothingElseGated;
    var file := LayerOf(defaults, Some(j));
    AuthorityIsGlobal(base, file, trusted, key);
    GatedRead(defaults, j);
    NeededExact(defaults, j);
    AgentsRead(FieldsAt(j, "agents"));
    RulesRead(ListAt(j, "permissions"));
    NothingRead();
    StripKeepsGated(file);
  }

  /** An accepted layer merges to what it records, and to what it does not. */
  lemma {:induction false} AcceptedFile(base: Layer, defaults: map<string, Scalar>, j: Node,
                                        trusted: map<string, Json>, key: string)
    requires ProjectLayer(LayerOf(defaults, Some(j)), trusted, key).1.granted
    ensures var file := LayerOf(defaults, Some(j));
            var (p, trust) := ProjectLayer(file, trusted, key);
            && !AgentsLost(j)
            && (AuthorityOf(Merged(base, p)) == Expected(base.values, file, true)
                <==> !RulesLost(j) && !(EmptyBuild(j) && base.values.buildCommand != ""))
  {
    hide LayerOf, RuleFails, AgentFails, RulesOf, AgentsOf, RuleOf, Merged, Added, PricesFail, KeysGiven;
    var file := LayerOf(defaults, Some(j));
    GatedRead(defaults, j);
    NeededExact(defaults, j);
    AgentsRead(FieldsAt(j, "agents"));
    RulesRead(ListAt(j, "permissions"));
    NothingRead();
    StripKeepsGated(file);
    AddedExact(base, file);
    StripKeepsMerge(base, file);
  }

  lemma {:induction false} StripKeepsMerge(base: Layer, file: Layer)
    ensures AuthorityOf(Merged(base, WithoutProviders(file))) == AuthorityOf(Merged(base, file))
  {
    hide MergedProviders, MergedScalars, MergedAgents;
    KeysApart("");
  }

  lemma {:induction false} AddedExact(base: Layer, p: Layer)
    requires "agents" in p.present || p.values.agents == map[]
    requires forall e :: e in p.values.searchKeys ==> SEARCH_KEYS + e in p.present
    ensures AuthorityOf(Merged(base, p)) == Added(base.values, GatedContent(p))
            <==> ("permissions" in p.present || p.values.permissions == [])
                 && !("build_command" in p.present && p.values.buildCommand == "" && base.values.buildCommand != "")
  {
    hide MergedProviders, MergedScalars, MergedAgents;
    AgentsByKey(base.values.agents, p.values.agents);
    assert GatedContent(p).searchKeys == p.values.searchKeys;
    assert Keyed(p.values.agents) == (map id | id in p.values.agents :: p.values.agents[id].(id := id));
    assert p.values.agents == map[] ==> Keyed(p.values.agents) == map[];
    var rules, own := p.values.permissions, base.values.permissions;
    assert own + rules == own + [] <==> rules == [];
  }

  /** The content that is added is that of the file the user accepted. */
  lemma {:induction false} AcceptedContent(defaults: map<string, Scalar>, i: Node, j: Node, trusted: map<string, Json>,
                                           key: string)
    requires key in trusted && trusted[key] == Fingerprint(LayerOf(defaults, Some(i)))
    requires ProjectLayer(LayerOf(defaults, Some(j)), trusted, key).1.granted
    ensures GatedContent(LayerOf(defaults, Some(j))) == GatedContent(LayerOf(defaults, Some(i)))
  {
    hide LayerOf, Fingerprint;
    var file := LayerOf(defaults, Some(j));
    StripKeepsContent(file);
    FingerprintExact(WithoutProviders(file), LayerOf(defaults, Some(i)));
  }

  lemma {:induction false} StripKeepsContent(file: Layer)
    ensures GatedContent(WithoutProviders(file)) == GatedContent(file)
  {
    KeysApart("");
    forall e ensures !Under(PROVIDERS, SEARCH_KEYS + e) {
      KeysApart(e);
    }
    assert GatedContent(WithoutProviders(file)).searchKeys == GatedContent(file).searchKeys;
  }

  /** The document with its agents only. */
  function OnlyAgents(j: Node): Node {
    match Lookup(j, "agents") case Some(v) => Object([Field("agents", v)]) case None => Object([])
  }

  lemma {:induction false} OnlyAgentsRead(j: Node)
    ensures var i := OnlyAgents(j);
            && FieldsAt(i, "agents") == FieldsAt(j, "agents") && IsObject(i, "agents") == IsObject(j, "agents")
            && ListAt(i, "permissions") == [] && !IsList(i, "permissions") && TextAt(i, "build_command") == None
            && !KeysGiven(i) && FieldsAt(i, "pricing") == []
  {
    match Lookup(j, "agents")
    case Some(v) => OneSection("agents", v);
    case None => assert forall k :: Lookup(Object([]), k) == None;
  }

  /** What is lost has no part in the fingerprint: it is that of the file with
      its agents only. */
  lemma {:induction false} LostUnprinted(defaults: map<string, Scalar>, j: Node)
    requires AgentsLost(j) || RulesLost(j)
    ensures Fingerprint(LayerOf(defaults, Some(j))) == Fingerprint(LayerOf(defaults, Some(OnlyAgents(j))))
  {
    hide LayerOf, RuleFails, AgentFails, RulesOf, AgentsOf, RuleOf, Fingerprint, PricesFail, KeysGiven, OnlyAgents;
    var p, q := LayerOf(defaults, Some(j)), LayerOf(defaults, Some(OnlyAgents(j)));
    OnlyAgentsRead(j);
    GatedRead(defaults, j);
    GatedRead(defaults, OnlyAgents(j));
    RulesRead(ListAt(j, "permissions"));
    NothingRead();
    assert GatedContent(p).searchKeys == map[] == GatedContent(q).searchKeys;
    FingerprintExact(p, q);
  }

  /** What a file loses. */
  function Lost(j: Node): Authority {
    Authority(if RulesLost(j) then RulesOf(ListAt(j, "permissions")).0 else [], "",
              if AgentsLost(j) then Keyed(AgentsOf(FieldsAt(j, "agents")).0) else map[], map[])
  }

  lemma {:induction false} LostIsUnrecorded(defaults: map<string, Scalar>, j: Node)
    ensures Unrecorded(LayerOf(defaults, Some(j))) == Lost(j)
  {
    hide LayerOf, RuleFails, AgentFails, RulesOf, AgentsOf, RuleOf, PricesFail, KeysGiven;
    var p := LayerOf(defaults, Some(j));
    GatedRead(defaults, j);
    AgentsRead(FieldsAt(j, "agents"));
    RulesRead(ListAt(j, "permissions"));
    NothingRead();
    assert Unrecorded(p).searchKeys == map[];
    assert p.values.agents == map[] ==> Keyed(p.values.agents) == map[];
  }

  /** For all files: where they lose the same, fingerprints agree, and both or
      neither give a build command, exactly when they leave the same gated
      settings over every user configuration; else the two never go together. */
  lemma {:induction false} FileFingerprint(defaults: map<string, Scalar>, i: Node, j: Node)
    ensures var p, q := LayerOf(defaults, Some(i)), LayerOf(defaults, Some(j));
            var effect := forall base :: AuthorityOf(Merged(base, p)) == AuthorityOf(Merged(base, q));
            var same := Fingerprint(p) == Fingerprint(q) && ("build_command" in p.present <==> "build_command" in q.present);
            && (Lost(i) == Lost(j) ==> (effect <==> same)) && (Lost(i) != Lost(j) ==> !(effect && same))
  {
    hide LayerOf, Lost, Unrecorded, Fingerprint, Merged;
    LostIsUnrecorded(defaults, i);
    LostIsUnrecorded(defaults, j);
    FingerprintIsEffect(LayerOf(defaults, Some(i)), LayerOf(defaults, Some(j)));
  }

  lemma {:induction false} StripKeepsGated(file: Layer)
    ensures HasGatedKeys(WithoutProviders(file)) <==> HasGatedKeys(file)
  {
    KeysApart("");
    forall k | Under(SEARCH_KEYS, k) ensures !Under(PROVIDERS, k) {
      assert k == SEARCH_KEYS + k[|SEARCH_KEYS|..];
      KeysApart(k[|SEARCH_KEYS|..]);
    }
  }

  // ---- The two files that show it ----

  const GOOD_RULE := Object([Field("action", Text("*")), Field("effect", Text("allow"))])
  const BAD_RULE := Object([Field("action", Int(5))])

  lemma {:induction false} RuleReadings()
    ensures RuleFails(BAD_RULE) && !RuleFails(GOOD_RULE) && RuleOf(GOOD_RULE) == [Rule("*", "*", Allow)]
    ensures RulesOf([GOOD_RULE, BAD_RULE]) == ([Rule("*", "*", Allow)], true) && RulesOf([BAD_RULE]) == ([], true)
  {
    assert GOOD_RULE.fields[1..] == [Field("effect", Text("allow"))] && GOOD_RULE.fields[1..][1..] == [];
    assert BAD_RULE.fields[1..] == [];
    assert Find(GOOD_RULE.fields[1..][1..], "resource") == None;
    assert Find(GOOD_RULE.fields[1..], "resource") == None;
    assert Find(GOOD_RULE.fields[1..], "effect") == Some(Text("allow"));
    var items := [GOOD_RULE, BAD_RULE];
    assert items[..1] == [GOOD_RULE] && [GOOD_RULE][..0] == [] && [BAD_RULE][..0] == [];
    hide RuleFails, RuleOf;
    assert RulesOf([]) == ([], false);
    assert RulesOf([GOOD_RULE]) == ([] + RuleOf(GOOD_RULE), false);
    assert [] + RuleOf(GOOD_RULE) == RuleOf(GOOD_RULE);
    assert items[1] == BAD_RULE && RulesOf(items[..1]) == (RuleOf(GOOD_RULE), false);
    assert RulesOf(items) == (RuleOf(GOOD_RULE), true);
  }

  lemma {:induction false} OneSection(key: string, value: Node)
    ensures forall k :: Lookup(Object([Field(key, value)]), k) == if k == key then Some(value) else None
  {
    var fields := [Field(key, value)];
    assert fields[1..] == [];
    forall k ensures Find(fields, k) == if k == key then Some(value) else None {
      assert Find(fields[1..], k) == None;
    }
  }

  /** A rule whose action is a number, after a good one: the good one is merged
      unasked. */
  lemma {:induction false} RuleSlips(base: Layer, defaults: map<string, Scalar>, trusted: map<string, Json>, key: string)
    ensures var j := Object([Field("permissions", List([GOOD_RULE, BAD_RULE]))]);
            var (p, trust) := ProjectLayer(LayerOf(defaults, Some(j)), trusted, key);
            && RulesLost(j) && !trust.needed && !trust.granted
            && Merged(base, p).permissions == base.values.permissions + [Rule("*", "*", Allow)]
  {
    hide LayerOf, RulesOf, AgentsOf, RuleFails, RuleOf, AgentFails, PricesFail, KeysGiven, MergedProviders, MergedScalars, MergedAgents;
    var rules := List([GOOD_RULE, BAD_RULE]);
    var j := Object([Field("permissions", rules)]);
    RuleReadings();
    OneSection("permissions", rules);
    GatedRead(defaults, j);
    NothingRead();
    RulesRead(rules.items);
    assert rules.items[0] == GOOD_RULE && rules.items[1] == BAD_RULE;
    StripKeepsGated(LayerOf(defaults, Some(j)));
  }

  /** An agent with such a rule, after another agent: the other one is merged
      unasked. */
  lemma {:induction false} AgentSlips(base: Layer, defaults: map<string, Scalar>, trusted: map<string, Json>, key: string,
                                      prompt: string)
    ensures var first := Field("build", Object([Field("system_prompt", Text(prompt))]));
            var second := Field("zz", Object([Field("permissions", List([BAD_RULE]))]));
            var j := Object([Field("agents", Object([first, second]))]);
            var (p, trust) := ProjectLayer(LayerOf(defaults, Some(j)), trusted, key);
            && AgentsLost(j) && !trust.needed && !trust.granted
            && "build" in Merged(base, p).agents && Merged(base, p).agents["build"].prompt == Some(prompt)
  {
    hide LayerOf, RulesOf, AgentsOf, RuleFails, RuleOf, MergedProviders, MergedScalars, AgentOf, RulesLost;
    var plain, rules := Object([Field("system_prompt", Text(prompt))]), Object([Field("permissions", List([BAD_RULE]))]);
    var fields := [Field("build", plain), Field("zz", rules)];
    var j := Object([Field("agents", Object(fields))]);
    RuleReadings();
    NothingRead();
    OneSection("agents", Object(fields));
    OneSection("system_prompt", Text(prompt));
    OneSection("permissions", List([BAD_RULE]));
    assert !AgentFails(plain) && AgentFails(rules);
    GatedRead(defaults, j);
    AgentsRead(fields);
    assert fields[0].value == plain && fields[1].value == rules;
    TwoAgents(fields);
    PromptOf("build", plain);
    StripKeepsGated(LayerOf(defaults, Some(j)));
  }

  /** The accepted file has an agent; then a good rule and a misspelt one are
      added: the fingerprint still matches, and the rule is merged unasked. */
  lemma {:induction false} RuleRidesAlong(base: Layer, defaults: map<string, Scalar>, key: string, prompt: string)
    ensures var agents := Object([Field("build", Object([Field("system_prompt", Text(prompt))]))]);
            var i := Object([Field("agents", agents)]);
            var j := Object([Field("agents", agents), Field("permissions", List([GOOD_RULE, BAD_RULE]))]);
            var trusted := map[key := Fingerprint(LayerOf(defaults, Some(i)))];
            var (p, trust) := ProjectLayer(LayerOf(defaults, Some(j)), trusted, key);
            && RulesLost(j) && Lost(i) == Authority([], "", map[], map[]) && trust.granted
            && Merged(base, p).permissions == base.values.permissions + [Rule("*", "*", Allow)]
  {
    hide LayerOf, RulesOf, AgentsOf, RuleFails, RuleOf, AgentFails, Fingerprint, PricesFail, KeysGiven, MergedProviders,
      MergedScalars, MergedAgents, OnlyAgents;
    var plain := Object([Field("system_prompt", Text(prompt))]);
    var agents, rules := Object([Field("build", plain)]), List([GOOD_RULE, BAD_RULE]);
    var i := Object([Field("agents", agents)]);
    var j := Object([Field("agents", agents), Field("permissions", rules)]);
    RuleReadings();
    NothingRead();
    OneSection("agents", agents);
    OneSection("system_prompt", Text(prompt));
    TwoSections("agents", agents, "permissions", rules);
    assert !AgentFails(plain) by { PlainAgent(plain); }
    RulesRead(rules.items);
    RulesRead([]);
    assert rules.items[0] == GOOD_RULE && rules.items[1] == BAD_RULE;
    assert agents.fields[0].value == plain;
    assert RulesLost(j) && !AgentsEnd(j);
    LostUnprinted(defaults, j);
    assert OnlyAgents(j) == i by { OnlyAgentsIs(j, agents); }
    GatedRead(defaults, j);
    NeededExact(defaults, j);
    var file := LayerOf(defaults, Some(j));
    StripKeepsGated(file);
    StripKeepsContent(file);
    FingerprintExact(WithoutProviders(file), file);
  }

  lemma {:induction false} OnlyAgentsIs(j: Node, v: Node)
    requires Lookup(j, "agents") == Some(v)
    ensures OnlyAgents(j) == Object([Field("agents", v)])
  {
  }

  lemma {:induction false} PlainAgent(v: Node)
    requires ListAt(v, "permissions") == []
    ensures !AgentFails(v)
  {
  }

  lemma {:induction false} TwoSections(k1: string, v1: Node, k2: string, v2: Node)
    requires k1 != k2
    ensures forall k :: Lookup(Object([Field(k1, v1), Field(k2, v2)]), k)
                        == if k == k1 then Some(v1) else if k == k2 then Some(v2) else None
  {
    var fields := [Field(k1, v1), Field(k2, v2)];
    assert fields[1..] == [Field(k2, v2)];
    OneSection(k2, v2);
    forall k ensures Find(fields[1..], k) == if k == k2 then Some(v2) else None {
      assert Lookup(Object(fields[1..]), k) == Find(fields[1..], k);
    }
    forall k ensures Find(fields, k) == if k == k1 then Some(v1) else if k == k2 then Some(v2) else None {
      assert fields[0].key == k1 && fields[0].value == v1;
    }
  }

  lemma {:induction false} TwoAgents(fields: seq<Field>)
    requires |fields| == 2 && !AgentFails(fields[0].value) && AgentFails(fields[1].value)
    ensures AgentsOf(fields) == (map[fields[0].key := AgentOf(fields[0].key, fields[0].value)], true)
  {
    hide AgentFails, AgentOf;
    assert fields[..1][..0] == [] && fields[..1][0] == fields[0];
    assert AgentsOf(fields[..1][..0]) == (map[], false);
    assert AgentsOf(fields[..1]) == (map[fields[0].key := AgentOf(fields[0].key, fields[0].value)], false);
  }

  lemma {:induction false} PromptOf(id: string, v: Node)
    ensures AgentOf(id, v).prompt == TextAt(v, "system_prompt")
  {
  }
}
