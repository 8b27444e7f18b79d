/** A run's configuration, resolved from layers. */
module Config {
  import opened Provider

  datatype Value = Number(number: real) | Integer(integer: int) | Text(text: string) | Texts(texts: seq<string>)

  /** Sampling parameters by their names; one left out is not set. */
  type Sampling = map<string, Value>

  const EFFORT := "reasoning_effort"
  const MAX_OUTPUT := "max_output"

  const MODEL_LAYER := "model"
  const DEFAULT_LAYER := "default"

  /** `s` layered over `lower`. */
  function Over(s: Sampling, lower: Sampling): (r: Sampling)
    ensures forall k :: k in r <==> k in s || k in lower
    ensures forall k :: k in s ==> r[k] == s[k]
    ensures forall k :: k in lower && k !in s ==> r[k] == lower[k]
  {
    lower + s
  }

  datatype Model = Model(
    id: string, maxOutput: int, reasoningEffort: string, preserveThinking: bool, reasoningEfforts: seq<string>)

  /** A layer's stored sampling parameters, which may not decode. */
  datatype Stored = Unset | Undecodable | Params(params: Sampling)

  datatype Layer = Layer(
    name: string, modelID: string, workspacePrompt: Option<string>, chatPrompt: Option<string>,
    instructions: Option<string>, contextFiles: Option<bool>, preserveThinking: Option<bool>,
    sampling: Stored, tools: Option<seq<string>>)

  datatype Base = Base(models: seq<Model>, defaultModel: Model)

  /** A value and the layer it came from. */
  datatype From<T> = From(value: T, layer: string)

  datatype RunConfig = RunConfig(
    model: From<Model>, modelOK: bool, workspacePrompt: From<Option<string>>, chatPrompt: From<Option<string>>,
    instructions: From<string>, contextFiles: From<bool>, preserveThinking: From<bool>,
    tools: From<Option<seq<string>>>, sampling: map<string, From<Value>>, droppedEffort: string)

  datatype Result<T> = Ok(value: T) | Undecoded(layer: string)

  function ModelWith(models: seq<Model>, id: string): Option<Model> {
    if models == [] then None
    else if models[0].id == id then Some(models[0])
    else ModelWith(models[1..], id)
  }

  function ModelSampling(m: Model): Sampling {
    (if m.maxOutput > 0 then map[MAX_OUTPUT := Integer(m.maxOutput)] else map[])
    + (if m.reasoningEffort != "" then map[EFFORT := Text(m.reasoningEffort)] else map[])
  }

  /** A model row sets what it names a value for, and nothing else. */
  lemma ModelSamplingIs(m: Model)
    ensures forall key :: key in ModelSampling(m) <==>
      (key == "max_output" && m.maxOutput > 0) || (key == "reasoning_effort" && m.reasoningEffort != "")
    ensures m.maxOutput > 0 ==> ModelSampling(m)["max_output"] == Integer(m.maxOutput)
    ensures m.reasoningEffort != "" ==> ModelSampling(m)["reasoning_effort"] == Text(m.reasoningEffort)
  {
    assert EFFORT[0] != MAX_OUTPUT[0];
  }

  // ----- The rule: the topmost layer that sets a value gives it -----

  /** The first of `layers`, from the top, that sets what `pick` looks for. */
  function Top<T>(layers: seq<Layer>, pick: Layer -> Option<T>): Option<From<T>> {
    if layers == [] then None
    else
      var own := pick(layers[0]);
      if own.Some? then Some(From(own.value, layers[0].name)) else Top(layers[1..], pick)
  }

  function Else<T>(top: Option<From<T>>, value: T, layer: string): From<T> {
    if top.Some? then top.value else From(value, layer)
  }

  function TopModel(b: Base, layers: seq<Layer>): Option<From<Model>> {
    Top(layers, (l: Layer) => if l.modelID == "" then None else ModelWith(b.models, l.modelID))
  }

  function TopWorkspacePrompt(layers: seq<Layer>): Option<From<string>> {
    Top(layers, (l: Layer) => l.workspacePrompt)
  }

  function TopChatPrompt(layers: seq<Layer>): Option<From<string>> {
    Top(layers, (l: Layer) => l.chatPrompt)
  }

  function TopInstructions(layers: seq<Layer>): Option<From<string>> {
    Top(layers, (l: Layer) => l.instructions)
  }

  function TopContextFiles(layers: seq<Layer>): Option<From<bool>> {
    Top(layers, (l: Layer) => l.contextFiles)
  }

  function TopPreserve(layers: seq<Layer>): Option<From<bool>> {
    Top(layers, (l: Layer) => l.preserveThinking)
  }

  function TopTools(layers: seq<Layer>): Option<From<seq<string>>> {
    Top(layers, (l: Layer) => l.tools)
  }

  function TopParam(layers: seq<Layer>, key: string): Option<From<Value>> {
    Top(layers, (l: Layer) => if l.sampling.Params? && key in l.sampling.params then Some(l.sampling.params[key]) else None)
  }

  function Keys(layers: seq<Layer>): (keys: set<string>)
    ensures forall k :: k in keys <==> TopParam(layers, k).Some?
  {
    if layers == [] then {}
    else (if layers[0].sampling.Params? then layers[0].sampling.params.Keys else {}) + Keys(layers[1..])
  }

  function Optional<T>(top: Option<From<T>>): From<Option<T>> {
    if top.Some? then From(Some(top.value.value), top.value.layer) else From(None, DEFAULT_LAYER)
  }

  /** Each parameter from the topmost layer that sets it, then from the model row. */
  function ResolvedSampling(layers: seq<Layer>, row: Sampling): map<string, From<Value>> {
    map key | key in Keys(layers) + row.Keys ::
      if TopParam(layers, key).Some? then TopParam(layers, key).value else From(row[key], MODEL_LAYER)
  }

  /** An effort from above the model row that the model does not offer. */
  predicate Unoffered(m: Model, modelOK: bool, sampling: map<string, From<Value>>) {
    && EFFORT in sampling && sampling[EFFORT].value.Text? && sampling[EFFORT].value.text != ""
    && sampling[EFFORT].layer != MODEL_LAYER
    && modelOK && sampling[EFFORT].value.text !in m.reasoningEfforts
  }

  function WithoutUnoffered(row: Sampling, sampling: map<string, From<Value>>): map<string, From<Value>> {
    if EFFORT in row then sampling[EFFORT := From(row[EFFORT], MODEL_LAYER)] else sampling - {EFFORT}
  }

  /** The first layer, from the bottom, whose parameters do not decode. */
  function LowestUndecodable(layers: seq<Layer>): Option<string> {
    if layers == [] then None
    else
      var below := LowestUndecodable(layers[1..]);
      if below.Some? then below else if layers[0].sampling.Undecodable? then Some(layers[0].name) else None
  }

  /** What the layers themselves say, before the model row is asked. */
  datatype Reading = Reading(
    model: From<Model>, modelOK: bool, workspacePrompt: From<Option<string>>, chatPrompt: From<Option<string>>,
    instructions: From<string>, contextFiles: From<bool>, preserve: Option<From<bool>>, tools: From<Option<seq<string>>>)

  function ReadingOf(b: Base, layers: seq<Layer>): Reading {
    Reading(
      Else(TopModel(b, layers), b.defaultModel, DEFAULT_LAYER), TopModel(b, layers).Some? || b.models != [],
      Optional(TopWorkspacePrompt(layers)), Optional(TopChatPrompt(layers)),
      Else(TopInstructions(layers), "", DEFAULT_LAYER), Else(TopContextFiles(layers), true, DEFAULT_LAYER),
      TopPreserve(layers), Optional(TopTools(layers)))
  }

  function Resolution(b: Base, layers: seq<Layer>): Result<RunConfig> {
    if LowestUndecodable(layers).Some? then Undecoded(LowestUndecodable(layers).value)
    else
      var r := ReadingOf(b, layers);
      var row := ModelSampling(r.model.value);
      var sampling := ResolvedSampling(layers, row);
      var unoffered := Unoffered(r.model.value, r.modelOK, sampling);
      Ok(RunConfig(
        r.model, r.modelOK, r.workspacePrompt, r.chatPrompt, r.instructions, r.contextFiles,
        Else(r.preserve, r.modelOK && r.model.value.preserveThinking, if r.modelOK then MODEL_LAYER else DEFAULT_LAYER),
        r.tools,
        if unoffered then WithoutUnoffered(row, sampling) else sampling,
        if unoffered then sampling[EFFORT].value.text else ""))
  }

  // ----- How it is resolved: bottom first, the top one writing last -----

  /** The resolved parameters, without their sources. */
  ghost predicate Values(resolved: Sampling, layers: seq<Layer>, row: Sampling) {
    && resolved.Keys == ResolvedSampling(layers, row).Keys
    && forall k :: k in resolved ==> resolved[k] == ResolvedSampling(layers, row)[k].value
  }

  lemma LayerOver(layers: seq<Layer>, i: nat, own: Sampling, below: Sampling, row: Sampling)
    requires i < |layers| && Values(below, layers[i + 1..], row)
    requires own == if layers[i].sampling.Params? then layers[i].sampling.params else map[]
    ensures Values(Over(own, below), layers[i..], row)
  {
    TopParamOver(layers, i, own);
    ResolvedAt(layers[i..], row);
    ResolvedAt(layers[i + 1..], row);
    hide TopParam, ResolvedSampling;
  }

  lemma TopParamOver(layers: seq<Layer>, i: nat, own: Sampling)
    requires i < |layers|
    requires own == if layers[i].sampling.Params? then layers[i].sampling.params else map[]
    ensures forall k ::
      TopParam(layers[i..], k)
        == if k in own then Some(From(own[k], layers[i].name)) else TopParam(layers[i + 1..], k)
  {
    assert layers[i..][0] == layers[i] && layers[i..][1..] == layers[i + 1..];
  }

  lemma ResolvedAt(layers: seq<Layer>, row: Sampling)
    ensures forall k :: k in ResolvedSampling(layers, row) <==> TopParam(layers, k).Some? || k in row
    ensures forall k :: k in ResolvedSampling(layers, row) ==>
      ResolvedSampling(layers, row)[k] == if TopParam(layers, k).Some? then TopParam(layers, k).value else From(row[k], MODEL_LAYER)
  {
    hide TopParam;
  }

  /** The parameters, and then where each came from. */
  method ResolveSampling(layers: seq<Layer>, row: Sampling) returns (sampling: map<string, From<Value>>)
    ensures sampling == ResolvedSampling(layers, row)
  {
    var resolved := row;
    var i := |layers|;
    while i > 0
      invariant 0 <= i <= |layers| && Values(resolved, layers[i..], row)
    {
      i := i - 1;
      var own := if layers[i].sampling.Params? then layers[i].sampling.params else map[];
      LayerOver(layers, i, own, resolved, row);
      resolved := Over(own, resolved);
    }
    assert layers[0..] == layers;
    sampling := map[];
    var left := resolved.Keys;
    while left != {}
      invariant left <= resolved.Keys
      invariant sampling.Keys == resolved.Keys - left
      invariant forall k :: k in sampling ==> sampling[k] == ResolvedSampling(layers, row)[k]
    {
      var key :| key in left;
      var layer := SourceOf(layers, key);
      sampling := sampling[key := From(resolved[key], layer)];
      left := left - {key};
    }
  }

  /** The name of the first layer that sets `key`, or the model row's. */
  method SourceOf(layers: seq<Layer>, key: string) returns (layer: string)
    ensures layer == if TopParam(layers, key).Some? then TopParam(layers, key).value.layer else MODEL_LAYER
  {
    var i := 0;
    while i < |layers|
      invariant i <= |layers| && TopParam(layers[i..], key) == TopParam(layers, key)
    {
      assert layers[i..][0] == layers[i] && layers[i..][1..] == layers[i + 1..];
      if layers[i].sampling.Params? && key in layers[i].sampling.params {
        return layers[i].name;
      }
      i := i + 1;
    }
    return MODEL_LAYER;
  }

  lemma TopsOver(b: Base, l: Layer, below: seq<Layer>)
    ensures var named := if l.modelID == "" then None else ModelWith(b.models, l.modelID);
      TopModel(b, [l] + below) == if named.Some? then Some(From(named.value, l.name)) else TopModel(b, below)
    ensures TopWorkspacePrompt([l] + below) == Upper(l.workspacePrompt, l.name, TopWorkspacePrompt(below))
    ensures TopChatPrompt([l] + below) == Upper(l.chatPrompt, l.name, TopChatPrompt(below))
    ensures TopInstructions([l] + below) == Upper(l.instructions, l.name, TopInstructions(below))
    ensures TopContextFiles([l] + below) == Upper(l.contextFiles, l.name, TopContextFiles(below))
    ensures TopPreserve([l] + below) == Upper(l.preserveThinking, l.name, TopPreserve(below))
    ensures TopTools([l] + below) == Upper(l.tools, l.name, TopTools(below))
  {
    assert ([l] + below)[1..] == below;
  }

  function Upper<T>(own: Option<T>, name: string, lower: Option<From<T>>): Option<From<T>> {
    if own.Some? then Some(From(own.value, name)) else lower
  }

  /** One layer over the reading of those below it. */
  method ReadLayer(b: Base, l: Layer, under: Reading, ghost below: seq<Layer>) returns (c: Reading)
    requires under == ReadingOf(b, below)
    ensures c == ReadingOf(b, [l] + below)
  {
    TopsOver(b, l, below);
    hide TopModel, TopWorkspacePrompt, TopChatPrompt, TopInstructions, TopContextFiles, TopPreserve, TopTools, ModelWith;
    c := under;
    if l.modelID != "" {
      var named := ModelWith(b.models, l.modelID);
      if named.Some? { c := c.(model := From(named.value, l.name), modelOK := true); }
    }
    if l.workspacePrompt.Some? { c := c.(workspacePrompt := From(l.workspacePrompt, l.name)); }
    if l.chatPrompt.Some? { c := c.(chatPrompt := From(l.chatPrompt, l.name)); }
    if l.instructions.Some? { c := c.(instructions := From(l.instructions.value, l.name)); }
    if l.contextFiles.Some? { c := c.(contextFiles := From(l.contextFiles.value, l.name)); }
    if l.preserveThinking.Some? { c := c.(preserve := Some(From(l.preserveThinking.value, l.name))); }
    if l.tools.Some? { c := c.(tools := From(l.tools, l.name)); }
  }

  method ReadLayers(b: Base, layers: seq<Layer>) returns (r: Result<Reading>)
    ensures r == if LowestUndecodable(layers).Some? then Undecoded(LowestUndecodable(layers).value) else Ok(ReadingOf(b, layers))
  {
    var c := Reading(
      From(b.defaultModel, DEFAULT_LAYER), |b.models| > 0, From(None, DEFAULT_LAYER), From(None, DEFAULT_LAYER),
      From("", DEFAULT_LAYER), From(true, DEFAULT_LAYER), None, From(None, DEFAULT_LAYER));
    var i := |layers|;
    while i > 0
      invariant 0 <= i <= |layers| && LowestUndecodable(layers[i..]).None?
      invariant c == ReadingOf(b, layers[i..])
    {
      i := i - 1;
      var l := layers[i];
      assert layers[i..] == [l] + layers[i + 1..];
      c := ReadLayer(b, l, c, layers[i + 1..]);
      if l.sampling.Undecodable? {
        LowestFound(layers, i);
        return Undecoded(l.name);
      }
      hide ReadingOf;
    }
    assert layers[0..] == layers;
    return Ok(c);
  }

  method Resolve(b: Base, layers: seq<Layer>) returns (r: Result<RunConfig>)
    ensures r == Resolution(b, layers)
  {
    var reading := ReadLayers(b, layers);
    if reading.Undecoded? { return Undecoded(reading.layer); }
    hide ReadingOf, ModelSampling, ResolvedSampling, LowestUndecodable;
    var c := reading.value;
    var preserveThinking;
    if c.preserve.Some? {
      preserveThinking := c.preserve.value;
    } else if c.modelOK {
      preserveThinking := From(c.model.value.preserveThinking, MODEL_LAYER);
    } else {
      preserveThinking := From(false, DEFAULT_LAYER);
    }
    var row := ModelSampling(c.model.value);
    var sampling := ResolveSampling(layers, row);
    var dropped := "";
    if Unoffered(c.model.value, c.modelOK, sampling) {
      dropped := sampling[EFFORT].value.text;
      sampling := WithoutUnoffered(row, sampling);
    }
    return Ok(RunConfig(c.model, c.modelOK, c.workspacePrompt, c.chatPrompt, c.instructions, c.contextFiles,
                        preserveThinking, c.tools, sampling, dropped));
  }

  lemma {:induction false} LowestFound(layers: seq<Layer>, i: nat)
    requires i <= |layers| && LowestUndecodable(layers[i..]).Some?
    ensures LowestUndecodable(layers) == LowestUndecodable(layers[i..])
    decreases i
  {
    if i == 0 {
      assert layers[0..] == layers;
    } else {
      assert layers[i - 1..][1..] == layers[i..];
      LowestFound(layers, i - 1);
    }
  }

  // ----- What an editor of a layer shows -----

  /** The layer with nothing set but its model choice. */
  function Bare(l: Layer): Layer {
    Layer(l.name, l.modelID, None, None, None, None, None, Unset, None)
  }

  function Inheritance(b: Base, layers: seq<Layer>, i: nat): Result<RunConfig>
    requires i < |layers|
  {
    var below := layers[i + 1..];
    var out := Resolution(b, [Bare(layers[i])] + below);
    var under := Resolution(b, below);
    if out.Undecoded? then out
    else if under.Undecoded? then under
    else Ok(out.value.(model := under.value.model, modelOK := under.value.modelOK))
  }

  /** Where `own` sets nothing, `shown` is what `full` has, value and source. */
  ghost predicate UnsetAgrees(b: Base, own: Layer, full: RunConfig, shown: RunConfig) {
    && (own.workspacePrompt.None? ==> shown.workspacePrompt == full.workspacePrompt)
    && (own.chatPrompt.None? ==> shown.chatPrompt == full.chatPrompt)
    && (own.instructions.None? ==> shown.instructions == full.instructions)
    && (own.contextFiles.None? ==> shown.contextFiles == full.contextFiles)
    && (own.preserveThinking.None? ==> shown.preserveThinking == full.preserveThinking)
    && (own.tools.None? ==> shown.tools == full.tools)
    && (own.modelID == "" || ModelWith(b.models, own.modelID).None? ==> shown.model == full.model && shown.modelOK == full.modelOK)
    && (forall key | !Sets(own, key) :: ParamAgrees(full, shown, key))
  }

  /** The same for one sampling parameter, also when an effort is dropped. */
  ghost predicate ParamAgrees(full: RunConfig, shown: RunConfig, key: string) {
    && (key in shown.sampling <==> key in full.sampling)
    && (key in full.sampling ==> shown.sampling[key] == full.sampling[key])
    && (key == EFFORT ==> shown.droppedEffort == full.droppedEffort)
  }

  /** What a layer inherits: for each value it leaves unset, what resolving with
      it gives. Its own parameters may not decode, those below it must. */
  method Inherited(b: Base, layers: seq<Layer>, i: nat) returns (r: Result<RunConfig>)
    requires i < |layers|
    ensures r == Inheritance(b, layers, i)
    ensures r.Ok? <==> Resolution(b, layers[i + 1..]).Ok?
    ensures Resolution(b, layers[i..]).Ok? ==> r.Ok? && UnsetAgrees(b, layers[i], Resolution(b, layers[i..]).value, r.value)
  {
    InheritedOkIff(b, layers, i);
    if Resolution(b, layers[i..]).Ok? { InheritedAgrees(b, layers, i); }
    hide Resolution, UnsetAgrees;
    var below := layers[i + 1..];
    var out := Resolve(b, [Bare(layers[i])] + below);
    if out.Undecoded? { return out; }
    var under := Resolve(b, below);
    if under.Undecoded? { return under; }
    return Ok(out.value.(model := under.value.model, modelOK := under.value.modelOK));
  }

  // ----- What the rule means -----

  predicate Sets(l: Layer, key: string) {
    l.sampling.Params? && key in l.sampling.params
  }

  lemma {:induction false} TopIs<T>(layers: seq<Layer>, pick: Layer -> Option<T>, i: nat)
    requires i < |layers| && pick(layers[i]).Some?
    requires forall j :: 0 <= j < i ==> pick(layers[j]).None?
    ensures Top(layers, pick) == Some(From(pick(layers[i]).value, layers[i].name))
  {
    if i > 0 { TopIs(layers[1..], pick, i - 1); }
  }

  lemma {:induction false} TopIsNone<T>(layers: seq<Layer>, pick: Layer -> Option<T>)
    requires forall l :: l in layers ==> pick(l).None?
    ensures Top(layers, pick).None?
  {
    if layers != [] {
      assert layers[0] in layers;
      TopIsNone(layers[1..], pick);
    }
  }

  lemma TopParamIs(layers: seq<Layer>, key: string, i: nat)
    requires i < |layers| && Sets(layers[i], key) && forall j :: 0 <= j < i ==> !Sets(layers[j], key)
    ensures TopParam(layers, key) == Some(From(layers[i].sampling.params[key], layers[i].name))
  {
    TopIs(layers, (l: Layer) => if l.sampling.Params? && key in l.sampling.params then Some(l.sampling.params[key]) else None, i);
  }

  lemma TopParamNone(layers: seq<Layer>, key: string)
    requires forall l :: l in layers ==> !Sets(l, key)
    ensures TopParam(layers, key).None?
  {
    TopIsNone(layers, (l: Layer) => if l.sampling.Params? && key in l.sampling.params then Some(l.sampling.params[key]) else None);
  }

  /** A parameter comes from the topmost layer that sets it, under its name. */
  lemma ParamFromTopmost(b: Base, layers: seq<Layer>, key: string, i: nat)
    requires Resolution(b, layers).Ok? && key != EFFORT
    requires i < |layers| && Sets(layers[i], key) && forall j :: 0 <= j < i ==> !Sets(layers[j], key)
    ensures key in Resolution(b, layers).value.sampling
    ensures Resolution(b, layers).value.sampling[key] == From(layers[i].sampling.params[key], layers[i].name)
  {
    TopParamIs(layers, key, i);
  }

  /** One that no layer sets comes from the model row, or is not sent. */
  lemma ParamFromRow(b: Base, layers: seq<Layer>, key: string)
    requires Resolution(b, layers).Ok? && forall l :: l in layers ==> !Sets(l, key)
    ensures var c := Resolution(b, layers).value; var row := ModelSampling(c.model.value);
      (key in c.sampling <==> key in row) && (key in row ==> c.sampling[key] == From(row[key], MODEL_LAYER))
  {
    TopParamNone(layers, key);
    if EFFORT in Keys(layers) { assert key != EFFORT; }
  }

  /** The effort is the topmost layer's when the model offers it or leaves the
      choice to the endpoint, and the model row's otherwise. */
  lemma EffortOffered(b: Base, layers: seq<Layer>, i: nat)
    requires Resolution(b, layers).Ok? && i < |layers| && Sets(layers[i], EFFORT)
    requires forall j :: 0 <= j < i ==> !Sets(layers[j], EFFORT)
    requires layers[i].name != MODEL_LAYER && layers[i].sampling.params[EFFORT].Text?
    ensures var c := Resolution(b, layers).value; var row := ModelSampling(c.model.value);
      var effort := layers[i].sampling.params[EFFORT];
      var offered := effort.text == "" || !c.modelOK || effort.text in c.model.value.reasoningEfforts;
      && (offered ==> EFFORT in c.sampling && c.sampling[EFFORT] == From(effort, layers[i].name) && c.droppedEffort == "")
      && (!offered ==> c.droppedEffort == effort.text && (EFFORT in c.sampling <==> EFFORT in row)
                       && (EFFORT in row ==> c.sampling[EFFORT] == From(row[EFFORT], MODEL_LAYER)))
  {
    TopParamIs(layers, EFFORT, i);
  }

  /** The model is the topmost one named that is configured, or the default. */
  lemma ModelFromTopmost(b: Base, layers: seq<Layer>, i: nat)
    requires Resolution(b, layers).Ok? && i < |layers| && NamesModel(b, layers[i])
    requires forall j :: 0 <= j < i ==> !NamesModel(b, layers[j])
    ensures var c := Resolution(b, layers).value;
      c.modelOK && c.model == From(ModelWith(b.models, layers[i].modelID).value, layers[i].name)
  {
    TopIs(layers, (l: Layer) => if l.modelID == "" then None else ModelWith(b.models, l.modelID), i);
    hide ModelSampling, ResolvedSampling, LowestUndecodable;
  }

  predicate NamesModel(b: Base, l: Layer) {
    l.modelID != "" && ModelWith(b.models, l.modelID).Some?
  }

  /** A value no layer sets is the default's, but for what the model row says. */
  lemma ValuesUnset(b: Base, layers: seq<Layer>)
    requires Resolution(b, layers).Ok?
    ensures var c := Resolution(b, layers).value;
      && ((forall l :: l in layers ==> !NamesModel(b, l)) ==>
            c.model == From(b.defaultModel, DEFAULT_LAYER) && (c.modelOK <==> b.models != []))
      && ((forall l :: l in layers ==> l.workspacePrompt.None?) ==> c.workspacePrompt == From(None, DEFAULT_LAYER))
      && ((forall l :: l in layers ==> l.chatPrompt.None?) ==> c.chatPrompt == From(None, DEFAULT_LAYER))
      && ((forall l :: l in layers ==> l.instructions.None?) ==> c.instructions == From("", DEFAULT_LAYER))
      && ((forall l :: l in layers ==> l.contextFiles.None?) ==> c.contextFiles == From(true, DEFAULT_LAYER))
      && ((forall l :: l in layers ==> l.preserveThinking.None?) ==>
            c.preserveThinking
              == if c.modelOK then From(c.model.value.preserveThinking, MODEL_LAYER) else From(false, DEFAULT_LAYER))
      && ((forall l :: l in layers ==> l.tools.None?) ==> c.tools == From(None, DEFAULT_LAYER))
  {
    hide ModelSampling, ResolvedSampling, LowestUndecodable;
    if forall l :: l in layers ==> !NamesModel(b, l) {
      TopIsNone(layers, (l: Layer) => if l.modelID == "" then None else ModelWith(b.models, l.modelID));
    }
    if forall l :: l in layers ==> l.workspacePrompt.None? { TopIsNone(layers, (l: Layer) => l.workspacePrompt); }
    if forall l :: l in layers ==> l.chatPrompt.None? { TopIsNone(layers, (l: Layer) => l.chatPrompt); }
    if forall l :: l in layers ==> l.instructions.None? { TopIsNone(layers, (l: Layer) => l.instructions); }
    if forall l :: l in layers ==> l.contextFiles.None? { TopIsNone(layers, (l: Layer) => l.contextFiles); }
    if forall l :: l in layers ==> l.preserveThinking.None? { TopIsNone(layers, (l: Layer) => l.preserveThinking); }
    if forall l :: l in layers ==> l.tools.None? { TopIsNone(layers, (l: Layer) => l.tools); }
  }

  /** Every other value comes from the topmost layer that sets it as well. */
  lemma ValuesFromTopmost(b: Base, layers: seq<Layer>, i: nat)
    requires Resolution(b, layers).Ok? && i < |layers|
    ensures var c := Resolution(b, layers).value; var l := layers[i]; var above := layers[..i];
      && (l.workspacePrompt.Some? && (forall a :: a in above ==> a.workspacePrompt.None?)
          ==> c.workspacePrompt == From(l.workspacePrompt, l.name))
      && (l.chatPrompt.Some? && (forall a :: a in above ==> a.chatPrompt.None?) ==> c.chatPrompt == From(l.chatPrompt, l.name))
      && (l.instructions.Some? && (forall a :: a in above ==> a.instructions.None?)
          ==> c.instructions == From(l.instructions.value, l.name))
      && (l.contextFiles.Some? && (forall a :: a in above ==> a.contextFiles.None?)
          ==> c.contextFiles == From(l.contextFiles.value, l.name))
      && (l.preserveThinking.Some? && (forall a :: a in above ==> a.preserveThinking.None?)
          ==> c.preserveThinking == From(l.preserveThinking.value, l.name))
      && (l.tools.Some? && (forall a :: a in above ==> a.tools.None?) ==> c.tools == From(l.tools, l.name))
  {
    var l, above := layers[i], layers[..i];
    forall j | 0 <= j < i ensures layers[j] in above { assert above[j] == layers[j]; }
    if l.workspacePrompt.Some? && forall a :: a in above ==> a.workspacePrompt.None? {
      TopIs(layers, (l: Layer) => l.workspacePrompt, i);
    }
    if l.chatPrompt.Some? && forall a :: a in above ==> a.chatPrompt.None? { TopIs(layers, (l: Layer) => l.chatPrompt, i); }
    if l.instructions.Some? && forall a :: a in above ==> a.instructions.None? { TopIs(layers, (l: Layer) => l.instructions, i); }
    if l.contextFiles.Some? && forall a :: a in above ==> a.contextFiles.None? { TopIs(layers, (l: Layer) => l.contextFiles, i); }
    if l.preserveThinking.Some? && forall a :: a in above ==> a.preserveThinking.None? {
      TopIs(layers, (l: Layer) => l.preserveThinking, i);
    }
    if l.tools.Some? && forall a :: a in above ==> a.tools.None? { TopIs(layers, (l: Layer) => l.tools, i); }
  }

  lemma BareAgrees(layers: seq<Layer>, i: nat, key: string)
    requires i < |layers| && !Sets(layers[i], key)
    ensures TopParam([Bare(layers[i])] + layers[i + 1..], key) == TopParam(layers[i..], key)
  {
    assert ([Bare(layers[i])] + layers[i + 1..])[1..] == layers[i + 1..] == layers[i..][1..];
  }

  lemma InheritedOkIff(b: Base, layers: seq<Layer>, i: nat)
    requires i < |layers|
    ensures Inheritance(b, layers, i).Ok? <==> Resolution(b, layers[i + 1..]).Ok?
    ensures Resolution(b, layers[i..]).Ok? ==> Inheritance(b, layers, i).Ok?
  {
    assert ([Bare(layers[i])] + layers[i + 1..])[1..] == layers[i + 1..] == layers[i..][1..];
    hide ReadingOf, ModelSampling, ResolvedSampling, Unoffered, WithoutUnoffered;
  }

  lemma InheritedAgrees(b: Base, layers: seq<Layer>, i: nat)
    requires i < |layers| && Resolution(b, layers[i..]).Ok?
    ensures Inheritance(b, layers, i).Ok?
    ensures UnsetAgrees(b, layers[i], Resolution(b, layers[i..]).value, Inheritance(b, layers, i).value)
  {
    InheritedOkIff(b, layers, i);
    InheritedValues(b, layers, i);
    hide Resolution, Inheritance, ModelWith, ParamAgrees;
    forall key | !Sets(layers[i], key)
      ensures ParamAgrees(Resolution(b, layers[i..]).value, Inheritance(b, layers, i).value, key)
    {
      InheritedSampling(b, layers, i, key);
    }
  }

  lemma InheritedValues(b: Base, layers: seq<Layer>, i: nat)
    requires i < |layers| && Resolution(b, layers[i..]).Ok?
    ensures Inheritance(b, layers, i).Ok?
    ensures var own := layers[i]; var full := Resolution(b, layers[i..]).value; var shown := Inheritance(b, layers, i).value;
      && (own.workspacePrompt.None? ==> shown.workspacePrompt == full.workspacePrompt)
      && (own.chatPrompt.None? ==> shown.chatPrompt == full.chatPrompt)
      && (own.instructions.None? ==> shown.instructions == full.instructions)
      && (own.contextFiles.None? ==> shown.contextFiles == full.contextFiles)
      && (own.preserveThinking.None? ==> shown.preserveThinking == full.preserveThinking)
      && (own.tools.None? ==> shown.tools == full.tools)
      && (own.modelID == "" || ModelWith(b.models, own.modelID).None? ==> shown.model == full.model && shown.modelOK == full.modelOK)
  {
    InheritedOkIff(b, layers, i);
    assert ([Bare(layers[i])] + layers[i + 1..])[1..] == layers[i + 1..] == layers[i..][1..];
    hide ModelWith, ModelSampling, ResolvedSampling, Unoffered, WithoutUnoffered, LowestUndecodable;
  }

  lemma SameModel(b: Base, layers: seq<Layer>, i: nat)
    requires i < |layers|
    ensures var bare := ReadingOf(b, [Bare(layers[i])] + layers[i + 1..]); var full := ReadingOf(b, layers[i..]);
      bare.model == full.model && bare.modelOK == full.modelOK
  {
    assert ([Bare(layers[i])] + layers[i + 1..])[1..] == layers[i + 1..] == layers[i..][1..];
  }

  lemma SamplingAgrees(all: seq<Layer>, shown: seq<Layer>, row: Sampling, key: string)
    requires TopParam(shown, key) == TopParam(all, key)
    ensures key in ResolvedSampling(shown, row) <==> key in ResolvedSampling(all, row)
    ensures key in ResolvedSampling(all, row) ==> ResolvedSampling(shown, row)[key] == ResolvedSampling(all, row)[key]
  {
    hide TopParam;
  }

  lemma InheritedSampling(b: Base, layers: seq<Layer>, i: nat, key: string)
    requires i < |layers| && Resolution(b, layers[i..]).Ok? && !Sets(layers[i], key)
    ensures Inheritance(b, layers, i).Ok?
    ensures ParamAgrees(Resolution(b, layers[i..]).value, Inheritance(b, layers, i).value, key)
  {
    InheritedOkIff(b, layers, i);
    var all, bare := layers[i..], [Bare(layers[i])] + layers[i + 1..];
    var read := ReadingOf(b, all);
    var row := ModelSampling(read.model.value);
    BareAgrees(layers, i, key);
    SameModel(b, layers, i);
    InheritedFromBare(b, layers, i);
    SamplingOf(b, all);
    SamplingOf(b, bare);
    hide ReadingOf, ModelSampling, Bare, TopParam, Resolution, Inheritance;
    SamplingAgrees(all, bare, row, key);
    OfferedAgrees(read.model.value, read.modelOK, row, ResolvedSampling(all, row), ResolvedSampling(bare, row), key);
    hide ResolvedSampling, Unoffered, WithoutUnoffered;
  }

  lemma InheritedFromBare(b: Base, layers: seq<Layer>, i: nat)
    requires i < |layers| && Inheritance(b, layers, i).Ok?
    ensures var bare := Resolution(b, [Bare(layers[i])] + layers[i + 1..]); var shown := Inheritance(b, layers, i);
      bare.Ok? && shown.value.sampling == bare.value.sampling && shown.value.droppedEffort == bare.value.droppedEffort
  {
    hide Resolution;
  }

  lemma SamplingOf(b: Base, layers: seq<Layer>)
    requires Resolution(b, layers).Ok?
    ensures var c := Resolution(b, layers).value; var r := ReadingOf(b, layers);
      var sampling := ResolvedSampling(layers, ModelSampling(r.model.value));
      var unoffered := Unoffered(r.model.value, r.modelOK, sampling);
      && c.sampling == (if unoffered then WithoutUnoffered(ModelSampling(r.model.value), sampling) else sampling)
      && c.droppedEffort == (if unoffered then sampling[EFFORT].value.text else "")
  {
    hide ReadingOf, ModelSampling, ResolvedSampling, WithoutUnoffered;
  }

  lemma OfferedAgrees(m: Model, modelOK: bool, row: Sampling, full: map<string, From<Value>>, shown: map<string, From<Value>>, key: string)
    requires key in shown <==> key in full
    requires key in full ==> shown[key] == full[key]
    ensures var full' := if Unoffered(m, modelOK, full) then WithoutUnoffered(row, full) else full;
      var shown' := if Unoffered(m, modelOK, shown) then WithoutUnoffered(row, shown) else shown;
      (key in shown' <==> key in full') && (key in full' ==> shown'[key] == full'[key])
    ensures key == EFFORT ==> Unoffered(m, modelOK, full) == Unoffered(m, modelOK, shown)
    ensures key == EFFORT && Unoffered(m, modelOK, full) ==> full[EFFORT] == shown[EFFORT] && full[EFFORT].value.Text?
  {
  }
}
