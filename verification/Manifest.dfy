/**
 The parsers and printers of `manifest.py` for its `llm` and `agents` blocks.

 A mapping is a `Json` value with string keys; every raised error is `Rejected`. How Python shows values
 that are not strings, reads numbers and recognises URLs is given by `Host` and may be anything.
 */
module Manifest {
  import opened Common
  import opened Text

  datatype Json =
    | Null
    | Bool(flag: bool)
    | Int(number: int)
    | Float(fraction: real)
    | Str(text: string)
    | List(items: seq<Json>)
    | Dict(entries: map<string, Json>)

  datatype Result<+T> = Ok(value: T) | Rejected

  datatype Host = Host(show: Json -> string, isUrl: string -> bool, readInt: string -> Option<int>)

  // --- values -----------------------------------------------------------------------------------

  datatype ModelRef = ModelRef(group: string, model: string)
  datatype ModelInfo = ModelInfo(id: string, name: string, input: seq<string>, reasoning: Option<bool>,
                                 contextWindow: Option<int>, maxTokens: Option<int>)
  datatype ModelGroup = ModelGroup(baseUrl: string, apiKey: string, prefix: string, models: seq<ModelInfo>,
                                   api: Option<string>)
  datatype Media = Media(primary: Option<ModelRef>, fallbacks: seq<ModelRef>)
  datatype Llm = Llm(primary: ModelRef, secondary: ModelRef, image: Media, video: Media, pdf: Media,
                     compaction: Option<ModelRef>, memoryFlush: Option<ModelRef>, groups: map<string, ModelGroup>)

  datatype Skill = Skill(name: string, content: string)
  datatype Reference = Reference(path: string, content: string)
  datatype SkillReferences = SkillReferences(name: string, files: seq<Reference>)
  datatype Content = Content(instructions: string, soul: Option<string>, identity: Option<string>,
                             userContext: Option<string>, toolsDoc: Option<string>, heartbeat: Option<string>,
                             skills: seq<Skill>, references: seq<SkillReferences>)
  datatype AgentSpec = AgentSpec(id: string, name: string, model: string, isEntryPoint: bool, subagentIds: seq<string>,
                                 thinking: string, browser: bool, image: bool, video: bool, content: Content)
  datatype Defaults = Defaults(thinking: string, reasoning: string, model: string, browser: bool, image: bool, video: bool)
  datatype Agents = Agents(defaults: Defaults, mainAgent: AgentSpec, subagents: seq<AgentSpec>, every: string, target: string)

  // --- reading ----------------------------------------------------------------------------------

  predicate Truthy(v: Json) {
    match v
    case Null => false
    case Bool(b) => b
    case Int(n) => n != 0
    case Float(x) => x != 0.0
    case Str(s) => s != ""
    case List(xs) => xs != []
    case Dict(m) => m != map[]
  }

  function Show(h: Host, v: Json): string { if v.Str? then v.text else h.show(v) }

  function Or(v: Json, default: Json): Json { if Truthy(v) then v else default }

  function OrText(s: string, default: string): string { if s != "" then s else default }

  function Get(m: map<string, Json>, key: string, default: Json := Null): Json { if key in m then m[key] else default }

  function ParseAll<T>(parse: Json -> Result<T>, xs: seq<Json>): Result<seq<T>> {
    if xs == [] then Ok([])
    else
      var first, rest := parse(xs[0]), ParseAll(parse, xs[1..]);
      if first.Ok? && rest.Ok? then Ok([first.value] + rest.value) else Rejected
  }

  function ParseEach<T>(parse: Json -> Result<T>, m: map<string, Json>): Result<map<string, T>> {
    if forall k :: k in m ==> parse(m[k]).Ok? then Ok(map k | k in m :: parse(m[k]).value) else Rejected
  }

  function PrintAll<T>(printer: T -> Json, vs: seq<T>): seq<Json> {
    if vs == [] then [] else [printer(vs[0])] + PrintAll(printer, vs[1..])
  }

  function PrintEach<T>(printer: T -> Json, m: map<string, T>): map<string, Json> { map k | k in m :: printer(m[k]) }

  // --- llm --------------------------------------------------------------------------------------

  function ParseModelRef(h: Host, v: Json): Result<ModelRef> {
    if !v.Dict? then Rejected
    else
      var group, model := Strip(Show(h, Get(v.entries, "group", Str("")))), Strip(Show(h, Get(v.entries, "model", Str(""))));
      if group == "" || model == "" then Rejected else Ok(ModelRef(group, model))
  }

  function RefParser(h: Host): Json -> Result<ModelRef> { x => ParseModelRef(h, x) }

  function ParseOptionalModelRef(h: Host, v: Json): Result<Option<ModelRef>> {
    if v.Null? then Ok(None)
    else var ref := ParseModelRef(h, v); if ref.Ok? then Ok(Some(ref.value)) else Rejected
  }

  function ParseModelRefs(h: Host, v: Json): Result<seq<ModelRef>> {
    if v.Null? then Ok([]) else if !v.List? then Rejected else ParseAll(RefParser(h), v.items)
  }

  function StripAll(h: Host, xs: seq<Json>): seq<string> {
    if xs == [] then []
    else
      var s := Strip(Show(h, xs[0]));
      (if s == "" then [] else [s]) + StripAll(h, xs[1..])
  }

  /** `_tuple_str`: a bare string is kept as it is, the items of a list are stripped. */
  function ParseStrings(h: Host, v: Json): Result<seq<string>> {
    match v
    case Null => Ok([])
    case Str(s) => Ok(if Strip(s) != "" then [s] else [])
    case List(xs) => Ok(StripAll(h, xs))
    case _ => Rejected
  }

  /** `int()` of a float drops its fraction. */
  function Truncated(x: real): int { if x >= 0.0 then x.Floor else -((-x).Floor) }

  function ParseOptionalInt(h: Host, v: Json): Result<Option<int>> {
    match v
    case Null => Ok(None)
    case Bool(b) => Ok(Some(if b then 1 else 0))
    case Int(n) => Ok(Some(n))
    case Float(x) => Ok(Some(Truncated(x)))
    case Str(s) => if h.readInt(s).Some? then Ok(h.readInt(s)) else Rejected
    case _ => Rejected
  }

  function ParseModelInfo(h: Host, v: Json): Result<ModelInfo> {
    if !v.Dict? || Get(v.entries, "id").Null? then Rejected
    else
      var m := v.entries;
      var id := Strip(Show(h, m["id"]));
      var input := ParseStrings(h, Get(m, "input"));
      var window, tokens := ParseOptionalInt(h, Get(m, "contextWindow")), ParseOptionalInt(h, Get(m, "maxTokens"));
      var reasoning := Get(m, "reasoning");
      if id == "" || input.Rejected? || window.Rejected? || tokens.Rejected? then Rejected
      else Ok(ModelInfo(id, Show(h, Get(m, "name", Str(id))), input.value,
                        if reasoning.Null? then None else Some(Truthy(reasoning)), window.value, tokens.value))
  }

  function InfoParser(h: Host): Json -> Result<ModelInfo> { x => ParseModelInfo(h, x) }

  function ParseModelGroup(h: Host, v: Json): Result<ModelGroup> {
    if !v.Dict? then Rejected
    else
      var m := v.entries;
      var baseUrl, key, models, api :=
        Strip(Show(h, Or(Get(m, "base_url"), Str("")))), Get(m, "api_key"), Get(m, "models"), Get(m, "api");
      if baseUrl == "" || !h.isUrl(baseUrl) || key.Null? || Strip(Show(h, key)) == "" then Rejected
      else if !models.List? || models.items == [] || !(api.Null? || api.Str?) then Rejected
      else
        var infos := ParseAll(InfoParser(h), models.items);
        if infos.Rejected? then Rejected
        else Ok(ModelGroup(baseUrl, Show(h, key), Show(h, Or(Get(m, "model_name_prefix"), Str(""))), infos.value,
                           if api.Str? && Strip(api.text) != "" then Some(api.text) else None))
  }

  function GroupParser(h: Host): Json -> Result<ModelGroup> { x => ParseModelGroup(h, x) }

  function ParseMedia(h: Host, m: map<string, Json>, key: string): Result<Media> {
    if Get(m, key).Null? then Ok(Media(None, []))
    else if !m[key].Dict? || Get(m[key].entries, "primary").Null? then Rejected
    else
      var primary, fallbacks := ParseModelRef(h, m[key].entries["primary"]), ParseModelRefs(h, Get(m[key].entries, "fallbacks"));
      if primary.Ok? && fallbacks.Ok? then Ok(Media(Some(primary.value), fallbacks.value)) else Rejected
  }

  function ParseTextModel(h: Host, v: Json): Result<(ModelRef, ModelRef)> {
    if !v.Dict? || Get(v.entries, "primary").Null? || Get(v.entries, "secondary").Null? then Rejected
    else
      var primary, secondary := ParseModelRef(h, v.entries["primary"]), ParseModelRef(h, v.entries["secondary"]);
      if primary.Ok? && secondary.Ok? then Ok((primary.value, secondary.value)) else Rejected
  }

  function ParseGroups(h: Host, v: Json): Result<map<string, ModelGroup>> {
    if !v.Dict? then Rejected else ParseEach(GroupParser(h), v.entries)
  }

  predicate Resolves(ref: ModelRef, groups: map<string, ModelGroup>) {
    && ref.group in groups
    && var models := groups[ref.group].models;
       models == [] || exists i :: 0 <= i < |models| && models[i].id == ref.model
  }

  predicate MediaResolves(media: Media, groups: map<string, ModelGroup>) {
    && (media.primary.Some? ==> Resolves(media.primary.value, groups))
    && forall i :: 0 <= i < |media.fallbacks| ==> Resolves(media.fallbacks[i], groups)
  }

  /** `_validate_model_refs_resolve` */
  predicate RefsResolve(llm: Llm) {
    && Resolves(llm.primary, llm.groups) && Resolves(llm.secondary, llm.groups)
    && MediaResolves(llm.image, llm.groups) && MediaResolves(llm.video, llm.groups) && MediaResolves(llm.pdf, llm.groups)
    && (llm.compaction.Some? ==> Resolves(llm.compaction.value, llm.groups))
    && (llm.memoryFlush.Some? ==> Resolves(llm.memoryFlush.value, llm.groups))
  }

  function ParseLlm(h: Host, v: Json): Result<Llm> {
    if !v.Dict? then Rejected
    else
      var m := v.entries;
      var text, groups := ParseTextModel(h, Get(m, "text_model")), ParseGroups(h, Get(m, "groups"));
      var image, video := ParseMedia(h, m, "image_model"), ParseMedia(h, m, "video_model");
      var pdf := ParseMedia(h, m, "pdf_model");
      var compaction := ParseOptionalModelRef(h, Get(m, "compaction_model"));
      var flush := ParseOptionalModelRef(h, Get(m, "memory_flush_model"));
      if text.Rejected? || image.Rejected? || video.Rejected? || pdf.Rejected? then Rejected
      else if groups.Rejected? || compaction.Rejected? || flush.Rejected? then Rejected
      else
        var llm := Llm(text.value.0, text.value.1, image.value, video.value, pdf.value, compaction.value, flush.value,
                       groups.value);
        if RefsResolve(llm) then Ok(llm) else Rejected
  }

  function PrintModelRef(ref: ModelRef): Json { Dict(map["group" := Str(ref.group), "model" := Str(ref.model)]) }

  function PrintOptionalModelRef(ref: Option<ModelRef>): Json { if ref.Some? then PrintModelRef(ref.value) else Null }

  function PrintText(s: string): Json { Str(s) }

  function PrintModelInfo(info: ModelInfo): Json {
    var m := map["id" := Str(info.id), "name" := Str(info.name), "input" := List(PrintAll(PrintText, info.input))];
    var n := if info.reasoning.Some? then m["reasoning" := Bool(info.reasoning.value)] else m;
    var o := if info.contextWindow.Some? then n["contextWindow" := Int(info.contextWindow.value)] else n;
    Dict(if info.maxTokens.Some? then o["maxTokens" := Int(info.maxTokens.value)] else o)
  }

  function PrintModelGroup(group: ModelGroup): Json {
    var m := map["base_url" := Str(group.baseUrl), "api_key" := Str(group.apiKey), "model_name_prefix" := Str(group.prefix),
                 "models" := List(PrintAll(PrintModelInfo, group.models))];
    Dict(if group.api.Some? then m["api" := Str(group.api.value)] else m)
  }

  function PrintMedia(media: Media): Json {
    Dict(map["primary" := PrintOptionalModelRef(media.primary), "fallbacks" := List(PrintAll(PrintModelRef, media.fallbacks))])
  }

  function PrintTextModel(primary: ModelRef, secondary: ModelRef): Json {
    Dict(map["primary" := PrintModelRef(primary), "secondary" := PrintModelRef(secondary)])
  }

  function PrintLlm(llm: Llm): Json {
    Dict(map["text_model" := PrintTextModel(llm.primary, llm.secondary),
             "image_model" := PrintMedia(llm.image), "video_model" := PrintMedia(llm.video), "pdf_model" := PrintMedia(llm.pdf),
             "compaction_model" := PrintOptionalModelRef(llm.compaction),
             "memory_flush_model" := PrintOptionalModelRef(llm.memoryFlush),
             "groups" := Dict(PrintEach(PrintModelGroup, llm.groups))])
  }

  // --- agents -----------------------------------------------------------------------------------

  function ParseReference(h: Host, v: Json): Result<Reference> {
    if !v.Dict? then Rejected
    else
      var path := Strip(Show(h, Or(Get(v.entries, "path"), Str(""))));
      if path == "" then Rejected else Ok(Reference(path, Show(h, Or(Get(v.entries, "content"), Str("")))))
  }

  function ReferenceParser(h: Host): Json -> Result<Reference> { x => ParseReference(h, x) }

  function ParseReferences(h: Host, v: Json): Result<seq<Reference>> {
    if v.Null? then Ok([]) else if !v.List? then Rejected else ParseAll(ReferenceParser(h), v.items)
  }

  /** One item of the `skills` list, with its references still beside it. */
  datatype Item = Item(skill: Skill, files: seq<Reference>)

  function ParseItem(h: Host, v: Json): Result<Item> {
    if !v.Dict? then Rejected
    else
      var name := Strip(Show(h, Or(Get(v.entries, "name"), Str(""))));
      var files := ParseReferences(h, Get(v.entries, "references"));
      if name == "" || files.Rejected? then Rejected
      else Ok(Item(Skill(name, Show(h, Or(Get(v.entries, "content"), Str("")))), files.value))
  }

  function ItemParser(h: Host): Json -> Result<Item> { x => ParseItem(h, x) }

  function ParseItems(h: Host, v: Json): Result<seq<Item>> {
    var raw := Or(v, List([]));
    if !raw.List? then Rejected else ParseAll(ItemParser(h), raw.items)
  }

  function SkillsOf(items: seq<Item>): seq<Skill> { seq(|items|, i requires 0 <= i < |items| => items[i].skill) }

  function ReferencesOf(items: seq<Item>): seq<SkillReferences> {
    if items == [] then []
    else (if items[0].files == [] then [] else [SkillReferences(items[0].skill.name, items[0].files)]) + ReferencesOf(items[1..])
  }

  function ParseOptionalText(h: Host, v: Json): Option<string> {
    if v.Null? || Show(h, v) == "" then None else Some(Show(h, v))
  }

  function ParseContent(h: Host, v: Json): Result<Content> {
    if !v.Dict? then Rejected
    else
      var m := v.entries;
      var instructions, items := Show(h, Or(Get(m, "instructions"), Str(""))), ParseItems(h, Get(m, "skills"));
      if Strip(instructions) == "" || items.Rejected? then Rejected
      else Ok(Content(instructions, ParseOptionalText(h, Get(m, "soul")), ParseOptionalText(h, Get(m, "identity")),
                      ParseOptionalText(h, Get(m, "user_context")), ParseOptionalText(h, Get(m, "tools_doc")),
                      ParseOptionalText(h, Get(m, "heartbeat")), SkillsOf(items.value), ReferencesOf(items.value)))
  }

  function ParseFlag(v: Json, default: bool): bool { if v.Null? then default else Truthy(v) }

  /** `str(v or default).strip() or default` */
  function ParseWord(h: Host, v: Json, default: string): string { OrText(Strip(Show(h, Or(v, Str(default)))), default) }

  predicate IsModelRole(s: string) { s == "primary" || s == "secondary" }

  function ParseAgentSpec(h: Host, d: Defaults, entry: bool, subagentIds: seq<string>, v: Json): Result<AgentSpec> {
    if !v.Dict? then Rejected
    else
      var m := v.entries;
      var id, name := Strip(Show(h, Or(Get(m, "id"), Str("")))), Strip(Show(h, Or(Get(m, "name"), Str(""))));
      var model, thinking := ParseWord(h, Get(m, "model"), d.model), Get(m, "thinking");
      var content := ParseContent(h, Get(m, "content"));
      if id == "" || name == "" || !IsModelRole(model) || content.Rejected? then Rejected
      else Ok(AgentSpec(id, name, model, entry, subagentIds,
                        if thinking.Null? then d.thinking else OrText(Strip(Show(h, thinking)), d.thinking),
                        ParseFlag(Get(m, "browser_enabled"), d.browser), ParseFlag(Get(m, "image_generation"), entry || d.image),
                        ParseFlag(Get(m, "video_generation"), entry || d.video), content.value))
  }

  function SubagentParser(h: Host, d: Defaults): Json -> Result<AgentSpec> { x => ParseAgentSpec(h, d, false, [], x) }

  function ParseDefaults(h: Host, m: map<string, Json>): Defaults {
    Defaults(ParseWord(h, Get(m, "thinking_default"), "adaptive"), ParseWord(h, Get(m, "reasoning_default"), "off"),
             ParseWord(h, Get(m, "model_default"), "primary"), Truthy(Get(m, "browser_enabled_default", Bool(true))),
             Truthy(Get(m, "image_generation_default", Bool(false))), Truthy(Get(m, "video_generation_default", Bool(false))))
  }

  function IdsOf(specs: seq<AgentSpec>): seq<string> { seq(|specs|, i requires 0 <= i < |specs| => specs[i].id) }

  predicate Unique(ids: seq<string>) { forall i, j :: 0 <= i < j < |ids| ==> ids[i] != ids[j] }

  function ParseSubagents(h: Host, d: Defaults, v: Json): Result<seq<AgentSpec>> {
    var raw := Or(v, List([]));
    if !raw.List? then Rejected else ParseAll(SubagentParser(h, d), raw.items)
  }

  function ParseAgents(h: Host, v: Json): Result<Agents> {
    if !v.Dict? then Rejected
    else
      var m := v.entries;
      var d := ParseDefaults(h, m);
      var subagents := ParseSubagents(h, d, Get(m, "subagents"));
      if !IsModelRole(d.model) || subagents.Rejected? then Rejected
      else
        var ids := IdsOf(subagents.value);
        var mainAgent := ParseAgentSpec(h, d, true, ids, Get(m, "main_agent"));
        var heartbeat := if Get(m, "heartbeat").Dict? then m["heartbeat"].entries else map[];
        if mainAgent.Rejected? || !Unique([mainAgent.value.id] + ids) then Rejected
        else Ok(Agents(d, mainAgent.value, subagents.value, ParseWord(h, Get(heartbeat, "every"), "0m"),
                       ParseWord(h, Get(heartbeat, "target"), "none")))
  }

  function PrintReference(ref: Reference): Json { Dict(map["path" := Str(ref.path), "content" := Str(ref.content)]) }

  /** `dict(pairs)`: of two pairs with the same name the later one stays. */
  function ByName(refs: seq<SkillReferences>): map<string, seq<Reference>> {
    if refs == [] then map[] else ByName(refs[..|refs| - 1])[refs[|refs| - 1].name := refs[|refs| - 1].files]
  }

  function FilesOf(files: map<string, seq<Reference>>, name: string): seq<Reference> {
    if name in files then files[name] else []
  }

  function PrintItem(item: Item): Json {
    var m := map["name" := Str(item.skill.name), "content" := Str(item.skill.content)];
    Dict(if item.files == [] then m else m["references" := List(PrintAll(PrintReference, item.files))])
  }

  /** The items a printed content has: each skill with the references found under its name. */
  function Joined(skills: seq<Skill>, files: map<string, seq<Reference>>): seq<Item> {
    seq(|skills|, i requires 0 <= i < |skills| => Item(skills[i], FilesOf(files, skills[i].name)))
  }

  function PrintOptionalText(s: Option<string>): Json { if s.Some? then Str(s.value) else Null }

  function PrintContent(c: Content): Json {
    Dict(map["instructions" := Str(c.instructions), "soul" := PrintOptionalText(c.soul), "identity" := PrintOptionalText(c.identity),
             "user_context" := PrintOptionalText(c.userContext), "tools_doc" := PrintOptionalText(c.toolsDoc),
             "heartbeat" := PrintOptionalText(c.heartbeat),
             "skills" := List(PrintAll(PrintItem, Joined(c.skills, ByName(c.references))))])
  }

  function PrintAgentSpec(spec: AgentSpec): Json {
    Dict(map["id" := Str(spec.id), "name" := Str(spec.name), "model" := Str(spec.model), "thinking" := Str(spec.thinking),
             "browser_enabled" := Bool(spec.browser), "image_generation" := Bool(spec.image), "video_generation" := Bool(spec.video),
             "content" := PrintContent(spec.content)])
  }

  function PrintAgents(a: Agents): Json {
    Dict(map["thinking_default" := Str(a.defaults.thinking), "reasoning_default" := Str(a.defaults.reasoning),
             "model_default" := Str(a.defaults.model), "browser_enabled_default" := Bool(a.defaults.browser),
             "image_generation_default" := Bool(a.defaults.image), "video_generation_default" := Bool(a.defaults.video),
             "heartbeat" := Dict(map["every" := Str(a.every), "target" := Str(a.target)]),
             "main_agent" := PrintAgentSpec(a.mainAgent), "subagents" := List(PrintAll(PrintAgentSpec, a.subagents))])
  }
}
