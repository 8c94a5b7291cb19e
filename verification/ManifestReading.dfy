/** How the manifest parsers read what a printer would not write: refusals, missing fields and odd numbers. */
module ManifestReading {
  import opened Common
  import opened Text
  import opened Manifest
  import opened ManifestRoundTrip
  import opened ManifestAgents

  // --- references to models ---------------------------------------------------------------------

  function OptionalRef(ref: Option<ModelRef>): seq<ModelRef> { if ref.Some? then [ref.value] else [] }

  function MediaRefs(media: Media): seq<ModelRef> { OptionalRef(media.primary) + media.fallbacks }

  /** Every model ref of a block. */
  function RefsOf(llm: Llm): seq<ModelRef> {
    [llm.primary, llm.secondary] + MediaRefs(llm.image) + MediaRefs(llm.video) + MediaRefs(llm.pdf)
    + OptionalRef(llm.compaction) + OptionalRef(llm.memoryFlush)
  }

  /** The ref names a declared group, and a model of it when it declares models. */
  ghost predicate Names(ref: ModelRef, groups: map<string, ModelGroup>) {
    && ref.group in groups
    && var ids := set i | 0 <= i < |groups[ref.group].models| :: groups[ref.group].models[i].id;
       ids == {} || ref.model in ids
  }

  ghost predicate AllNamed(refs: seq<ModelRef>, groups: map<string, ModelGroup>) {
    forall i :: 0 <= i < |refs| ==> Names(refs[i], groups)
  }

  lemma NamesResolves(ref: ModelRef, groups: map<string, ModelGroup>)
    ensures Names(ref, groups) <==> Resolves(ref, groups)
  {
    if ref.group in groups {
      var models := groups[ref.group].models;
      var ids := set i | 0 <= i < |models| :: models[i].id;
      if models != [] { assert models[0].id in ids; }
    }
  }

  lemma NamedApart(a: seq<ModelRef>, b: seq<ModelRef>, groups: map<string, ModelGroup>)
    ensures AllNamed(a + b, groups) <==> AllNamed(a, groups) && AllNamed(b, groups)
  {
    forall i | 0 <= i < |a| ensures (a + b)[i] == a[i] {}
    forall i | 0 <= i < |b| ensures (a + b)[|a| + i] == b[i] {}
    if AllNamed(a + b, groups) {
      forall i | 0 <= i < |a| ensures Names(a[i], groups) { assert Names((a + b)[i], groups); }
      forall i | 0 <= i < |b| ensures Names(b[i], groups) { assert Names((a + b)[|a| + i], groups); }
    }
  }

  lemma OptionalNamed(ref: Option<ModelRef>, groups: map<string, ModelGroup>)
    ensures AllNamed(OptionalRef(ref), groups) <==> (ref.Some? ==> Resolves(ref.value, groups))
  {
    if ref.Some? {
      NamesResolves(ref.value, groups);
      assert OptionalRef(ref)[0] == ref.value;
    }
  }

  lemma MediaNamed(media: Media, groups: map<string, ModelGroup>)
    ensures AllNamed(MediaRefs(media), groups) <==> MediaResolves(media, groups)
  {
    NamedApart(OptionalRef(media.primary), media.fallbacks, groups);
    OptionalNamed(media.primary, groups);
    forall i | 0 <= i < |media.fallbacks|
      ensures Names(media.fallbacks[i], groups) <==> Resolves(media.fallbacks[i], groups)
    {
      NamesResolves(media.fallbacks[i], groups);
    }
  }

  /** The check accepts a block exactly when each of its model refs, wherever it stands, names a declared model. */
  lemma ResolvesExactly(llm: Llm)
    ensures RefsResolve(llm) <==> AllNamed(RefsOf(llm), llm.groups)
  {
    var g := llm.groups;
    var texts := [llm.primary, llm.secondary];
    var images := texts + MediaRefs(llm.image);
    var videos := images + MediaRefs(llm.video);
    var pdfs := videos + MediaRefs(llm.pdf);
    var compactions := pdfs + OptionalRef(llm.compaction);
    NamesResolves(llm.primary, g);
    NamesResolves(llm.secondary, g);
    assert AllNamed(texts, g) <==> Names(texts[0], g) && Names(texts[1], g);
    NamedApart(texts, MediaRefs(llm.image), g);
    NamedApart(images, MediaRefs(llm.video), g);
    NamedApart(videos, MediaRefs(llm.pdf), g);
    NamedApart(pdfs, OptionalRef(llm.compaction), g);
    NamedApart(compactions, OptionalRef(llm.memoryFlush), g);
    MediaNamed(llm.image, g);
    MediaNamed(llm.video, g);
    MediaNamed(llm.pdf, g);
    OptionalNamed(llm.compaction, g);
    OptionalNamed(llm.memoryFlush, g);
  }

  /**
   A well-formed block with its media models and trimmed inputs is read back from what is printed for it exactly
   when each of its model refs names a declared model, and is refused otherwise.
   */
  lemma DanglingIsRefused(h: Host, llm: Llm)
    requires LlmShape(h, llm) && HasMedia(llm) && LlmTrimmed(llm)
    ensures ParseLlm(h, PrintLlm(llm)) == if AllNamed(RefsOf(llm), llm.groups) then Ok(llm) else Rejected
  {
    LlmPrinted(llm);
    LlmReparsed(h, PrintLlm(llm).entries, llm);
    GroupsRoundTrip(h, llm.groups);
    ResolvesExactly(llm);
    assert llm.(groups := llm.groups) == llm;
  }

  /** A media block without fallbacks, or with null for them, has none. */
  lemma AbsentFallbacks(h: Host, m: map<string, Json>, block: map<string, Json>, key: string)
    requires key in m && m[key] == Dict(block) && Get(block, "fallbacks").Null?
    ensures ParseMedia(h, m, key) == ParseMedia(h, m[key := Dict(block["fallbacks" := List([])])], key)
  {
    var given := block["fallbacks" := List([])];
    assert Get(given, "primary") == Get(block, "primary");
  }

  // --- numbers ----------------------------------------------------------------------------------

  /** A fraction is cut off towards zero. */
  lemma CutTowardsZero(x: real)
    ensures x >= 0.0 ==> 0 <= Truncated(x) && Truncated(x) as real <= x < (Truncated(x) + 1) as real
    ensures x <= 0.0 ==> Truncated(x) <= 0 && (Truncated(x) - 1) as real < x <= Truncated(x) as real
  {}

  /** Booleans, whole floats and texts read as numbers are the numbers they stand for; nothing else but null is taken. */
  lemma NumbersRead(h: Host, v: Json, n: int)
    ensures ParseOptionalInt(h, v) == Ok(Some(n)) <==>
              || v == Int(n) || (n == 1 && v == Bool(true)) || (n == 0 && v == Bool(false))
              || (v.Float? && n == Truncated(v.fraction)) || (v.Str? && h.readInt(v.text) == Some(n))
    ensures ParseOptionalInt(h, v) == Ok(None) <==> v.Null?
  {}

  // --- groups -----------------------------------------------------------------------------------

  /**
   A group is accepted exactly with an http(s) address, a key that is given and not blank, a non-empty list of
   models that are all accepted, and an API that is absent or a text, of which a blank one counts as absent.
   */
  lemma GroupAcceptedExactly(h: Host, m: map<string, Json>)
    ensures var base, key, models, api, group :=
              Strip(Show(h, Or(Get(m, "base_url"), Str("")))), Get(m, "api_key"), Get(m, "models"), Get(m, "api"),
              ParseModelGroup(h, Dict(m));
            && (group.Ok? <==>
                  && base != "" && h.isUrl(base) && !key.Null? && Strip(Show(h, key)) != "" && (api.Null? || api.Str?)
                  && models.List? && models.items != [] && ParseAll(InfoParser(h), models.items).Ok?)
            && (group.Ok? ==> group.value.api == if api.Str? && Strip(api.text) != "" then Some(api.text) else None)
  {}

  // --- agents -----------------------------------------------------------------------------------

  /** `m` with `value` in place of what it has, or has not, under `key`. */
  function Given(m: map<string, Json>, key: string, value: Json): Json { Dict(m[key := value]) }

  function Thinking(h: Host, d: Defaults, v: Json): string {
    if v.Null? then d.thinking else OrText(Strip(Show(h, v)), d.thinking)
  }

  /** Two mappings whose fields are read alike. */
  predicate ReadAlike(h: Host, d: Defaults, entry: bool, m: map<string, Json>, n: map<string, Json>) {
    && Get(m, "id") == Get(n, "id") && Get(m, "name") == Get(n, "name") && Get(m, "content") == Get(n, "content")
    && ParseWord(h, Get(m, "model"), d.model) == ParseWord(h, Get(n, "model"), d.model)
    && Thinking(h, d, Get(m, "thinking")) == Thinking(h, d, Get(n, "thinking"))
    && ParseFlag(Get(m, "browser_enabled"), d.browser) == ParseFlag(Get(n, "browser_enabled"), d.browser)
    && ParseFlag(Get(m, "image_generation"), entry || d.image) == ParseFlag(Get(n, "image_generation"), entry || d.image)
    && ParseFlag(Get(m, "video_generation"), entry || d.video) == ParseFlag(Get(n, "video_generation"), entry || d.video)
  }

  lemma AlikeIsSame(h: Host, d: Defaults, entry: bool, ids: seq<string>, m: map<string, Json>, n: map<string, Json>)
    requires ReadAlike(h, d, entry, m, n)
    ensures ParseAgentSpec(h, d, entry, ids, Dict(m)) == ParseAgentSpec(h, d, entry, ids, Dict(n))
  {}

  /** What an agent that leaves a field out is taken to say; images and videos are on for the main agent. */
  function Default(d: Defaults, entry: bool, key: string): Json {
    if key == "model" then Str(d.model)
    else if key == "thinking" then Str(d.thinking)
    else if key == "browser_enabled" then Bool(d.browser)
    else if key == "image_generation" then Bool(if entry then true else d.image)
    else if key == "video_generation" then Bool(if entry then true else d.video)
    else Null
  }

  lemma DefaultModelReadsAlike(h: Host, d: Defaults, entry: bool, m: map<string, Json>)
    requires IsDefaults(d) && !Truthy(Get(m, "model"))
    ensures ReadAlike(h, d, entry, m, m["model" := Str(d.model)])
  {
    RolesAreWords(d.model);
  }

  lemma DefaultThinkingReadsAlike(h: Host, d: Defaults, entry: bool, m: map<string, Json>)
    requires IsDefaults(d) && Get(m, "thinking").Null?
    ensures ReadAlike(h, d, entry, m, m["thinking" := Str(d.thinking)])
  {
    StripTrims(d.thinking);
  }

  lemma DefaultFlagReadsAlike(h: Host, d: Defaults, entry: bool, m: map<string, Json>, key: string)
    requires key in {"browser_enabled", "image_generation", "video_generation"} && Get(m, key).Null?
    ensures ReadAlike(h, d, entry, m, m[key := Default(d, entry, key)])
  {}

  /** A field of an agent that is absent or null, and any empty model, means the default. */
  lemma AbsentMeansDefault(h: Host, d: Defaults, entry: bool, ids: seq<string>, m: map<string, Json>, key: string)
    requires IsDefaults(d) && (Get(m, key).Null? || (key == "model" && !Truthy(Get(m, key))))
    requires key in {"model", "thinking", "browser_enabled", "image_generation", "video_generation"}
    ensures ParseAgentSpec(h, d, entry, ids, Dict(m)) ==
            ParseAgentSpec(h, d, entry, ids, Given(m, key, Default(d, entry, key)))
  {
    if key == "model" {
      DefaultModelReadsAlike(h, d, entry, m);
    } else if key == "thinking" {
      DefaultThinkingReadsAlike(h, d, entry, m);
    } else {
      DefaultFlagReadsAlike(h, d, entry, m, key);
    }
    AlikeIsSame(h, d, entry, ids, m, m[key := Default(d, entry, key)]);
  }

  /** A given model is accepted only as one of the two roles, and kept. */
  lemma RoleIsKept(h: Host, d: Defaults, entry: bool, ids: seq<string>, m: map<string, Json>, role: string)
    requires Word(role) && Get(m, "model") == Str(role)
    ensures var spec := ParseAgentSpec(h, d, entry, ids, Dict(m));
            if role == "primary" || role == "secondary" then spec.Ok? ==> spec.value.model == role else spec.Rejected?
  {
    WordRoundTrip(h, role, d.model);
  }

  /** Where one role is accepted, so is the other. */
  lemma RolesAlike(h: Host, d: Defaults, entry: bool, ids: seq<string>, m: map<string, Json>)
    ensures ParseAgentSpec(h, d, entry, ids, Given(m, "model", Str("primary"))).Ok? <==>
            ParseAgentSpec(h, d, entry, ids, Given(m, "model", Str("secondary"))).Ok?
  {
    RolesAreWords("primary");
    RolesAreWords("secondary");
    WordRoundTrip(h, "primary", d.model);
    WordRoundTrip(h, "secondary", d.model);
  }

  /** What an accepted block means that leaves out its defaults, its heartbeat or its subagents. */
  lemma AbsentInBlock(h: Host, m: map<string, Json>)
    requires ParseAgents(h, Dict(m)).Ok?
    ensures var a := ParseAgents(h, Dict(m)).value;
            && ("thinking_default" !in m ==> a.defaults.thinking == "adaptive")
            && ("reasoning_default" !in m ==> a.defaults.reasoning == "off")
            && ("model_default" !in m ==> a.defaults.model == "primary")
            && ("browser_enabled_default" !in m ==> a.defaults.browser)
            && ("image_generation_default" !in m ==> !a.defaults.image)
            && ("video_generation_default" !in m ==> !a.defaults.video)
            && ("heartbeat" !in m ==> a.every == "0m" && a.target == "none")
            && ("subagents" !in m ==> a.subagents == [])
  {
    AgentsTakenApart(h, Dict(m));
    LiteralsAreWords();
    StripTrims("adaptive");
    StripTrims("off");
    StripTrims("primary");
    StripTrims("0m");
    StripTrims("none");
  }

  function Elements(ids: seq<string>): set<string> { set i | 0 <= i < |ids| :: ids[i] }

  /** No two agents share an id exactly when there are as many ids as agents. */
  lemma {:induction false} UniqueExactly(ids: seq<string>)
    ensures |Elements(ids)| <= |ids| && (Unique(ids) <==> |Elements(ids)| == |ids|)
  {
    if ids != [] {
      var before, last := ids[..|ids| - 1], ids[|ids| - 1];
      UniqueExactly(before);
      assert Elements(ids) == Elements(before) + {last} by {
        forall i | 0 <= i < |before| ensures before[i] in Elements(ids) { assert ids[i] == before[i]; }
        assert last in Elements(ids);
      }
      assert Unique(ids) <==> Unique(before) && last !in Elements(before) by {
        if Unique(ids) { assert forall i :: 0 <= i < |before| ==> before[i] == ids[i]; }
      }
    }
  }
}
