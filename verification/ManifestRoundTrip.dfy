/** When a parsed manifest block survives being printed and parsed again. */
module ManifestRoundTrip {
  import opened Common
  import opened Text
  import opened Manifest

  // --- lists and mappings -----------------------------------------------------------------------

  lemma {:induction false} ParsedEach<T>(parse: Json -> Result<T>, xs: seq<Json>, i: nat)
    requires ParseAll(parse, xs).Ok? && i < |xs|
    ensures |ParseAll(parse, xs).value| == |xs| && parse(xs[i]) == Ok(ParseAll(parse, xs).value[i])
  {
    if i > 0 {
      ParsedEach(parse, xs[1..], i - 1);
    } else if |xs| > 1 {
      ParsedEach(parse, xs[1..], 0);
    }
  }

  ghost predicate ComesBack<T(!new)>(parse: Json -> Result<T>, printer: T -> Json, v: T) { parse(printer(v)) == Ok(v) }

  /** A list comes back exactly when each of its elements does. */
  lemma {:induction false} ListRoundTrip<T(!new)>(parse: Json -> Result<T>, printer: T -> Json, vs: seq<T>)
    ensures ParseAll(parse, PrintAll(printer, vs)) == Ok(vs) <==>
            forall i :: 0 <= i < |vs| ==> ComesBack(parse, printer, vs[i])
  {
    if vs != [] {
      ListRoundTrip(parse, printer, vs[1..]);
      var first, rest := parse(printer(vs[0])), ParseAll(parse, PrintAll(printer, vs[1..]));
      assert PrintAll(printer, vs)[1..] == PrintAll(printer, vs[1..]);
      assert vs == [vs[0]] + vs[1..];
      assert first == Ok(vs[0]) && rest == Ok(vs[1..]) <==> ParseAll(parse, PrintAll(printer, vs)) == Ok(vs) by {
        if first.Ok? && rest.Ok? && [first.value] + rest.value == vs {
          assert ([first.value] + rest.value)[1..] == rest.value;
        }
      }
      assert forall i :: 1 <= i < |vs| ==> vs[i] == vs[1..][i - 1];
      assert forall i :: 0 <= i < |vs| - 1 ==> vs[1..][i] == vs[i + 1];
    }
  }

  ghost predicate Gives<T(!new)>(parse: Json -> Result<T>, printer: T -> Json, v: T, w: T) { parse(printer(v)) == Ok(w) }

  /** A list is given back element by element. */
  lemma {:induction false} ListGives<T(!new)>(parse: Json -> Result<T>, printer: T -> Json, vs: seq<T>, ws: seq<T>)
    requires |vs| == |ws| && forall i :: 0 <= i < |vs| ==> Gives(parse, printer, vs[i], ws[i])
    ensures ParseAll(parse, PrintAll(printer, vs)) == Ok(ws)
  {
    if vs != [] {
      forall i | 0 <= i < |vs| - 1 ensures Gives(parse, printer, vs[1..][i], ws[1..][i]) {
        assert Gives(parse, printer, vs[i + 1], ws[i + 1]);
      }
      ListGives(parse, printer, vs[1..], ws[1..]);
      assert PrintAll(printer, vs)[1..] == PrintAll(printer, vs[1..]);
      assert Gives(parse, printer, vs[0], ws[0]);
      assert [ws[0]] + ws[1..] == ws;
    }
  }

  lemma {:induction false} PrintsNothingForNothing<T>(printer: T -> Json, vs: seq<T>)
    ensures |PrintAll(printer, vs)| == |vs|
  {
    if vs != [] { PrintsNothingForNothing(printer, vs[1..]); }
  }

  lemma MapRoundTrip<T(!new)>(parse: Json -> Result<T>, printer: T -> Json, m: map<string, T>)
    ensures ParseEach(parse, PrintEach(printer, m)) == Ok(m) <==> forall k :: k in m ==> ComesBack(parse, printer, m[k])
  {
    var printed := PrintEach(printer, m);
    if forall k :: k in m ==> ComesBack(parse, printer, m[k]) {
      assert (map k | k in printed :: parse(printed[k]).value) == m;
    }
    if ParseEach(parse, printed) == Ok(m) {
      forall k | k in m ensures ComesBack(parse, printer, m[k]) {
        assert k in printed && parse(printed[k]).Ok?;
      }
    }
  }

  // --- model refs -------------------------------------------------------------------------------

  predicate Word(s: string) { s != "" && Trimmed(s) }

  predicate IsRef(ref: ModelRef) { Word(ref.group) && Word(ref.model) }

  lemma RefParsed(h: Host, v: Json)
    ensures ParseModelRef(h, v).Ok? ==> IsRef(ParseModelRef(h, v).value)
  {
    if v.Dict? {
      StripTrims(Show(h, Get(v.entries, "group", Str(""))));
      StripTrims(Show(h, Get(v.entries, "model", Str(""))));
    }
  }

  lemma RefRoundTrip(h: Host, ref: ModelRef)
    requires IsRef(ref)
    ensures ParseModelRef(h, PrintModelRef(ref)) == Ok(ref)
  {
    StripTrims(ref.group);
    StripTrims(ref.model);
  }

  ghost predicate AreRefs(refs: seq<ModelRef>) { forall i :: 0 <= i < |refs| ==> IsRef(refs[i]) }

  lemma RefsParsed(h: Host, v: Json)
    ensures ParseModelRefs(h, v).Ok? ==> AreRefs(ParseModelRefs(h, v).value)
  {
    if v.List? && ParseModelRefs(h, v).Ok? {
      forall i | 0 <= i < |ParseModelRefs(h, v).value| ensures IsRef(ParseModelRefs(h, v).value[i]) {
        if v.items != [] {
          ParsedEach(RefParser(h), v.items, 0);
          ParsedEach(RefParser(h), v.items, i);
          RefParsed(h, v.items[i]);
        }
      }
    }
  }

  lemma RefsRoundTrip(h: Host, refs: seq<ModelRef>)
    requires AreRefs(refs)
    ensures ParseModelRefs(h, List(PrintAll(PrintModelRef, refs))) == Ok(refs)
  {
    ListRoundTrip(RefParser(h), PrintModelRef, refs);
    forall i | 0 <= i < |refs| ensures ComesBack(RefParser(h), PrintModelRef, refs[i]) { RefRoundTrip(h, refs[i]); }
  }

  ghost predicate IsMedia(media: Media) {
    AreRefs(media.fallbacks) && if media.primary.Some? then IsRef(media.primary.value) else media.fallbacks == []
  }

  lemma MediaParsed(h: Host, m: map<string, Json>, key: string)
    ensures ParseMedia(h, m, key).Ok? ==> IsMedia(ParseMedia(h, m, key).value)
  {
    if !Get(m, key).Null? && m[key].Dict? && !Get(m[key].entries, "primary").Null? {
      RefParsed(h, m[key].entries["primary"]);
      RefsParsed(h, Get(m[key].entries, "fallbacks"));
    }
  }

  function Again(media: Media): Result<Media> { if media.primary.Some? then Ok(media) else Rejected }

  /** A printed block always names its primary, so a block without one is refused. */
  lemma MediaRoundTrip(h: Host, m: map<string, Json>, key: string, media: Media)
    requires IsMedia(media) && key in m && m[key] == PrintMedia(media)
    ensures ParseMedia(h, m, key) == Again(media)
  {
    if media.primary.Some? {
      RefRoundTrip(h, media.primary.value);
      RefsRoundTrip(h, media.fallbacks);
    }
  }

  // --- groups -----------------------------------------------------------------------------------

  ghost predicate NoBlanks(xs: seq<string>) { forall i :: 0 <= i < |xs| ==> Strip(xs[i]) != "" }

  ghost predicate AllTrimmed(xs: seq<string>) { forall i :: 0 <= i < |xs| ==> Trimmed(xs[i]) }

  lemma {:induction false} StrippedItems(h: Host, xs: seq<Json>)
    ensures NoBlanks(StripAll(h, xs)) && AllTrimmed(StripAll(h, xs))
  {
    if xs != [] {
      StrippedItems(h, xs[1..]);
      StripTrims(Show(h, xs[0]));
      StripTrims(Strip(Show(h, xs[0])));
    }
  }

  lemma {:induction false} StrippedPrinted(h: Host, xs: seq<string>)
    requires NoBlanks(xs)
    ensures var r := StripAll(h, PrintAll(PrintText, xs));
            |r| == |xs| && forall i :: 0 <= i < |r| ==> r[i] == Strip(xs[i])
  {
    if xs != [] {
      assert PrintAll(PrintText, xs)[1..] == PrintAll(PrintText, xs[1..]);
      StrippedPrinted(h, xs[1..]);
      assert Strip(xs[0]) != "";
    }
  }

  /** An input list comes back exactly when nothing in it is surrounded by white space. */
  lemma StringsRoundTrip(h: Host, xs: seq<string>)
    requires NoBlanks(xs)
    ensures ParseStrings(h, List(PrintAll(PrintText, xs))) == Ok(xs) <==> AllTrimmed(xs)
  {
    StrippedPrinted(h, xs);
    forall i | 0 <= i < |xs| ensures Strip(xs[i]) == xs[i] <==> Trimmed(xs[i]) { StripTrims(xs[i]); }
    var r := StripAll(h, PrintAll(PrintText, xs));
    if AllTrimmed(xs) { assert r == xs; }
  }

  /** What is parsed is trimmed unless it was written as one bare string with white space around it. */
  lemma StringsParsed(h: Host, v: Json)
    ensures ParseStrings(h, v).Ok? ==> NoBlanks(ParseStrings(h, v).value)
    ensures ParseStrings(h, v).Ok? ==>
              (AllTrimmed(ParseStrings(h, v).value) <==> !(v.Str? && Strip(v.text) != "" && !Trimmed(v.text)))
  {
    if v.List? { StrippedItems(h, v.items); }
    if v.Str? && Strip(v.text) != "" {
      var xs := ParseStrings(h, v).value;
      assert xs == [v.text] && xs[0] == v.text;
      assert AllTrimmed(xs) <==> Trimmed(xs[0]);
    }
  }

  ghost predicate IsInfo(info: ModelInfo) { Word(info.id) && NoBlanks(info.input) }

  lemma InfoParsed(h: Host, v: Json)
    ensures ParseModelInfo(h, v).Ok? ==> IsInfo(ParseModelInfo(h, v).value)
  {
    if v.Dict? && !Get(v.entries, "id").Null? {
      StripTrims(Show(h, v.entries["id"]));
      StringsParsed(h, Get(v.entries, "input"));
    }
  }

  ghost predicate InfoFields(m: map<string, Json>, info: ModelInfo) {
    && Get(m, "id") == Str(info.id) && Get(m, "name", Str(info.id)) == Str(info.name)
    && Get(m, "input") == List(PrintAll(PrintText, info.input))
    && Get(m, "reasoning") == (if info.reasoning.Some? then Bool(info.reasoning.value) else Null)
    && Get(m, "contextWindow") == (if info.contextWindow.Some? then Int(info.contextWindow.value) else Null)
    && Get(m, "maxTokens") == (if info.maxTokens.Some? then Int(info.maxTokens.value) else Null)
  }

  lemma InfoPrinted(info: ModelInfo)
    ensures PrintModelInfo(info).Dict? && InfoFields(PrintModelInfo(info).entries, info)
  {}

  lemma InfoReparsed(h: Host, m: map<string, Json>, info: ModelInfo, input: seq<string>)
    requires Word(info.id) && InfoFields(m, info) && ParseStrings(h, Get(m, "input")) == Ok(input)
    ensures ParseModelInfo(h, Dict(m)) == Ok(info.(input := input))
  {
    StripTrims(info.id);
  }

  /** A model comes back exactly when its inputs do. */
  lemma InfoRoundTrip(h: Host, info: ModelInfo)
    requires IsInfo(info)
    ensures ParseModelInfo(h, PrintModelInfo(info)) == Ok(info) <==> AllTrimmed(info.input)
  {
    var input := StripAll(h, PrintAll(PrintText, info.input));
    InfoPrinted(info);
    StringsRoundTrip(h, info.input);
    InfoReparsed(h, PrintModelInfo(info).entries, info, input);
    if info.(input := input) == info { assert input == info.input; }
  }

  ghost predicate IsGroup(h: Host, g: ModelGroup) {
    && Word(g.baseUrl) && h.isUrl(g.baseUrl) && Strip(g.apiKey) != "" && g.models != []
    && (forall i :: 0 <= i < |g.models| ==> IsInfo(g.models[i]))
    && (g.api.Some? ==> Strip(g.api.value) != "")
  }

  ghost predicate InputsTrimmed(g: ModelGroup) { forall i :: 0 <= i < |g.models| ==> AllTrimmed(g.models[i].input) }

  lemma GroupParsed(h: Host, v: Json)
    ensures ParseModelGroup(h, v).Ok? ==> IsGroup(h, ParseModelGroup(h, v).value)
  {
    if ParseModelGroup(h, v).Ok? {
      var m := v.entries;
      StripTrims(Show(h, Or(Get(m, "base_url"), Str(""))));
      var g, items := ParseModelGroup(h, v).value, Get(m, "models").items;
      ParsedEach(InfoParser(h), items, 0);
      forall i | 0 <= i < |g.models| ensures IsInfo(g.models[i]) {
        ParsedEach(InfoParser(h), items, i);
        InfoParsed(h, items[i]);
      }
    }
  }

  ghost predicate GroupFields(m: map<string, Json>, g: ModelGroup) {
    && Get(m, "base_url") == Str(g.baseUrl) && Get(m, "api_key") == Str(g.apiKey)
    && Get(m, "model_name_prefix") == Str(g.prefix)
    && Get(m, "models") == List(PrintAll(PrintModelInfo, g.models))
    && Get(m, "api") == if g.api.Some? then Str(g.api.value) else Null
  }

  lemma GroupPrinted(g: ModelGroup)
    ensures PrintModelGroup(g).Dict? && GroupFields(PrintModelGroup(g).entries, g)
  {}

  /** All of a group but its models comes back as it was. */
  lemma GroupReparsed(h: Host, m: map<string, Json>, g: ModelGroup)
    requires IsGroup(h, g) && GroupFields(m, g)
    ensures var infos := ParseAll(InfoParser(h), PrintAll(PrintModelInfo, g.models));
            ParseModelGroup(h, Dict(m)) == if infos.Rejected? then Rejected else Ok(g.(models := infos.value))
  {
    StripTrims(g.baseUrl);
    PrintsNothingForNothing(PrintModelInfo, g.models);
  }

  lemma ModelsRoundTrip(h: Host, models: seq<ModelInfo>)
    requires forall i :: 0 <= i < |models| ==> IsInfo(models[i])
    ensures ParseAll(InfoParser(h), PrintAll(PrintModelInfo, models)) == Ok(models) <==>
            forall i :: 0 <= i < |models| ==> AllTrimmed(models[i].input)
  {
    ListRoundTrip(InfoParser(h), PrintModelInfo, models);
    forall i | 0 <= i < |models|
      ensures ComesBack(InfoParser(h), PrintModelInfo, models[i]) <==> AllTrimmed(models[i].input)
    {
      InfoRoundTrip(h, models[i]);
    }
  }

  lemma GroupRoundTrip(h: Host, g: ModelGroup)
    requires IsGroup(h, g)
    ensures ParseModelGroup(h, PrintModelGroup(g)) == Ok(g) <==> InputsTrimmed(g)
  {
    GroupPrinted(g);
    GroupReparsed(h, PrintModelGroup(g).entries, g);
    ModelsRoundTrip(h, g.models);
    var infos := ParseAll(InfoParser(h), PrintAll(PrintModelInfo, g.models));
    if infos.Ok? && g.(models := infos.value) == g { assert infos.value == g.models; }
  }

  lemma GroupComesBack(h: Host, g: ModelGroup)
    requires IsGroup(h, g)
    ensures ComesBack(GroupParser(h), PrintModelGroup, g) <==> InputsTrimmed(g)
  {
    GroupRoundTrip(h, g);
  }

  // --- the llm block ----------------------------------------------------------------------------

  ghost predicate AreGroups(h: Host, groups: map<string, ModelGroup>) { forall k :: k in groups ==> IsGroup(h, groups[k]) }

  /** All that is asked of a block but that its refs resolve. */
  ghost predicate LlmShape(h: Host, llm: Llm) {
    && IsRef(llm.primary) && IsRef(llm.secondary) && IsMedia(llm.image) && IsMedia(llm.video) && IsMedia(llm.pdf)
    && (llm.compaction.Some? ==> IsRef(llm.compaction.value))
    && (llm.memoryFlush.Some? ==> IsRef(llm.memoryFlush.value))
    && AreGroups(h, llm.groups)
  }

  ghost predicate IsLlm(h: Host, llm: Llm) { LlmShape(h, llm) && RefsResolve(llm) }

  /** What the parser accepts has trimmed refs that resolve, and well-formed groups. */
  lemma LlmParsed(h: Host, v: Json)
    ensures ParseLlm(h, v).Ok? ==> IsLlm(h, ParseLlm(h, v).value)
  {
    if ParseLlm(h, v).Ok? {
      var m := v.entries;
      RefParsed(h, m["text_model"].entries["primary"]);
      RefParsed(h, m["text_model"].entries["secondary"]);
      MediaParsed(h, m, "image_model");
      MediaParsed(h, m, "video_model");
      MediaParsed(h, m, "pdf_model");
      RefParsed(h, Get(m, "compaction_model"));
      RefParsed(h, Get(m, "memory_flush_model"));
      var groups := Get(m, "groups").entries;
      forall k | k in groups ensures IsGroup(h, GroupParser(h)(groups[k]).value) { GroupParsed(h, groups[k]); }
    }
  }

  predicate HasMedia(llm: Llm) { llm.image.primary.Some? && llm.video.primary.Some? && llm.pdf.primary.Some? }

  ghost predicate LlmTrimmed(llm: Llm) { forall k :: k in llm.groups ==> InputsTrimmed(llm.groups[k]) }

  function PrintGroups(groups: map<string, ModelGroup>): Json { Dict(PrintEach(PrintModelGroup, groups)) }

  lemma GroupsRoundTrip(h: Host, groups: map<string, ModelGroup>)
    requires AreGroups(h, groups)
    ensures ParseGroups(h, PrintGroups(groups)) == Ok(groups) <==> forall k :: k in groups ==> InputsTrimmed(groups[k])
  {
    MapRoundTrip(GroupParser(h), PrintModelGroup, groups);
    forall k | k in groups ensures ComesBack(GroupParser(h), PrintModelGroup, groups[k]) <==> InputsTrimmed(groups[k]) {
      GroupComesBack(h, groups[k]);
    }
  }

  /** The fields of a printed block. */
  ghost predicate LlmFields(m: map<string, Json>, llm: Llm) {
    && Get(m, "text_model") == PrintTextModel(llm.primary, llm.secondary)
    && Get(m, "image_model") == PrintMedia(llm.image) && Get(m, "video_model") == PrintMedia(llm.video)
    && Get(m, "pdf_model") == PrintMedia(llm.pdf)
    && Get(m, "compaction_model") == PrintOptionalModelRef(llm.compaction)
    && Get(m, "memory_flush_model") == PrintOptionalModelRef(llm.memoryFlush)
    && Get(m, "groups") == PrintGroups(llm.groups)
  }

  lemma TextModelRoundTrip(h: Host, primary: ModelRef, secondary: ModelRef)
    requires IsRef(primary) && IsRef(secondary)
    ensures ParseTextModel(h, PrintTextModel(primary, secondary)) == Ok((primary, secondary))
  {
    RefRoundTrip(h, primary);
    RefRoundTrip(h, secondary);
  }

  lemma OptionalRefRoundTrip(h: Host, ref: Option<ModelRef>)
    requires ref.Some? ==> IsRef(ref.value)
    ensures ParseOptionalModelRef(h, PrintOptionalModelRef(ref)) == Ok(ref)
  {
    if ref.Some? { RefRoundTrip(h, ref.value); }
  }

  function WithGroups(llm: Llm, groups: Result<map<string, ModelGroup>>): Result<Llm> {
    if !HasMedia(llm) || groups.Rejected? || !RefsResolve(llm.(groups := groups.value)) then Rejected
    else Ok(llm.(groups := groups.value))
  }

  lemma LlmAssembled(h: Host, m: map<string, Json>, llm: Llm)
    requires ParseTextModel(h, Get(m, "text_model")) == Ok((llm.primary, llm.secondary))
    requires ParseMedia(h, m, "image_model") == Again(llm.image) && ParseMedia(h, m, "video_model") == Again(llm.video)
    requires ParseMedia(h, m, "pdf_model") == Again(llm.pdf)
    requires ParseOptionalModelRef(h, Get(m, "compaction_model")) == Ok(llm.compaction)
    requires ParseOptionalModelRef(h, Get(m, "memory_flush_model")) == Ok(llm.memoryFlush)
    ensures ParseLlm(h, Dict(m)) == WithGroups(llm, ParseGroups(h, Get(m, "groups")))
  {}

  lemma MediasRoundTrip(h: Host, m: map<string, Json>, llm: Llm)
    requires IsMedia(llm.image) && IsMedia(llm.video) && IsMedia(llm.pdf) && LlmFields(m, llm)
    ensures ParseMedia(h, m, "image_model") == Again(llm.image) && ParseMedia(h, m, "video_model") == Again(llm.video)
    ensures ParseMedia(h, m, "pdf_model") == Again(llm.pdf)
  {
    MediaRoundTrip(h, m, "image_model", llm.image);
    MediaRoundTrip(h, m, "video_model", llm.video);
    MediaRoundTrip(h, m, "pdf_model", llm.pdf);
  }

  /** All of a block but its groups comes back as it was, given its media models. */
  lemma LlmReparsed(h: Host, m: map<string, Json>, llm: Llm)
    requires LlmShape(h, llm) && LlmFields(m, llm)
    ensures ParseLlm(h, Dict(m)) == WithGroups(llm, ParseGroups(h, PrintGroups(llm.groups)))
  {
    TextModelRoundTrip(h, llm.primary, llm.secondary);
    OptionalRefRoundTrip(h, llm.compaction);
    OptionalRefRoundTrip(h, llm.memoryFlush);
    MediasRoundTrip(h, m, llm);
    LlmAssembled(h, m, llm);
  }

  lemma LlmPrinted(llm: Llm)
    ensures PrintLlm(llm).Dict? && LlmFields(PrintLlm(llm).entries, llm)
  {}

  lemma LlmRegrouped(h: Host, llm: Llm, groups: Result<map<string, ModelGroup>>)
    requires RefsResolve(llm)
    ensures WithGroups(llm, groups) == Ok(llm) <==> HasMedia(llm) && groups == Ok(llm.groups)
    ensures !HasMedia(llm) ==> WithGroups(llm, groups) == Rejected
  {
    if groups.Ok? && llm.(groups := groups.value) == llm { assert groups.value == llm.groups; }
    if groups == Ok(llm.groups) { assert llm.(groups := groups.value) == llm; }
  }

  lemma LlmRoundTripFields(h: Host, m: map<string, Json>, llm: Llm)
    requires IsLlm(h, llm) && LlmFields(m, llm)
    ensures ParseLlm(h, Dict(m)) == Ok(llm) <==> HasMedia(llm) && LlmTrimmed(llm)
    ensures !HasMedia(llm) ==> ParseLlm(h, Dict(m)) == Rejected
  {
    LlmReparsed(h, m, llm);
    GroupsRoundTrip(h, llm.groups);
    LlmRegrouped(h, llm, ParseGroups(h, PrintGroups(llm.groups)));
  }

  /**
   The other way round: every well-formed block with its media models and trimmed inputs is accepted, namely
   from what is printed for it.
   */
  lemma WellFormedLlmIsAccepted(h: Host, llm: Llm)
    requires IsLlm(h, llm)
    ensures ParseLlm(h, PrintLlm(llm)) == Ok(llm) <==> HasMedia(llm) && LlmTrimmed(llm)
    ensures !HasMedia(llm) ==> ParseLlm(h, PrintLlm(llm)) == Rejected
  {
    LlmPrinted(llm);
    LlmRoundTripFields(h, PrintLlm(llm).entries, llm);
  }

  /**
   For every llm block the parser accepts, parsing what the printer writes for it gives it back exactly when
   all three media models are there and no model input is surrounded by white space; without a media model
   the printed block is refused.
   */
  lemma LlmRoundTrip(h: Host, v: Json)
    ensures ParseLlm(h, v).Ok? ==>
              var llm := ParseLlm(h, v).value;
              && (ParseLlm(h, PrintLlm(llm)) == Ok(llm) <==> HasMedia(llm) && LlmTrimmed(llm))
              && (!HasMedia(llm) ==> ParseLlm(h, PrintLlm(llm)) == Rejected)
  {
    LlmParsed(h, v);
    if ParseLlm(h, v).Ok? { WellFormedLlmIsAccepted(h, ParseLlm(h, v).value); }
  }

  /** Blocks of this kind exist, whatever the host. */
  lemma SomeLlmIsAccepted(h: Host, url: string, ref: ModelRef)
    requires Word(url) && h.isUrl(url) && IsRef(ref)
    ensures exists v :: ParseLlm(h, v).Ok? && HasMedia(ParseLlm(h, v).value)
  {
    var info := ModelInfo(ref.model, "", [], None, None, None);
    var group, media := ModelGroup(url, "k", "", [info], None), Media(Some(ref), []);
    var llm := Llm(ref, ref, media, media, media, None, None, map[ref.group := group]);
    assert IsGroup(h, group) by {
      StripTrims("k");
      assert IsInfo(info);
    }
    assert LlmShape(h, llm) by { assert IsMedia(media); }
    assert RefsResolve(llm) by {
      assert group.models[0].id == ref.model;
      assert Resolves(ref, llm.groups) && MediaResolves(media, llm.groups);
    }
    assert LlmTrimmed(llm);
    WellFormedLlmIsAccepted(h, llm);
  }
}
