/** When a parsed agents block survives being printed and parsed again. */
module ManifestAgents {
  import opened Common
  import opened Text
  import opened Manifest
  import opened ManifestRoundTrip

  // --- references by skill name -----------------------------------------------------------------

  /** Skills of one agent that share a name also share their reference files. */
  ghost predicate SameNameSameFiles(items: seq<Item>) {
    forall i, j :: 0 <= i < |items| && 0 <= j < |items| && items[i].skill.name == items[j].skill.name ==>
      items[i].files == items[j].files
  }

  /** What printing makes of the items: the files of each skill are looked up by its name. */
  function Rejoined(items: seq<Item>): seq<Item> { Joined(SkillsOf(items), ByName(ReferencesOf(items))) }

  lemma {:induction false} ByNameFinds(refs: seq<SkillReferences>)
    ensures forall i :: 0 <= i < |refs| ==> refs[i].name in ByName(refs)
    ensures forall name :: name in ByName(refs) ==> SkillReferences(name, ByName(refs)[name]) in refs
  {
    if refs != [] {
      ByNameFinds(refs[..|refs| - 1]);
      assert refs == refs[..|refs| - 1] + [refs[|refs| - 1]];
    }
  }

  /** Item `i` has the files `x` says. */
  predicate Shows(items: seq<Item>, i: int, x: SkillReferences) {
    0 <= i < |items| && items[i].files != [] && SkillReferences(items[i].skill.name, items[i].files) == x
  }

  lemma {:induction false} ReferencesAre(items: seq<Item>, x: SkillReferences)
    ensures x in ReferencesOf(items) <==> exists i :: Shows(items, i, x)
  {
    if items != [] {
      ReferencesAre(items[1..], x);
      if x in ReferencesOf(items[1..]) {
        var i :| Shows(items[1..], i, x);
        assert Shows(items, i + 1, x);
      } else if x in ReferencesOf(items) {
        assert Shows(items, 0, x);
      }
      if exists i :: Shows(items, i, x) {
        var i :| Shows(items, i, x);
        if i > 0 { assert Shows(items[1..], i - 1, x); }
      }
    }
  }

  /** Looking a skill up by name finds its own files, when skills of one name agree. */
  lemma LookupFinds(items: seq<Item>, i: nat)
    requires SameNameSameFiles(items) && i < |items|
    ensures FilesOf(ByName(ReferencesOf(items)), items[i].skill.name) == items[i].files
  {
    var refs, name := ReferencesOf(items), items[i].skill.name;
    ByNameFinds(refs);
    if items[i].files != [] {
      ReferencesAre(items, SkillReferences(name, items[i].files));
      assert Shows(items, i, SkillReferences(name, items[i].files));
    }
    if name in ByName(refs) {
      var x := SkillReferences(name, ByName(refs)[name]);
      ReferencesAre(items, x);
      var j :| Shows(items, j, x);
      assert items[j].files == items[i].files;
    }
  }

  /** Files looked up under a name that has some: the printed list is at least as long, item by item. */
  ghost predicate Covers(files: map<string, seq<Reference>>, items: seq<Item>) {
    && (forall name :: name in files ==> files[name] != [])
    && (forall i :: 0 <= i < |items| && items[i].files != [] ==> items[i].skill.name in files)
  }

  /** Of two lists whose heads bear one name, the first having at least as many files to show. */
  lemma ReferencesStep(a: Item, others: seq<Item>, b: Item, bs: seq<Item>)
    requires a.skill == b.skill && (b.files != [] ==> a.files != []) && |ReferencesOf(others)| >= |ReferencesOf(bs)|
    ensures |ReferencesOf([a] + others)| >= |ReferencesOf([b] + bs)|
    ensures ReferencesOf([a] + others) == ReferencesOf([b] + bs) ==> a.files == b.files && ReferencesOf(others) == ReferencesOf(bs)
  {
    assert ([a] + others)[1..] == others && ([b] + bs)[1..] == bs;
    var x, y := ReferencesOf([a] + others), ReferencesOf([b] + bs);
    if x == y {
      if b.files == [] {
        assert y == ReferencesOf(bs);
        assert a.files == [];
        assert x == ReferencesOf(others);
      } else {
        assert x[0] == y[0] && x[1..] == y[1..] && x[1..] == ReferencesOf(others) && y[1..] == ReferencesOf(bs);
      }
    }
  }

  lemma {:induction false} LookupNeeds(files: map<string, seq<Reference>>, items: seq<Item>)
    requires Covers(files, items)
    ensures |ReferencesOf(Joined(SkillsOf(items), files))| >= |ReferencesOf(items)|
    ensures ReferencesOf(Joined(SkillsOf(items), files)) == ReferencesOf(items) ==>
              forall i :: 0 <= i < |items| ==> FilesOf(files, items[i].skill.name) == items[i].files
  {
    if items != [] {
      var rest, all := items[1..], Joined(SkillsOf(items), files);
      LookupNeeds(files, rest);
      assert all[1..] == Joined(SkillsOf(rest), files) && all[0].skill == items[0].skill;
      ReferencesStep(all[0], all[1..], items[0], rest);
      assert all == [all[0]] + all[1..] && items == [items[0]] + rest;
      if ReferencesOf(all) == ReferencesOf(items) {
        forall i | 0 <= i < |items| ensures FilesOf(files, items[i].skill.name) == items[i].files {
          if i > 0 { assert items[i] == rest[i - 1]; }
        }
      }
    }
  }

  /** Printing keeps the items' references exactly when skills of one name agree. */
  lemma RejoinedReferences(items: seq<Item>)
    ensures ReferencesOf(Rejoined(items)) == ReferencesOf(items) <==> SameNameSameFiles(items)
    ensures SkillsOf(Rejoined(items)) == SkillsOf(items)
  {
    var refs := ReferencesOf(items);
    if SameNameSameFiles(items) {
      forall i | 0 <= i < |items| ensures Rejoined(items)[i] == items[i] { LookupFinds(items, i); }
      assert Rejoined(items) == items;
    }
    if ReferencesOf(Rejoined(items)) == refs {
      ByNameFinds(refs);
      forall name | name in ByName(refs) ensures ByName(refs)[name] != [] {
        ReferencesAre(items, SkillReferences(name, ByName(refs)[name]));
      }
      forall i | 0 <= i < |items| && items[i].files != [] ensures items[i].skill.name in ByName(refs) {
        ReferencesAre(items, SkillReferences(items[i].skill.name, items[i].files));
        assert Shows(items, i, SkillReferences(items[i].skill.name, items[i].files));
      }
      LookupNeeds(ByName(refs), items);
    }
  }

  // --- skills -----------------------------------------------------------------------------------

  ghost predicate AreReferences(files: seq<Reference>) { forall i :: 0 <= i < |files| ==> Word(files[i].path) }

  ghost predicate IsItem(item: Item) { Word(item.skill.name) && AreReferences(item.files) }

  lemma ReferenceRoundTrip(h: Host, ref: Reference)
    requires Word(ref.path)
    ensures ComesBack(ReferenceParser(h), PrintReference, ref)
  {
    StripTrims(ref.path);
    var m := PrintReference(ref).entries;
    assert Get(m, "path") == Str(ref.path) && Get(m, "content") == Str(ref.content);
    assert ParseReference(h, PrintReference(ref)) == Ok(ref);
  }

  lemma ReferencesParsed(h: Host, v: Json)
    ensures ParseReferences(h, v).Ok? ==> AreReferences(ParseReferences(h, v).value)
  {
    if v.List? && ParseReferences(h, v).Ok? {
      var files := ParseReferences(h, v).value;
      forall i | 0 <= i < |files| ensures Word(files[i].path) {
        if v.items != [] {
          ParsedEach(ReferenceParser(h), v.items, 0);
          ParsedEach(ReferenceParser(h), v.items, i);
          StripTrims(Show(h, Or(Get(v.items[i].entries, "path"), Str(""))));
        }
      }
    }
  }

  lemma ReferencesRoundTrip(h: Host, files: seq<Reference>)
    requires AreReferences(files)
    ensures ParseReferences(h, List(PrintAll(PrintReference, files))) == Ok(files)
  {
    ListRoundTrip(ReferenceParser(h), PrintReference, files);
    forall i | 0 <= i < |files| ensures ComesBack(ReferenceParser(h), PrintReference, files[i]) {
      ReferenceRoundTrip(h, files[i]);
    }
  }

  lemma ItemParsed(h: Host, v: Json)
    ensures ParseItem(h, v).Ok? ==> IsItem(ParseItem(h, v).value)
  {
    if v.Dict? {
      StripTrims(Show(h, Or(Get(v.entries, "name"), Str(""))));
      ReferencesParsed(h, Get(v.entries, "references"));
    }
  }

  lemma ItemRoundTrip(h: Host, item: Item)
    requires IsItem(item)
    ensures ComesBack(ItemParser(h), PrintItem, item)
  {
    StripTrims(item.skill.name);
    ReferencesRoundTrip(h, item.files);
    var m := PrintItem(item).entries;
    assert Get(m, "name") == Str(item.skill.name) && Get(m, "content") == Str(item.skill.content);
    assert Get(m, "references") == if item.files == [] then Null else List(PrintAll(PrintReference, item.files));
    assert ParseItem(h, PrintItem(item)) == Ok(item);
  }

  ghost predicate AreItems(items: seq<Item>) { forall i :: 0 <= i < |items| ==> IsItem(items[i]) }

  lemma ItemsParsed(h: Host, v: Json)
    requires ParseItems(h, v).Ok?
    ensures AreItems(ParseItems(h, v).value)
  {
    var raw, items := Or(v, List([])).items, ParseItems(h, v).value;
    forall i | 0 <= i < |items| ensures IsItem(items[i]) {
      if raw != [] {
        ParsedEach(ItemParser(h), raw, 0);
        ParsedEach(ItemParser(h), raw, i);
        ItemParsed(h, raw[i]);
      }
    }
  }

  lemma ItemsOfList(h: Host, xs: seq<Json>)
    ensures ParseItems(h, List(xs)) == ParseAll(ItemParser(h), xs)
  {}

  lemma ItemsRoundTrip(h: Host, items: seq<Item>)
    requires AreItems(items)
    ensures ParseItems(h, List(PrintAll(PrintItem, items))) == Ok(items)
  {
    ItemsOfList(h, PrintAll(PrintItem, items));
    ListRoundTrip(ItemParser(h), PrintItem, items);
    forall i | 0 <= i < |items| ensures ComesBack(ItemParser(h), PrintItem, items[i]) { ItemRoundTrip(h, items[i]); }
  }

  /** The files found by name are still lists of well-formed references. */
  lemma RejoinedAreItems(items: seq<Item>)
    requires AreItems(items)
    ensures AreItems(Rejoined(items))
  {
    var refs := ReferencesOf(items);
    ByNameFinds(refs);
    forall i | 0 <= i < |items| ensures IsItem(Rejoined(items)[i]) {
      var name := items[i].skill.name;
      assert IsItem(items[i]);
      if name in ByName(refs) { ReferencesAre(items, SkillReferences(name, ByName(refs)[name])); }
    }
  }

  // --- contents ---------------------------------------------------------------------------------

  ghost predicate IsText(s: Option<string>) { s != Some("") }

  ghost predicate IsContent(c: Content, items: seq<Item>) {
    && Strip(c.instructions) != "" && IsText(c.soul) && IsText(c.identity) && IsText(c.userContext)
    && IsText(c.toolsDoc) && IsText(c.heartbeat)
    && AreItems(items) && c.skills == SkillsOf(items) && c.references == ReferencesOf(items)
  }

  /** The items a content was written with. */
  function WrittenItems(h: Host, v: Json): seq<Item> {
    if v.Dict? && ParseItems(h, Get(v.entries, "skills")).Ok? then ParseItems(h, Get(v.entries, "skills")).value else []
  }

  lemma ContentParsed(h: Host, v: Json)
    requires ParseContent(h, v).Ok?
    ensures IsContent(ParseContent(h, v).value, WrittenItems(h, v))
  {
    ItemsParsed(h, Get(v.entries, "skills"));
  }

  ghost predicate ContentFields(m: map<string, Json>, c: Content) {
    && Get(m, "instructions") == Str(c.instructions) && Get(m, "soul") == PrintOptionalText(c.soul)
    && Get(m, "identity") == PrintOptionalText(c.identity) && Get(m, "user_context") == PrintOptionalText(c.userContext)
    && Get(m, "tools_doc") == PrintOptionalText(c.toolsDoc) && Get(m, "heartbeat") == PrintOptionalText(c.heartbeat)
    && Get(m, "skills") == List(PrintAll(PrintItem, Joined(c.skills, ByName(c.references))))
  }

  lemma ContentPrinted(c: Content)
    ensures PrintContent(c).Dict? && ContentFields(PrintContent(c).entries, c)
  {}

  lemma TextRoundTrip(h: Host, s: Option<string>)
    requires IsText(s)
    ensures ParseOptionalText(h, PrintOptionalText(s)) == s
  {}

  lemma ContentRoundTripFields(h: Host, m: map<string, Json>, c: Content, items: seq<Item>)
    requires IsContent(c, items) && ContentFields(m, c)
    ensures ParseContent(h, Dict(m)) == Ok(c.(references := ReferencesOf(Rejoined(items))))
  {
    RejoinedAreItems(items);
    ItemsRoundTrip(h, Rejoined(items));
    RejoinedReferences(items);
    TextRoundTrip(h, c.soul);
    TextRoundTrip(h, c.identity);
    TextRoundTrip(h, c.userContext);
    TextRoundTrip(h, c.toolsDoc);
    TextRoundTrip(h, c.heartbeat);
  }

  /** A content always comes back, but with the references its skills are found to have by name. */
  lemma ContentRoundTrip(h: Host, c: Content, items: seq<Item>)
    requires IsContent(c, items)
    ensures ParseContent(h, PrintContent(c)) == Ok(c.(references := ReferencesOf(Rejoined(items))))
    ensures c.(references := ReferencesOf(Rejoined(items))) == c <==> SameNameSameFiles(items)
  {
    ContentPrinted(c);
    ContentRoundTripFields(h, PrintContent(c).entries, c, items);
    RejoinedReferences(items);
    if c.(references := ReferencesOf(Rejoined(items))) == c { assert ReferencesOf(Rejoined(items)) == c.references; }
  }

  // --- agents -----------------------------------------------------------------------------------

  ghost predicate IsSpec(spec: AgentSpec, items: seq<Item>) {
    && Word(spec.id) && Word(spec.name) && IsModelRole(spec.model) && Word(spec.thinking) && IsContent(spec.content, items)
  }

  ghost predicate IsDefaults(d: Defaults) { Word(d.thinking) && Word(d.reasoning) && IsModelRole(d.model) }

  function WrittenSkills(h: Host, spec: Json): seq<Item> {
    if spec.Dict? then WrittenItems(h, Get(spec.entries, "content")) else []
  }

  lemma WordParsed(h: Host, v: Json, default: string)
    requires Word(default)
    ensures Word(ParseWord(h, v, default))
  {
    StripTrims(Show(h, Or(v, Str(default))));
  }

  lemma WordRoundTrip(h: Host, s: string, default: string)
    requires Word(s)
    ensures ParseWord(h, Str(s), default) == s && Strip(s) == s
  {
    StripTrims(s);
  }

  lemma SpecParsed(h: Host, d: Defaults, entry: bool, ids: seq<string>, v: Json)
    requires ParseAgentSpec(h, d, entry, ids, v).Ok? && IsDefaults(d)
    ensures IsSpec(ParseAgentSpec(h, d, entry, ids, v).value, WrittenSkills(h, v))
  {
    var m := v.entries;
    StripTrims(Show(h, Or(Get(m, "id"), Str(""))));
    StripTrims(Show(h, Or(Get(m, "name"), Str(""))));
    StripTrims(Show(h, Get(m, "thinking")));
    ContentParsed(h, Get(m, "content"));
  }

  ghost predicate SpecFields(m: map<string, Json>, spec: AgentSpec) {
    && Get(m, "id") == Str(spec.id) && Get(m, "name") == Str(spec.name) && Get(m, "model") == Str(spec.model)
    && Get(m, "thinking") == Str(spec.thinking) && Get(m, "browser_enabled") == Bool(spec.browser)
    && Get(m, "image_generation") == Bool(spec.image) && Get(m, "video_generation") == Bool(spec.video)
  }

  lemma SpecPrinted(spec: AgentSpec)
    ensures PrintAgentSpec(spec).Dict? && SpecFields(PrintAgentSpec(spec).entries, spec)
    ensures Get(PrintAgentSpec(spec).entries, "content") == PrintContent(spec.content)
  {}

  function Again(spec: AgentSpec, items: seq<Item>): AgentSpec {
    spec.(content := spec.content.(references := ReferencesOf(Rejoined(items))))
  }

  lemma SpecAssembled(h: Host, d: Defaults, m: map<string, Json>, spec: AgentSpec, c: Content)
    requires Word(spec.id) && Word(spec.name) && Word(spec.thinking) && Word(spec.model) && IsModelRole(spec.model)
    requires SpecFields(m, spec) && ParseContent(h, Get(m, "content")) == Ok(c)
    ensures ParseAgentSpec(h, d, spec.isEntryPoint, spec.subagentIds, Dict(m)) == Ok(spec.(content := c))
  {
    WordRoundTrip(h, spec.id, "");
    WordRoundTrip(h, spec.name, "");
    WordRoundTrip(h, spec.model, d.model);
    WordRoundTrip(h, spec.thinking, d.thinking);
  }

  lemma RolesAreWords(s: string)
    requires IsModelRole(s)
    ensures Word(s)
  {
    assert s == "primary" || s == "secondary";
  }

  /** An agent comes back, whatever the defaults, exactly when its same-named skills agree. */
  lemma SpecRoundTrip(h: Host, d: Defaults, spec: AgentSpec, items: seq<Item>)
    requires IsSpec(spec, items)
    ensures ParseAgentSpec(h, d, spec.isEntryPoint, spec.subagentIds, PrintAgentSpec(spec)) == Ok(Again(spec, items))
    ensures Again(spec, items) == spec <==> SameNameSameFiles(items)
  {
    SpecPrinted(spec);
    ContentRoundTrip(h, spec.content, items);
    RolesAreWords(spec.model);
    SpecAssembled(h, d, PrintAgentSpec(spec).entries, spec, spec.content.(references := ReferencesOf(Rejoined(items))));
    if Again(spec, items) == spec { assert Again(spec, items).content == spec.content; }
  }

  /** The items each agent of a list was written with. */
  ghost predicate AreSpecs(specs: seq<AgentSpec>, written: seq<seq<Item>>) {
    && |written| == |specs|
    && forall i :: 0 <= i < |specs| ==> IsSpec(specs[i], written[i]) && !specs[i].isEntryPoint && specs[i].subagentIds == []
  }

  function AllAgain(specs: seq<AgentSpec>, written: seq<seq<Item>>): seq<AgentSpec>
    requires |written| == |specs|
  {
    seq(|specs|, i requires 0 <= i < |specs| => Again(specs[i], written[i]))
  }

  lemma SubagentAgain(h: Host, d: Defaults, spec: AgentSpec, items: seq<Item>)
    requires IsSpec(spec, items) && !spec.isEntryPoint && spec.subagentIds == []
    ensures Gives(SubagentParser(h, d), PrintAgentSpec, spec, Again(spec, items))
  {
    SpecRoundTrip(h, d, spec, items);
  }

  lemma SpecsReparsed(h: Host, d: Defaults, specs: seq<AgentSpec>, written: seq<seq<Item>>)
    requires AreSpecs(specs, written)
    ensures ParseAll(SubagentParser(h, d), PrintAll(PrintAgentSpec, specs)) == Ok(AllAgain(specs, written))
  {
    forall i | 0 <= i < |specs| ensures Gives(SubagentParser(h, d), PrintAgentSpec, specs[i], AllAgain(specs, written)[i]) {
      SubagentAgain(h, d, specs[i], written[i]);
    }
    ListGives(SubagentParser(h, d), PrintAgentSpec, specs, AllAgain(specs, written));
  }

  /** Nothing is lost exactly when the same-named skills of every agent agree. */
  lemma SpecsKept(specs: seq<AgentSpec>, written: seq<seq<Item>>)
    requires AreSpecs(specs, written)
    ensures AllAgain(specs, written) == specs <==> forall i :: 0 <= i < |specs| ==> SameNameSameFiles(written[i])
    ensures IdsOf(AllAgain(specs, written)) == IdsOf(specs)
  {
    var h, d := Host(_ => "", _ => true, _ => None), Defaults("", "", "", true, true, true);
    forall i | 0 <= i < |specs| ensures Again(specs[i], written[i]) == specs[i] <==> SameNameSameFiles(written[i]) {
      SpecRoundTrip(h, d, specs[i], written[i]);
    }
    if AllAgain(specs, written) == specs {
      forall i | 0 <= i < |specs| ensures SameNameSameFiles(written[i]) { assert AllAgain(specs, written)[i] == specs[i]; }
    }
  }

  // --- the agents block -------------------------------------------------------------------------

  function RawSubagents(v: Json): seq<Json> {
    if v.Dict? && Or(Get(v.entries, "subagents"), List([])).List? then Or(Get(v.entries, "subagents"), List([])).items else []
  }

  function MainSkills(h: Host, v: Json): seq<Item> { if v.Dict? then WrittenSkills(h, Get(v.entries, "main_agent")) else [] }

  function SubagentSkills(h: Host, v: Json): seq<seq<Item>> {
    seq(|RawSubagents(v)|, i requires 0 <= i < |RawSubagents(v)| => WrittenSkills(h, RawSubagents(v)[i]))
  }

  /** In every agent of the block, skills that share a name also share their reference files. */
  ghost predicate SkillsAgree(h: Host, v: Json) {
    && SameNameSameFiles(MainSkills(h, v))
    && forall i :: 0 <= i < |SubagentSkills(h, v)| ==> SameNameSameFiles(SubagentSkills(h, v)[i])
  }

  ghost predicate IsAgents(a: Agents, main: seq<Item>, written: seq<seq<Item>>) {
    && IsDefaults(a.defaults) && Word(a.every) && Word(a.target)
    && IsSpec(a.mainAgent, main) && a.mainAgent.isEntryPoint && a.mainAgent.subagentIds == IdsOf(a.subagents)
    && AreSpecs(a.subagents, written) && Unique([a.mainAgent.id] + IdsOf(a.subagents))
  }

  lemma SubagentsParsed(h: Host, d: Defaults, v: Json)
    requires IsDefaults(d) && v.Dict? && ParseSubagents(h, d, Get(v.entries, "subagents")).Ok?
    ensures AreSpecs(ParseSubagents(h, d, Get(v.entries, "subagents")).value, SubagentSkills(h, v))
  {
    var raw, specs := RawSubagents(v), ParseSubagents(h, d, Get(v.entries, "subagents")).value;
    if raw != [] { ParsedEach(SubagentParser(h, d), raw, 0); }
    forall i | 0 <= i < |specs|
      ensures |specs| == |raw| && IsSpec(specs[i], SubagentSkills(h, v)[i]) && !specs[i].isEntryPoint && specs[i].subagentIds == []
    {
      ParsedEach(SubagentParser(h, d), raw, i);
      SpecParsed(h, d, false, [], raw[i]);
    }
  }

  lemma LiteralsAreWords()
    ensures Word("adaptive") && Word("off") && Word("primary") && Word("0m") && Word("none")
  {}

  lemma DefaultWordsParsed(h: Host, m: map<string, Json>)
    ensures Word(ParseWord(h, Get(m, "thinking_default"), "adaptive")) && Word(ParseWord(h, Get(m, "reasoning_default"), "off"))
  {
    LiteralsAreWords();
    WordParsed(h, Get(m, "thinking_default"), "adaptive");
    WordParsed(h, Get(m, "reasoning_default"), "off");
  }

  lemma DefaultsParsed(h: Host, m: map<string, Json>)
    requires IsModelRole(ParseDefaults(h, m).model)
    ensures IsDefaults(ParseDefaults(h, m))
  {
    DefaultWordsParsed(h, m);
  }

  function Heartbeat(m: map<string, Json>): map<string, Json> {
    if Get(m, "heartbeat").Dict? then m["heartbeat"].entries else map[]
  }

  /** The parts an accepted block was parsed from. */
  ghost predicate AgentsParts(h: Host, m: map<string, Json>, a: Agents) {
    && a.defaults == ParseDefaults(h, m) && IsModelRole(a.defaults.model)
    && ParseSubagents(h, a.defaults, Get(m, "subagents")) == Ok(a.subagents)
    && ParseAgentSpec(h, a.defaults, true, IdsOf(a.subagents), Get(m, "main_agent")) == Ok(a.mainAgent)
    && a.every == ParseWord(h, Get(Heartbeat(m), "every"), "0m")
    && a.target == ParseWord(h, Get(Heartbeat(m), "target"), "none")
    && Unique([a.mainAgent.id] + IdsOf(a.subagents))
  }

  lemma AgentsTakenApart(h: Host, v: Json)
    ensures ParseAgents(h, v).Ok? ==> v.Dict? && AgentsParts(h, v.entries, ParseAgents(h, v).value)
  {}

  lemma EntryParsed(h: Host, d: Defaults, ids: seq<string>, v: Json)
    requires ParseAgentSpec(h, d, true, ids, v).Ok? && IsDefaults(d)
    ensures var spec := ParseAgentSpec(h, d, true, ids, v).value;
            IsSpec(spec, WrittenSkills(h, v)) && spec.isEntryPoint && spec.subagentIds == ids
  {
    SpecParsed(h, d, true, ids, v);
  }

  lemma HeartbeatParsed(h: Host, m: map<string, Json>)
    ensures Word(ParseWord(h, Get(m, "every"), "0m")) && Word(ParseWord(h, Get(m, "target"), "none"))
  {
    LiteralsAreWords();
    WordParsed(h, Get(m, "every"), "0m");
    WordParsed(h, Get(m, "target"), "none");
  }

  lemma WordsParsed(h: Host, m: map<string, Json>, a: Agents)
    requires AgentsParts(h, m, a)
    ensures IsDefaults(a.defaults) && Word(a.every) && Word(a.target)
  {
    DefaultsParsed(h, m);
    HeartbeatParsed(h, Heartbeat(m));
  }

  lemma MainParsed(h: Host, v: Json, a: Agents)
    requires v.Dict? && AgentsParts(h, v.entries, a) && IsDefaults(a.defaults)
    ensures IsSpec(a.mainAgent, MainSkills(h, v)) && a.mainAgent.isEntryPoint && a.mainAgent.subagentIds == IdsOf(a.subagents)
  {
    EntryParsed(h, a.defaults, IdsOf(a.subagents), Get(v.entries, "main_agent"));
  }

  lemma OthersParsed(h: Host, v: Json, a: Agents)
    requires v.Dict? && AgentsParts(h, v.entries, a) && IsDefaults(a.defaults)
    ensures AreSpecs(a.subagents, SubagentSkills(h, v))
  {
    SubagentsParsed(h, a.defaults, v);
  }

  lemma AgentsParsed(h: Host, v: Json)
    ensures ParseAgents(h, v).Ok? ==> IsAgents(ParseAgents(h, v).value, MainSkills(h, v), SubagentSkills(h, v))
  {
    if ParseAgents(h, v).Ok? {
      var a := ParseAgents(h, v).value;
      AgentsTakenApart(h, v);
      WordsParsed(h, v.entries, a);
      MainParsed(h, v, a);
      OthersParsed(h, v, a);
    }
  }

  ghost predicate WordFields(m: map<string, Json>, d: Defaults) {
    && Get(m, "thinking_default") == Str(d.thinking) && Get(m, "reasoning_default") == Str(d.reasoning)
    && Get(m, "model_default") == Str(d.model)
  }

  ghost predicate FlagFields(m: map<string, Json>, d: Defaults) {
    && Get(m, "browser_enabled_default", Bool(true)) == Bool(d.browser)
    && Get(m, "image_generation_default", Bool(false)) == Bool(d.image)
    && Get(m, "video_generation_default", Bool(false)) == Bool(d.video)
  }

  function PrintHeartbeat(a: Agents): map<string, Json> { map["every" := Str(a.every), "target" := Str(a.target)] }

  lemma WordsPrinted(a: Agents)
    ensures PrintAgents(a).Dict? && WordFields(PrintAgents(a).entries, a.defaults)
  {}

  lemma FlagsPrinted(a: Agents)
    ensures PrintAgents(a).Dict? && FlagFields(PrintAgents(a).entries, a.defaults)
  {}

  lemma AgentsPrinted(a: Agents)
    ensures PrintAgents(a).Dict?
    ensures Get(PrintAgents(a).entries, "heartbeat") == Dict(PrintHeartbeat(a))
    ensures Get(PrintAgents(a).entries, "main_agent") == PrintAgentSpec(a.mainAgent)
    ensures Get(PrintAgents(a).entries, "subagents") == List(PrintAll(PrintAgentSpec, a.subagents))
  {}

  lemma DefaultsRoundTrip(h: Host, m: map<string, Json>, d: Defaults)
    requires IsDefaults(d) && WordFields(m, d) && FlagFields(m, d)
    ensures ParseDefaults(h, m) == d
  {
    RolesAreWords(d.model);
    WordRoundTrip(h, d.thinking, "adaptive");
    WordRoundTrip(h, d.reasoning, "off");
    WordRoundTrip(h, d.model, "primary");
  }

  lemma SubagentsOfList(h: Host, d: Defaults, xs: seq<Json>)
    ensures ParseSubagents(h, d, List(xs)) == ParseAll(SubagentParser(h, d), xs)
  {
    assert Or(List(xs), List([])) == List(xs);
  }

  lemma HeartbeatRoundTrip(h: Host, a: Agents)
    requires Word(a.every) && Word(a.target)
    ensures ParseWord(h, Get(PrintHeartbeat(a), "every"), "0m") == a.every
    ensures ParseWord(h, Get(PrintHeartbeat(a), "target"), "none") == a.target
  {
    WordRoundTrip(h, a.every, "0m");
    WordRoundTrip(h, a.target, "none");
    assert Get(PrintHeartbeat(a), "every") == Str(a.every) && Get(PrintHeartbeat(a), "target") == Str(a.target);
  }

  /** The parser's last steps, its parts given. */
  lemma AgentsAssembled(h: Host, m: map<string, Json>, a: Agents, main: AgentSpec, subagents: seq<AgentSpec>)
    requires Word(a.every) && Word(a.target) && IsModelRole(a.defaults.model) && ParseDefaults(h, m) == a.defaults
    requires Get(m, "heartbeat") == Dict(PrintHeartbeat(a))
    requires ParseSubagents(h, a.defaults, Get(m, "subagents")) == Ok(subagents)
    requires ParseAgentSpec(h, a.defaults, true, IdsOf(subagents), Get(m, "main_agent")) == Ok(main)
    requires Unique([main.id] + IdsOf(subagents))
    ensures ParseAgents(h, Dict(m)) == Ok(a.(mainAgent := main, subagents := subagents))
  {
    HeartbeatRoundTrip(h, a);
  }

  lemma AgentsReparsed(h: Host, a: Agents, main: seq<Item>, written: seq<seq<Item>>)
    requires IsAgents(a, main, written)
    ensures ParseAgents(h, PrintAgents(a)) ==
            Ok(a.(mainAgent := Again(a.mainAgent, main), subagents := AllAgain(a.subagents, written)))
  {
    var m, d, printed := PrintAgents(a).entries, a.defaults, PrintAll(PrintAgentSpec, a.subagents);
    WordsPrinted(a);
    FlagsPrinted(a);
    AgentsPrinted(a);
    DefaultsRoundTrip(h, m, d);
    SpecsReparsed(h, d, a.subagents, written);
    SpecsKept(a.subagents, written);
    SubagentsOfList(h, d, printed);
    SpecRoundTrip(h, d, a.mainAgent, main);
    AgentsAssembled(h, m, a, Again(a.mainAgent, main), AllAgain(a.subagents, written));
  }

  /** Every well-formed block is accepted from what is printed for it, and given back when its skills agree. */
  lemma WellFormedAgentsAreAccepted(h: Host, a: Agents, main: seq<Item>, written: seq<seq<Item>>)
    requires IsAgents(a, main, written)
    ensures ParseAgents(h, PrintAgents(a)).Ok?
    ensures ParseAgents(h, PrintAgents(a)) == Ok(a) <==>
            SameNameSameFiles(main) && forall i :: 0 <= i < |written| ==> SameNameSameFiles(written[i])
  {
    AgentsReparsed(h, a, main, written);
    AgentsKept(h, a, main, written);
  }

  /**
   For every agents block the parser accepts, parsing what the printer writes for it gives it back exactly
   when, within each agent, skills that share a name share their reference files.
   */
  lemma AgentsRoundTrip(h: Host, v: Json)
    ensures ParseAgents(h, v).Ok? ==>
              var a := ParseAgents(h, v).value;
              (ParseAgents(h, PrintAgents(a)) == Ok(a) <==> SkillsAgree(h, v))
  {
    AgentsParsed(h, v);
    if ParseAgents(h, v).Ok? {
      WellFormedAgentsAreAccepted(h, ParseAgents(h, v).value, MainSkills(h, v), SubagentSkills(h, v));
    }
  }

  lemma AgentsKept(h: Host, a: Agents, main: seq<Item>, written: seq<seq<Item>>)
    requires IsAgents(a, main, written)
    ensures a.(mainAgent := Again(a.mainAgent, main), subagents := AllAgain(a.subagents, written)) == a <==>
            SameNameSameFiles(main) && forall i :: 0 <= i < |written| ==> SameNameSameFiles(written[i])
  {
    var b := a.(mainAgent := Again(a.mainAgent, main), subagents := AllAgain(a.subagents, written));
    SpecRoundTrip(h, a.defaults, a.mainAgent, main);
    SpecsKept(a.subagents, written);
    if b == a { assert b.mainAgent == a.mainAgent && b.subagents == a.subagents; }
  }

  ghost predicate DistinctSkills(c: Content) {
    forall i, j :: 0 <= i < j < |c.skills| ==> c.skills[i].name != c.skills[j].name
  }

  ghost predicate AllDistinct(a: Agents) {
    && DistinctSkills(a.mainAgent.content)
    && forall i :: 0 <= i < |a.subagents| ==> DistinctSkills(a.subagents[i].content)
  }

  /** In particular every parsed block whose agents name each skill once comes back. */
  lemma DistinctSkillsRoundTrip(h: Host, v: Json)
    ensures ParseAgents(h, v).Ok? && AllDistinct(ParseAgents(h, v).value) ==>
              ParseAgents(h, PrintAgents(ParseAgents(h, v).value)) == Ok(ParseAgents(h, v).value)
  {
    AgentsParsed(h, v);
    if ParseAgents(h, v).Ok? && AllDistinct(ParseAgents(h, v).value) {
      var a, main, written := ParseAgents(h, v).value, MainSkills(h, v), SubagentSkills(h, v);
      DistinctAgree(a.mainAgent.content, main);
      forall i | 0 <= i < |written| ensures SameNameSameFiles(written[i]) {
        DistinctAgree(a.subagents[i].content, written[i]);
      }
      WellFormedAgentsAreAccepted(h, a, main, written);
    }
  }

  lemma DistinctAgree(c: Content, items: seq<Item>)
    requires DistinctSkills(c) && c.skills == SkillsOf(items)
    ensures SameNameSameFiles(items)
  {
    forall i, j | 0 <= i < |items| && 0 <= j < |items| && items[i].skill.name == items[j].skill.name
      ensures items[i].files == items[j].files
    {
      assert c.skills[i] == items[i].skill && c.skills[j] == items[j].skill;
      assert !(i < j) && !(j < i);
    }
  }

  /** The exception is real: of two skills with one name, the second takes over the files of the first. */
  lemma SharedNameSharesFiles(name: string, file: Reference)
    ensures var items := [Item(Skill(name, "a"), [file]), Item(Skill(name, "b"), [])];
            ReferencesOf(items) == [SkillReferences(name, [file])]
            && ReferencesOf(Rejoined(items)) == [SkillReferences(name, [file]), SkillReferences(name, [file])]
  {
    var first, second := Item(Skill(name, "a"), [file]), Item(Skill(name, "b"), []);
    var items := [first, second];
    assert items[1..] == [second] && ReferencesOf([second]) == [];
    var refs := ReferencesOf(items);
    assert refs[..0] == [] && ByName(refs) == map[name := [file]];
    var all := Rejoined(items);
    assert all[1..] == [Item(Skill(name, "b"), [file])] && all[1..][1..] == [];
  }
}
