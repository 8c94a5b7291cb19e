/**
 `start`, `restart` and `update_manifest` of `supervisor_manager.py`: how a manifest becomes the bundle the
 gateway runs on, and which config version is recorded as applied.

 A bundle is staged on disk and goes live when a process start or `apply-bundle` copies it. Rendering a
 manifest is the function `render`; what fails, how far a failing write or copy gets and whether the version
 file can be written are inputs. A process that starts copies the staged bundle whole.
 */
module BundleActivation {
  import opened Common
  import opened Text
  import ProxyEnv

  /** The `meta` block of `openclaw.json`: absent, a mapping, or something else. */
  datatype Meta = NoMeta | Block(stamp: nat) | Odd(value: nat)

  datatype Config = Missing | Unparsable | Parsed(body: nat, meta: Meta)

  datatype Parts = Parts(config: Config, workspaces: map<string, string>, skills: map<string, string>)

  datatype Manifest = Manifest(content: nat, proxy: string)

  /** `cloud` gives the manifest of each config version; a failed build is `None`. */
  datatype World = World(cloud: nat -> Manifest, render: Manifest -> Option<Parts>)

  /** `env` is the text of `runtime.env`, `process` the proxy the running processes were started with. */
  datatype State = State(staged: Parts, env: Option<string>, live: Parts, process: Option<string>, recorded: Option<nat>)

  datatype Outcome = Completed | Rejected | Failed

  // --- comparison -------------------------------------------------------------------------------

  /** `_openclaw_config_payload_signature`: of `meta` only its kind counts. */
  predicate SameConfig(a: Config, b: Config) {
    && a.Parsed? && b.Parsed? && a.body == b.body
    && a.meta.NoMeta? == b.meta.NoMeta? && a.meta.Block? == b.meta.Block?
  }

  /** `bundle_on_disk_matches` */
  predicate Matches(a: Parts, b: Parts) { SameConfig(a.config, b.config) && a.workspaces == b.workspaces && a.skills == b.skills }

  // --- steps ------------------------------------------------------------------------------------

  /** A write that fails after `upto` whole parts leaves `torn` in the next one; the env file is replaced at once. */
  datatype Write = Whole | Torn(upto: nat, torn: Parts)

  /** `write_bundle_to_disk` */
  function Staged(s: State, built: Parts, proxy: string, w: Write): State {
    if w.Whole? then s.(staged := built, env := Some(ProxyEnv.Written(proxy)))
    else if w.upto == 0 then s.(staged := s.staged.(config := w.torn.config))
    else if w.upto == 1 then s.(staged := Parts(built.config, w.torn.workspaces, s.staged.skills))
    else if w.upto == 2 then s.(staged := Parts(built.config, built.workspaces, w.torn.skills))
    else s.(staged := built)
  }

  /** What the process takes its proxy from: the env file as bash sources it. */
  function Sourced(env: Option<string>): Option<string> {
    if env.None? then None
    else
      var text := env.value;
      var head := ProxyEnv.COMMENT + "\n" + ProxyEnv.EXPORT;
      if head <= text && |text| > |head| then ProxyEnv.BashWord(text[|head|..|text| - 1], false) else None
  }

  /** A process start: the staged bundle goes live, the env file is sourced. */
  function Launched(s: State): State { s.(live := s.staged, process := Sourced(s.env)) }

  function Noted(s: State, version: nat, writes: bool): State { if writes then s.(recorded := Some(version)) else s }

  datatype Ctl = Done | AlreadyStarted | CtlFailed(launched: bool)

  datatype Event =
    | Start(version: nat, running: bool, write: Write, ctl: Ctl, notes: bool)
    | Restart(version: nat, write: Write, ctl: Ctl, notes: bool)
    | Update(version: nat, write: Write, applied: Option<Parts>, notes: bool)
    | Respawn
    | Touch(stamp: nat, ofLive: bool)

  function Controlled(s: State, version: nat, ctl: Ctl, notes: bool): (State, Outcome) {
    match ctl
    case Done => (Noted(Launched(s), version, notes), Completed)
    case AlreadyStarted => (s, Rejected)
    case CtlFailed(launched) => (if launched then Launched(s) else s, Failed)
  }

  function Started(w: World, s: State, version: nat, running: bool, write: Write, ctl: Ctl, notes: bool): (State, Outcome) {
    var built := w.render(w.cloud(version));
    if running then (s, Rejected)
    else if built.None? then (s, Failed)
    else
      var t := Staged(s, built.value, w.cloud(version).proxy, write);
      if !write.Whole? then (t, Failed) else Controlled(t, version, ctl, notes)
  }

  function Restarted(w: World, s: State, version: nat, write: Write, ctl: Ctl, notes: bool): (State, Outcome) {
    Started(w, s, version, false, write, if ctl.AlreadyStarted? then CtlFailed(false) else ctl, notes)
  }

  /** `applied` is `None` when `apply-bundle` succeeds, else what it left behind. */
  function Updated(w: World, s: State, version: nat, write: Write, applied: Option<Parts>, notes: bool): (State, Outcome) {
    var m := w.cloud(version);
    var built := w.render(m);
    if ProxyEnv.Refuses(s.env, m.proxy) || built.None? then (s, Failed)
    else if Matches(s.staged, built.value) then (Noted(s, version, notes), Completed)
    else
      var t := Staged(s, built.value, m.proxy, write);
      if !write.Whole? then (t, Failed)
      else if applied.Some? then (t.(live := applied.value), Failed)
      else (Noted(t.(live := t.staged), version, notes), Completed)
  }

  /** The gateway rewrites the content of a `meta` mapping. */
  function Touched(p: Parts, stamp: nat): Parts {
    if p.config.Parsed? && p.config.meta.Block? then p.(config := p.config.(meta := Block(stamp))) else p
  }

  function Step(w: World, s: State, e: Event): (State, Outcome) {
    match e
    case Start(v, running, write, ctl, notes) => Started(w, s, v, running, write, ctl, notes)
    case Restart(v, write, ctl, notes) => Restarted(w, s, v, write, ctl, notes)
    case Update(v, write, applied, notes) => Updated(w, s, v, write, applied, notes)
    case Respawn => (Launched(s), Completed)
    case Touch(stamp, ofLive) =>
      (if ofLive then s.(live := Touched(s.live, stamp)) else s.(staged := Touched(s.staged, stamp)), Completed)
  }

  function Exec(w: World, s: State, es: seq<Event>): State {
    if es == [] then s else Step(w, Exec(w, s, es[..|es| - 1]), es[|es| - 1]).0
  }

  // --- the source's own form --------------------------------------------------------------------

  /** `SupervisorContainerManager` with the files and processes it acts on. */
  class Supervisor {
    var staged: Parts
    var env: Option<string>
    var live: Parts
    var process: Option<string>
    var recorded: Option<nat>

    constructor (s: State)
      ensures Abs() == s
    {
      staged, env, live, process, recorded := s.staged, s.env, s.live, s.process, s.recorded;
    }

    ghost function Abs(): State
      reads this
    {
      State(staged, env, live, process, recorded)
    }

    method WriteBundleToDisk(built: Parts, proxy: string, write: Write) returns (whole: bool)
      modifies this
      ensures Abs() == Staged(old(Abs()), built, proxy, write) && whole == write.Whole?
    {
      if write.Torn? && write.upto == 0 { staged := staged.(config := write.torn.config); return false; }
      staged := staged.(config := built.config);
      if write.Torn? && write.upto == 1 { staged := staged.(workspaces := write.torn.workspaces); return false; }
      staged := staged.(workspaces := built.workspaces);
      if write.Torn? && write.upto == 2 { staged := staged.(skills := write.torn.skills); return false; }
      staged := staged.(skills := built.skills);
      if write.Torn? { return false; }
      env := Some(ProxyEnv.Written(proxy));
      return true;
    }

    /** supervisorctl `start` or `restart`, and the version noted when it succeeds. */
    method Control(version: nat, ctl: Ctl, notes: bool) returns (outcome: Outcome)
      modifies this
      ensures (Abs(), outcome) == Controlled(old(Abs()), version, ctl, notes)
    {
      if ctl.Done? || (ctl.CtlFailed? && ctl.launched) { live, process := staged, Sourced(env); }
      if ctl.Done? {
        if notes { recorded := Some(version); }
        return Completed;
      }
      outcome := if ctl.AlreadyStarted? then Rejected else Failed;
    }

    method Start(w: World, version: nat, running: bool, write: Write, ctl: Ctl, notes: bool) returns (outcome: Outcome)
      modifies this
      ensures (Abs(), outcome) == Started(w, old(Abs()), version, running, write, ctl, notes)
    {
      if running { return Rejected; }
      var built := w.render(w.cloud(version));
      if built.None? { return Failed; }
      var whole := WriteBundleToDisk(built.value, w.cloud(version).proxy, write);
      if !whole { return Failed; }
      outcome := Control(version, ctl, notes);
    }

    method Restart(w: World, version: nat, write: Write, ctl: Ctl, notes: bool) returns (outcome: Outcome)
      modifies this
      ensures (Abs(), outcome) == Restarted(w, old(Abs()), version, write, ctl, notes)
    {
      var built := w.render(w.cloud(version));
      if built.None? { return Failed; }
      var whole := WriteBundleToDisk(built.value, w.cloud(version).proxy, write);
      if !whole { return Failed; }
      outcome := Control(version, if ctl.AlreadyStarted? then CtlFailed(false) else ctl, notes);
    }

    method UpdateManifest(w: World, version: nat, write: Write, applied: Option<Parts>, notes: bool) returns (outcome: Outcome)
      modifies this
      ensures (Abs(), outcome) == Updated(w, old(Abs()), version, write, applied, notes)
    {
      var m := w.cloud(version);
      var current := None;
      if env.Some? { current := ProxyEnv.ReadProxyUrl(env.value); }
      if (if current.None? then "" else current.value) != Strip(m.proxy) { return Failed; }
      var built := w.render(m);
      if built.None? { return Failed; }
      if Matches(staged, built.value) {
        if notes { recorded := Some(version); }
        return Completed;
      }
      var whole := WriteBundleToDisk(built.value, m.proxy, write);
      if !whole { return Failed; }
      if applied.Some? {
        live := applied.value;
        return Failed;
      }
      live := staged;
      if notes { recorded := Some(version); }
      outcome := Completed;
    }
  }

  // --- the recorded version names the live bundle -----------------------------------------------

  /** The bundle of the recorded version, up to `meta`, and its proxy are what the gateway runs on. */
  predicate NamesLive(w: World, s: State) {
    s.recorded.Some? ==>
      var m := w.cloud(s.recorded.value);
      && w.render(m).Some? && Matches(s.live, w.render(m).value)
      && (s.process.Some? ==> s.process == Some(Strip(m.proxy)))
  }

  /** The staged files are those of the recorded version too; without one nothing was staged yet. */
  predicate Settled(w: World, s: State) {
    && NamesLive(w, s)
    && if s.recorded.None? then s.env.None? && s.process.None? && !s.staged.config.Parsed?
       else var m := w.cloud(s.recorded.value);
            w.render(m).Some? && Matches(s.staged, w.render(m).value) && s.env == Some(ProxyEnv.Written(m.proxy))
  }

  /** Proxies as the cloud gives them hold no line break, and what is rendered is a config. */
  ghost predicate Proper(w: World) {
    && (forall v :: OneLine(Strip(w.cloud(v).proxy)))
    && (forall m :: w.render(m).Some? ==> w.render(m).value.config.Parsed?)
  }

  /** The operation completed and its version was written, or it was turned away before it wrote anything. */
  predicate Clean(w: World, s: State, e: Event) {
    var (t, outcome) := Step(w, s, e);
    || (outcome.Completed? && (e.Start? || e.Restart? || e.Update? ==> e.notes))
    || t == s
  }

  ghost predicate AllClean(w: World, s: State, es: seq<Event>) {
    forall i :: 0 <= i < |es| ==> Clean(w, Exec(w, s, es[..i]), es[i])
  }

  lemma SourcedIsStripped(proxy: string)
    ensures Sourced(Some(ProxyEnv.Written(proxy))) == Some(Strip(proxy))
  {
    var head, quoted := ProxyEnv.COMMENT + "\n" + ProxyEnv.EXPORT, ProxyEnv.Quoted(Strip(proxy));
    var text := ProxyEnv.Written(proxy);
    assert text == head + quoted + "\n";
    assert head <= text && text[|head|..|text| - 1] == quoted;
    ProxyEnv.BashReadsQuoted(Strip(proxy));
  }

  lemma TouchKeepsMatches(p: Parts, built: Parts, stamp: nat)
    ensures Matches(Touched(p, stamp), built) == Matches(p, built)
  {}

  lemma StepSettles(w: World, s: State, e: Event)
    requires Proper(w) && Settled(w, s) && Clean(w, s, e)
    ensures Settled(w, Step(w, s, e).0)
  {
    match e
    case Start(v, running, write, ctl, notes) => SourcedIsStripped(w.cloud(v).proxy);
    case Restart(v, write, ctl, notes) => SourcedIsStripped(w.cloud(v).proxy);
    case Update(v, write, applied, notes) =>
      if s.recorded.Some? { ProxyEnv.GuardIsExact(w.cloud(s.recorded.value).proxy, w.cloud(v).proxy); }
    case Respawn => if s.recorded.Some? { SourcedIsStripped(w.cloud(s.recorded.value).proxy); }
    case Touch(stamp, ofLive) =>
      if s.recorded.Some? {
        var m := w.cloud(s.recorded.value);
        TouchKeepsMatches(s.live, w.render(m).value, stamp);
        TouchKeepsMatches(s.staged, w.render(m).value, stamp);
      }
  }

  const EMPTY: State := State(Parts(Missing, map[], map[]), None, Parts(Missing, map[], map[]), None, None)

  lemma {:induction false} CleanRunsSettle(w: World, s: State, es: seq<Event>)
    requires Proper(w) && Settled(w, s) && AllClean(w, s, es)
    ensures Settled(w, Exec(w, s, es))
  {
    if es != [] {
      var before := es[..|es| - 1];
      forall i | 0 <= i < |before| ensures Clean(w, Exec(w, s, before[..i]), before[i]) { assert before[..i] == es[..i]; }
      CleanRunsSettle(w, s, before);
      assert Clean(w, Exec(w, s, es[..|es| - 1]), es[|es| - 1]);
      StepSettles(w, Exec(w, s, before), es[|es| - 1]);
    }
  }

  /**
   From an agent with nothing staged, over every run with process respawns and `meta` rewrites in which each
   operation completed and could note its version, or was turned away before it wrote anything: the recorded
   version names the live bundle up to `meta`, and the running processes use its proxy.
   */
  lemma RecordedVersionNamesLive(w: World, es: seq<Event>)
    requires Proper(w) && AllClean(w, EMPTY, es)
    ensures NamesLive(w, Exec(w, EMPTY, es))
  {
    CleanRunsSettle(w, EMPTY, es);
  }

  // --- what each operation does -----------------------------------------------------------------

  /** What of a bundle counts when it is compared: everything but the content of a `meta` mapping, or of an odd `meta`. */
  function Core(p: Parts): Parts {
    p.(config := match p.config
                 case Parsed(body, Block(_)) => Parsed(body, Block(0))
                 case Parsed(body, Odd(_)) => Parsed(body, Odd(0))
                 case other => other)
  }

  lemma MatchesExactly(a: Parts, b: Parts)
    ensures Matches(a, b) <==> a.config.Parsed? && b.config.Parsed? && Core(a) == Core(b)
  {}

  /** A rewrite of a `meta` mapping sets its content and nothing else. */
  lemma TouchSets(p: Parts, stamp: nat)
    ensures var t := Touched(p, stamp);
            && t.workspaces == p.workspaces && t.skills == p.skills
            && t.config == if p.config.Parsed? && p.config.meta.Block? then Parsed(p.config.body, Block(stamp)) else p.config
  {}

  lemma TouchStep(w: World, s: State, stamp: nat)
    ensures Step(w, s, Touch(stamp, true)) == (s.(live := Touched(s.live, stamp)), Completed)
    ensures Step(w, s, Touch(stamp, false)) == (s.(staged := Touched(s.staged, stamp)), Completed)
  {}

  datatype Part = AConfig(config: Config) | Files(files: map<string, string>)

  /** The parts of a bundle in the order in which they are written. */
  function Order(p: Parts): seq<Part> { [AConfig(p.config), Files(p.workspaces), Files(p.skills)] }

  /**
   A write either puts down the whole bundle and then the proxy, or stops at some part: those before it are new,
   those after it are old, and the proxy is the old one.
   */
  lemma WriteIsInOrder(s: State, built: Parts, proxy: string, write: Write)
    ensures var t := Staged(s, built, proxy, write);
            && t == s.(staged := t.staged, env := t.env)
            && if write.Whole? then t.staged == built && t.env == Some(ProxyEnv.Written(proxy))
               else t.env == s.env && forall i :: 0 <= i < 3 ==>
                 Order(t.staged)[i] == if i < write.upto then Order(built)[i]
                                       else if i == write.upto then Order(write.torn)[i] else Order(s.staged)[i]
  {}

  /** The processes run on the staged bundle and on the proxy of this version. */
  predicate RunsOn(t: State, built: Parts, proxy: string) {
    t.staged == built && t.live == built && t.process == Some(Strip(proxy)) && t.env == Some(ProxyEnv.Written(proxy))
  }

  /**
   A start completes exactly when nothing ran, the bundle was built and written and the processes came up; then they run
   on it and its version is noted. It is rejected exactly when something ran. Any other start fails; it leaves
   the recorded version alone, and the live bundle too unless processes were launched.
   */
  lemma StartDecides(w: World, s: State, version: nat, running: bool, write: Write, ctl: Ctl, notes: bool)
    ensures var m := w.cloud(version);
            var (t, outcome) := Started(w, s, version, running, write, ctl, notes);
            var written := !running && w.render(m).Some? && write.Whole?;
            && (outcome == Completed <==> written && ctl == Done)
            && (outcome == Rejected <==> running || (written && ctl == AlreadyStarted))
            && (outcome == Completed ==> RunsOn(t, w.render(m).value, m.proxy))
            && t.recorded == (if outcome == Completed && notes then Some(version) else s.recorded)
            && (outcome != Completed ==>
                  if written && ctl == CtlFailed(true) then RunsOn(t, w.render(m).value, m.proxy)
                  else t.live == s.live && t.process == s.process)
            && (running || w.render(m).None? ==> t == s)
  {
    SourcedIsStripped(w.cloud(version).proxy);
  }

  /** A restart does the same over what runs, and is never rejected. */
  lemma RestartDecides(w: World, s: State, version: nat, write: Write, ctl: Ctl, notes: bool)
    ensures Restarted(w, s, version, write, ctl, notes) ==
            Started(w, s, version, false, write, if ctl == AlreadyStarted then CtlFailed(false) else ctl, notes)
    ensures Restarted(w, s, version, write, ctl, notes).1 != Rejected
  {}

  /**
   An update completes exactly when the proxy is the one in the environment file and the bundle was built, and it is
   either the staged one already, or was written and applied; then its version is noted. A failed one notes
   nothing, and makes live only what a failed `apply-bundle` left behind.
   */
  lemma UpdateDecides(w: World, s: State, version: nat, write: Write, applied: Option<Parts>, notes: bool)
    ensures var m := w.cloud(version);
            var (t, outcome) := Updated(w, s, version, write, applied, notes);
            var allowed := !ProxyEnv.Refuses(s.env, m.proxy) && w.render(m).Some?;
            var same := allowed && Matches(s.staged, w.render(m).value);
            && (outcome == Completed <==> same || (allowed && write.Whole? && applied.None?))
            && outcome != Rejected && t.process == s.process
            && t.recorded == (if outcome == Completed && notes then Some(version) else s.recorded)
            && t.live == (if same || !allowed || !write.Whole? then s.live
                          else if applied.Some? then applied.value else w.render(m).value)
            && (same || !allowed ==> t.staged == s.staged && t.env == s.env)
            && (allowed && !same && write.Whole? ==> t.staged == w.render(m).value && t.env == Some(ProxyEnv.Written(m.proxy)))
  {}

  // --- where it fails ---------------------------------------------------------------------------

  predicate TakesNoOp(w: World, s: State, version: nat) {
    var m := w.cloud(version);
    !ProxyEnv.Refuses(s.env, m.proxy) && w.render(m).Some? && Matches(s.staged, w.render(m).value)
  }

  /**
   In any state, after an update that finds the staged bundle unchanged and notes its version, that version
   names the live bundle exactly when the live bundle is the staged one up to `meta`.
   */
  lemma NoOpNamesLiveIff(w: World, s: State, version: nat, write: Write, applied: Option<Parts>)
    requires TakesNoOp(w, s, version)
    ensures var (t, outcome) := Updated(w, s, version, write, applied, true);
            && outcome == Completed && t == s.(recorded := Some(version))
            && (Matches(t.live, w.render(w.cloud(version)).value) <==> Matches(s.live, s.staged))
  {}

  /** Update to a new bundle, the apply failing and leaving the old one live, then the same update again. */
  function FailedApplyThenRetry(version: nat, before: Parts): seq<Event> {
    [Update(version, Whole, Some(before), true), Update(version, Whole, None, true)]
  }

  lemma ExecTwo(w: World, s: State, a: Event, b: Event)
    ensures Exec(w, s, [a, b]) == Step(w, Step(w, s, a).0, b).0
  {
    assert [a, b][..1] == [a] && [a][..0] == [];
    assert Exec(w, s, [a]) == Step(w, s, a).0;
  }

  /** After a failed `apply-bundle` the retry takes the no-op branch: version recorded, bundle not live. */
  lemma RetryAfterFailedApplyNamesAnother(w: World, s: State, version: nat)
    requires Proper(w) && s.recorded.Some? && Settled(w, s)
    requires var m := w.cloud(version); w.render(m).Some? && !Matches(s.live, w.render(m).value)
    requires Strip(w.cloud(version).proxy) == Strip(w.cloud(s.recorded.value).proxy)
    ensures var t := Exec(w, s, FailedApplyThenRetry(version, s.live));
            t.recorded == Some(version) && t.live == s.live && !NamesLive(w, t)
  {
    var m, es := w.cloud(version), FailedApplyThenRetry(version, s.live);
    ProxyEnv.GuardIsExact(w.cloud(s.recorded.value).proxy, m.proxy);
    ProxyEnv.GuardIsExact(m.proxy, m.proxy);
    var built := w.render(m).value;
    assert !Matches(s.staged, built);
    var s1 := Staged(s, built, m.proxy, Whole).(live := s.live);
    ExecTwo(w, s, es[0], es[1]);
    assert es == [es[0], es[1]];
    assert Step(w, s, es[0]).0 == s1;
    assert Matches(s1.staged, built);
  }

  /** A completed restart whose version could not be written leaves the old version naming another bundle. */
  lemma UnwrittenVersionNamesAnother(w: World, s: State, version: nat)
    requires s.recorded.Some? && w.render(w.cloud(version)).Some? && w.render(w.cloud(s.recorded.value)).Some?
    requires !Matches(w.render(w.cloud(version)).value, w.render(w.cloud(s.recorded.value)).value)
    ensures var (t, outcome) := Restarted(w, s, version, Whole, Done, false); outcome == Completed && !NamesLive(w, t)
  {}
}
