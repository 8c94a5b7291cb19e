/**
 The paced restore queue of `cron-sync.ts`: jobs the cloud hands back are added one at a time.

 Steps are the stretches of code between awaits of `drainRestoreQueue`, and the calls that fill,
 clear or silence the queue. The clock does not go backwards and a timer does not fire early.
 */
module CronRestore {
  import opened Common

  type Key = nat

  const SPACING: int := 2100

  /** Where a drain waits; `cut` is the captured lifecycle signal. */
  datatype Drain =
    | Pausing(key: Key, until: int, cut: bool)  // abortableSleep
    | Adding(key: Key, cut: bool)               // writer.add
    | Ended                                     // returned, its `finally` has not run

  /** `busy` is `restoreWorker != null`; `adds` and `added` are history: when adds started, and of what. */
  datatype State = State(now: int, stopped: bool, standby: bool, hasWriter: bool,
                         queue: seq<Key>, keys: set<Key>, busy: bool, drains: map<nat, Drain>, nextDrain: nat,
                         lastAdd: int, adds: seq<int>, added: seq<Key>)

  datatype Event =
    | Pass(time: nat)
    | Enqueue(items: seq<Key>, past: set<Key>)
    | Wake(drain: nat, past: set<Key>)
    | Abort(drain: nat)
    | Added(drain: nat, ok: bool, past: set<Key>)
    | Finally(drain: nat)
    | Clear
    | Stop | Resume
    | Standby(on: bool)
    | Writer(present: bool)

  function Init(now: nat): State {
    State(now, false, false, false, [], {}, false, map[], 0, 0, [], [])
  }

  /** `clearRestoreQueue`; besides the drains, `enterCronStandby` and `onGatewayStop` call it. */
  function ClearQueue(s: State): State { s.(queue := [], keys := {}) }

  function Put(s: State, d: nat, drain: Drain): State { s.(drains := s.drains[d := drain]) }

  /** The synchronous tail of one item: the spacing is known to have passed. */
  function StartAdd(s: State, d: nat, key: Key): State {
    Put(s.(lastAdd := s.now, adds := s.adds + [s.now], added := s.added + [key]), d, Adding(key, false))
  }

  /** The loop of `drainRestoreQueue` up to its next await. `past` are the one-shots already over. */
  function Loop(s: State, d: nat, past: set<Key>): State
    decreases |s.queue|
  {
    if s.queue == [] then Put(s, d, Ended)
    else if s.stopped || s.standby || !s.hasWriter then Put(ClearQueue(s), d, Ended)
    else
      var key, t := s.queue[0], s.(queue := s.queue[1..]);
      if key in past then Loop(t.(keys := t.keys - {key}), d, past)
      else if s.now < s.lastAdd + SPACING then Put(t, d, Pausing(key, s.lastAdd + SPACING, false))
      else StartAdd(t, d, key)
  }

  function Push(s: State, items: seq<Key>): State
    decreases |items|
  {
    if items == [] then s
    else if items[0] in s.keys then Push(s, items[1..])
    else Push(s.(keys := s.keys + {items[0]}, queue := s.queue + [items[0]]), items[1..])
  }

  /** `enqueueRestore`, reached only while neither stopped nor on standby. */
  function OnEnqueue(s: State, items: seq<Key>, past: set<Key>): State {
    if s.stopped || s.standby || items == [] then s
    else
      var t := Push(s, items);
      if t.busy || t.queue == [] then t
      else Loop(t.(busy := true, nextDrain := t.nextDrain + 1), t.nextDrain, past)
  }

  /** The pause is over; standby is looked at once more before the add. */
  function OnWake(s: State, d: nat, past: set<Key>): State {
    if d in s.drains && s.drains[d].Pausing? && !s.drains[d].cut && s.drains[d].until <= s.now then
      var key := s.drains[d].key;
      if s.standby then Loop(s.(keys := s.keys - {key}), d, past) else StartAdd(s, d, key)
    else s
  }

  /** The lifecycle signal ended the pause. */
  function OnAbort(s: State, d: nat): State {
    if d in s.drains && s.drains[d].Pausing? && s.drains[d].cut then Put(ClearQueue(s), d, Ended) else s
  }

  function OnAdded(s: State, d: nat, ok: bool, past: set<Key>): State {
    if d in s.drains && s.drains[d].Adding? then
      if !ok && s.drains[d].cut then Put(ClearQueue(s), d, Ended)
      else Loop(s.(keys := s.keys - {s.drains[d].key}), d, past)
    else s
  }

  function OnFinally(s: State, d: nat): State {
    if d in s.drains && s.drains[d].Ended? then s.(busy := false, drains := s.drains - {d}) else s
  }

  function Cut(drain: Drain): Drain { if drain.Ended? then drain else drain.(cut := true) }

  /** `onGatewayStop`: the lifecycle is aborted and the queue forgotten. */
  function OnStop(s: State): State {
    ClearQueue(s).(stopped := true, drains := map d | d in s.drains :: Cut(s.drains[d]))
  }

  function Step(s: State, e: Event): State {
    match e
    case Pass(time) => s.(now := s.now + time)
    case Enqueue(items, past) => OnEnqueue(s, items, past)
    case Wake(d, past) => OnWake(s, d, past)
    case Abort(d) => OnAbort(s, d)
    case Added(d, ok, past) => OnAdded(s, d, ok, past)
    case Finally(d) => OnFinally(s, d)
    case Clear => if s.standby then ClearQueue(s) else s
    case Stop => OnStop(s)
    case Resume => s.(stopped := false)
    case Standby(on) => s.(standby := on)
    case Writer(present) => s.(hasWriter := present)
  }

  function Exec(s: State, es: seq<Event>): State {
    if es == [] then s else Step(Exec(s, es[..|es| - 1]), es[|es| - 1])
  }

  // --- pacing -----------------------------------------------------------------------------------

  ghost predicate Spaced(adds: seq<int>) {
    forall i :: 0 < i < |adds| ==> adds[i - 1] + SPACING <= adds[i]
  }

  /** One drain at most, and a pause ends no earlier than the spacing after the last add. */
  ghost predicate Inv(s: State) {
    && (forall i, j :: i in s.drains && j in s.drains ==> i == j)
    && (s.drains != map[] ==> s.busy)
    && (forall d :: d in s.drains && s.drains[d].Pausing? ==> s.lastAdd + SPACING <= s.drains[d].until)
    && Spaced(s.adds)
    && (|s.adds| > 0 ==> s.adds[|s.adds| - 1] == s.lastAdd)
  }

  /** Drain `d` is the only one there can be. */
  ghost predicate Sole(s: State, d: nat) {
    (forall i :: i in s.drains ==> i == d) && s.busy && Spaced(s.adds) && (|s.adds| > 0 ==> s.adds[|s.adds| - 1] == s.lastAdd)
  }

  lemma {:induction false} LoopKeeps(s: State, d: nat, past: set<Key>)
    requires Sole(s, d)
    ensures Inv(Loop(s, d, past))
    decreases |s.queue|
  {
    if s.queue != [] && !s.stopped && !s.standby && s.hasWriter && s.queue[0] in past {
      LoopKeeps(s.(queue := s.queue[1..], keys := s.keys - {s.queue[0]}), d, past);
    }
  }

  lemma {:induction false} PushOnlyQueues(s: State, items: seq<Key>)
    ensures Push(s, items) == s.(keys := Push(s, items).keys, queue := Push(s, items).queue)
    decreases |items|
  {
    if items != [] {
      PushOnlyQueues(if items[0] in s.keys then s else s.(keys := s.keys + {items[0]}, queue := s.queue + [items[0]]), items[1..]);
    }
  }

  lemma EnqueueKeeps(s: State, items: seq<Key>, past: set<Key>)
    requires Inv(s)
    ensures Inv(OnEnqueue(s, items, past))
  {
    PushOnlyQueues(s, items);
    var t := Push(s, items);
    if !t.busy { LoopKeeps(t.(busy := true, nextDrain := t.nextDrain + 1), t.nextDrain, past); }
  }

  lemma WakeKeeps(s: State, d: nat, past: set<Key>)
    requires Inv(s)
    ensures Inv(OnWake(s, d, past))
  {
    if d in s.drains && s.drains[d].Pausing? { LoopKeeps(s.(keys := s.keys - {s.drains[d].key}), d, past); }
  }

  lemma AddedKeeps(s: State, d: nat, ok: bool, past: set<Key>)
    requires Inv(s)
    ensures Inv(OnAdded(s, d, ok, past))
  {
    if d in s.drains && s.drains[d].Adding? { LoopKeeps(s.(keys := s.keys - {s.drains[d].key}), d, past); }
  }

  lemma StepKeeps(s: State, e: Event)
    requires Inv(s)
    ensures Inv(Step(s, e))
  {
    match e
    case Enqueue(items, past) => EnqueueKeeps(s, items, past);
    case Wake(d, past) => WakeKeeps(s, d, past);
    case Added(d, ok, past) => AddedKeeps(s, d, ok, past);
    case _ =>
  }

  lemma {:induction false} RunKeeps(s: State, es: seq<Event>)
    requires Inv(s)
    ensures Inv(Exec(s, es))
  {
    if es != [] {
      RunKeeps(s, es[..|es| - 1]);
      StepKeeps(Exec(s, es[..|es| - 1]), es[|es| - 1]);
    }
  }

  lemma {:induction false} SpacedApart(adds: seq<int>, i: nat, j: nat)
    requires Spaced(adds) && i <= j < |adds|
    ensures adds[i] + SPACING * (j - i) <= adds[j]
    decreases j
  {
    if i < j { SpacedApart(adds, i, j - 1); }
  }

  /**
   At most one drain runs; adds start at least 2100 ms apart; and adds that all start within 60
   seconds are at most 29.
   */
  lemma AddsArePaced(now: nat, es: seq<Event>, i: nat, j: nat)
    requires i <= j < |Exec(Init(now), es).adds|
    ensures var s := Exec(Init(now), es);
            && (forall c, d :: c in s.drains && d in s.drains ==> c == d)
            && s.adds[i] + SPACING * (j - i) <= s.adds[j]
            && (s.adds[j] - s.adds[i] <= 60_000 ==> j - i + 1 <= 29)
  {
    RunKeeps(Init(now), es);
    SpacedApart(Exec(Init(now), es).adds, i, j);
  }

  /** While standby lasts no add starts, whatever was queued or paused when it began. */
  lemma {:induction false} NoAddsOnStandby(s: State, es: seq<Event>)
    requires s.standby && Standby(false) !in es
    ensures Exec(s, es).standby && Exec(s, es).adds == s.adds
  {
    if es != [] {
      NoAddsOnStandby(s, es[..|es| - 1]);
      var t := Exec(s, es[..|es| - 1]);
      match es[|es| - 1]
      case Wake(d, past) => if InFlight(t, d) { LoopOnStandby(t.(keys := t.keys - {t.drains[d].key}), d, past); }
      case Added(d, ok, past) => if InFlight(t, d) { LoopOnStandby(t.(keys := t.keys - {t.drains[d].key}), d, past); }
      case _ =>
    }
  }

  lemma LoopOnStandby(s: State, d: nat, past: set<Key>)
    requires s.standby
    ensures Loop(s, d, past).standby && Loop(s, d, past).adds == s.adds
  {}

  // --- no key twice -----------------------------------------------------------------------------

  ghost predicate Distinct(q: seq<Key>) { forall i, j :: 0 <= i < j < |q| ==> q[i] != q[j] }

  predicate InFlight(s: State, d: nat) { d in s.drains && !s.drains[d].Ended? }

  /** The drain will still add its item; a pause that was cut short gives it up. */
  predicate Working(s: State, d: nat) { InFlight(s, d) && !(s.drains[d].Pausing? && s.drains[d].cut) }

  /** The key set covers the queue and the item worked on, and nothing is in it twice. */
  ghost predicate Keyed(s: State) {
    && Distinct(s.queue)
    && (forall k :: k in s.queue ==> k in s.keys)
    && (forall d :: Working(s, d) ==> s.drains[d].key in s.keys && s.drains[d].key !in s.queue)
  }

  /** The standby entry clears the queue while no item is worked on, and the gateway stops while no add runs. */
  ghost predicate Harmless(s: State, e: Event) {
    && (e.Clear? && s.standby ==> forall d :: !Working(s, d))
    && (e.Stop? ==> forall d :: d in s.drains ==> !s.drains[d].Adding?)
  }

  ghost predicate HarmlessRun(s: State, es: seq<Event>) {
    forall n :: 0 <= n < |es| ==> Harmless(Exec(s, es[..n]), es[n])
  }

  ghost predicate KeyedLoop(s: State, d: nat) {
    Distinct(s.queue) && (forall k :: k in s.queue ==> k in s.keys) && (forall i :: i in s.drains ==> i == d)
  }

  lemma {:induction false} LoopKeyed(s: State, d: nat, past: set<Key>)
    requires KeyedLoop(s, d)
    ensures Keyed(Loop(s, d, past))
    decreases |s.queue|
  {
    if s.queue != [] {
      assert s.queue[0] !in s.queue[1..];
      if !s.stopped && !s.standby && s.hasWriter && s.queue[0] in past {
        LoopKeyed(s.(queue := s.queue[1..], keys := s.keys - {s.queue[0]}), d, past);
      }
    }
  }

  lemma {:induction false} PushKeyed(s: State, items: seq<Key>)
    requires Keyed(s)
    ensures Keyed(Push(s, items))
    decreases |items|
  {
    if items != [] {
      var t := if items[0] in s.keys then s else s.(keys := s.keys + {items[0]}, queue := s.queue + [items[0]]);
      assert forall d :: Working(t, d) == Working(s, d);
      PushKeyed(t, items[1..]);
    }
  }

  lemma EnqueueKeyed(s: State, items: seq<Key>, past: set<Key>)
    requires Inv(s) && Keyed(s)
    ensures Keyed(OnEnqueue(s, items, past))
  {
    PushOnlyQueues(s, items);
    PushKeyed(s, items);
    var t := Push(s, items);
    if !t.busy { LoopKeyed(t.(busy := true, nextDrain := t.nextDrain + 1), t.nextDrain, past); }
  }

  lemma DrainKeyed(s: State, d: nat, past: set<Key>)
    requires Inv(s) && Keyed(s) && Working(s, d)
    ensures Keyed(Loop(s.(keys := s.keys - {s.drains[d].key}), d, past))
  {
    LoopKeyed(s.(keys := s.keys - {s.drains[d].key}), d, past);
  }

  lemma WakeKeyed(s: State, d: nat, past: set<Key>)
    requires Inv(s) && Keyed(s)
    ensures Keyed(OnWake(s, d, past))
  {
    if Working(s, d) {
      DrainKeyed(s, d, past);
      if s.drains[d].Pausing? { AddKeyed(s, d); }
    }
  }

  lemma AddKeyed(s: State, d: nat)
    requires Inv(s) && Keyed(s) && Working(s, d)
    ensures Keyed(StartAdd(s, d, s.drains[d].key))
  {
    var t := StartAdd(s, d, s.drains[d].key);
    assert forall i :: Working(t, i) ==> i == d;
  }

  lemma AddedKeyed(s: State, d: nat, ok: bool, past: set<Key>)
    requires Inv(s) && Keyed(s)
    ensures Keyed(OnAdded(s, d, ok, past))
  {
    if d in s.drains && s.drains[d].Adding? { DrainKeyed(s, d, past); }
  }

  lemma StopKeyed(s: State)
    requires Keyed(s) && Harmless(s, Stop)
    ensures Keyed(OnStop(s))
  {
    var t := OnStop(s);
    assert forall d :: !Working(t, d);
  }

  lemma OthersKeyed(s: State, e: Event)
    requires Inv(s) && Keyed(s) && Harmless(s, e) && !e.Enqueue? && !e.Wake? && !e.Added? && !e.Stop?
    ensures Keyed(Step(s, e))
  {
    var t := Step(s, e);
    assert forall d :: Working(t, d) ==> Working(s, d) && t.drains[d].key == s.drains[d].key;
  }

  lemma StepKeyed(s: State, e: Event)
    requires Inv(s) && Keyed(s) && Harmless(s, e)
    ensures Keyed(Step(s, e))
  {
    match e
    case Enqueue(items, past) => EnqueueKeyed(s, items, past);
    case Wake(d, past) => WakeKeyed(s, d, past);
    case Added(d, ok, past) => AddedKeyed(s, d, ok, past);
    case Stop => StopKeyed(s);
    case _ => OthersKeyed(s, e);
  }

  lemma {:induction false} KeyedRun(s: State, es: seq<Event>)
    requires Inv(s) && Keyed(s) && HarmlessRun(s, es)
    ensures Inv(Exec(s, es)) && Keyed(Exec(s, es))
  {
    if es != [] {
      var before, n := es[..|es| - 1], |es| - 1;
      forall m | 0 <= m < n ensures Harmless(Exec(s, before[..m]), before[m]) {
        assert before[..m] == es[..m] && before[m] == es[m];
      }
      KeyedRun(s, before);
      StepKeeps(Exec(s, before), es[n]);
      StepKeyed(Exec(s, before), es[n]);
    }
  }

  /** No key is queued twice, or queued while it is worked on, in a run of harmless clears and stops. */
  lemma NoKeyTwice(now: nat, es: seq<Event>)
    requires HarmlessRun(Init(now), es)
    ensures Keyed(Exec(Init(now), es))
  {
    KeyedRun(Init(now), es);
  }

  // --- harmful clears and stops -----------------------------------------------------------------

  lemma Then(s0: State, es: seq<Event>, s: State, e: Event) returns (es': seq<Event>, s': State)
    requires s == Exec(s0, es) && Quiet(es) && !e.Clear? && !e.Stop?
    ensures es' == es + [e] && s' == Step(s, e) == Exec(s0, es') && Quiet(es')
  {
    es', s' := es + [e], Step(s, e);
    assert es'[..|es|] == es;
  }

  ghost predicate Quiet(es: seq<Event>) { forall n :: 0 <= n < |es| ==> !es[n].Clear? && !es[n].Stop? }

  /** Once the add returned, its key is forgotten although a second copy waits behind `other`. */
  lemma AddedForgetsQueuedKey(s: State, d: nat, other: Key)
    requires Inv(s) && d in s.drains && s.drains[d].Adding? && s.drains[d].key != other
    requires s.hasWriter && !s.stopped && !s.standby && s.queue == [other, s.drains[d].key] && s.keys == {other, s.drains[d].key}
    ensures var t := OnAdded(s, d, true, {});
            t.queue == [s.drains[d].key] && t.keys == {other} && t.busy && !t.stopped && !t.standby
  {
    assert s.queue[1..] == [s.drains[d].key];
  }

  lemma PushOne(s: State, a: Key)
    requires a !in s.keys
    ensures Push(s, [a]) == s.(keys := s.keys + {a}, queue := s.queue + [a])
  {
    assert [a][1..] == [];
  }

  lemma PushTwo(s: State, a: Key, b: Key)
    requires a !in s.keys && b !in s.keys && a != b
    ensures Push(s, [a, b]) == s.(keys := s.keys + {a} + {b}, queue := s.queue + [a] + [b])
  {
    assert [a, b][1..] == [b];
    PushOne(s.(keys := s.keys + {a}, queue := s.queue + [a]), b);
  }

  /** While a drain runs, items handed back are only queued. */
  lemma HandedBackBusy(s: State, items: seq<Key>)
    requires s.busy && !s.stopped && !s.standby
    ensures OnEnqueue(s, items, {}) == Push(s, items)
  {
    PushOnlyQueues(s, items);
  }

  /** The state after the queue was cleared under a running or paused drain, once things go on. */
  ghost predicate Cleared(s: State, d: nat) {
    Inv(s) && Working(s, d) && s.queue == [] && s.keys == {} && s.hasWriter && !s.stopped && !s.standby
  }

  /** Two items are handed back, the one worked on second. */
  lemma HandBackTwo(s: State, d: nat, other: Key)
    requires Cleared(s, d) && s.drains[d].key != other
    ensures var key := s.drains[d].key;
            OnEnqueue(s, [other, key], {}) == s.(queue := [other, key], keys := {other, key})
  {
    HandedBackBusy(s, [other, s.drains[d].key]);
    PushTwo(s, other, s.drains[d].key);
  }

  lemma PauseEnds(s: State, d: nat)
    requires Inv(s) && Working(s, d) && s.drains[d].Pausing? && s.drains[d].until <= s.now && !s.standby
    ensures Step(s, Wake(d, {})) == StartAdd(s, d, s.drains[d].key) && Inv(Step(s, Wake(d, {})))
  {
    StepKeeps(s, Wake(d, {}));
  }

  /** A paused drain starts its add once the time has come. */
  lemma AddGetsGoing(s: State, d: nat) returns (es: seq<Event>, t: State)
    requires Inv(s) && Working(s, d) && !s.standby
    ensures t == Exec(s, es) && Quiet(es) && Inv(t) && d in t.drains && t.drains[d].Adding? && t.drains[d].key == s.drains[d].key
    ensures t.queue == s.queue && t.keys == s.keys && t.hasWriter == s.hasWriter && t.stopped == s.stopped && !t.standby
  {
    es, t := [], s;
    if s.drains[d].Pausing? {
      var wait: nat := if s.drains[d].until > s.now then s.drains[d].until - s.now else 0;
      StepKeeps(s, Pass(wait));
      es, t := Then(s, es, t, Pass(wait));
      assert t == s.(now := s.now + wait);
      PauseEnds(t, d);
      es, t := Then(s, es, t, Wake(d, {}));
    }
  }

  /** The queue was cleared under the drain: it comes to hold the key twice. */
  lemma ClearedDoubles(s: State, d: nat, other: Key) returns (es: seq<Event>)
    requires Cleared(s, d) && s.drains[d].key != other
    ensures Quiet(es) && Exec(s, es).queue == [s.drains[d].key, s.drains[d].key]
  {
    var key, t := s.drains[d].key, s;
    HandBackTwo(s, d, other);
    es, t := Then(s, [], s, Enqueue([other, key], {}));
    RunKeeps(s, es);
    var more, u := AddGetsGoing(t, d);
    ExecBoth(s, es, more);
    es := es + more;
    AddedForgetsQueuedKey(u, d, other);
    es, t := Then(s, es, u, Added(d, true, {}));
    HandedBackBusy(t, [key]);
    PushOne(t, key);
    es, t := Then(s, es, t, Enqueue([key], {}));
  }

  lemma {:induction false} ExecBoth(s: State, a: seq<Event>, b: seq<Event>)
    ensures Exec(s, a + b) == Exec(Exec(s, a), b)
  {
    if b == [] {
      assert a + b == a;
    } else {
      ExecBoth(s, a, b[..|b| - 1]);
      assert (a + b)[..|a + b| - 1] == a + b[..|b| - 1];
    }
  }

  function Going(s: State): State { s.(standby := false, stopped := false, hasWriter := true) }

  lemma ExecThree(s: State, a: Event, b: Event, d: Event)
    ensures Exec(s, [a, b, d]) == Step(Step(Step(s, a), b), d)
  {
    assert [a, b, d][..2] == [a, b] && [a, b][..1] == [a] && [a][..0] == [];
    assert Exec(s, [a]) == Step(s, a);
    assert Exec(s, [a, b]) == Step(Step(s, a), b);
  }

  /** Things go on after a clear: standby is left, the gateway is up, the writer is there. */
  lemma GoesOn(s: State) returns (es: seq<Event>)
    ensures Quiet(es) && Exec(s, es) == Going(s)
  {
    es := [Standby(false), Resume, Writer(true)];
    ExecThree(s, Standby(false), Resume, Writer(true));
  }

  /** Any clear or stop that is not harmless lets some key be queued twice, without another clear or stop. */
  lemma HarmfulDoubles(s: State, e: Event) returns (es: seq<Event>)
    requires Inv(s) && !Harmless(s, e)
    ensures Quiet(es) && !Distinct(Exec(Step(s, e), es).queue)
  {
    var t := Step(s, e);
    var d: nat;
    if e.Clear? {
      d :| Working(s, d);
      assert t == ClearQueue(s);
    } else {
      d :| d in s.drains && s.drains[d].Adding?;
      assert t.drains[d] == Cut(s.drains[d]);
    }
    StepKeeps(s, e);
    var before := GoesOn(t);
    var u := Going(t);
    assert Cleared(u, d);
    var more := ClearedDoubles(u, d, u.drains[d].key + 1);
    ExecBoth(t, before, more);
    es := before + more;
    var q := Exec(t, es).queue;
    assert q[0] == q[1];
  }

  lemma QuietIsHarmless(s: State, es: seq<Event>)
    requires Quiet(es)
    ensures HarmlessRun(s, es)
  {}

  /**
   Exactly the others are harmful. After a run of harmless clears and stops, a step is harmless if and only
   if no key is ever queued twice after it as long as the clears and stops that follow are harmless.
   */
  lemma HarmIsExact(now: nat, es: seq<Event>, e: Event)
    requires HarmlessRun(Init(now), es)
    ensures var s := Exec(Init(now), es);
            Harmless(s, e) <==>
              forall more :: HarmlessRun(Step(s, e), more) ==> Distinct(Exec(Step(s, e), more).queue)
  {
    var s := Exec(Init(now), es);
    KeyedRun(Init(now), es);
    if Harmless(s, e) {
      StepKeeps(s, e);
      StepKeyed(s, e);
      forall more | HarmlessRun(Step(s, e), more) ensures Distinct(Exec(Step(s, e), more).queue) {
        KeyedRun(Step(s, e), more);
      }
    } else {
      var more := HarmfulDoubles(s, e);
      QuietIsHarmless(Step(s, e), more);
    }
  }

  /** In particular: when standby is entered while an item is paused or being added, the queue may double it. */
  lemma EntryInFlightQueuesTwice(s: State, d: nat) returns (es: seq<Event>)
    requires Inv(s) && s.standby && Working(s, d)
    ensures Quiet(es) && !Distinct(Exec(Step(s, Clear), es).queue)
  {
    es := HarmfulDoubles(s, Clear);
  }

  /** And so may a gateway stop while an add runs. */
  lemma StopDuringAddQueuesTwice(s: State, d: nat) returns (es: seq<Event>)
    requires Inv(s) && d in s.drains && s.drains[d].Adding?
    ensures Quiet(es) && !Distinct(Exec(Step(s, Stop), es).queue)
  {
    es := HarmfulDoubles(s, Stop);
  }
}
