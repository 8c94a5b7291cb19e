/** What the restore queue does with what is handed back: every job is added once in its turn, unless it is given up. */
module CronRestoreService {
  import opened Common
  import opened CronRestore

  // --- handing back -----------------------------------------------------------------------------

  /** The keys of `items` that are not known yet, each once, in order. */
  function New(items: seq<Key>, known: set<Key>): seq<Key> {
    if items == [] then []
    else if items[|items| - 1] in known || items[|items| - 1] in items[..|items| - 1] then New(items[..|items| - 1], known)
    else New(items[..|items| - 1], known) + [items[|items| - 1]]
  }

  function Keys(items: seq<Key>): set<Key> { set k | k in items }

  lemma {:induction false} NewFromTheFront(items: seq<Key>, known: set<Key>)
    requires items != []
    ensures New(items, known) ==
            if items[0] in known then New(items[1..], known) else [items[0]] + New(items[1..], known + {items[0]})
  {
    if |items| > 1 {
      NewFromTheFront(items[..|items| - 1], known);
      var last, rest := items[|items| - 1], items[1..];
      assert rest[..|rest| - 1] == items[..|items| - 1][1..];
      assert last in items[..|items| - 1] <==> last == items[0] || last in rest[..|rest| - 1];
    }
  }

  lemma KeysFirst(items: seq<Key>, keys: set<Key>)
    requires items != []
    ensures keys + Keys(items) == keys + {items[0]} + Keys(items[1..])
  {
    forall k | k in Keys(items) ensures k == items[0] || k in Keys(items[1..]) {
      if k != items[0] {
        var i :| 0 <= i < |items| && items[i] == k;
        assert items[1..][i - 1] == k;
      }
    }
  }

  lemma OneMore(queue: seq<Key>, key: Key, rest: seq<Key>)
    ensures queue + ([key] + rest) == queue + [key] + rest
  {}

  lemma NewFirst(queue: seq<Key>, keys: set<Key>, items: seq<Key>)
    requires items != []
    ensures queue + New(items, keys) ==
            if items[0] in keys then queue + New(items[1..], keys) else queue + [items[0]] + New(items[1..], keys + {items[0]})
  {
    NewFromTheFront(items, keys);
    OneMore(queue, items[0], New(items[1..], keys + {items[0]}));
  }

  lemma {:induction false} PushAppendsNew(s: State, items: seq<Key>)
    ensures Push(s, items) == s.(queue := s.queue + New(items, s.keys), keys := s.keys + Keys(items))
    decreases |items|
  {
    if items == [] {
      assert s.queue + [] == s.queue && s.keys + Keys(items) == s.keys;
    } else {
      KeysFirst(items, s.keys);
      NewFirst(s.queue, s.keys, items);
      if items[0] in s.keys {
        PushAppendsNew(s, items[1..]);
        assert s.keys + {items[0]} == s.keys;
      } else {
        PushAppendsNew(s.(keys := s.keys + {items[0]}, queue := s.queue + [items[0]]), items[1..]);
      }
    }
  }

  /** The first key in the queue whose one-shot time is not over, or the end. */
  function FirstDue(queue: seq<Key>, past: set<Key>): (i: nat)
    ensures i <= |queue| && (forall j :: 0 <= j < i ==> queue[j] in past) && (i < |queue| ==> queue[i] !in past)
  {
    if queue == [] || queue[0] !in past then 0 else 1 + FirstDue(queue[1..], past)
  }

  /**
   What a drain does next: nothing queued ends it; a stop, standby or a missing writer ends it and empties the queue;
   otherwise it drops the one-shots that are over and takes the first other job, which it adds at once or,
   if the last add is less than 2100 ms ago, when that time has passed.
   */
  ghost predicate TakesNext(s: State, d: nat, past: set<Key>, t: State) {
    var i := FirstDue(s.queue, past);
    if s.queue == [] then t == Put(s, d, Ended)
    else if s.stopped || s.standby || !s.hasWriter then t == Put(s.(queue := [], keys := {}), d, Ended)
    else
      var u := s.(keys := s.keys - Keys(s.queue[..i]));
      if i == |s.queue| then t == Put(u.(queue := []), d, Ended)
      else
        var key, rest := s.queue[i], s.queue[i + 1..];
        if s.now < s.lastAdd + 2100 then t == Put(u.(queue := rest), d, Pausing(key, s.lastAdd + 2100, false))
        else
          t == Put(u.(queue := rest, lastAdd := s.now, adds := s.adds + [s.now], added := s.added + [key]), d, Adding(key, false))
  }

  /** A one-shot that is over is dropped first. */
  lemma DropsOne(s: State, t: State, d: nat, past: set<Key>, u: State)
    requires s.queue != [] && !s.stopped && !s.standby && s.hasWriter && s.queue[0] in past
    requires t == s.(queue := s.queue[1..], keys := s.keys - {s.queue[0]}) && TakesNext(t, d, past, u)
    ensures TakesNext(s, d, past, u)
  {
    var i := FirstDue(t.queue, past);
    assert s.queue[..i + 1] == [s.queue[0]] + t.queue[..i];
    assert s.keys - Keys(s.queue[..i + 1]) == t.keys - Keys(t.queue[..i]);
    assert t.queue == [] ==> t.keys - Keys(t.queue[..0]) == t.keys;
    assert i < |t.queue| ==> t.queue[i + 1..] == s.queue[i + 2..];
  }

  lemma {:induction false} DrainTakesNext(s: State, d: nat, past: set<Key>)
    ensures TakesNext(s, d, past, Loop(s, d, past))
    decreases |s.queue|
  {
    if s.queue != [] && !s.stopped && !s.standby && s.hasWriter && s.queue[0] in past {
      var t := s.(queue := s.queue[1..], keys := s.keys - {s.queue[0]});
      DrainTakesNext(t, d, past);
      DropsOne(s, t, d, past, Loop(t, d, past));
    } else if s.queue != [] {
      assert s.keys - Keys(s.queue[..0]) == s.keys;
    }
  }

  /** The queue with the new ones of `items` behind it. */
  function Queued(s: State, items: seq<Key>): State {
    s.(queue := s.queue + New(items, s.keys), keys := s.keys + Keys(items))
  }

  lemma EnqueueIsQueued(s: State, items: seq<Key>, past: set<Key>)
    requires !s.stopped && !s.standby && items != []
    ensures var u := Queued(s, items);
            OnEnqueue(s, items, past) ==
            if s.busy || u.queue == [] then u
            else Loop(u.(busy := true, nextDrain := s.nextDrain + 1), s.nextDrain, past)
  {
    PushAppendsNew(s, items);
  }

  /** Jobs handed back are queued behind the others while a drain runs; else a drain starts on them. Off duty nothing happens. */
  lemma EnqueueDecides(s: State, items: seq<Key>, past: set<Key>)
    ensures var t, u := Step(s, Enqueue(items, past)), Queued(s, items);
            if s.stopped || s.standby || items == [] then t == s
            else if s.busy || u.queue == [] then t == u
            else TakesNext(u.(busy := true, nextDrain := s.nextDrain + 1), s.nextDrain, past, t)
  {
    if !s.stopped && !s.standby && items != [] {
      EnqueueIsQueued(s, items, past);
      DrainTakesNext(Queued(s, items).(busy := true, nextDrain := s.nextDrain + 1), s.nextDrain, past);
    }
  }

  /** After its pause a drain adds its job, unless standby came: then it forgets it and takes the next. */
  lemma PauseDecides(s: State, d: nat, past: set<Key>)
    requires d in s.drains && s.drains[d].Pausing? && !s.drains[d].cut && s.drains[d].until <= s.now
    ensures var t, key := Step(s, Wake(d, past)), s.drains[d].key;
            if s.standby then TakesNext(s.(keys := s.keys - {key}), d, past, t)
            else t == Put(s.(lastAdd := s.now, adds := s.adds + [s.now], added := s.added + [key]), d, Adding(key, false))
  {
    DrainTakesNext(s.(keys := s.keys - {s.drains[d].key}), d, past);
  }

  /**
   When an add returned, its key is forgotten and the next job taken, whether it failed or not; but one that failed
   since the gateway stopped ends the drain and empties the queue.
   */
  lemma AddDecides(s: State, d: nat, ok: bool, past: set<Key>)
    requires d in s.drains && s.drains[d].Adding?
    ensures var t := Step(s, Added(d, ok, past));
            if s.drains[d].cut && !ok then t == Put(s.(queue := [], keys := {}), d, Ended)
            else TakesNext(s.(keys := s.keys - {s.drains[d].key}), d, past, t)
  {
    DrainTakesNext(s.(keys := s.keys - {s.drains[d].key}), d, past);
  }

  // --- after a stop -----------------------------------------------------------------------------

  /** The gateway is stopped, so nothing is queued, and whoever pauses will be ended by the signal. */
  ghost predicate Silent(s: State) {
    s.stopped && s.queue == [] && forall d :: d in s.drains && s.drains[d].Pausing? ==> s.drains[d].cut
  }

  lemma StopSilences(s: State)
    ensures Silent(Step(s, Stop))
  {}

  lemma SilentStep(s: State, e: Event)
    requires Silent(s) && !e.Resume?
    ensures Silent(Step(s, e)) && Step(s, e).adds == s.adds
  {}

  /** From a gateway stop on no add starts until the gateway resumes. */
  lemma {:induction false} NoAddsWhileStopped(s: State, es: seq<Event>)
    requires Resume !in es
    ensures Silent(Exec(Step(s, Stop), es)) && Exec(Step(s, Stop), es).adds == s.adds
  {
    StopSilences(s);
    if es != [] {
      NoAddsWhileStopped(s, es[..|es| - 1]);
      SilentStep(Exec(Step(s, Stop), es[..|es| - 1]), es[|es| - 1]);
    }
  }

  // --- all are added ----------------------------------------------------------------------------

  /** A drain is recorded for as long as the worker is busy. */
  ghost predicate BusyInv(s: State) { Inv(s) && (s.busy ==> s.drains != map[]) }

  lemma LoopPuts(s: State, d: nat, past: set<Key>)
    ensures d in Loop(s, d, past).drains
  {
    DrainTakesNext(s, d, past);
  }

  lemma EnqueueBusy(s: State, items: seq<Key>, past: set<Key>)
    requires s.busy ==> s.drains != map[]
    ensures OnEnqueue(s, items, past).busy ==> OnEnqueue(s, items, past).drains != map[]
  {
    PushOnlyQueues(s, items);
    var t := Push(s, items);
    LoopPuts(t.(busy := true, nextDrain := t.nextDrain + 1), t.nextDrain, past);
  }

  lemma BusyStep(s: State, e: Event)
    requires BusyInv(s)
    ensures BusyInv(Step(s, e))
  {
    StepKeeps(s, e);
    match e
    case Enqueue(items, past) => EnqueueBusy(s, items, past);
    case Wake(d, past) =>
      if d in s.drains && s.drains[d].Pausing? { LoopPuts(s.(keys := s.keys - {s.drains[d].key}), d, past); }
    case Added(d, ok, past) =>
      if d in s.drains && s.drains[d].Adding? { LoopPuts(s.(keys := s.keys - {s.drains[d].key}), d, past); }
    case Stop =>
      assert forall d :: d in s.drains ==> d in OnStop(s).drains;
    case _ =>
  }

  lemma {:induction false} BusyRun(now: nat, es: seq<Event>)
    ensures BusyInv(Exec(Init(now), es))
  {
    if es != [] {
      BusyRun(now, es[..|es| - 1]);
      BusyStep(Exec(Init(now), es[..|es| - 1]), es[|es| - 1]);
    }
  }

  /** A drain works on its job: nothing stands in the way, and it was not cut. */
  ghost predicate AtWork(s: State, d: nat) {
    BusyInv(s) && d in s.drains && !s.drains[d].Ended? && !(s.drains[d].Pausing? && s.drains[d].cut)
    && !s.stopped && !s.standby && s.hasWriter
  }

  /** Time passes, a pause ends, an add succeeds; no one-shot is over. */
  predicate Smooth(e: Event) { e.Pass? || (e.Wake? && e.past == {}) || (e.Added? && e.ok && e.past == {}) || e.Finally? }

  ghost predicate Leads(s: State, es: seq<Event>, t: State) { t == Exec(s, es) && forall i :: 0 <= i < |es| ==> Smooth(es[i]) }

  lemma Stay(s: State)
    ensures Leads(s, [], s)
  {}

  lemma Then(s: State, es: seq<Event>, t: State, e: Event) returns (more: seq<Event>, u: State)
    requires Leads(s, es, t) && Smooth(e)
    ensures u == Step(t, e) && Leads(s, more, u)
  {
    more, u := es + [e], Step(t, e);
    assert more[..|es|] == es;
  }

  lemma Joined(s: State, es: seq<Event>, t: State, more: seq<Event>, u: State)
    requires Leads(s, es, t) && Leads(t, more, u)
    ensures Leads(s, es + more, u)
  {
    ExecBoth(s, es, more);
  }

  /** The job the drain still has to add. */
  function Waiting(s: State, d: nat): seq<Key>
    requires d in s.drains
  {
    if s.drains[d].Pausing? then [s.drains[d].key] else []
  }

  lemma PassKeepsWork(s: State, d: nat, time: nat)
    requires AtWork(s, d)
    ensures AtWork(Step(s, Pass(time)), d)
  {
    BusyStep(s, Pass(time));
  }

  lemma WakeAdds(s: State, d: nat)
    requires AtWork(s, d) && s.drains[d].Pausing? && s.drains[d].until <= s.now
    ensures var t := Step(s, Wake(d, {}));
            && AtWork(t, d) && t.drains[d].Adding? && t.queue == s.queue && t.added == s.added + [s.drains[d].key]
  {
    BusyStep(s, Wake(d, {}));
  }

  /** A pause ends in an add. */
  lemma PauseAdds(s: State, d: nat) returns (es: seq<Event>, t: State)
    requires AtWork(s, d)
    ensures Leads(s, es, t) && AtWork(t, d) && t.drains[d].Adding? && t.queue == s.queue && t.added == s.added + Waiting(s, d)
  {
    Stay(s);
    es, t := [], s;
    if s.drains[d].Pausing? {
      var wait: nat := if s.drains[d].until > s.now then s.drains[d].until - s.now else 0;
      PassKeepsWork(s, d, wait);
      es, t := Then(s, es, t, Pass(wait));
      WakeAdds(t, d);
      es, t := Then(s, es, t, Wake(d, {}));
    } else {
      assert s.added + [] == s.added;
    }
  }

  lemma AddTakesNext(s: State, d: nat)
    requires AtWork(s, d) && s.drains[d].Adding?
    ensures var t := Step(s, Added(d, true, {}));
            && BusyInv(t) && d in t.drains && !t.stopped && !t.standby && t.hasWriter
            && if s.queue == [] then t.drains[d].Ended? && t.queue == [] && t.added == s.added
               else AtWork(t, d) && t.queue == s.queue[1..] && t.added + Waiting(t, d) == s.added + [s.queue[0]]
  {
    BusyStep(s, Added(d, true, {}));
    AddDecides(s, d, true, {});
    assert s.queue != [] ==> s.queue[0..] == s.queue;
  }

  /**
   From every reachable state in which a drain works and nothing stands in the way, the job it waits to add and every
   job queued come to be added, in order, and then the worker is free again.
   */
  lemma {:induction false} AllAreAdded(s: State, d: nat) returns (es: seq<Event>, t: State)
    requires AtWork(s, d)
    ensures Leads(s, es, t) && t.queue == [] && !t.busy && t.added == s.added + Waiting(s, d) + s.queue
    decreases |s.queue|
  {
    es, t := PauseAdds(s, d);
    AddTakesNext(t, d);
    var u;
    es, u := Then(s, es, t, Added(d, true, {}));
    if t.queue == [] {
      es, t := Then(s, es, u, Finally(d));
      assert s.queue == [];
    } else {
      var more, v := AllAreAdded(u, d);
      Joined(s, es, u, more, v);
      es := es + more;
      AddedInOrder(s.added + Waiting(s, d), s.queue, u.added, Waiting(u, d), v.added);
      t := v;
    }
  }

  lemma AddedInOrder(before: seq<Key>, queue: seq<Key>, added: seq<Key>, waiting: seq<Key>, after: seq<Key>)
    requires queue != [] && added + waiting == before + [queue[0]] && after == added + waiting + queue[1..]
    ensures after == before + queue
  {
    assert queue == [queue[0]] + queue[1..];
  }

  /**
   A drain frees the worker exactly when it has ended; the signal ends it exactly in a pause that was cut, and
   empties the queue.
   */
  lemma EndedFrees(s: State, d: nat)
    requires BusyInv(s) && d in s.drains
    ensures Step(s, Finally(d)) == if s.drains[d].Ended? then s.(busy := false, drains := map[]) else s
    ensures Step(s, Abort(d)) ==
            if s.drains[d].Pausing? && s.drains[d].cut then Put(s.(queue := [], keys := {}), d, Ended) else s
  {
    if s.drains[d].Ended? { assert s.drains - {d} == map[]; }
  }
}
