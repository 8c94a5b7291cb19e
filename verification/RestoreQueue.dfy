/** The restore queue of `cron-sync.ts` as fields updated in place, proved to take the steps of `CronRestore`. */
module RestoreQueue {
  import opened Common
  import opened CronRestore

  class Queue {
    var now: int
    var stopped: bool
    var standby: bool
    var hasWriter: bool
    var restoreQueue: seq<Key>
    var restoreKeys: set<Key>
    /** `restoreWorker != null` */
    var draining: bool
    var drains: map<nat, Drain>
    var nextDrain: nat
    var lastAddAt: int
    var adds: seq<int>
    var added: seq<Key>

    constructor (time: nat)
      ensures Abs() == Init(time)
    {
      now, stopped, standby, hasWriter := time, false, false, false;
      restoreQueue, restoreKeys, draining, drains := [], {}, false, map[];
      nextDrain, lastAddAt, adds, added := 0, 0, [], [];
    }

    ghost function Abs(): State
      reads this
    {
      State(now, stopped, standby, hasWriter, restoreQueue, restoreKeys, draining, drains, nextDrain, lastAddAt, adds,
            added)
    }

    method ClearRestoreQueue()
      modifies `restoreQueue, `restoreKeys
      ensures Abs() == ClearQueue(old(Abs()))
    {
      restoreQueue, restoreKeys := [], {};
    }

    method AddStarts(d: nat, key: Key)
      modifies `lastAddAt, `adds, `added, `drains
      ensures Abs() == StartAdd(old(Abs()), d, key)
    {
      lastAddAt := now;
      adds, added := adds + [now], added + [key];
      drains := drains[d := Adding(key, false)];
    }

    /** The `while` of `drainRestoreQueue` up to its next await. */
    method DrainRestoreQueue(d: nat, past: set<Key>)
      modifies this
      ensures Abs() == Loop(old(Abs()), d, past)
    {
      ghost var before := Abs();
      while restoreQueue != []
        invariant Loop(before, d, past) == Loop(Abs(), d, past)
        decreases |restoreQueue|
      {
        if stopped || standby || !hasWriter {
          ClearRestoreQueue();
          drains := drains[d := Ended];
          return;
        }
        var key := restoreQueue[0];
        restoreQueue := restoreQueue[1..];
        if key in past {
          restoreKeys := restoreKeys - {key};
          continue;
        }
        if now < lastAddAt + SPACING {
          drains := drains[d := Pausing(key, lastAddAt + SPACING, false)];
        } else {
          AddStarts(d, key);
        }
        return;
      }
      drains := drains[d := Ended];
    }

    method EnqueueRestore(items: seq<Key>, past: set<Key>)
      modifies this
      ensures Abs() == OnEnqueue(old(Abs()), items, past)
    {
      if stopped || standby || items == [] { return; }
      ghost var before := Abs();
      var i := 0;
      while i < |items|
        invariant 0 <= i <= |items| && Push(before, items) == Push(Abs(), items[i..])
        invariant stopped == before.stopped && standby == before.standby
      {
        if items[i] !in restoreKeys {
          restoreKeys := restoreKeys + {items[i]};
          restoreQueue := restoreQueue + [items[i]];
        }
        assert items[i..][1..] == items[i + 1..];
        i := i + 1;
      }
      if !draining && restoreQueue != [] {
        draining, nextDrain := true, nextDrain + 1;
        DrainRestoreQueue(nextDrain - 1, past);
      }
    }

    method PauseOver(d: nat, past: set<Key>)
      modifies this
      ensures Abs() == OnWake(old(Abs()), d, past)
    {
      if d in drains && drains[d].Pausing? && !drains[d].cut && drains[d].until <= now {
        var key := drains[d].key;
        if standby {
          restoreKeys := restoreKeys - {key};
          DrainRestoreQueue(d, past);
        } else {
          AddStarts(d, key);
        }
      }
    }

    method PauseAborted(d: nat)
      modifies this
      ensures Abs() == OnAbort(old(Abs()), d)
    {
      if d in drains && drains[d].Pausing? && drains[d].cut {
        ClearRestoreQueue();
        drains := drains[d := Ended];
      }
    }

    method AddEnded(d: nat, ok: bool, past: set<Key>)
      modifies this
      ensures Abs() == OnAdded(old(Abs()), d, ok, past)
    {
      if d in drains && drains[d].Adding? {
        if !ok && drains[d].cut {
          ClearRestoreQueue();
          drains := drains[d := Ended];
        } else {
          restoreKeys := restoreKeys - {drains[d].key};
          DrainRestoreQueue(d, past);
        }
      }
    }

    method WorkerGone(d: nat)
      modifies `draining, `drains
      ensures Abs() == OnFinally(old(Abs()), d)
    {
      if d in drains && drains[d].Ended? { draining, drains := false, drains - {d}; }
    }

    method GatewayStop()
      modifies this
      ensures Abs() == OnStop(old(Abs()))
    {
      ClearRestoreQueue();
      stopped, drains := true, map d | d in drains :: Cut(drains[d]);
    }

    method Take(e: Event)
      modifies this
      ensures Abs() == Step(old(Abs()), e)
    {
      match e
      case Pass(time) => now := now + time;
      case Enqueue(items, past) => EnqueueRestore(items, past);
      case Wake(d, past) => PauseOver(d, past);
      case Abort(d) => PauseAborted(d);
      case Added(d, ok, past) => AddEnded(d, ok, past);
      case Finally(d) => WorkerGone(d);
      case Clear => if standby { ClearRestoreQueue(); }
      case Stop => GatewayStop();
      case Resume => stopped := false;
      case Standby(on) => standby := on;
      case Writer(present) => hasWriter := present;
    }
  }

  /** Adds start 2100 ms apart, and at most 29 of them within a minute. */
  ghost predicate Paced(adds: seq<int>) {
    forall i, j :: 0 <= i <= j < |adds| ==>
      adds[i] + SPACING * (j - i) <= adds[j] && (adds[j] - adds[i] <= 60_000 ==> j - i + 1 <= 29)
  }

  lemma DrivenIsPaced(time: nat, es: seq<Event>, s: State)
    requires s == Exec(Init(time), es)
    ensures Paced(s.adds)
  {
    forall i, j | 0 <= i <= j < |s.adds|
      ensures s.adds[i] + SPACING * (j - i) <= s.adds[j] && (s.adds[j] - s.adds[i] <= 60_000 ==> j - i + 1 <= 29)
    {
      AddsArePaced(time, es, i, j);
    }
  }

  /** A fresh queue driven by any sequence of events paces its adds, and doubles no key if no clear or stop is harmful. */
  method Drive(time: nat, es: seq<Event>) returns (q: Queue)
    ensures fresh(q) && q.Abs() == Exec(Init(time), es)
    ensures Paced(q.adds)
    ensures HarmlessRun(Init(time), es) ==> Distinct(q.restoreQueue)
  {
    q := Run(time, es);
    DrivenIsPaced(time, es, q.Abs());
    if HarmlessRun(Init(time), es) { NoKeyTwice(time, es); }
  }

  method Run(time: nat, es: seq<Event>) returns (q: Queue)
    ensures fresh(q) && q.Abs() == Exec(Init(time), es)
  {
    q := new Queue(time);
    var i := 0;
    while i < |es|
      invariant 0 <= i <= |es| && q.Abs() == Exec(Init(time), es[..i])
    {
      q.Take(es[i]);
      assert es[..i + 1][..i] == es[..i];
      i := i + 1;
    }
    assert es[..i] == es;
  }
}
