/**
 `CronCommandDispatcher` of `cron_commands.py`: each request id once, commands one at a time in arrival order,
 nothing executed or reported while this instance stands by.

 Ids that were seen are kept in an ordered set of 1024; tasks wait for a lock that is granted in the order
 they asked for it. What a command does is not modelled.
 */
module CronCommands {
  import opened Common
  import opened Text

  const REMEMBER: nat := 1024

  type Id = string

  // --- the ids seen -----------------------------------------------------------------------------

  function Without(ids: seq<Id>, id: Id): seq<Id> {
    if ids == [] then [] else (if ids[0] == id then [] else [ids[0]]) + Without(ids[1..], id)
  }

  /** `submit`'s bookkeeping: a known id moves to the end, a new one is added and the oldest fall out. */
  function Noted(seen: seq<Id>, id: Id): seq<Id> {
    if id in seen then Without(seen, id) + [id] else LastN(seen + [id], REMEMBER)
  }

  /** Reference: all distinct ids of a history, by when each was last submitted. */
  function ByRecency(history: seq<Id>): seq<Id> {
    if history == [] then [] else Without(ByRecency(history[..|history| - 1]), history[|history| - 1]) + [history[|history| - 1]]
  }

  function SeenAfter(history: seq<Id>): seq<Id> {
    if history == [] then [] else Noted(SeenAfter(history[..|history| - 1]), history[|history| - 1])
  }

  ghost predicate NoRepeats(ids: seq<Id>) { forall i, j :: 0 <= i < j < |ids| ==> ids[i] != ids[j] }

  lemma {:induction false} WithoutAbsent(ids: seq<Id>, id: Id)
    requires id !in ids
    ensures Without(ids, id) == ids
  {
    if ids != [] { WithoutAbsent(ids[1..], id); }
  }

  lemma {:induction false} WithoutSplits(a: seq<Id>, b: seq<Id>, id: Id)
    ensures Without(a + b, id) == Without(a, id) + Without(b, id)
  {
    if a == [] {
      assert a + b == b;
    } else {
      assert (a + b)[1..] == a[1..] + b;
      WithoutSplits(a[1..], b, id);
    }
  }

  lemma WithoutNext(ids: seq<Id>, i: nat, id: Id, kept: seq<Id>)
    requires i < |ids|
    ensures kept + Without(ids[i..], id) == (if ids[i] == id then kept else kept + [ids[i]]) + Without(ids[i + 1..], id)
  {
    assert ids[i..][1..] == ids[i + 1..];
  }

  lemma {:induction false} WithoutHas(ids: seq<Id>, id: Id, x: Id)
    ensures x in Without(ids, id) <==> x in ids && x != id
  {
    if ids != [] { WithoutHas(ids[1..], id, x); }
  }

  lemma {:induction false} WithoutCounts(ids: seq<Id>, id: Id)
    requires NoRepeats(ids)
    ensures NoRepeats(Without(ids, id))
    ensures |Without(ids, id)| == if id in ids then |ids| - 1 else |ids|
  {
    if ids != [] {
      var rest := ids[1..];
      WithoutCounts(rest, id);
      if ids[0] == id {
        assert id !in rest by { assert forall j :: 0 <= j < |rest| ==> rest[j] == ids[j + 1]; }
        WithoutAbsent(rest, id);
      } else {
        WithoutHas(rest, id, ids[0]);
        assert ids[0] !in rest by { assert forall j :: 0 <= j < |rest| ==> rest[j] == ids[j + 1]; }
      }
    }
  }

  lemma {:induction false} RecencyHas(history: seq<Id>, x: Id)
    ensures x in ByRecency(history) <==> x in history
    ensures NoRepeats(ByRecency(history))
  {
    if history != [] {
      var before, last := history[..|history| - 1], history[|history| - 1];
      RecencyHas(before, x);
      WithoutHas(ByRecency(before), last, x);
      WithoutHas(ByRecency(before), last, last);
      WithoutCounts(ByRecency(before), last);
      assert history == before + [last];
    }
  }

  lemma TailIsApart(ids: seq<Id>, cut: nat, id: Id)
    requires NoRepeats(ids) && cut <= |ids| && id in ids[cut..]
    ensures id !in ids[..cut]
  {
    var j :| 0 <= j < |ids[cut..]| && ids[cut..][j] == id;
    assert ids[cut + j] == id;
  }

  /** What is before a tail that is long enough, or all there is, does not count. */
  lemma LastOfTail(head: seq<Id>, tail: seq<Id>, n: nat)
    requires |tail| >= n || head == []
    ensures LastN(head + tail, n) == LastN(tail, n)
  {
    if |tail| >= n {
      assert (head + tail)[|head + tail| - n..] == tail[|tail| - n..];
    } else {
      assert head + tail == tail;
    }
  }

  /** Taking an id out of a list with no repeats, within its last `n` or before them. */
  lemma WithoutLast(ids: seq<Id>, id: Id, n: nat)
    requires NoRepeats(ids) && n > 0
    ensures LastN(Without(ids, id) + [id], n) ==
            if id in LastN(ids, n) then Without(LastN(ids, n), id) + [id] else LastN(LastN(ids, n) + [id], n)
  {
    var tail := LastN(ids, n);
    var cut := |ids| - |tail|;
    assert tail == ids[cut..] && ids == ids[..cut] + tail;
    WithoutSplits(ids[..cut], tail, id);
    if id in tail {
      TailIsApart(ids, cut, id);
      WithoutAbsent(ids[..cut], id);
      WithoutInTail(ids[..cut], tail, id, n);
    } else {
      WithoutAbsent(tail, id);
      WithoutInHead(Without(ids[..cut], id), tail, id, n);
      assert cut == 0 ==> ids[..cut] == [];
    }
  }

  lemma WithoutInTail(head: seq<Id>, tail: seq<Id>, id: Id, n: nat)
    requires NoRepeats(tail) && id in tail && |tail| <= n && (|tail| == n || head == [])
    ensures LastN(head + Without(tail, id) + [id], n) == Without(tail, id) + [id]
  {
    WithoutCounts(tail, id);
    var moved := Without(tail, id) + [id];
    assert head + Without(tail, id) + [id] == head + moved;
    LastOfTail(head, moved, n);
  }

  lemma WithoutInHead(head: seq<Id>, tail: seq<Id>, id: Id, n: nat)
    requires |tail| == n || head == []
    ensures LastN(head + tail + [id], n) == LastN(tail + [id], n)
  {
    assert head + tail + [id] == head + (tail + [id]);
    LastOfTail(head, tail + [id], n);
  }

  /** The bounded set holds exactly the 1024 most recently submitted distinct ids, in that order. */
  lemma {:induction false} SeenIsMostRecent(history: seq<Id>)
    ensures SeenAfter(history) == LastN(ByRecency(history), REMEMBER)
  {
    if history != [] {
      var before, last := history[..|history| - 1], history[|history| - 1];
      SeenIsMostRecent(before);
      RecencyHas(before, last);
      WithoutLast(ByRecency(before), last, REMEMBER);
    }
  }

  // --- the dispatcher ---------------------------------------------------------------------------

  /** `waiting` are the tasks queued at the lock; `handled`, `executed` and `reported` are history. */
  datatype State = State(seen: seq<Id>, waiting: seq<Id>, running: Option<Id>, handled: seq<Id>, executed: seq<Id>,
                         reported: seq<Id>)

  datatype Event = Submit(requestId: string) | Begin(standby: bool) | Finish(standby: bool)

  const START: State := State([], [], None, [], [], [])

  predicate Accepts(seen: seq<Id>, requestId: string) { Strip(requestId) != "" && Strip(requestId) !in seen }

  function Submitted(s: State, requestId: string): State {
    var id := Strip(requestId);
    if id == "" then s
    else s.(seen := Noted(s.seen, id), waiting := if id in s.seen then s.waiting else s.waiting + [id])
  }

  /** The lock is granted to whoever waited longest; on standby that one leaves at once. */
  function Begun(s: State, standby: bool): State {
    if s.running.Some? || s.waiting == [] then s
    else
      var id, t := s.waiting[0], s.(waiting := s.waiting[1..]);
      if standby then t.(handled := s.handled + [id]) else t.(running := Some(id), executed := s.executed + [id])
  }

  function Finished(s: State, standby: bool): State {
    if s.running.None? then s
    else
      var id := s.running.value;
      s.(running := None, handled := s.handled + [id], reported := if standby then s.reported else s.reported + [id])
  }

  function Step(s: State, e: Event): State {
    match e
    case Submit(requestId) => Submitted(s, requestId)
    case Begin(standby) => Begun(s, standby)
    case Finish(standby) => Finished(s, standby)
  }

  function Exec(es: seq<Event>): State { if es == [] then START else Step(Exec(es[..|es| - 1]), es[|es| - 1]) }

  class CronCommandDispatcher {
    var seen: seq<Id>
    var waiting: seq<Id>
    var running: Option<Id>
    ghost var handled: seq<Id>
    ghost var executed: seq<Id>
    ghost var reported: seq<Id>

    constructor ()
      ensures Abs() == START
    {
      seen, waiting, running, handled, executed, reported := [], [], None, [], [], [];
    }

    ghost function Abs(): State
      reads this
    {
      State(seen, waiting, running, handled, executed, reported)
    }

    method MoveToEnd(id: Id)
      modifies `seen
      ensures seen == Without(old(seen), id) + [id]
    {
      var ids, kept, i := seen, [], 0;
      while i < |ids|
        invariant 0 <= i <= |ids| && Without(ids, id) == kept + Without(ids[i..], id)
      {
        WithoutNext(ids, i, id, kept);
        if ids[i] != id { kept := kept + [ids[i]]; }
        i := i + 1;
      }
      seen := kept + [id];
    }

    method Submit(requestId: string) returns (accepted: bool)
      modifies this
      ensures Abs() == Submitted(old(Abs()), requestId) && accepted == Accepts(old(seen), requestId)
    {
      var id := Strip(requestId);
      if id == "" { return false; }
      if id in seen {
        MoveToEnd(id);
        return false;
      }
      var kept := seen + [id];
      while |kept| > REMEMBER
        invariant LastN(kept, REMEMBER) == LastN(seen + [id], REMEMBER)
      {
        kept := kept[1..];
      }
      seen := kept;
      waiting := waiting + [id];
      return true;
    }

    method AcquireLock(standby: bool)
      modifies this
      ensures Abs() == Begun(old(Abs()), standby)
    {
      if running.Some? || waiting == [] { return; }
      var id := waiting[0];
      waiting := waiting[1..];
      if standby {
        handled := handled + [id];
        return;
      }
      running, executed := Some(id), executed + [id];
    }

    method Report(standby: bool)
      modifies this
      ensures Abs() == Finished(old(Abs()), standby)
    {
      if running.None? { return; }
      handled := handled + [running.value];
      if !standby { reported := reported + [running.value]; }
      running := None;
    }
  }

  // --- over runs --------------------------------------------------------------------------------

  /** The ids submitted, blank ones left out. */
  function History(es: seq<Event>): seq<Id> {
    if es == [] then []
    else
      var before, e := History(es[..|es| - 1]), es[|es| - 1];
      if e.Submit? && Strip(e.requestId) != "" then before + [Strip(e.requestId)] else before
  }

  /** The frames that were taken, in order. */
  function Accepted(es: seq<Event>): seq<Id> {
    if es == [] then []
    else
      var before, e := Accepted(es[..|es| - 1]), es[|es| - 1];
      if e.Submit? && Accepts(Exec(es[..|es| - 1]).seen, e.requestId) then before + [Strip(e.requestId)] else before
  }

  function InHand(s: State): seq<Id> { if s.running.Some? then [s.running.value] else [] }

  lemma SeenMore(history: seq<Id>, id: Id)
    ensures SeenAfter(history + [id]) == Noted(SeenAfter(history), id)
  {
    assert (history + [id])[..|history|] == history;
  }

  lemma StepSees(s: State, e: Event)
    ensures Step(s, e).seen == if e.Submit? && Strip(e.requestId) != "" then Noted(s.seen, Strip(e.requestId)) else s.seen
  {}

  lemma {:induction false} SeenFollowsHistory(es: seq<Event>)
    ensures Exec(es).seen == SeenAfter(History(es))
  {
    if es != [] {
      SeenFollowsHistory(es[..|es| - 1]);
      var before, e := History(es[..|es| - 1]), es[|es| - 1];
      StepSees(Exec(es[..|es| - 1]), e);
      if e.Submit? && Strip(e.requestId) != "" { SeenMore(before, Strip(e.requestId)); }
    }
  }

  /** A frame is dropped exactly when its id is blank or among the 1024 most recently submitted distinct ids. */
  lemma DroppedIffRecent(es: seq<Event>, requestId: string)
    ensures Accepts(Exec(es).seen, requestId) <==>
              Strip(requestId) != "" && Strip(requestId) !in LastN(ByRecency(History(es)), REMEMBER)
  {
    SeenFollowsHistory(es);
    SeenIsMostRecent(History(es));
  }

  function InLine(s: State): seq<Id> { s.handled + InHand(s) + s.waiting }

  lemma SubmitQueues(s: State, requestId: string)
    ensures InLine(Submitted(s, requestId)) == InLine(s) + if Accepts(s.seen, requestId) then [Strip(requestId)] else []
  {}

  lemma LockKeepsLine(s: State, standby: bool)
    ensures InLine(Begun(s, standby)) == InLine(s) && InLine(Finished(s, standby)) == InLine(s)
  {
    if s.waiting != [] { assert s.waiting == [s.waiting[0]] + s.waiting[1..]; }
  }

  /** Over any run the frames taken are handled one at a time, in the order they came. */
  lemma {:induction false} HandledInOrder(es: seq<Event>)
    ensures InLine(Exec(es)) == Accepted(es)
  {
    if es != [] {
      var s, e := Exec(es[..|es| - 1]), es[|es| - 1];
      HandledInOrder(es[..|es| - 1]);
      match e
      case Submit(requestId) => SubmitQueues(s, requestId);
      case Begin(standby) => LockKeepsLine(s, standby);
      case Finish(standby) => LockKeepsLine(s, standby);
    }
  }

  /** The lock goes to whoever waited longest, when it is free; that one runs exactly off standby. */
  lemma BeginDecides(s: State, standby: bool)
    ensures var t := Step(s, Begin(standby));
            if s.running.Some? || s.waiting == [] then t == s
            else
              && t.waiting == s.waiting[1..] && t.seen == s.seen && t.reported == s.reported
              && if standby then t.running.None? && t.handled == s.handled + [s.waiting[0]] && t.executed == s.executed
                 else t.running == Some(s.waiting[0]) && t.handled == s.handled && t.executed == s.executed + [s.waiting[0]]
  {}

  /** A command that ran is handled when it ended, and reported exactly off standby. */
  lemma FinishDecides(s: State, standby: bool)
    ensures var t := Step(s, Finish(standby));
            if s.running.None? then t == s
            else
              && t.running.None? && t.handled == s.handled + [s.running.value] && t.waiting == s.waiting && t.seen == s.seen
              && t.executed == s.executed && t.reported == s.reported + if standby then [] else [s.running.value]
  {}

  /** A command ends and the next one begins, `n` times. */
  function Rounds(s: State, standby: bool, n: nat): State
    decreases n
  {
    if n == 0 then Step(s, Finish(standby)) else Rounds(Step(Step(s, Finish(standby)), Begin(standby)), standby, n - 1)
  }

  lemma OneRound(s: State, standby: bool)
    requires s.waiting != []
    ensures var v := Step(Step(s, Finish(standby)), Begin(standby));
            && v.waiting == s.waiting[1..] && InLine(v) == InLine(s)
            && v.executed == s.executed + (if standby then [] else [s.waiting[0]])
            && (standby ==> v.reported == s.reported)
            && (!standby ==> v.reported + InHand(v) == s.reported + InHand(s) + [s.waiting[0]])
  {
    FinishDecides(s, standby);
    var u := Step(s, Finish(standby));
    BeginDecides(u, standby);
    LockKeepsLine(s, standby);
    LockKeepsLine(u, standby);
  }

  lemma OneThenTheRest(waiting: seq<Id>, before: seq<Id>)
    requires waiting != []
    ensures before + [waiting[0]] + waiting[1..] == before + waiting
  {}

  /** From `s` to `t` all that waited was handled in order, and each run and reported exactly off standby. */
  ghost predicate AllHandled(s: State, t: State, standby: bool) {
    && t.waiting == [] && t.running.None? && t.handled == InLine(s)
    && t.executed == (if standby then s.executed else s.executed + s.waiting)
    && t.reported == if standby then s.reported else s.reported + InHand(s) + s.waiting
  }

  lemma RoundFirst(s: State, v: State, t: State, standby: bool)
    requires s.waiting != [] && v == Step(Step(s, Finish(standby)), Begin(standby)) && AllHandled(v, t, standby)
    ensures AllHandled(s, t, standby)
  {
    OneRound(s, standby);
    OneThenTheRest(s.waiting, s.executed);
    OneThenTheRest(s.waiting, s.reported + InHand(s));
  }

  /**
   Once no more frames come, every one that waits is handled, in order: off standby each is run and reported, on
   standby none is.
   */
  lemma {:induction false} AllAreHandled(s: State, standby: bool)
    ensures AllHandled(s, Rounds(s, standby, |s.waiting|), standby)
    decreases |s.waiting|
  {
    if s.waiting == [] {
      FinishDecides(s, standby);
    } else {
      var v := Step(Step(s, Finish(standby)), Begin(standby));
      assert v.waiting == s.waiting[1..] by { OneRound(s, standby); }
      AllAreHandled(v, standby);
      RoundFirst(s, v, Rounds(v, standby, |v.waiting|), standby);
    }
  }

  /** Between two frames taken under one id there were at least 1024 other distinct ids. */
  lemma TakenAgainAfterMany(es: seq<Event>, m: nat, requestId: string)
    requires m < |es| && es[m] == Submit(requestId) && Accepts(Exec(es).seen, requestId)
    ensures |LastN(ByRecency(History(es)), REMEMBER)| == REMEMBER && NoRepeats(LastN(ByRecency(History(es)), REMEMBER))
    ensures forall x :: x in LastN(ByRecency(History(es)), REMEMBER) ==> x != Strip(requestId) && SubmittedAfter(es, m, x)
  {
    var id, history := Strip(requestId), History(es);
    DroppedIffRecent(es, requestId);
    HistoryHas(es, m, id);
    RecencyHas(history, id);
    var all := ByRecency(history);
    forall x | x in LastN(all, REMEMBER) ensures SubmittedAfter(es, m, x) {
      var k :| 0 <= k < |all| && k >= |all| - REMEMBER && all[k] == x;
      var i :| 0 <= i < |all| && all[i] == id;
      LaterInRecency(es, m, id, i, k);
    }
  }

  ghost predicate SubmittedAfter(es: seq<Event>, m: nat, x: Id) {
    exists j :: m < j < |es| && es[j].Submit? && Strip(es[j].requestId) == x
  }

  lemma {:induction false} HistoryHas(es: seq<Event>, m: nat, id: Id)
    requires m < |es| && es[m].Submit? && Strip(es[m].requestId) == id && id != ""
    ensures id in History(es)
  {
    if m < |es| - 1 { HistoryHas(es[..|es| - 1], m, id); }
  }

  /** Two ids of a list keep their order when a third is taken out. */
  lemma {:induction false} OrderIsKept(ids: seq<Id>, id: Id, i: nat, k: nat) returns (a: nat, b: nat)
    requires i < k < |Without(ids, id)|
    ensures a < b < |ids| && ids[a] == Without(ids, id)[i] && ids[b] == Without(ids, id)[k]
  {
    var rest := Without(ids[1..], id);
    if ids[0] == id {
      a, b := OrderIsKept(ids[1..], id, i, k);
      a, b := a + 1, b + 1;
    } else if i > 0 {
      a, b := OrderIsKept(ids[1..], id, i - 1, k - 1);
      a, b := a + 1, b + 1;
    } else {
      a := 0;
      WithoutHas(ids[1..], id, rest[k - 1]);
      b :| 1 <= b < |ids| && ids[b] == rest[k - 1];
    }
  }

  /** What stands behind an id in the order of recency was submitted after it. */
  lemma {:induction false} LaterInRecency(es: seq<Event>, m: nat, id: Id, i: nat, k: nat)
    requires m < |es| && es[m].Submit? && Strip(es[m].requestId) == id && id != ""
    requires i < k < |ByRecency(History(es))| && ByRecency(History(es))[i] == id
    ensures SubmittedAfter(es, m, ByRecency(History(es))[k])
  {
    var before, last := es[..|es| - 1], es[|es| - 1];
    var x, earlier := ByRecency(History(es))[k], ByRecency(History(before));
    if !(last.Submit? && Strip(last.requestId) != "") {
      LaterInRecency(before, m, id, i, k);
      var j :| m < j < |before| && before[j].Submit? && Strip(before[j].requestId) == x;
      assert es[j] == before[j];
    } else {
      var y := Strip(last.requestId);
      RecencyHas(History(es), y);
      assert (History(before) + [y])[..|History(before)|] == History(before);
      assert ByRecency(History(es)) == Without(earlier, y) + [y];
      if k == |Without(earlier, y)| {
        assert es[|es| - 1].Submit?;
      } else {
        var a, b := OrderIsKept(earlier, y, i, k);
        assert Without(earlier, y)[i] == id;
        WithoutHas(earlier, y, id);
        assert m < |before| && before[m] == es[m];
        LaterInRecency(before, m, id, a, b);
        var j :| m < j < |before| && before[j].Submit? && Strip(before[j].requestId) == x;
        assert es[j] == before[j];
      }
    }
  }
}
