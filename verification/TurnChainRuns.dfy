/** What the turns of one owner message add up to. */
module TurnChainRuns {
  import opened Common
  import opened TurnChain

  // --- the chain is bounded ---------------------------------------------------------------------

  /** The records after a turn, and what is decided about its follow-up. */
  function AfterTurn(t: Turn, s: Session, p: Params): (Session, Verdict) {
    Resolved(t.outside(s), t.seen, p.reasked, Dispatch(t.tries, 0).ok)
  }

  /**
   Along the chain nobody else takes attempts back: what others do to the counter during a turn never makes
   it count less at a time at which that turn or a later one is judged.
   */
  ghost predicate OthersOnlyClaim(turns: seq<Turn>, s: Session, p: Params)
    decreases |turns|
  {
    turns == [] ||
    var t := turns[0];
    var (s1, v) := AfterTurn(t, s, p);
    && (forall j :: 0 <= j < |turns| ==> Spent(s, turns[j].seen.now) <= Spent(t.outside(s), turns[j].seen.now))
    && (v.Close? || StoppedBefore(t) || t.startFails
        || OthersOnlyClaim(turns[1..], s1, FollowUp(p, v, HeldOpen(t, s, p))))
  }

  /** A turn is judged within half an hour of each of the two before it. */
  ghost predicate InWindow(turns: seq<Turn>) {
    forall i, j :: 0 <= i < j < |turns| && j <= i + 2 ==> turns[j].seen.now < turns[i].seen.now + CONTINUATION_TTL
  }

  function Budget(reasked: bool, spent: nat): int { 1 + MAX_CONTINUATIONS - spent + if reasked then 0 else 1 }

  lemma AskKeepsCounter(s: Session, seen: Seen, reasked: bool, ok: bool)
    requires Resolved(s, seen, reasked, ok).1.AskAgain?
    ensures !reasked && Resolved(s, seen, reasked, ok).0.counter == s.counter
  {}

  lemma ResumeClaims(s: Session, seen: Seen, reasked: bool, ok: bool)
    requires Resolved(s, seen, reasked, ok).1.Resume?
    ensures var (t, v) := Resolved(s, seen, reasked, ok);
            v.attempt == Spent(s, seen.now) + 1 <= MAX_CONTINUATIONS
            && t.counter == Some(Counter(v.attempt, seen.now + CONTINUATION_TTL))
  {}

  lemma {:induction false} ChainWithin(turns: seq<Turn>, s: Session, p: Params, spent: nat)
    requires OthersOnlyClaim(turns, s, p) && InWindow(turns) && spent <= MAX_CONTINUATIONS
    requires forall j :: 0 <= j < |turns| && j < (if p.reasked then 1 else 2) ==> spent <= Spent(s, turns[j].seen.now)
    ensures Chain(turns, s, p).used <= Budget(p.reasked, spent)
    ensures |turns| >= Budget(p.reasked, spent) ==> Chain(turns, s, p).over
    decreases |turns|
  {
    if turns != [] {
      var t, d, rest := turns[0], Dispatch(turns[0].tries, 0), turns[1..];
      var others := t.outside(s);
      var (s1, v) := AfterTurn(t, s, p);
      var q := FollowUp(p, v, HeldOpen(t, s, p));
      assert forall i :: 0 <= i < |rest| ==> rest[i] == turns[i + 1];
      if v.AskAgain? && !StoppedBefore(t) && !t.startFails {
        AskKeepsCounter(others, t.seen, p.reasked, d.ok);
        assert forall now :: Spent(s1, now) == Spent(others, now);
        forall j | 0 <= j < |rest| && j < 1 ensures spent <= Spent(s1, rest[j].seen.now) {
          assert Spent(s, turns[j + 1].seen.now) <= Spent(others, turns[j + 1].seen.now);
        }
        ChainWithin(rest, s1, q, spent);
      } else if v.Resume? && !StoppedBefore(t) && !t.startFails {
        ResumeClaims(others, t.seen, p.reasked, d.ok);
        assert spent <= Spent(s, turns[0].seen.now) <= Spent(others, t.seen.now);
        forall j | 0 <= j < |rest| && j < (if p.reasked then 1 else 2)
          ensures spent + 1 <= Spent(s1, rest[j].seen.now)
        {
          assert turns[j + 1].seen.now < turns[0].seen.now + CONTINUATION_TTL;
        }
        ChainWithin(rest, s1, q, spent + 1);
      }
    }
  }

  /**
   However the engine, the owner and the chat behave, the turns started for one owner message are at most
   the first one, two continuations and one re-ask, and with four turns given the chain has ended.
   */
  lemma ChainIsBounded(turns: seq<Turn>, s: Session, slot: bool)
    requires OthersOnlyClaim(turns, s, First(slot)) && InWindow(turns)
    ensures Chain(turns, s, First(slot)).used <= 1 + MAX_CONTINUATIONS + 1
    ensures |turns| >= 1 + MAX_CONTINUATIONS + 1 ==> Chain(turns, s, First(slot)).over
  {
    ChainWithin(turns, s, First(slot), 0);
  }

  /** Another turn that claims an attempt, even after the counter lapsed, takes none back at any later time. */
  lemma ClaimsOnlyClaim(s: Session, at: int, now: int)
    requires at <= now && (s.counter.Some? ==> s.counter.value.expiresAt <= at + CONTINUATION_TTL)
    ensures Spent(s, now) <= Spent(Claimed(s, at).0, now)
  {}

  /** A turn whose connection breaks; `reset` when another turn of the chat ends well meanwhile. */
  function Broken(now: int, reset: bool): Turn {
    Turn(_ => Try(true, false, true, true), (s: Session) => if reset then s.(counter := None) else s,
         Seen(now, false, true, false, false, true, false), false, false)
  }

  function BrokenTurns(n: nat, now: int, gap: int, reset: bool): seq<Turn> {
    if n == 0 then [] else [Broken(now, reset)] + BrokenTurns(n - 1, now + gap, gap, reset)
  }

  /**
   Both conditions are needed: when the breaks are half an hour apart, or when another turn resets the
   counter each time, every connection break is followed by one more continuation.
   */
  lemma {:induction false} WithoutThemItGoesOn(n: nat, now: int, gap: int, reset: bool, s: Session, p: Params)
    requires s.stop.None? && s.outcome.None?
    requires reset || gap >= CONTINUATION_TTL
    requires reset || Spent(s, now) == 0
    ensures |BrokenTurns(n, now, gap, reset)| == n
    ensures var trace := Chain(BrokenTurns(n, now, gap, reset), s, p); trace.used == n && !trace.over
    decreases n
  {
    if n > 0 {
      var turns, t := BrokenTurns(n, now, gap, reset), Broken(now, reset);
      assert turns[0] == t && turns[1..] == BrokenTurns(n - 1, now + gap, gap, reset);
      var (s1, v) := Resolved(t.outside(s), t.seen, p.reasked, true);
      assert v == Resume(1) && s1.counter == Some(Counter(1, now + CONTINUATION_TTL));
      WithoutThemItGoesOn(n - 1, now + gap, gap, reset, s1, FollowUp(p, v, false));
    }
  }

  // --- dispatches -------------------------------------------------------------------------------

  lemma {:induction false} DispatchesFrom(tries: nat -> Try, n: nat, i: nat)
    requires n <= MAX_ADMISSION_REDISPATCHES
    ensures n < Dispatch(tries, n).count <= 1 + MAX_ADMISSION_REDISPATCHES
    ensures n <= i && i + 1 < Dispatch(tries, n).count ==> !tries(i).delivered && !tries(i).started && tries(i).race
    decreases MAX_ADMISSION_REDISPATCHES - n
  {
    if Dispatch(tries, n).count > n + 1 { DispatchesFrom(tries, n + 1, i); }
  }

  /** Each turn of the chain is dispatched one to three times. */
  lemma {:induction false} EachTurnDispatchesFew(turns: seq<Turn>, s: Session, p: Params, i: nat)
    ensures |Chain(turns, s, p).dispatches| == Chain(turns, s, p).used
    ensures i < Chain(turns, s, p).used ==> 1 <= Chain(turns, s, p).dispatches[i] <= 1 + MAX_ADMISSION_REDISPATCHES
    decreases |turns|
  {
    if turns != [] {
      var t, d := turns[0], Dispatch(turns[0].tries, 0);
      DispatchesFrom(t.tries, 0, 0);
      var (s1, v) := Resolved(t.outside(s), t.seen, p.reasked, d.ok);
      if !v.Close? && !StoppedBefore(t) && !t.startFails {
        EachTurnDispatchesFew(turns[1..], s1, FollowUp(p, v, HeldOpen(t, s, p)), if i > 0 then i - 1 else 0);
      }
    }
  }

  // --- finalisation -----------------------------------------------------------------------------

  ghost predicate Increasing(ends: seq<End>) { forall i, j :: 0 <= i < j < |ends| ==> ends[i].message < ends[j].message }

  ghost predicate Ended(ends: seq<End>, m: nat) { exists i :: 0 <= i < |ends| && ends[i].message == m }

  /** No assistant message gets two turn ends, and only messages of the chain get one. */
  lemma {:induction false} EndsAtMostOnce(turns: seq<Turn>, s: Session, p: Params)
    requires p.message < p.next
    ensures Increasing(Chain(turns, s, p).ends)
    ensures forall i :: 0 <= i < |Chain(turns, s, p).ends| ==>
              Chain(turns, s, p).ends[i].message == p.message || p.next <= Chain(turns, s, p).ends[i].message
    decreases |turns|
  {
    if turns != [] {
      var t, d := turns[0], Dispatch(turns[0].tries, 0);
      var (s1, v) := Resolved(t.outside(s), t.seen, p.reasked, d.ok);
      if !v.Close? && !StoppedBefore(t) && !t.startFails {
        EndsAtMostOnce(turns[1..], s1, FollowUp(p, v, HeldOpen(t, s, p)));
      }
    }
  }

  /** After its re-ask, or when not held open, a turn closes its own message and frees its own slot. */
  lemma {:induction false} ClosesItsOwn(turns: seq<Turn>, s: Session, p: Params)
    requires turns != [] && !HeldOpen(turns[0], s, p)
    ensures var trace := Chain(turns, s, p);
            Ended(trace.ends, p.message) && trace.freed == (if p.slot then 1 else 0)
    decreases |turns|
  {
    var t, d := turns[0], Dispatch(turns[0].tries, 0);
    var (s1, v) := Resolved(t.outside(s), t.seen, p.reasked, d.ok);
    assert Chain(turns, s, p).ends[0].message == p.message;
    if !v.Close? && !StoppedBefore(t) && !t.startFails {
      var q := FollowUp(p, v, false);
      HoldsNoSlot(turns[1..], s1, q);
    }
  }

  /** A held turn either is the last one or is closed by its re-ask. */
  lemma {:induction false} HeldIsClosedByItsReask(turns: seq<Turn>, s: Session, p: Params)
    requires turns != [] && HeldOpen(turns[0], s, p) && Chain(turns, s, p).over
    ensures var trace, t := Chain(turns, s, p), turns[0];
            if StoppedBefore(t) then trace.ends == [] && trace.freed == 0
            else if t.startFails then trace.ends == [] && trace.freed == (if p.slot then 1 else 0)
            else Ended(trace.ends, p.message) && trace.freed == if p.slot then 1 else 0
    decreases |turns|
  {
    var t, d := turns[0], Dispatch(turns[0].tries, 0);
    var (s1, v) := Resolved(t.outside(s), t.seen, p.reasked, d.ok);
    if !StoppedBefore(t) && !t.startFails {
      var q := FollowUp(p, v, true);
      var rest := Chain(turns[1..], s1, q);
      assert rest.over && turns[1..] != [] && !HeldOpen(turns[1], s1, q);
      ClosesItsOwn(turns[1..], s1, q);
      assert Chain(turns, s, p).ends == rest.ends;
    }
  }

  lemma {:induction false} HoldsNoSlot(turns: seq<Turn>, s: Session, p: Params)
    requires !p.slot
    ensures Chain(turns, s, p).freed == 0
    decreases |turns|
  {
    if turns != [] {
      var t, d := turns[0], Dispatch(turns[0].tries, 0);
      var (s1, v) := Resolved(t.outside(s), t.seen, p.reasked, d.ok);
      if !v.Close? && !StoppedBefore(t) && !t.startFails {
        HoldsNoSlot(turns[1..], s1, FollowUp(p, v, HeldOpen(t, s, p)));
      }
    }
  }

  /**
   When the chain of an owner message has ended, its assistant message has exactly one turn end, unless the
   first turn was held open and then a stop came or the re-ask could not start; and its in-flight slot was
   freed exactly once, unless the first turn was held open and then a stop came.
   */
  lemma OwnerMessageFinalisedOnce(turns: seq<Turn>, s: Session, slot: bool)
    requires Chain(turns, s, First(slot)).over
    ensures turns != []
    ensures Increasing(Chain(turns, s, First(slot)).ends)
    ensures var trace, t := Chain(turns, s, First(slot)), turns[0];
            var held := HeldOpen(t, s, First(slot));
            && (Ended(trace.ends, 0) <==> !(held && (StoppedBefore(t) || t.startFails)))
            && trace.freed == if slot && !(held && StoppedBefore(t)) then 1 else 0
  {
    var p := First(slot);
    EndsAtMostOnce(turns, s, p);
    if HeldOpen(turns[0], s, p) {
      HeldIsClosedByItsReask(turns, s, p);
    } else {
      ClosesItsOwn(turns, s, p);
    }
  }

  /** A turn that finishes without a word and is stopped just after it was judged. */
  function SilentThenStopped(now: int): Turn {
    Turn(_ => Try(true, false, false, false), (s: Session) => s, Seen(now, false, false, false, false, false, false), true, false)
  }

  /** The exception is real: then no turn end is ever sent and the slot stays taken. */
  lemma StopAfterHoldLosesTheMessage(now: int)
    ensures var trace := Chain([SilentThenStopped(now)], Session(None, None, None), First(true));
            trace.over && trace.ends == [] && trace.freed == 0
  {
    var t, s := SilentThenStopped(now), Session(None, None, None);
    assert Dispatch(t.tries, 0) == Dispatched(true, 1, false);
    assert Resolved(t.outside(s), t.seen, false, true).1 == AskAgain;
  }
}
