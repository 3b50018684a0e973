/** One drain at a time per account, and a rerun for a wake-up that finds one
    running. */
module DrainScheduler {
  import opened Common

  /** `begun` lists the drains in the order they were started. */
  datatype Scheduler = Scheduler(started: bool, inFlight: set<string>, rerun: set<string>, begun: seq<string>)

  datatype Event = Schedule(key: string) | Finish(key: string)

  function ScheduleDrain(s: Scheduler, key: string): (t: Scheduler) {
    if key == "" then s
    else if key in s.inFlight then s.(rerun := s.rerun + {key})
    else s.(inFlight := s.inFlight + {key}, begun := s.begun + [key])
  }

  /** The finally callback of a drain; nothing of a key that has none in flight. */
  function FinishDrain(s: Scheduler, key: string): (t: Scheduler) {
    if key !in s.inFlight then s
    else
      var over := s.(inFlight := s.inFlight - {key}, rerun := s.rerun - {key});
      if key in s.rerun && s.started then ScheduleDrain(over, key) else over
  }

  function Step(s: Scheduler, e: Event): (t: Scheduler) {
    match e
    case Schedule(key) => ScheduleDrain(s, key)
    case Finish(key) => FinishDrain(s, key)
  }

  function Run(s: Scheduler, es: seq<Event>): (t: Scheduler) {
    if es == [] then s else Step(Run(s, es[..|es| - 1]), es[|es| - 1])
  }

  predicate IsKey(x: string, key: string) { x == key }

  predicate IsFinish(e: Event, key: string) { e == Finish(key) }

  function Begun(s: Scheduler, key: string): (n: nat) { Tally(s.begun, key, IsKey) }

  /** A drain was begun after the wake-up, or one will be when the running one ends. */
  predicate WokenSince(s: Scheduler, key: string, before: nat) {
    Begun(s, key) > before || (Begun(s, key) == before && key in s.inFlight && key in s.rerun)
  }

  lemma StepKeepsWakeUp(s: Scheduler, e: Event, key: string, before: nat)
    requires s.started && key != "" && WokenSince(s, key, before)
    ensures Step(s, e).started && WokenSince(Step(s, e), key, before)
  {
    TallyAppend(s.begun, e.key, key, IsKey);
  }

  /** Main result: while the engine is started no wake-up is lost. After one, in
      every run, a drain has begun since or the drain in flight will be followed
      by another; its end does begin that one. */
  lemma {:induction false} WakeUpIsKept(s: Scheduler, key: string, es: seq<Event>)
    requires s.started && key != ""
    ensures var t := Run(ScheduleDrain(s, key), es);
            && t.started && WokenSince(t, key, Begun(s, key))
            && (Begun(t, key) == Begun(s, key) ==> Begun(FinishDrain(t, key), key) > Begun(s, key))
  {
    if es == [] {
      TallyAppend(s.begun, key, key, IsKey);
    } else {
      var mid := Run(ScheduleDrain(s, key), es[..|es| - 1]);
      WakeUpIsKept(s, key, es[..|es| - 1]);
      StepKeepsWakeUp(mid, es[|es| - 1], key, Begun(s, key));
    }
    var t := Run(ScheduleDrain(s, key), es);
    TallyAppend(t.begun, key, key, IsKey);
  }

  predicate IsWakeUp(e: Event, key: string) { e == Schedule(key) }

  /** And none begins without one: each is begun for a wake-up of its own, and a rerun that is
      remembered for another. */
  lemma {:induction false} NoDrainUnwoken(s: Scheduler, key: string, es: seq<Event>)
    requires s == Scheduler(true, {}, {}, [])
    ensures var t := Run(s, es);
      && t.started == s.started
      && Begun(t, key) + (if key in t.rerun then 1 else 0) <= Tally(es, key, IsWakeUp)
  {
    if es != [] {
      var mid, e := Run(s, es[..|es| - 1]), es[|es| - 1];
      NoDrainUnwoken(s, key, es[..|es| - 1]);
      TallyAppend(mid.begun, e.key, key, IsKey);
    }
  }

  /** A drain that ends begins another exactly when one is remembered and the engine still runs. */
  lemma EndBeginsIff(s: Scheduler, key: string)
    requires key in s.inFlight && key != ""
    ensures var t := FinishDrain(s, key);
      && (key in t.inFlight <==> key in s.rerun && s.started) && key !in t.rerun
      && Begun(t, key) == Begun(s, key) + (if key in s.rerun && s.started then 1 else 0)
  {
    TallyAppend(s.begun, key, key, IsKey);
  }

  /** As many drains of a key have begun as have ended, or one more. */
  lemma {:induction false} OneDrainAtATime(s: Scheduler, key: string, es: seq<Event>)
    requires s == Scheduler(true, {}, {}, [])
    ensures var t := Run(s, es);
            && t.started && (key in t.rerun ==> key in t.inFlight)
            && Begun(t, key) == Ends(s, es, key) + (if key in t.inFlight then 1 else 0)
  {
    if es != [] {
      var mid, e := Run(s, es[..|es| - 1]), es[|es| - 1];
      OneDrainAtATime(s, key, es[..|es| - 1]);
      TallyAppend(mid.begun, e.key, key, IsKey);
    }
  }

  /** The drains of a key that have ended in a run. */
  function Ends(s: Scheduler, es: seq<Event>, key: string): (n: nat) {
    if es == [] then 0
    else
      Ends(s, es[..|es| - 1], key)
      + (if IsFinish(es[|es| - 1], key) && key in Run(s, es[..|es| - 1]).inFlight then 1 else 0)
  }

  class ChallengeRiskEngine {
    var started: bool
    var inFlight: set<string>
    var rerun: set<string>
    ghost var begun: seq<string>

    constructor ()
      ensures View() == Scheduler(true, {}, {}, [])
    {
      started, inFlight, rerun, begun := true, {}, {}, [];
    }

    ghost function View(): (s: Scheduler)
      reads this
    {
      Scheduler(started, inFlight, rerun, begun)
    }

    method Schedule(key: string)
      modifies this
      ensures View() == ScheduleDrain(old(View()), key)
    {
      if key == "" {
        return;
      }
      if key in inFlight {
        rerun := rerun + {key};
        return;
      }
      inFlight := inFlight + {key};
      begun := begun + [key];
    }

    method Finish(key: string)
      requires key in inFlight
      modifies this
      ensures View() == FinishDrain(old(View()), key)
    {
      inFlight := inFlight - {key};
      var again := key in rerun;
      rerun := rerun - {key};
      if again && started {
        Schedule(key);
      }
    }
  }
}
