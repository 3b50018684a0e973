/** The per-account promise chain. A task is queued behind the tail promise its
    account had when it was submitted; the steps below are the callbacks of the
    promises, in every order the event loop may choose. */
module CommandQueue {
  import opened Common

  datatype Phase = QUEUED | RUNNING | FINISHED(ok: bool)

  /** `previous` is the task whose tail this one waits on, none standing for the
      resolved promise; `settled` is its own tail, `cleaned` its finally callback. */
  datatype Task = Task(key: string, previous: Option<nat>, phase: Phase, settled: bool, cleaned: bool)

  datatype Queue = Queue(tasks: seq<Task>, tails: map<string, nat>, started: seq<nat>)

  datatype Event =
    | Submit(key: string)
    | Start(id: nat)
    | Finish(id: nat, ok: bool)
    | Settle(id: nat)
    | Clean(id: nat)

  function SubmitTask(q: Queue, key: string): (r: Queue) {
    if key == "" then q
    else
      var previous := if key in q.tails then Some(q.tails[key]) else None;
      Queue(q.tasks + [Task(key, previous, QUEUED, false, false)], q.tails[key := |q.tasks|], q.started)
  }

  predicate CanStart(q: Queue, id: nat) {
    id < |q.tasks| && q.tasks[id].phase == QUEUED &&
    match q.tasks[id].previous
    case None => true
    case Some(p) => p < |q.tasks| && q.tasks[p].settled
  }

  /** A step whose promise is not ready changes nothing. */
  function Step(q: Queue, e: Event): (r: Queue) {
    match e
    case Submit(key) => SubmitTask(q, key)
    case Start(id) =>
      if CanStart(q, id)
      then q.(tasks := q.tasks[id := q.tasks[id].(phase := RUNNING)], started := q.started + [id])
      else q
    case Finish(id, ok) =>
      if id < |q.tasks| && q.tasks[id].phase == RUNNING
      then q.(tasks := q.tasks[id := q.tasks[id].(phase := FINISHED(ok))])
      else q
    case Settle(id) =>
      if id < |q.tasks| && q.tasks[id].phase.FINISHED? then q.(tasks := q.tasks[id := q.tasks[id].(settled := true)])
      else q
    case Clean(id) =>
      if id < |q.tasks| && q.tasks[id].phase.FINISHED? && !q.tasks[id].cleaned then
        var key := q.tasks[id].key;
        q.(tasks := q.tasks[id := q.tasks[id].(cleaned := true)],
           tails := if key in q.tails && q.tails[key] == id then q.tails - {key} else q.tails)
      else q
  }

  function Run(q: Queue, es: seq<Event>): (r: Queue) {
    if es == [] then q else Step(Run(q, es[..|es| - 1]), es[|es| - 1])
  }

  const EMPTY: Queue := Queue([], map[], [])

  // ---- what every interleaving keeps -------------------------------------------

  predicate SameKey(q: Queue, i: nat, j: nat) {
    i < |q.tasks| && j < |q.tasks| && q.tasks[i].key == q.tasks[j].key
  }

  /** A task has left the queue only if every earlier one of its account is over. */
  ghost predicate InOrder(q: Queue) {
    forall i: nat, j: nat :: SameKey(q, i, j) && i < j && q.tasks[j].phase != QUEUED ==> q.tasks[i].phase.FINISHED?
  }

  /** The tail a task waits on belongs to the task just before it. */
  ghost predicate Linked(q: Queue) {
    forall j: nat :: j < |q.tasks| ==>
      match q.tasks[j].previous
      case None => forall i: nat :: SameKey(q, i, j) && i < j ==> q.tasks[i].phase.FINISHED?
      case Some(p) => p < j && SameKey(q, p, j) && forall i: nat :: SameKey(q, i, j) && i < j ==> i <= p
  }

  /** The tails map holds the last task of an account until that task is cleaned up. */
  ghost predicate TailsAreLast(q: Queue) {
    && (forall k :: k in q.tails ==>
        q.tails[k] < |q.tasks| && q.tasks[q.tails[k]].key == k && !q.tasks[q.tails[k]].cleaned)
    && (forall i: nat :: i < |q.tasks| ==>
          if q.tasks[i].key in q.tails then i <= q.tails[q.tasks[i].key] else q.tasks[i].phase.FINISHED?)
  }

  ghost predicate Callbacks(q: Queue) {
    forall i: nat :: i < |q.tasks| && (q.tasks[i].settled || q.tasks[i].cleaned) ==> q.tasks[i].phase.FINISHED?
  }

  /** The order in which tasks started. */
  ghost predicate StartedInOrder(q: Queue) {
    && (forall a: nat :: a < |q.started| ==> q.started[a] < |q.tasks| && q.tasks[q.started[a]].phase != QUEUED)
    && (forall a: nat, b: nat :: a < b < |q.started| && SameKey(q, q.started[a], q.started[b]) ==>
        q.started[a] < q.started[b])
  }

  ghost predicate Serialised(q: Queue) {
    InOrder(q) && Linked(q) && TailsAreLast(q) && Callbacks(q) && StartedInOrder(q)
  }

  lemma SubmitKeeps(q: Queue, key: string)
    requires Serialised(q)
    ensures Serialised(SubmitTask(q, key))
  {
    var r := SubmitTask(q, key);
    if key != "" {
      assert forall i: nat, j: nat :: SameKey(r, i, j) && i < |q.tasks| && j < |q.tasks| ==> SameKey(q, i, j);
      assert forall a: nat :: a < |r.started| ==> r.started[a] < |q.tasks|;
    }
  }

  /** Everything before a task that may start is over. */
  lemma EarlierAreOver(q: Queue, id: nat, i: nat)
    requires InOrder(q) && Linked(q) && Callbacks(q) && CanStart(q, id)
    requires SameKey(q, i, id) && i < id
    ensures q.tasks[i].phase.FINISHED?
  {
    match q.tasks[id].previous
    case None =>
    case Some(p) =>
      assert q.tasks[p].phase.FINISHED?;
      assert SameKey(q, p, id) && i <= p;
      if i < p {
        assert SameKey(q, i, p);
      }
  }

  lemma StartKeeps(q: Queue, id: nat)
    requires Serialised(q) && CanStart(q, id)
    ensures Serialised(Step(q, Start(id)))
  {
    var r := Step(q, Start(id));
    assert forall i: nat, j: nat :: SameKey(r, i, j) <==> SameKey(q, i, j);
    forall i: nat, j: nat | SameKey(r, i, j) && i < j && r.tasks[j].phase != QUEUED ensures r.tasks[i].phase.FINISHED? {
      if j == id { EarlierAreOver(q, id, i); } else { assert q.tasks[j].phase != QUEUED; }
    }
    forall a: nat, b: nat | a < b < |r.started| && SameKey(r, r.started[a], r.started[b])
        ensures r.started[a] < r.started[b] {
      if b == |q.started| {
        assert q.tasks[q.started[a]].phase != QUEUED;
        assert SameKey(q, id, q.started[a]);
      }
    }
    hide CanStart;
    assert InOrder(r);
    assert Linked(r);
  }

  /** r differs from q only in tasks that have moved on after starting. */
  predicate MovedOn(q: Queue, r: Queue) {
    && |r.tasks| == |q.tasks| && r.tails == q.tails && r.started == q.started
    && forall i: nat :: i < |q.tasks| ==>
         && r.tasks[i].key == q.tasks[i].key && r.tasks[i].previous == q.tasks[i].previous
         && r.tasks[i].cleaned == q.tasks[i].cleaned
         && (q.tasks[i].phase.FINISHED? ==> r.tasks[i].phase.FINISHED?)
         && (r.tasks[i].phase.QUEUED? <==> q.tasks[i].phase.QUEUED?)
         && (r.tasks[i].settled ==> r.tasks[i].phase.FINISHED?)
  }

  lemma MovedOnKeeps(q: Queue, r: Queue)
    requires Serialised(q) && MovedOn(q, r)
    ensures Serialised(r)
  {
    assert forall i: nat, j: nat :: SameKey(r, i, j) <==> SameKey(q, i, j);
    assert InOrder(r) by { hide Linked, TailsAreLast, Callbacks, StartedInOrder; }
    assert Linked(r) by { hide InOrder, TailsAreLast, Callbacks, StartedInOrder; }
    assert TailsAreLast(r) by { hide InOrder, Linked, Callbacks, StartedInOrder; }
    assert Callbacks(r) by { hide InOrder, Linked, TailsAreLast, StartedInOrder; }
    assert StartedInOrder(r) by { hide InOrder, Linked, TailsAreLast, Callbacks; }
  }

  lemma FinishOrSettleKeeps(q: Queue, e: Event)
    requires Serialised(q) && (e.Finish? || e.Settle?)
    ensures Serialised(Step(q, e))
  {
    assert MovedOn(q, Step(q, e)) by { hide InOrder, Linked, TailsAreLast, StartedInOrder; }
    hide InOrder, Linked, TailsAreLast, StartedInOrder, Callbacks, MovedOn, Step;
    MovedOnKeeps(q, Step(q, e));
  }

  /** Deleting the key forgets only finished tasks. */
  lemma CleanKeeps(q: Queue, id: nat)
    requires Serialised(q)
    ensures Serialised(Step(q, Clean(id)))
  {
    var r := Step(q, Clean(id));
    assert forall i: nat, j: nat :: SameKey(r, i, j) <==> SameKey(q, i, j);
    assert InOrder(r) by { hide Linked, TailsAreLast, Callbacks, StartedInOrder; }
    assert Linked(r) by { hide InOrder, TailsAreLast, Callbacks, StartedInOrder; }
    assert TailsAreLast(r) by {
      hide Linked, Callbacks, StartedInOrder;
      CleanKeepsTails(q, id);
    }
    assert Callbacks(r) by { hide InOrder, Linked, TailsAreLast, StartedInOrder; }
    assert StartedInOrder(r) by { hide InOrder, Linked, TailsAreLast, Callbacks; }
  }

  lemma CleanKeepsTails(q: Queue, id: nat)
    requires InOrder(q) && TailsAreLast(q)
    ensures TailsAreLast(Step(q, Clean(id)))
  {
    var r := Step(q, Clean(id));
    forall i: nat | i < |r.tasks|
      ensures if r.tasks[i].key in r.tails then i <= r.tails[r.tasks[i].key] else r.tasks[i].phase.FINISHED?
    {
      if r.tasks[i].key !in r.tails && q.tasks[i].key in q.tails && i < id {
        assert SameKey(q, i, id);
      }
    }
  }

  /** Main result: whatever the interleaving, the tasks of one account run one at
      a time and in submission order. */
  lemma {:induction false} RunIsSerialised(es: seq<Event>)
    ensures Serialised(Run(EMPTY, es))
  {
    if es != [] {
      var q, e := Run(EMPTY, es[..|es| - 1]), es[|es| - 1];
      RunIsSerialised(es[..|es| - 1]);
      match e
      case Submit(key) => SubmitKeeps(q, key);
      case Start(id) => if CanStart(q, id) { StartKeeps(q, id); }
      case Finish(id, ok) => FinishOrSettleKeeps(q, e);
      case Settle(id) => FinishOrSettleKeeps(q, e);
      case Clean(id) => CleanKeeps(q, id);
    }
  }

  lemma AtMostOneRuns(es: seq<Event>, i: nat, j: nat)
    requires SameKey(Run(EMPTY, es), i, j) && i != j
    ensures !(Run(EMPTY, es).tasks[i].phase == RUNNING && Run(EMPTY, es).tasks[j].phase == RUNNING)
  {
    RunIsSerialised(es);
    assert SameKey(Run(EMPTY, es), j, i);
  }

  /** A key leaves the map only when nothing of its account is queued or running,
      and it does leave once the last task is cleaned up. */
  lemma AbsentMeansIdle(es: seq<Event>, key: string)
    ensures var q := Run(EMPTY, es);
            && (key !in q.tails ==> forall i :: 0 <= i < |q.tasks| && q.tasks[i].key == key ==>
                q.tasks[i].phase.FINISHED?)
            && ((forall i :: 0 <= i < |q.tasks| && q.tasks[i].key == key ==> q.tasks[i].cleaned) ==> key !in q.tails)
  {
    RunIsSerialised(es);
  }

  /** drain: when the tail it found settles, everything submitted before is over. */
  lemma DrainedMeansOver(es: seq<Event>, more: seq<Event>, key: string, i: nat)
    requires key in Run(EMPTY, es).tails && i < |Run(EMPTY, es).tasks| && Run(EMPTY, es).tasks[i].key == key
    requires var tail, later := Run(EMPTY, es).tails[key], Run(EMPTY, es + more);
             tail < |later.tasks| && later.tasks[tail].settled
    ensures i < |Run(EMPTY, es + more).tasks| && Run(EMPTY, es + more).tasks[i].phase.FINISHED?
  {
    RunIsSerialised(es);
    RunIsSerialised(es + more);
    TasksStay(es, more);
    var t := Run(EMPTY, es).tails[key];
    assert SameKey(Run(EMPTY, es + more), i, t);
  }

  /** Tasks keep their place and account. */
  lemma {:induction false} TasksStay(es: seq<Event>, more: seq<Event>)
    ensures var q, r := Run(EMPTY, es), Run(EMPTY, es + more);
            |q.tasks| <= |r.tasks| && forall i :: 0 <= i < |q.tasks| ==> r.tasks[i].key == q.tasks[i].key
  {
    if more == [] {
      assert es + more == es;
    } else {
      TasksStay(es, more[..|more| - 1]);
      assert (es + more)[..|es + more| - 1] == es + more[..|more| - 1];
    }
  }

  /** Nothing blocks the head of a queue: the oldest unfinished task runs already,
      or it runs after at most one callback, however its predecessor ended. */
  lemma HeadRuns(es: seq<Event>, id: nat)
    requires id < |Run(EMPTY, es).tasks| && !Run(EMPTY, es).tasks[id].phase.FINISHED?
    requires forall i: nat :: SameKey(Run(EMPTY, es), i, id) && i < id ==> Run(EMPTY, es).tasks[i].phase.FINISHED?
    ensures var q := Run(EMPTY, es);
            || q.tasks[id].phase == RUNNING
            || Step(q, Start(id)).tasks[id].phase == RUNNING
            || (q.tasks[id].previous.Some?
                && Step(Step(q, Settle(q.tasks[id].previous.value)), Start(id)).tasks[id].phase == RUNNING)
  {
    RunIsSerialised(es);
    var q := Run(EMPTY, es);
    if q.tasks[id].previous.Some? {
      assert SameKey(q, q.tasks[id].previous.value, id);
    }
  }

  // ---- the queue, updating its map ---------------------------------------------

  class AccountCommandQueue {
    var tasks: seq<Task>
    var tails: map<string, nat>
    ghost var started: seq<nat>

    constructor ()
      ensures View() == EMPTY
    {
      tasks, tails, started := [], map[], [];
    }

    ghost function View(): (q: Queue)
      reads this
    {
      Queue(tasks, tails, started)
    }

    /** run: an empty account id is refused before anything is queued. */
    method Submit(key: string) returns (id: Option<nat>)
      modifies this
      ensures View() == Step(old(View()), Event.Submit(key))
      ensures id == if key == "" then None else Some(|old(tasks)|)
    {
      if key == "" {
        return None;
      }
      var previous: Option<nat> := None;
      if key in tails {
        previous := Some(tails[key]);
      }
      id := Some(|tasks|);
      tails := tails[key := |tasks|];
      tasks := tasks + [Task(key, previous, QUEUED, false, false)];
    }

    /** The callback behind the previous tail. */
    method Start(id: nat)
      requires id < |tasks| && tasks[id].phase == QUEUED
      requires tasks[id].previous.Some? ==>
          tasks[id].previous.value < |tasks| && tasks[tasks[id].previous.value].settled
      modifies this
      ensures View() == Step(old(View()), Event.Start(id))
    {
      tasks := tasks[id := tasks[id].(phase := RUNNING)];
      started := started + [id];
    }

    /** The finally callback: only the task that is still the tail deletes the key. */
    method Clean(id: nat)
      requires id < |tasks| && tasks[id].phase.FINISHED? && !tasks[id].cleaned
      modifies this
      ensures View() == Step(old(View()), Event.Clean(id))
    {
      var key := tasks[id].key;
      if key in tails && tails[key] == id {
        tails := tails - {key};
      }
      tasks := tasks[id := tasks[id].(cleaned := true)];
    }
  }
}
