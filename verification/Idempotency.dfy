/** Idempotency records with leases, and the executors that share them. Each
    database operation is one atomic step; a command's effect and the completion
    of its record commit in one transaction. Executors interleave freely, may
    crash anywhere, and need not agree on the time. The request hash is taken to
    be injective, so it stands for the canonical payload. */
module Idempotency {
  import opened Common

  datatype State = IN_PROGRESS | COMPLETED | FAILED

  /** An error response. A status that is missing or not a finite number is None, and so is a
      retryable flag the caller leaves out. */
  datatype Failure = Failure(statusCode: Option<int>, code: string, retryable: Option<bool>)

  predicate IsRetryable(f: Failure) {
    if f.retryable.Some? then f.retryable.value else f.statusCode.Some? && f.statusCode.value >= 500
  }

  datatype Response = NoResponse | Done(result: string) | Failed(failure: Failure)

  datatype Key = Key(account: string, scope: string, key: string)

  datatype Record = Record(requestHash: string, state: State, leaseExpiresAt: Option<int>, retryable: bool,
      response: Response)

  type Records = map<Key, Record>

  // ---- the database operations, on values ------------------------------------

  function Fresh(hash: string, lease: int): (r: Record) { Record(hash, IN_PROGRESS, Some(lease), false, NoResponse) }

  /** An insertion; the unique index refuses a second record for the key. */
  function CreateRecord(rs: Records, k: Key, hash: string, lease: int): (r: Option<Records>) {
    if k in rs then None else Some(rs[k := Fresh(hash, lease)])
  }

  predicate LeaseExpired(r: Record, now: int) { r.leaseExpiresAt.None? || r.leaseExpiresAt.value <= now }

  /** The conditional update that takes over an expired reservation. */
  function RecoverExpired(rs: Records, k: Key, now: int, lease: int): (r: Option<Records>) {
    if k in rs && rs[k].state == IN_PROGRESS && LeaseExpired(rs[k], now)
    then Some(rs[k := Fresh(rs[k].requestHash, lease)])
    else None
  }

  /** The conditional update that retries a retryable failure. */
  function RecoverFailed(rs: Records, k: Key, lease: int): (r: Option<Records>) {
    if k in rs && rs[k].state == FAILED && rs[k].retryable then Some(rs[k := Fresh(rs[k].requestHash, lease)]) else None
  }

  function CompleteRecord(rs: Records, k: Key, result: string): (r: Option<Records>) {
    if k in rs && rs[k].state == IN_PROGRESS
    then Some(rs[k := Record(rs[k].requestHash, COMPLETED, None, false, Done(result))]) else None
  }

  function FailRecord(rs: Records, k: Key, f: Failure): (r: Option<Records>) {
    if k in rs && rs[k].state == IN_PROGRESS
    then Some(rs[k := Record(rs[k].requestHash, FAILED, None, IsRetryable(f), Failed(f))]) else None
  }

  // ---- what an executor does with what it read --------------------------------

  datatype Refusal = KEY_REUSED | COMMAND_IN_PROGRESS | DUPLICATE_KEY

  datatype Answer = Committed(result: string) | Replayed(response: Response) | StoredFailure(response: Response)
                  | Refused(refusal: Refusal) | CommandFailed(failure: Failure)

  /** #resolveReservation on the record as it was read. */
  function Resolve(seen: Record): (a: Answer) {
    match seen.state
    case IN_PROGRESS => Refused(COMMAND_IN_PROGRESS)
    case COMPLETED => Replayed(seen.response)
    case FAILED => StoredFailure(seen.response)
  }

  datatype Process =
    | Reserving(key: Key, hash: string, now: int)
    | Duplicated(key: Key, hash: string, now: int)
    | Found(key: Key, hash: string, now: int, seen: Record)
    | Holding(key: Key, hash: string)
    | Failing(key: Key, hash: string, failure: Failure)
    | Answered(key: Key, hash: string, answer: Answer)
    | Crashed

  datatype Effect = Effect(key: Key, result: string)

  datatype System = System(records: Records, effects: seq<Effect>, processes: seq<Process>, leaseMs: int)

  datatype Action =
    | Create
    | Find
    | Decide
    | Commit(result: string, acknowledgementLost: Option<Failure>)
    | Abort(failure: Failure)
    | RecordFailure(written: bool)
    | Crash

  datatype Event = Submit(key: Key, hash: string, now: int) | Act(id: nat, action: Action)

  const STATE_CONFLICT := Failure(Some(409), "IDEMPOTENCY_STATE_CONFLICT", None)

  function With(s: System, id: nat, p: Process, records: Records): (t: System)
    requires id < |s.processes|
  {
    s.(records := records, processes := s.processes[id := p])
  }

  function CreateStep(s: System, id: nat, p: Process): (t: System)
    requires id < |s.processes| && p.Reserving?
  {
    match CreateRecord(s.records, p.key, p.hash, p.now + s.leaseMs)
    case Some(records) => With(s, id, Holding(p.key, p.hash), records)
    case None => With(s, id, Duplicated(p.key, p.hash, p.now), s.records)
  }

  function FindStep(s: System, id: nat, p: Process): (t: System)
    requires id < |s.processes| && p.Duplicated?
  {
    if p.key in s.records then With(s, id, Found(p.key, p.hash, p.now, s.records[p.key]), s.records)
    else With(s, id, Answered(p.key, p.hash, Refused(DUPLICATE_KEY)), s.records)
  }

  /** The conditional updates test the record as it is now, not as it was read;
      when they miss, the answer still comes from what was read. */
  function DecideStep(s: System, id: nat, p: Process): (t: System)
    requires id < |s.processes| && p.Found?
  {
    if p.seen.requestHash != p.hash then With(s, id, Answered(p.key, p.hash, Refused(KEY_REUSED)), s.records)
    else
      var recovered :=
        if p.seen.state == IN_PROGRESS && LeaseExpired(p.seen, p.now)
        then RecoverExpired(s.records, p.key, p.now, p.now + s.leaseMs)
        else if p.seen.state == FAILED && p.seen.retryable then RecoverFailed(s.records, p.key, p.now + s.leaseMs)
        else None;
      match recovered
      case Some(records) => With(s, id, Holding(p.key, p.hash), records)
      case None => With(s, id, Answered(p.key, p.hash, Resolve(p.seen)), s.records)
  }

  /** The transaction: the effect is kept only if the record was completed. The
      acknowledgement of a commit may be lost on its way to the executor. */
  function CommitStep(s: System, id: nat, p: Process, result: string, lost: Option<Failure>): (t: System)
    requires id < |s.processes| && p.Holding?
  {
    match CompleteRecord(s.records, p.key, result)
    case Some(records) =>
      var next := if lost.Some? then Failing(p.key, p.hash, lost.value) else Answered(p.key, p.hash, Committed(result));
      With(s, id, next, records).(effects := s.effects + [Effect(p.key, result)])
    case None => With(s, id, Failing(p.key, p.hash, STATE_CONFLICT), s.records)
  }

  /** Recording the failure may itself fail, which only logs. */
  function FailStep(s: System, id: nat, p: Process, written: bool): (t: System)
    requires id < |s.processes| && p.Failing?
  {
    var records := if written then FailRecord(s.records, p.key, p.failure) else None;
    With(s, id, Answered(p.key, p.hash, CommandFailed(p.failure)), if records.Some? then records.value else s.records)
  }

  /** An action whose process is not at that point changes nothing. */
  function ActStep(s: System, id: nat, p: Process, a: Action): (t: System)
    requires id < |s.processes|
  {
    match a
    case Create => if p.Reserving? then CreateStep(s, id, p) else s
    case Find => if p.Duplicated? then FindStep(s, id, p) else s
    case Decide => if p.Found? then DecideStep(s, id, p) else s
    case Commit(result, lost) => if p.Holding? then CommitStep(s, id, p, result, lost) else s
    case Abort(failure) => if p.Holding? then With(s, id, Failing(p.key, p.hash, failure), s.records) else s
    case RecordFailure(written) => if p.Failing? then FailStep(s, id, p, written) else s
    case Crash => if p.Answered? then s else With(s, id, Crashed, s.records)
  }

  function Step(s: System, e: Event): (t: System) {
    match e
    case Submit(k, hash, now) => s.(processes := s.processes + [Reserving(k, hash, now)])
    case Act(id, action) => if id < |s.processes| then ActStep(s, id, s.processes[id], action) else s
  }

  function Run(s: System, es: seq<Event>): (t: System) {
    if es == [] then s else Step(Run(s, es[..|es| - 1]), es[|es| - 1])
  }

  function Empty(leaseMs: int): (s: System) { System(map[], [], [], leaseMs) }

  // ---- exactly once ------------------------------------------------------------

  predicate IsFor(e: Effect, k: Key) { e.key == k }

  predicate IsCompleted(rs: Records, k: Key) { k in rs && rs[k].state == COMPLETED }

  /** The key's effect has committed, with this result. */
  predicate HasResult(rs: Records, k: Key, result: string) { IsCompleted(rs, k) && rs[k].response == Done(result) }

  /** Committed once when completed, and never otherwise. */
  ghost predicate EffectsMatch(s: System) {
    && (forall k :: Tally(s.effects, k, IsFor) == if IsCompleted(s.records, k) then 1 else 0)
    && (forall i :: 0 <= i < |s.effects| ==> HasResult(s.records, s.effects[i].key, s.effects[i].result))
    && (forall k :: IsCompleted(s.records, k) ==> s.records[k].response.Done?)
  }

  predicate ProcessOk(rs: Records, p: Process) {
    match p
    case Reserving(_, _, _) => true
    case Duplicated(k, _, _) => k in rs
    case Found(k, _, _, seen) =>
      k in rs && seen.requestHash == rs[k].requestHash && (seen.state == COMPLETED ==> rs[k] == seen)
    case Holding(k, hash) => k in rs && rs[k].requestHash == hash
    case Failing(k, hash, _) => k in rs && rs[k].requestHash == hash
    case Answered(k, hash, Committed(result)) => HasResult(rs, k, result) && rs[k].requestHash == hash
    case Answered(k, hash, Replayed(response)) =>
      IsCompleted(rs, k) && rs[k].response == response && rs[k].requestHash == hash
    case Answered(_, _, Refused(refusal)) => refusal != DUPLICATE_KEY
    case _ => true
  }

  ghost predicate ExactlyOnce(s: System) {
    && EffectsMatch(s)
    && forall i :: 0 <= i < |s.processes| ==> ProcessOk(s.records, s.processes[i])
  }

  /** Records are never removed or rebound, and COMPLETED is never left. */
  ghost predicate Extends(a: Records, b: Records) {
    forall k :: k in a ==> k in b && b[k].requestHash == a[k].requestHash && (a[k].state == COMPLETED ==> b[k] == a[k])
  }

  lemma StepExtends(s: System, e: Event)
    requires forall i :: 0 <= i < |s.processes| ==> ProcessOk(s.records, s.processes[i])
    ensures Extends(s.records, Step(s, e).records)
  {
  }

  lemma ProcessStaysOk(a: Records, b: Records, p: Process)
    requires Extends(a, b) && ProcessOk(a, p)
    ensures ProcessOk(b, p)
  {
  }

  /** The process that moved is where its step put it. */
  lemma MovedIsOk(s: System, e: Event)
    requires ExactlyOnce(s) && !e.Submit? && e.id < |s.processes|
    ensures var t := Step(s, e); e.id < |t.processes| && ProcessOk(t.records, t.processes[e.id])
  {
    hide EffectsMatch, Tally;
    assert ProcessOk(s.records, s.processes[e.id]);
    var p := s.processes[e.id];
    if e.action.Decide? && p.Found? {
      DecidedIsOk(s, e.id, p);
    }
  }

  lemma DecidedIsOk(s: System, id: nat, p: Process)
    requires id < |s.processes| && p.Found? && ProcessOk(s.records, p)
    ensures var t := DecideStep(s, id, p); id < |t.processes| && ProcessOk(t.records, t.processes[id])
  {
  }

  lemma EffectsStayMatched(s: System, e: Event)
    requires ExactlyOnce(s)
    ensures EffectsMatch(Step(s, e))
  {
    hide ProcessOk, Tally;
    var t := Step(s, e);
    if t.effects == s.effects {
      assert forall k :: IsCompleted(s.records, k) <==> IsCompleted(t.records, k);
      assert forall k :: IsCompleted(s.records, k) ==> s.records[k] == t.records[k];
    } else {
      var p := s.processes[e.id];
      forall k ensures Tally(t.effects, k, IsFor) == if IsCompleted(t.records, k) then 1 else 0 {
        TallyAppend(s.effects, Effect(p.key, e.action.result), k, IsFor);
      }
      assert forall k :: k != p.key ==> (IsCompleted(s.records, k) <==> IsCompleted(t.records, k));
      forall i | 0 <= i < |t.effects| ensures HasResult(t.records, t.effects[i].key, t.effects[i].result) {
        if i < |s.effects| {
          assert HasResult(s.records, s.effects[i].key, s.effects[i].result);
        }
      }
    }
  }

  lemma StepKeeps(s: System, e: Event)
    requires ExactlyOnce(s)
    ensures ExactlyOnce(Step(s, e))
  {
    var t := Step(s, e);
    StepExtends(s, e);
    EffectsStayMatched(s, e);
    hide EffectsMatch, Extends, CreateStep, FindStep, DecideStep, CommitStep, FailStep;
    forall i | 0 <= i < |t.processes| ensures ProcessOk(t.records, t.processes[i]) {
      if !e.Submit? && i == e.id {
        MovedIsOk(s, e);
      } else if i < |s.processes| {
        Others(s, e, i);
        ProcessStaysOk(s.records, t.records, s.processes[i]);
      }
    }
  }

  /** A step moves no other process. */
  lemma Others(s: System, e: Event, i: nat)
    requires i < |s.processes| && (e.Submit? || i != e.id)
    ensures i < |Step(s, e).processes| && Step(s, e).processes[i] == s.processes[i]
  {
  }

  /** Main result: under any interleaving of crashes, recoveries, retries and
      aborts, a command's effect is committed once when its record is COMPLETED
      and not at all otherwise, and every result answered is the committed one. */
  lemma {:induction false} RunIsExactlyOnce(leaseMs: int, es: seq<Event>)
    ensures ExactlyOnce(Run(Empty(leaseMs), es))
  {
    if es != [] {
      RunIsExactlyOnce(leaseMs, es[..|es| - 1]);
      StepKeeps(Run(Empty(leaseMs), es[..|es| - 1]), es[|es| - 1]);
    }
  }

  /** COMPLETED is never left, whatever happens next. */
  lemma {:induction false} CompletedForever(s: System, es: seq<Event>, k: Key)
    requires ExactlyOnce(s) && IsCompleted(s.records, k)
    ensures ExactlyOnce(Run(s, es)) && k in Run(s, es).records && Run(s, es).records[k] == s.records[k]
  {
    if es != [] {
      var mid := Run(s, es[..|es| - 1]);
      CompletedForever(s, es[..|es| - 1], k);
      StepKeeps(mid, es[|es| - 1]);
      StepExtends(mid, es[|es| - 1]);
    }
  }

  // ---- later requests ----------------------------------------------------------

  /** Where a request submitted after the commit can be. */
  predicate IsLate(p: Process, k: Key, hash: string, record: Record) {
    match p
    case Reserving(pk, ph, _) => pk == k && ph == hash
    case Duplicated(pk, ph, _) => pk == k && ph == hash
    case Found(pk, ph, _, seen) => pk == k && ph == hash && seen == record
    case Answered(pk, ph, a) =>
      pk == k && ph == hash && a == (if record.requestHash == hash then Replayed(record.response)
          else Refused(KEY_REUSED))
    case Crashed => true
    case _ => false
  }

  lemma LateStep(s: System, e: Event, id: nat, k: Key, hash: string)
    requires IsCompleted(s.records, k) && id < |s.processes| && IsLate(s.processes[id], k, hash, s.records[k])
    ensures id < |Step(s, e).processes| && IsLate(Step(s, e).processes[id], k, hash, s.records[k])
  {
    if e.Submit? || e.id != id {
      Others(s, e, id);
    }
  }

  /** Main result: a request that comes after the commit, if it is answered, gets
      the committed response when it is identical and KEY_REUSED when it is not. */
  lemma {:induction false} LateRequestReplays(s: System, k: Key, hash: string, now: int, es: seq<Event>)
    requires ExactlyOnce(s) && IsCompleted(s.records, k)
    ensures var t := Run(Step(s, Submit(k, hash, now)), es);
            var id := |s.processes|;
            && k in t.records && t.records[k] == s.records[k]
            && id < |t.processes| && IsLate(t.processes[id], k, hash, s.records[k])
  {
    var s0 := Step(s, Submit(k, hash, now));
    StepKeeps(s, Submit(k, hash, now));
    CompletedForever(s0, es, k);
    if es != [] {
      var init := es[..|es| - 1];
      LateRequestReplays(s, k, hash, now, init);
      CompletedForever(s0, init, k);
      hide Step;
      LateStep(Run(s0, init), es[|es| - 1], |s.processes|, k, hash);
    }
  }

  /** Three steps of its own are enough to get that answer. */
  lemma LateRequestIsAnswered(s: System, k: Key, hash: string, now: int)
    requires IsCompleted(s.records, k)
    ensures var id := |s.processes|;
            var t := Step(Step(Step(Step(s, Submit(k, hash, now)), Act(id, Create)), Act(id, Find)), Act(id, Decide));
            && t.processes[id].Answered?
            && t.processes[id].answer == (if s.records[k].requestHash == hash then Replayed(s.records[k].response)
                else Refused(KEY_REUSED))
            && t.effects == s.effects && t.records == s.records
  {
    var id := |s.processes|;
    var s1 := Step(s, Submit(k, hash, now));
    var s2 := Step(s1, Act(id, Create));
    var s3 := Step(s2, Act(id, Find));
    assert s1.processes[id] == Reserving(k, hash, now);
    assert s2.processes[id] == Duplicated(k, hash, now);
    assert s3.processes[id] == Found(k, hash, now, s.records[k]);
  }

  /** The four steps of one request that nobody comes between. */
  function Attempt(s: System, k: Key, hash: string, now: int): (t: System) {
    var id := |s.processes|;
    Step(Step(Step(Step(s, Submit(k, hash, now)), Act(id, Create)), Act(id, Find)), Act(id, Decide))
  }

  /** The key is held by a reservation made, or taken over, at this time. */
  predicate HeldSince(s: System, k: Key, hash: string, at: int) {
    k in s.records && s.records[k] == Record(hash, IN_PROGRESS, Some(at + s.leaseMs), false, NoResponse)
  }

  /** Main result on reserving: a request gets the key exactly when there is no record for it, or
      an identical one whose lease is missing or over, or one that failed and may be retried; it
      then holds it from now on. Otherwise it changes nothing and is told why. */
  lemma AttemptTakesIff(s: System, k: Key, hash: string, now: int)
    ensures var t, id := Attempt(s, k, hash, now), |s.processes|;
            && id < |t.processes| && t.effects == s.effects && t.leaseMs == s.leaseMs
            && (t.processes[id] == Holding(k, hash) <==>
                  || k !in s.records
                  || (s.records[k].requestHash == hash && s.records[k].state == IN_PROGRESS
                      && (s.records[k].leaseExpiresAt.None? || s.records[k].leaseExpiresAt.value <= now))
                  || (s.records[k].requestHash == hash && s.records[k].state == FAILED && s.records[k].retryable))
            && (t.processes[id] == Holding(k, hash) ==>
                  HeldSince(t, k, hash, now) && t.records == s.records[k := t.records[k]])
            && (t.processes[id] != Holding(k, hash) ==>
                  && t.records == s.records && t.processes[id].Answered?
                  && var r, answer := s.records[k], t.processes[id].answer;
                     && (answer == Refused(KEY_REUSED) <==> r.requestHash != hash)
                     && (answer == Refused(COMMAND_IN_PROGRESS) <==> r.requestHash == hash && r.state == IN_PROGRESS)
                     && (r.requestHash == hash && r.state == COMPLETED ==> answer == Replayed(r.response))
                     && (r.requestHash == hash && r.state == FAILED ==> answer == StoredFailure(r.response)))
  {
    var id := |s.processes|;
    var s1 := Step(s, Submit(k, hash, now));
    var s2 := Step(s1, Act(id, Create));
    var s3 := Step(s2, Act(id, Find));
    assert s1.processes[id] == Reserving(k, hash, now);
    if k in s.records {
      assert s2.processes[id] == Duplicated(k, hash, now);
      assert s3.processes[id] == Found(k, hash, now, s.records[k]);
    } else {
      assert s2.processes[id] == Holding(k, hash) && s3 == s2;
    }
  }

  /** A lease lasts leaseMs from the reservation: before that an identical request finds the
      command in progress and changes no record, from then on it takes the key over. */
  lemma LeaseLasts(s: System, k: Key, hash: string, reservedAt: int, later: int)
    requires HeldSince(s, k, hash, reservedAt)
    ensures var t, id := Attempt(s, k, hash, later), |s.processes|;
            && (later < reservedAt + s.leaseMs ==>
                  t.records == s.records && t.processes[id] == Answered(k, hash, Refused(COMMAND_IN_PROGRESS)))
            && (later >= reservedAt + s.leaseMs ==>
                  t.processes[id] == Holding(k, hash) && HeldSince(t, k, hash, later))
  {
    hide Attempt;
    AttemptTakesIff(s, k, hash, later);
    AttemptAnswers(s, k, hash, later);
  }

  /** A request that does not get its key is answered under its own key and hash. */
  lemma AttemptAnswers(s: System, k: Key, hash: string, now: int)
    ensures var t, id := Attempt(s, k, hash, now), |s.processes|;
            && id < |t.processes|
            && (t.processes[id].Answered? ==> t.processes[id].key == k && t.processes[id].hash == hash)
  {
  }

  /** From the first request on: whatever ran since, as long as the reservation stands. */
  lemma ReservationLasts(s: System, k: Key, hash: string, reservedAt: int, es: seq<Event>, later: int)
    requires k !in s.records
    ensures var held := Attempt(s, k, hash, reservedAt);
            && k in held.records && held.processes[|s.processes|] == Holding(k, hash)
            && var u := Run(held, es);
               k in u.records && u.records[k] == held.records[k] ==>
                 var t, id := Attempt(u, k, hash, later), |u.processes|;
                 && (later < reservedAt + s.leaseMs ==>
                       t.records == u.records && t.processes[id] == Answered(k, hash, Refused(COMMAND_IN_PROGRESS)))
                 && (later >= reservedAt + s.leaseMs ==>
                       t.processes[id] == Holding(k, hash) && HeldSince(t, k, hash, later))
  {
    hide Attempt, Run;
    AttemptTakesIff(s, k, hash, reservedAt);
    var held := Attempt(s, k, hash, reservedAt);
    LeaseIsFixed(held, es);
    var u := Run(held, es);
    if k in u.records && u.records[k] == held.records[k] {
      LeaseLasts(u, k, hash, reservedAt, later);
    }
  }

  lemma {:induction false} LeaseIsFixed(s: System, es: seq<Event>)
    ensures Run(s, es).leaseMs == s.leaseMs
  {
    if es != [] {
      LeaseIsFixed(s, es[..|es| - 1]);
    }
  }

  /** A reservation left behind by a crash can be taken over once its lease is
      over, and a retryable failure at once; the takeover can then commit. */
  lemma AbandonedIsRecovered(s: System, k: Key, hash: string, now: int, result: string)
    requires k in s.records && s.records[k].requestHash == hash
    requires (s.records[k].state == IN_PROGRESS
              && (s.records[k].leaseExpiresAt.None? || s.records[k].leaseExpiresAt.value <= now))
             || (s.records[k].state == FAILED && s.records[k].retryable)
    ensures var id := |s.processes|;
            var t := Attempt(s, k, hash, now);
            && t.processes[id] == Holding(k, hash)
            && HasResult(Step(t, Act(id, Commit(result, None))).records, k, result)
            && Step(t, Act(id, Commit(result, None))).effects == s.effects + [Effect(k, result)]
  {
    AttemptTakesIff(s, k, hash, now);
    hide Attempt;
    assert IsInProgress(Attempt(s, k, hash, now).records, k);
  }

  /** A command that fails and records it can be tried again exactly when its caller says so, or
      says nothing and the failure was a server error; otherwise the failure is its answer. */
  lemma FailureIsRetriedIff(s: System, id: nat, k: Key, hash: string, at: int, failure: Failure, now: int)
    requires id < |s.processes| && s.processes[id] == Holding(k, hash) && HeldSince(s, k, hash, at)
    ensures var f := Step(Step(s, Act(id, Abort(failure))), Act(id, RecordFailure(true)));
            var t, again := Attempt(f, k, hash, now), |f.processes|;
            && f.effects == s.effects && f.processes[id] == Answered(k, hash, CommandFailed(failure))
            && f.records == s.records[k := Record(hash, FAILED, None, f.records[k].retryable, Failed(failure))]
            && (t.processes[again] == Holding(k, hash) <==>
                  if failure.retryable.Some? then failure.retryable.value
                  else failure.statusCode.Some? && failure.statusCode.value >= 500)
            && (t.processes[again] != Holding(k, hash) ==> t.processes[again].answer == StoredFailure(Failed(failure)))
  {
    var f := Step(Step(s, Act(id, Abort(failure))), Act(id, RecordFailure(true)));
    assert f.records[k].state == FAILED && f.records[k].requestHash == hash;
    AttemptTakesIff(f, k, hash, now);
    hide Attempt;
  }

  /** A failure whose recording fails, and a crash, leave the reservation to its lease. */
  lemma UnrecordedFailureKeepsLease(s: System, id: nat, k: Key, hash: string, at: int, failure: Failure)
    requires id < |s.processes| && s.processes[id] == Holding(k, hash) && HeldSince(s, k, hash, at)
    ensures var f := Step(Step(s, Act(id, Abort(failure))), Act(id, RecordFailure(false)));
            && HeldSince(f, k, hash, at) && f.effects == s.effects
            && f.processes[id] == Answered(k, hash, CommandFailed(failure))
    ensures var c := Step(s, Act(id, Crash));
            HeldSince(c, k, hash, at) && c.effects == s.effects && c.processes[id].Crashed?
  {
  }

  /** An answer, once given, stands. */
  lemma AnswersStand(s: System, e: Event, id: nat)
    requires id < |s.processes| && s.processes[id].Answered?
    ensures id < |Step(s, e).processes| && Step(s, e).processes[id] == s.processes[id]
  {
  }

  /** The executor that lost its key to a takeover that finished commits nothing: it fails
      with a conflict. Otherwise its commit leaves a finished record. */
  lemma CommitsIffInProgress(s: System, id: nat, k: Key, hash: string, result: string)
    requires id < |s.processes| && s.processes[id] == Holding(k, hash) && k in s.records
    ensures var t := Step(s, Act(id, Commit(result, None)));
            if s.records[k].state == IN_PROGRESS then
              && t.processes[id] == Answered(k, hash, Committed(result)) && t.effects == s.effects + [Effect(k, result)]
              && t.records == s.records[k := Record(s.records[k].requestHash, COMPLETED, None, false, Done(result))]
            else
              && t.effects == s.effects && t.records == s.records
              && t.processes[id] == Failing(k, hash, Failure(Some(409), "IDEMPOTENCY_STATE_CONFLICT", None))
  {
  }

  predicate IsInProgress(rs: Records, k: Key) { k in rs && rs[k].state == IN_PROGRESS }

  // ---- the service, updating its records ---------------------------------------

  datatype Reservation = Reservation(created: bool, recovered: bool, replay: bool, inProgress: bool, record: Record)

  datatype ReserveResult = Reserved(reservation: Reservation) | ReserveRefused(refusal: Refusal)

  /** reserve with no other executor between its database operations. */
  function ReserveAlone(rs: Records, leaseMs: int, k: Key, hash: string, now: int): (r: (Records, ReserveResult)) {
    var lease := now + leaseMs;
    if k !in rs then (rs[k := Fresh(hash, lease)], Reserved(Reservation(true, false, false, false, Fresh(hash, lease))))
    else
      var seen := rs[k];
      if seen.requestHash != hash then (rs, ReserveRefused(KEY_REUSED))
      else if (seen.state == IN_PROGRESS && LeaseExpired(seen, now)) || (seen.state == FAILED && seen.retryable) then
        (rs[k := Fresh(hash, lease)], Reserved(Reservation(true, true, false, false, Fresh(hash, lease))))
      else (rs, Reserved(Reservation(false, false, seen.state != IN_PROGRESS, seen.state == IN_PROGRESS, seen)))
  }

  /** What reserve answers: it creates for an absent key, a lease that is missing or over, and a
      failure to retry, and says otherwise whether the command is over or still running. */
  lemma ReserveMeaning(rs: Records, leaseMs: int, k: Key, hash: string, now: int)
    ensures var (after, r) := ReserveAlone(rs, leaseMs, k, hash, now);
            && (r == ReserveRefused(KEY_REUSED) <==> k in rs && rs[k].requestHash != hash)
            && (r.ReserveRefused? ==> after == rs)
            && (r.Reserved? ==>
                  var x := r.reservation;
                  && k in after && x.record == after[k]
                  && (x.created <==> k !in rs
                                     || (rs[k].state == IN_PROGRESS
                                         && (rs[k].leaseExpiresAt.None? || rs[k].leaseExpiresAt.value <= now))
                                     || (rs[k].state == FAILED && rs[k].retryable))
                  && (x.recovered <==> x.created && k in rs)
                  && (x.replay <==> !x.created && (rs[k].state == COMPLETED || rs[k].state == FAILED))
                  && (x.inProgress <==> !x.created && rs[k].state == IN_PROGRESS)
                  && (if x.created
                      then after == rs[k := Record(hash, IN_PROGRESS, Some(now + leaseMs), false, NoResponse)]
                      else after == rs))
  {
  }

  class IdempotencyService {
    var records: Records
    const leaseMs: int

    constructor (leaseMs: int)
      ensures records == map[] && this.leaseMs == leaseMs
    {
      records := map[];
      this.leaseMs := leaseMs;
    }

    method Reserve(k: Key, hash: string, now: int) returns (r: ReserveResult)
      modifies this
      ensures (records, r) == ReserveAlone(old(records), leaseMs, k, hash, now)
    {
      var lease := now + leaseMs;
      if k !in records {
        records := records[k := Fresh(hash, lease)];
        return Reserved(Reservation(true, false, false, false, records[k]));
      }
      var seen := records[k];
      if seen.requestHash != hash {
        return ReserveRefused(KEY_REUSED);
      }
      if seen.state == IN_PROGRESS && LeaseExpired(seen, now) {
        var recovered := RecoverExpired(records, k, now, lease);
        if recovered.Some? {
          records := recovered.value;
          return Reserved(Reservation(true, true, false, false, records[k]));
        }
      }
      if seen.state == FAILED && seen.retryable {
        var recovered := RecoverFailed(records, k, lease);
        if recovered.Some? {
          records := recovered.value;
          return Reserved(Reservation(true, true, false, false, records[k]));
        }
      }
      r := Reserved(Reservation(false, false, seen.state == COMPLETED
          || seen.state == FAILED, seen.state == IN_PROGRESS, seen));
    }

    method Complete(k: Key, result: string) returns (completed: bool)
      modifies this
      ensures completed == CompleteRecord(old(records), k, result).Some?
      ensures records == if completed then CompleteRecord(old(records), k, result).value else old(records)
    {
      completed := k in records && records[k].state == IN_PROGRESS;
      if completed {
        records := records[k := records[k].(state := COMPLETED, response := Done(result), retryable := false,
            leaseExpiresAt := None)];
      }
    }

    method Fail(k: Key, failure: Failure) returns (failed: bool)
      modifies this
      ensures failed == FailRecord(old(records), k, failure).Some?
      ensures records == if failed then FailRecord(old(records), k, failure).value else old(records)
    {
      failed := k in records && records[k].state == IN_PROGRESS;
      if failed {
        records := records[k := records[k].(state := FAILED, response := Failed(failure),
            retryable := IsRetryable(failure), leaseExpiresAt := None)];
      }
    }
  }

  /** The interleaved executor, when nobody comes between, is reserve. */
  lemma StepsAreReserve(s: System, k: Key, hash: string, now: int)
    ensures var id := |s.processes|;
            var t := Step(Step(Step(Step(s, Submit(k, hash, now)), Act(id, Create)), Act(id, Find)), Act(id, Decide));
            var (records, r) := ReserveAlone(s.records, s.leaseMs, k, hash, now);
            && t.records == records && t.effects == s.effects
            && t.processes[id] == match r
                case ReserveRefused(refusal) => Answered(k, hash, Refused(refusal))
                case Reserved(reservation) => if reservation.created then Holding(k, hash) else Answered(k, hash,
                    Resolve(reservation.record))
  {
    var id := |s.processes|;
    var s1 := Step(s, Submit(k, hash, now));
    var s2 := Step(s1, Act(id, Create));
    var s3 := Step(s2, Act(id, Find));
    assert s1.processes[id] == Reserving(k, hash, now);
    if k in s.records {
      assert s2.processes[id] == Duplicated(k, hash, now);
      assert s3.processes[id] == Found(k, hash, now, s.records[k]);
    } else {
      assert s2.processes[id] == Holding(k, hash);
      assert s3 == s2;
    }
  }
}
