/** The durable, numbered risk events of one account, the drains that replay them
    in order, and the verdict on each. A service call is one transaction; a drain
    reads outside transactions and may crash between any two of its steps. */
module RiskStream {
  import opened Common
  import opened TradingTypes

  // ---- verdicts ----------------------------------------------------------------

  datatype Context =
    | Valued(equity: Option<real>, dailyStartEquity: Option<real>, initialBalance: Option<real>,
             dailyLossLimit: Option<real>, maxLossLimit: Option<real>, riskDayKey: string,
             policyVersion: Option<string>)
    | RolledOver(previousDay: string, nextDay: string, previousStart: real, nextStart: real)
    | Transitioned(migrationId: string, nextPolicyVersion: Option<string>)

  datatype Rule = DAILY_DRAWDOWN | MAX_DRAWDOWN

  datatype Evidence = Evidence(rule: Rule, triggeredRules: seq<Rule>, equity: real, dailyStartEquity: real,
      initialBalance: real, limitAmount: real, thresholdEquity: real, actualLoss: real, breachAmount: real)

  datatype Outcome =
    | Safe(equity: real, riskDayKey: string, policyVersion: Option<string>)
    | Breached(evidence: Evidence)

  function OrZero(x: Option<real>): (y: real) { if x.Some? then x.value else 0.0 }

  function MaxBreached(c: Context): bool
    requires c.Valued?
  {
    OrZero(c.maxLossLimit) > 0.0 && OrZero(c.equity) <= OrZero(c.initialBalance) - OrZero(c.maxLossLimit)
  }

  function DailyBreached(c: Context): bool
    requires c.Valued?
  {
    OrZero(c.dailyLossLimit) > 0.0 && OrZero(c.equity) <= OrZero(c.dailyStartEquity) - OrZero(c.dailyLossLimit)
  }

  function Positive(x: real): (y: real) { if x > 0.0 then x else 0.0 }

  function BuildEvidence(c: Context, maxBreached: bool, dailyBreached: bool): (e: Evidence)
    requires c.Valued?
  {
    var reference := OrZero(if maxBreached then c.initialBalance else c.dailyStartEquity);
    var limit := OrZero(if maxBreached then c.maxLossLimit else c.dailyLossLimit);
    var actualLoss := Positive(reference - OrZero(c.equity));
    Evidence(if maxBreached then MAX_DRAWDOWN else DAILY_DRAWDOWN,
             (if dailyBreached then [DAILY_DRAWDOWN] else []) + (if maxBreached then [MAX_DRAWDOWN] else []),
             OrZero(c.equity), OrZero(c.dailyStartEquity), OrZero(c.initialBalance),
             limit, reference - limit, actualLoss, Positive(actualLoss - limit))
  }

  function EvaluateRiskContext(c: Context): (o: Outcome)
    requires c.Valued?
  {
    if MaxBreached(c) || DailyBreached(c) then Breached(BuildEvidence(c, MaxBreached(c), DailyBreached(c)))
    else Safe(OrZero(c.equity), c.riskDayKey, c.policyVersion)
  }

  /** The evidence of a breach is exact: neither clamp to zero changes a value, the
      loss is at least the limit, and the excess is what equity lacks of the threshold. */
  lemma EvidenceIsExact(c: Context)
    requires c.Valued? && EvaluateRiskContext(c).Breached?
    ensures var e := EvaluateRiskContext(c).evidence;
            var reference := if e.rule == MAX_DRAWDOWN then e.initialBalance else e.dailyStartEquity;
            && e.limitAmount > 0.0 && e.equity <= e.thresholdEquity == reference - e.limitAmount
            && e.actualLoss == reference - e.equity >= e.limitAmount
            && e.breachAmount == e.thresholdEquity - e.equity == e.actualLoss - e.limitAmount
            && e.rule in e.triggeredRules
            && (DAILY_DRAWDOWN in e.triggeredRules <==> DailyBreached(c))
            && (MAX_DRAWDOWN in e.triggeredRules <==> MaxBreached(c))
            && (e.rule == MAX_DRAWDOWN <==> MaxBreached(c))
  {
    var e := EvaluateRiskContext(c).evidence;
    if DailyBreached(c) { assert e.triggeredRules[0] == DAILY_DRAWDOWN; }
    if MaxBreached(c) { assert e.triggeredRules[|e.triggeredRules| - 1] == MAX_DRAWDOWN; }
  }

  /** A figure that is missing reads as zero. */
  predicate Reads(x: Option<real>, y: real) { x == Some(y) || (x.None? && y == 0.0) }

  /** The figures of a context. */
  datatype Figures = Figures(equity: real, dailyStart: real, initial: real, dailyLimit: real, maxLimit: real)

  predicate HasFigures(c: Context, f: Figures)
    requires c.Valued?
  {
    && Reads(c.equity, f.equity) && Reads(c.dailyStartEquity, f.dailyStart) && Reads(c.initialBalance, f.initial)
    && Reads(c.dailyLossLimit, f.dailyLimit) && Reads(c.maxLossLimit, f.maxLimit)
  }

  /** The rule on the total loss, and the rule on the loss of the day; a limit of zero or less is none. */
  predicate BelowMax(f: Figures) { f.maxLimit > 0.0 && f.equity <= f.initial - f.maxLimit }

  predicate BelowDaily(f: Figures) { f.dailyLimit > 0.0 && f.equity <= f.dailyStart - f.dailyLimit }

  /** What a verdict has to be for these figures. */
  predicate IsVerdict(o: Outcome, f: Figures, day: string, policyVersion: Option<string>) {
    && (o.Breached? <==> BelowMax(f) || BelowDaily(f))
    && (o.Safe? ==> o == Safe(f.equity, day, policyVersion))
    && (o.Breached? ==>
          var e := o.evidence;
          && (e.rule == MAX_DRAWDOWN <==> BelowMax(f))
          && e.triggeredRules == (if BelowDaily(f) then [DAILY_DRAWDOWN] else [])
                                 + (if BelowMax(f) then [MAX_DRAWDOWN] else [])
          && e.equity == f.equity && e.dailyStartEquity == f.dailyStart && e.initialBalance == f.initial
          && e.limitAmount == (if BelowMax(f) then f.maxLimit else f.dailyLimit)
          && e.actualLoss == (if BelowMax(f) then f.initial else f.dailyStart) - f.equity
          && e.breachAmount == e.actualLoss - e.limitAmount
          && e.thresholdEquity == e.equity + e.breachAmount)
  }

  /** Main result on the verdict: a context is breached exactly when the equity has fallen to its
      initial balance less the total limit, or to the day's start less the day's limit; the
      evidence carries both rules, and a safe verdict the context's day and policy. */
  lemma VerdictIff(c: Context, f: Figures)
    requires c.Valued? && HasFigures(c, f)
    ensures IsVerdict(EvaluateRiskContext(c), f, c.riskDayKey, c.policyVersion)
  {
  }

  // ---- the stream --------------------------------------------------------------

  datatype EventState = RECEIVED | EVALUATED | BREACHED_EVENT

  datatype Verdict = NoVerdict | Applied | Judged(outcome: Outcome)

  /** The parts of an event's key; rendering them into one string keeps them apart. */
  datatype EventKey =
    | RolloverKey(day: string)
    | TransitionKey(migrationId: string)
    | ValuationKey(sequence: Option<int>, valuedAtMs: Option<int>, revision: int, day: string, equity: real,
        usedMargin: real)

  datatype RiskEvent = RiskEvent(sequence: nat, key: EventKey, context: Context, state: EventState, result: Verdict)

  datatype RiskAccount = RiskAccount(
    revision: int, riskDayKey: string, initialBalance: real, dailyStartEquity: real, realizedPnlToday: real,
    dailyLossLimit: Option<real>, maxLossLimit: Option<real>, policyVersion: Option<string>,
    status: AccountStatus, tradingEnabled: bool, riskSequence: nat, lastEvaluated: nat, unresolved: bool)

  datatype Stream = Stream(account: RiskAccount, events: seq<RiskEvent>)

  datatype LiveValuation = LiveValuation(complete: bool, live: bool, revision: Option<int>, equity: real,
      usedMargin: real, sequence: Option<int>, valuedAtMs: Option<int>)

  predicate HasEventKey(es: seq<RiskEvent>, key: EventKey) { exists i :: 0 <= i < |es| && es[i].key == key }

  /** The index of the event with a sequence number. */
  function FindSequence(es: seq<RiskEvent>, n: nat): (i: Option<nat>)
    ensures i.Some? ==> i.value < |es| && es[i.value].sequence == n
    ensures i.None? ==> forall j :: 0 <= j < |es| ==> es[j].sequence != n
  {
    if es == [] then None
    else if es[|es| - 1].sequence == n then Some(|es| - 1)
    else FindSequence(es[..|es| - 1], n)
  }

  /** #appendWithinTransaction: a key that is there already adds nothing. */
  function Append(s: Stream, key: EventKey, context: Context): (t: Stream) {
    if HasEventKey(s.events, key) then s
    else
      var n := s.account.riskSequence + 1;
      Stream(s.account.(riskSequence := n), s.events + [RiskEvent(n, key, context, RECEIVED, NoVerdict)])
  }

  function ValuationContext(a: RiskAccount, v: LiveValuation, day: string): (c: Context) {
    Valued(Some(v.equity), Some(a.dailyStartEquity), Some(a.initialBalance), a.dailyLossLimit, a.maxLossLimit, day,
        a.policyVersion)
  }

  /** The risk day moves on with the first valuation that finds it over. */
  function RollDay(s: Stream, v: LiveValuation, today: string): (t: Stream) {
    if s.account.riskDayKey == today then s
    else
      var r := Append(s, RolloverKey(today),
          RolledOver(s.account.riskDayKey, today, s.account.dailyStartEquity, v.equity));
      r.(account := r.account.(riskDayKey := today, dailyStartEquity := v.equity, realizedPnlToday := 0.0))
  }

  function Ingest(s: Stream, v: LiveValuation, today: string): (t: Stream) {
    if !v.complete || !v.live then s
    else if v.revision != Some(s.account.revision) then s
    else
      var r := RollDay(s, v, today);
      Append(r, ValuationKey(v.sequence, v.valuedAtMs, s.account.revision, today, v.equity, v.usedMargin),
          ValuationContext(r.account, v, today))
  }

  function AppendTransition(s: Stream, migrationId: string, nextVersion: Option<string>): (t: Stream) {
    Append(s, TransitionKey(migrationId), Transitioned(migrationId, nextVersion))
  }

  datatype CompletionError = RISK_SEQUENCE_OUT_OF_ORDER | RISK_SEQUENCE_GAP

  /** What the body of a transaction has written when it returns or throws. */
  datatype Attempt = Attempt(written: Stream, thrown: Option<CompletionError>)

  /** A transaction keeps what its body wrote if the body returns and the commit goes through. */
  function Transact(before: Stream, attempt: Attempt, committed: bool): (after: Stream) {
    if committed && attempt.thrown.None? then attempt.written else before
  }

  function MarkUnresolved(s: Stream): (t: Stream) { s.(account := s.account.(unresolved := true)) }

  /** The body of complete: it saves the unresolved mark before it throws, on both branches. */
  function CompleteBody(s: Stream, sequence: nat, state: EventState, result: Verdict): (a: Attempt) {
    if sequence != s.account.lastEvaluated + 1 then Attempt(MarkUnresolved(s), Some(RISK_SEQUENCE_OUT_OF_ORDER))
    else
      match FindSequence(s.events, sequence)
      case None => Attempt(MarkUnresolved(s), Some(RISK_SEQUENCE_GAP))
      case Some(i) =>
        var e := s.events[i];
        var events := if e.state == RECEIVED then s.events[i := e.(state := state, result := result)] else s.events;
        var account := s.account.(lastEvaluated := sequence);
        Attempt(Stream(if sequence == account.riskSequence then account.(unresolved := false) else account, events),
            None)
  }

  // ---- drains ------------------------------------------------------------------

  datatype Drain =
    | AtLoop
    | HasAccount(account: RiskAccount)
    | HasEvent(account: RiskAccount, event: RiskEvent)
    | MustBreach(event: RiskEvent)
    | MustComplete(sequence: nat, state: EventState, result: Verdict, last: bool)
    | Ended
    | Gap

  datatype System = System(stream: Stream, drains: seq<Drain>)

  datatype Action = ReadAccount | ReadEvent | Decide | BreachAccount(ok: bool) | CompleteEvent(committed: bool) | Crash

  datatype Event =
    | Valuation(valuation: LiveValuation, today: string)
    | PolicyTransition(migrationId: string, nextVersion: Option<string>)
    | Outside(document: RiskAccount)
    | StartDrain
    | Act(id: nat, action: Action)

  /** Another command writes the account: anything but the stream's own counters and mark,
      an opening that rolls the risk day and its baseline included. */
  function WrittenOutside(a: RiskAccount, document: RiskAccount): (b: RiskAccount) {
    document.(riskSequence := a.riskSequence, lastEvaluated := a.lastEvaluated, unresolved := a.unresolved)
  }

  /** What a drain has to write for an event that is not final yet. */
  function FinalState(c: Context): (s: EventState) {
    if c.Valued? && EvaluateRiskContext(c).Breached? then BREACHED_EVENT else EVALUATED
  }

  function FinalVerdict(c: Context): (v: Verdict) { if c.Valued? then Judged(EvaluateRiskContext(c)) else Applied }

  /** The event after a snapshot of the account; none below riskSequence is a gap. */
  function AfterReadEvent(s: Stream, a: RiskAccount): (d: Drain) {
    match FindSequence(s.events, a.lastEvaluated + 1)
    case Some(i) => HasEvent(a, s.events[i])
    case None => if a.riskSequence >= a.lastEvaluated + 1 then Gap else Ended
  }

  function AfterDecide(a: RiskAccount, e: RiskEvent): (d: Drain) {
    if e.state != RECEIVED then MustComplete(e.sequence, e.state, e.result, false)
    else if !e.context.Valued? then MustComplete(e.sequence, EVALUATED, Applied, false)
    else
      var outcome := EvaluateRiskContext(e.context);
      if outcome.Safe? then MustComplete(e.sequence, EVALUATED, Judged(outcome), false)
      else if a.status == ACTIVE && a.tradingEnabled then MustBreach(e)
      else MustComplete(e.sequence, BREACHED_EVENT, Judged(outcome), true)
  }

  function With(s: System, id: nat, d: Drain): (t: System)
    requires id < |s.drains|
  {
    s.(drains := s.drains[id := d])
  }

  function ActStep(s: System, id: nat, d: Drain, a: Action): (t: System)
    requires id < |s.drains|
  {
    match a
    case ReadAccount => if d.AtLoop? then With(s, id, HasAccount(s.stream.account)) else s
    case ReadEvent =>
      if !d.HasAccount? then s
      else
        var next := AfterReadEvent(s.stream, d.account);
        var t := With(s, id, next);
        if next.Gap? then t.(stream := MarkUnresolved(s.stream)) else t
    case Decide => if d.HasEvent? then With(s, id, AfterDecide(d.account, d.event)) else s
    case BreachAccount(ok) =>
      if !d.MustBreach? then s
      else if !ok || !d.event.context.Valued? then With(s, id, Ended)
      else
        var verdict := Judged(EvaluateRiskContext(d.event.context));
        With(s, id, MustComplete(d.event.sequence, BREACHED_EVENT, verdict, true))
            .(stream := s.stream.(account := s.stream.account.(status := BREACHED, tradingEnabled := false)))
    case CompleteEvent(committed) =>
      if !d.MustComplete? then s
      else
        var body := CompleteBody(s.stream, d.sequence, d.state, d.result);
        With(s, id, if committed && body.thrown.None? && !d.last then AtLoop else Ended)
            .(stream := Transact(s.stream, body, committed))
    case Crash => With(s, id, Ended)
  }

  function Step(s: System, e: Event): (t: System) {
    match e
    case Valuation(v, today) => s.(stream := Ingest(s.stream, v, today))
    case PolicyTransition(migrationId, nextVersion) =>
      s.(stream := AppendTransition(s.stream, migrationId, nextVersion))
    case Outside(document) =>
      s.(stream := s.stream.(account := WrittenOutside(s.stream.account, document)))
    case StartDrain => s.(drains := s.drains + [AtLoop])
    case Act(id, action) => if id < |s.drains| then ActStep(s, id, s.drains[id], action) else s
  }

  function Run(s: System, es: seq<Event>): (t: System) {
    if es == [] then s else Step(Run(s, es[..|es| - 1]), es[|es| - 1])
  }

  // ---- what every run keeps ----------------------------------------------------

  /** Sequences 1 to riskSequence, each once, under distinct keys. */
  ghost predicate Numbered(s: Stream) {
    && s.account.riskSequence == |s.events|
    && (forall i :: 0 <= i < |s.events| ==> s.events[i].sequence == i + 1)
    && (forall i, j :: 0 <= i < j < |s.events| ==> s.events[i].key != s.events[j].key)
  }

  /** Evaluated exactly up to lastEvaluated, with the verdict on the stored context. */
  ghost predicate JudgedInOrder(s: Stream) {
    && s.account.lastEvaluated <= s.account.riskSequence
    && (forall i :: 0 <= i < |s.events| ==>
        (s.events[i].state != RECEIVED <==> s.events[i].sequence <= s.account.lastEvaluated))
    && (forall i :: 0 <= i < |s.events| && s.events[i].state != RECEIVED ==>
          s.events[i].state == FinalState(s.events[i].context)
              && s.events[i].result == FinalVerdict(s.events[i].context))
  }

  predicate StoredAt(s: Stream, n: nat, key: EventKey, context: Context) {
    1 <= n <= |s.events| && s.events[n - 1].key == key && s.events[n - 1].context == context
  }

  ghost predicate DrainOk(s: Stream, d: Drain) {
    match d
    case HasAccount(a) => a.riskSequence <= |s.events| && a.lastEvaluated <= s.account.lastEvaluated
    case HasEvent(_, e) =>
      && StoredAt(s, e.sequence, e.key, e.context) && e.sequence <= s.account.lastEvaluated + 1
      && (e.state != RECEIVED ==> e.state == FinalState(e.context) && e.result == FinalVerdict(e.context))
    case MustBreach(e) =>
      && StoredAt(s, e.sequence, e.key, e.context) && e.sequence <= s.account.lastEvaluated + 1
      && e.context.Valued? && EvaluateRiskContext(e.context).Breached?
    case MustComplete(n, state, result, _) =>
      && 1 <= n <= |s.events| && n <= s.account.lastEvaluated + 1
      && state == FinalState(s.events[n - 1].context) && result == FinalVerdict(s.events[n - 1].context)
    case Gap => false
    case _ => true
  }

  ghost predicate StreamOk(s: System) {
    && Numbered(s.stream) && JudgedInOrder(s.stream) && !s.stream.account.unresolved
    && forall i :: 0 <= i < |s.drains| ==> DrainOk(s.stream, s.drains[i])
  }

  /** Events are only added, keep their key and context, and are not evaluated twice. */
  ghost predicate Extends(s: Stream, t: Stream) {
    && |s.events| <= |t.events| && s.account.lastEvaluated <= t.account.lastEvaluated
    && forall i :: 0 <= i < |s.events| ==>
        t.events[i].key == s.events[i].key && t.events[i].context == s.events[i].context
  }

  lemma AppendKeeps(s: Stream, key: EventKey, context: Context)
    requires Numbered(s) && JudgedInOrder(s)
    ensures var t := Append(s, key, context);
            && Numbered(t) && JudgedInOrder(t) && Extends(s, t)
            && t.account == s.account.(riskSequence := t.account.riskSequence)
            && t.account.unresolved == s.account.unresolved
  {
    hide FinalState, FinalVerdict;
  }

  lemma AccountAside(s: Stream, a: RiskAccount)
    requires Numbered(s) && JudgedInOrder(s) && a.riskSequence == s.account.riskSequence
    requires a.lastEvaluated == s.account.lastEvaluated
    ensures Numbered(s.(account := a)) && JudgedInOrder(s.(account := a)) && Extends(s, s.(account := a))
  {
    hide FinalState, FinalVerdict;
  }

  lemma IngestKeeps(s: Stream, v: LiveValuation, today: string)
    requires Numbered(s) && JudgedInOrder(s)
    ensures var t := Ingest(s, v, today);
            Numbered(t) && JudgedInOrder(t) && Extends(s, t) && t.account.unresolved == s.account.unresolved
  {
    hide Append, Numbered, JudgedInOrder, Extends;
    Reflexive(s);
    if v.complete && v.live && v.revision == Some(s.account.revision) {
      var key := RolloverKey(today);
      var context := RolledOver(s.account.riskDayKey, today, s.account.dailyStartEquity, v.equity);
      var r := RollDay(s, v, today);
      if s.account.riskDayKey != today {
        AppendKeeps(s, key, context);
        AccountAside(Append(s, key, context), r.account);
        Transitive(s, Append(s, key, context), r);
      }
      AppendKeeps(r, ValuationKey(v.sequence, v.valuedAtMs, s.account.revision, today, v.equity, v.usedMargin),
          ValuationContext(r.account, v, today));
      Transitive(s, r, Ingest(s, v, today));
    }
  }

  lemma Reflexive(s: Stream)
    ensures Extends(s, s)
  {
  }

  lemma Transitive(s: Stream, t: Stream, u: Stream)
    requires Extends(s, t) && Extends(t, u)
    ensures Extends(s, u)
  {
  }

  lemma FindsNumber(s: Stream, n: nat)
    requires Numbered(s)
    ensures FindSequence(s.events, n) == if 1 <= n <= |s.events| then Some(n - 1) else None
  {
    var i := FindSequence(s.events, n);
    if 1 <= n <= |s.events| {
      assert s.events[n - 1].sequence == n;
    }
  }

  lemma CompleteKeeps(s: Stream, n: nat, state: EventState, result: Verdict)
    requires Numbered(s) && JudgedInOrder(s) && 1 <= n <= |s.events| && !s.account.unresolved
    requires state == FinalState(s.events[n - 1].context) && result == FinalVerdict(s.events[n - 1].context)
    ensures var a := CompleteBody(s, n, state, result);
            a.thrown.None? ==>
              Numbered(a.written) && JudgedInOrder(a.written) && Extends(s, a.written) && !a.written.account.unresolved
  {
    FinalIsFinal(s.events[n - 1].context);
    hide FinalState, FinalVerdict;
    FindsNumber(s, n);
    if CompleteBody(s, n, state, result).thrown.None? {
      assert s.events[n - 1].state == RECEIVED;
    }
  }

  lemma FinalIsFinal(c: Context)
    ensures FinalState(c) != RECEIVED
  {
  }

  lemma DrainStaysOk(s: Stream, t: Stream, d: Drain)
    requires DrainOk(s, d) && Extends(s, t)
    ensures DrainOk(t, d)
  {
    hide FinalState, FinalVerdict, EvaluateRiskContext;
  }

  /** The drain that moved, and the stream it may have written. */
  lemma ActKeeps(s: System, id: nat, a: Action)
    requires StreamOk(s) && id < |s.drains|
    ensures var t := ActStep(s, id, s.drains[id], a);
            && Numbered(t.stream) && JudgedInOrder(t.stream) && !t.stream.account.unresolved
            && Extends(s.stream, t.stream)
            && |t.drains| == |s.drains| && DrainOk(t.stream, t.drains[id])
            && forall i :: 0 <= i < |s.drains| && i != id ==> t.drains[i] == s.drains[i]
  {
    hide FinalState, FinalVerdict, EvaluateRiskContext, Numbered, JudgedInOrder, Extends, DrainOk;
    hide CompleteBody, AfterReadEvent, AfterDecide;
    var d := s.drains[id];
    assert DrainOk(s.stream, d);
    Reflexive(s.stream);
    EndedIsOk(s.stream);
    match a
    case ReadAccount =>
      if d.AtLoop? {
        SnapshotIsOk(s.stream);
      }
    case ReadEvent =>
      if d.HasAccount? {
        ReadIsOk(s.stream, d.account);
      }
    case Decide =>
      if d.HasEvent? {
        DecideIsOk(s.stream, d.account, d.event);
      }
    case BreachAccount(ok) =>
      if d.MustBreach? {
        BreachIsOk(s.stream, d.event, s.stream.account.(status := BREACHED, tradingEnabled := false));
      }
    case CompleteEvent(committed) =>
      if d.MustComplete? {
        CompletionIsOk(s.stream, d);
      }
    case Crash =>
  }

  lemma EndedIsOk(s: Stream)
    ensures DrainOk(s, Ended)
  {
  }

  lemma SnapshotIsOk(s: Stream)
    requires Numbered(s)
    ensures DrainOk(s, HasAccount(s.account))
  {
  }

  lemma ReadIsOk(s: Stream, a: RiskAccount)
    requires Numbered(s) && JudgedInOrder(s) && DrainOk(s, HasAccount(a))
    ensures DrainOk(s, AfterReadEvent(s, a)) && !AfterReadEvent(s, a).Gap?
  {
    hide FinalState, FinalVerdict;
    FindsNumber(s, a.lastEvaluated + 1);
  }

  lemma DecideIsOk(s: Stream, a: RiskAccount, e: RiskEvent)
    requires DrainOk(s, HasEvent(a, e))
    ensures DrainOk(s, AfterDecide(a, e))
  {
  }

  lemma BreachIsOk(s: Stream, e: RiskEvent, a: RiskAccount)
    requires Numbered(s) && JudgedInOrder(s) && DrainOk(s, MustBreach(e))
    requires a.riskSequence == s.account.riskSequence && a.lastEvaluated == s.account.lastEvaluated
    ensures Numbered(s.(account := a)) && JudgedInOrder(s.(account := a)) && Extends(s, s.(account := a))
    ensures e.context.Valued?
    ensures var verdict := Judged(EvaluateRiskContext(e.context));
            DrainOk(s.(account := a), MustComplete(e.sequence, BREACHED_EVENT, verdict, true))
  {
    AccountAside(s, a);
    hide Numbered, JudgedInOrder, Extends;
  }

  lemma CompletionIsOk(s: Stream, d: Drain)
    requires d.MustComplete? && DrainOk(s, d) && Numbered(s) && JudgedInOrder(s) && !s.account.unresolved
    ensures var a := CompleteBody(s, d.sequence, d.state, d.result);
            a.thrown.None? ==> && Numbered(a.written) && JudgedInOrder(a.written) && Extends(s, a.written)
                               && !a.written.account.unresolved && DrainOk(a.written, AtLoop)
                               && DrainOk(a.written, Ended)
  {
    hide Numbered, JudgedInOrder, Extends, CompleteBody, FinalState, FinalVerdict;
    CompleteKeeps(s, d.sequence, d.state, d.result);
  }

  lemma StreamMoves(s: System, r: Stream)
    requires StreamOk(s) && Numbered(r) && JudgedInOrder(r) && !r.account.unresolved && Extends(s.stream, r)
    ensures StreamOk(s.(stream := r))
  {
    hide Numbered, JudgedInOrder, Extends, DrainOk;
    forall i | 0 <= i < |s.drains| ensures DrainOk(r, s.drains[i]) {
      DrainStaysOk(s.stream, r, s.drains[i]);
    }
  }

  lemma DrainMoves(s: System, t: System, id: nat)
    requires StreamOk(s) && id < |s.drains| == |t.drains|
    requires Numbered(t.stream) && JudgedInOrder(t.stream) && !t.stream.account.unresolved
    requires Extends(s.stream, t.stream)
    requires DrainOk(t.stream, t.drains[id]) && forall i :: 0 <= i < |s.drains| && i != id ==>
        t.drains[i] == s.drains[i]
    ensures StreamOk(t)
  {
    hide Numbered, JudgedInOrder, Extends, DrainOk;
    forall i | 0 <= i < |t.drains| ensures DrainOk(t.stream, t.drains[i]) {
      if i != id {
        DrainStaysOk(s.stream, t.stream, s.drains[i]);
      }
    }
  }

  lemma StepKeeps(s: System, e: Event)
    requires StreamOk(s)
    ensures StreamOk(Step(s, e))
  {
    hide FinalState, FinalVerdict, EvaluateRiskContext, ActStep, Ingest, Numbered, JudgedInOrder, Extends, DrainOk,
         Append;
    var t := Step(s, e);
    match e
    case Valuation(v, today) =>
      IngestKeeps(s.stream, v, today);
      StreamMoves(s, t.stream);
    case PolicyTransition(migrationId, nextVersion) =>
      AppendKeeps(s.stream, TransitionKey(migrationId), Transitioned(migrationId, nextVersion));
      StreamMoves(s, t.stream);
    case Outside(_) =>
      AccountAside(s.stream, t.stream.account);
      StreamMoves(s, t.stream);
    case StartDrain => LoopIsOk(s.stream);
    case Act(id, action) =>
      if id < |s.drains| {
        ActKeeps(s, id, action);
        DrainMoves(s, t, id);
      }
  }

  lemma LoopIsOk(s: Stream)
    ensures DrainOk(s, AtLoop)
  {
  }

  predicate Untouched(s: System) {
    && s.stream.events == [] && s.drains == []
    && s.stream.account.riskSequence == 0 && s.stream.account.lastEvaluated == 0 && !s.stream.account.unresolved
  }

  /** Main result: at every reachable state, crashes and replays included, the
      events are exactly 1..riskSequence under distinct keys, they have left
      RECEIVED exactly up to lastEvaluated, every verdict is the one on the stored
      context, no drain ever finds a gap, and the account is never unresolved. */
  lemma {:induction false} RunKeepsStream(s: System, es: seq<Event>)
    requires Untouched(s)
    ensures StreamOk(Run(s, es))
  {
    if es != [] {
      RunKeepsStream(s, es[..|es| - 1]);
      StepKeeps(Run(s, es[..|es| - 1]), es[|es| - 1]);
    }
  }

  /** So every evaluated event of every run carries the verdict that its stored figures call for. */
  lemma EvaluatedAsFiguresSay(s: System, es: seq<Event>, i: nat, f: Figures)
    requires Untouched(s)
    ensures var t := Run(s, es).stream;
            i < |t.events| && i < t.account.lastEvaluated ==>
              var e := t.events[i];
              && e.sequence == i + 1
              && (!e.context.Valued? ==> e.state == EVALUATED && e.result == Applied)
              && (e.context.Valued? && HasFigures(e.context, f) ==>
                    && (e.state == BREACHED_EVENT <==> BelowMax(f) || BelowDaily(f)) && e.state != RECEIVED
                    && e.result.Judged?
                    && IsVerdict(e.result.outcome, f, e.context.riskDayKey, e.context.policyVersion))
  {
    RunKeepsStream(s, es);
    hide Run, IsVerdict, HasFigures, EvaluateRiskContext;
    var t := Run(s, es).stream;
    if i < |t.events| && t.events[i].context.Valued? && HasFigures(t.events[i].context, f) {
      VerdictIff(t.events[i].context, f);
      VerdictSays(EvaluateRiskContext(t.events[i].context), f, t.events[i].context.riskDayKey,
          t.events[i].context.policyVersion);
    }
  }

  lemma VerdictSays(o: Outcome, f: Figures, day: string, policyVersion: Option<string>)
    requires IsVerdict(o, f, day, policyVersion)
    ensures o.Breached? <==> BelowMax(f) || BelowDaily(f)
  {
  }

  /** What a valuation records. Stale and incomplete ones add nothing. Otherwise a new day first
      takes the equity for its baseline, and the context carries the account's figures. */
  lemma IngestRecords(s: Stream, v: LiveValuation, today: string)
    requires Numbered(s)
    ensures var t := Ingest(s, v, today);
            var accepted := v.complete && v.live && v.revision == Some(s.account.revision);
            var rolled := s.account.riskDayKey != today;
            var base := if rolled then v.equity else s.account.dailyStartEquity;
            var key := ValuationKey(v.sequence, v.valuedAtMs, s.account.revision, today, v.equity, v.usedMargin);
            var rollover := RolledOver(s.account.riskDayKey, today, s.account.dailyStartEquity, v.equity);
            var valued := Valued(Some(v.equity), Some(base), Some(s.account.initialBalance), s.account.dailyLossLimit,
                s.account.maxLossLimit, today, s.account.policyVersion);
            && (!accepted ==> t == s)
            && (accepted ==>
                  && t.account == s.account.(riskDayKey := today, dailyStartEquity := base, riskSequence := |t.events|,
                       realizedPnlToday := if rolled then 0.0 else s.account.realizedPnlToday)
                  && (rolled && !HasEventKey(s.events, RolloverKey(today)) ==>
                        && |t.events| > |s.events|
                        && t.events[|s.events|]
                           == RiskEvent(|s.events| + 1, RolloverKey(today), rollover, RECEIVED, NoVerdict))
                  && (!HasEventKey(s.events, key) ==>
                        && t.events != []
                        && t.events[|t.events| - 1] == RiskEvent(|t.events|, key, valued, RECEIVED, NoVerdict))
                  && |t.events| == |s.events| + (if rolled && !HasEventKey(s.events, RolloverKey(today)) then 1 else 0)
                                   + (if HasEventKey(s.events, key) then 0 else 1)
                  && s.events <= t.events)
  {
    var key := ValuationKey(v.sequence, v.valuedAtMs, s.account.revision, today, v.equity, v.usedMargin);
    if v.complete && v.live && v.revision == Some(s.account.revision) {
      var r := RollDay(s, v, today);
      assert HasEventKey(r.events, key) <==> HasEventKey(s.events, key) by {
        OtherKey(s.events, r.events, key);
      }
    }
  }

  lemma OtherKey(es: seq<RiskEvent>, fs: seq<RiskEvent>, key: EventKey)
    requires es <= fs && forall i :: |es| <= i < |fs| ==> fs[i].key != key
    ensures HasEventKey(fs, key) <==> HasEventKey(es, key)
  {
    if HasEventKey(es, key) {
      var i :| 0 <= i < |es| && es[i].key == key;
      assert fs[i].key == key;
    }
  }

  /** The mark a completion saves never survives it: at every reachable state the body marks
      the account exactly when it throws, which is exactly when the event is not the next
      one, and then the transaction leaves the stream as it was. What such a completion
      reports was stored before, verdict and all, so nothing is lost with it. */
  lemma UnresolvedMarkIsRolledBack(s: System, es: seq<Event>, id: nat, committed: bool)
    requires Untouched(s)
    ensures var t := Run(s, es);
            id < |t.drains| && t.drains[id].MustComplete? ==>
              var d := t.drains[id];
              var body := CompleteBody(t.stream, d.sequence, d.state, d.result);
              var u := Step(t, Act(id, CompleteEvent(committed)));
              && (body.thrown.Some? <==> body.written.account.unresolved)
              && (body.thrown.Some? <==> d.sequence != t.stream.account.lastEvaluated + 1)
              && !u.stream.account.unresolved
              && (body.thrown.Some? ==> u.stream == t.stream && 1 <= d.sequence <= |t.stream.events|
                                        && t.stream.events[d.sequence - 1].state == d.state
                                        && t.stream.events[d.sequence - 1].result == d.result)
  {
    hide Untouched, Run, Step, CompleteBody, StreamOk;
    RunKeepsStream(s, es);
    var t := Run(s, es);
    if id < |t.drains| && t.drains[id].MustComplete? {
      ThrownIsRepeated(t, id);
      ThrownIsUndone(t, id, committed);
    }
  }

  lemma ThrownIsRepeated(t: System, id: nat)
    requires StreamOk(t) && id < |t.drains| && t.drains[id].MustComplete?
    ensures var d := t.drains[id];
            var body := CompleteBody(t.stream, d.sequence, d.state, d.result);
            && (body.thrown.Some? <==> body.written.account.unresolved)
            && (body.thrown.Some? <==> d.sequence != t.stream.account.lastEvaluated + 1)
            && (body.thrown.Some? ==> 1 <= d.sequence <= |t.stream.events|
                                      && t.stream.events[d.sequence - 1].state == d.state
                                      && t.stream.events[d.sequence - 1].result == d.result)
  {
    hide FinalState, FinalVerdict, EvaluateRiskContext;
    var d := t.drains[id];
    assert DrainOk(t.stream, d);
    FindsNumber(t.stream, d.sequence);
    assert t.stream.events[d.sequence - 1].sequence == d.sequence;
  }

  lemma ThrownIsUndone(t: System, id: nat, committed: bool)
    requires StreamOk(t) && id < |t.drains| && t.drains[id].MustComplete?
    ensures var d := t.drains[id];
            var u := Step(t, Act(id, CompleteEvent(committed)));
            && !u.stream.account.unresolved
            && (CompleteBody(t.stream, d.sequence, d.state, d.result).thrown.Some? ==> u.stream == t.stream)
  {
    StepKeeps(t, Act(id, CompleteEvent(committed)));
    hide CompleteBody, Numbered, JudgedInOrder, DrainOk, Ingest, Append;
  }

  /** Two drains of one account that read the same event: the second completes it too. */
  function TwoDrains(v: LiveValuation, today: string): (es: seq<Event>) {
    [Valuation(v, today), StartDrain, StartDrain, Act(0, ReadAccount), Act(1, ReadAccount), Act(0, ReadEvent),
     Act(1, ReadEvent), Act(0, Decide), Act(1, Decide), Act(0, CompleteEvent(true))]
  }

  /** Such a completion is reached from any account without events or limits: two drains read
      the first valuation, and the second to finish marks the account, throws, and leaves it
      unmarked. */
  lemma OutOfOrderIsReached(s: System, v: LiveValuation)
    requires Untouched(s) && s.stream.account.dailyLossLimit.None? && s.stream.account.maxLossLimit.None?
    requires v.complete && v.live && v.revision == Some(s.stream.account.revision)
    ensures var t := Run(s, TwoDrains(v, s.stream.account.riskDayKey));
            && |t.drains| == 2 && t.drains[1].MustComplete? && t.stream.account.lastEvaluated == 1
            && var d := t.drains[1];
               var body := CompleteBody(t.stream, d.sequence, d.state, d.result);
               && body.thrown == Some(RISK_SEQUENCE_OUT_OF_ORDER) && body.written.account.unresolved
               && Step(t, Act(1, CompleteEvent(true))).stream == t.stream && !t.stream.account.unresolved
  {
    var es := TwoDrains(v, s.stream.account.riskDayKey);
    var stream, e := FirstIngested(s, v);
    TwoReadTwoDecide(s, v, stream, e);
    SecondIsRefused(Step(Decided(stream, e), Act(0, CompleteEvent(true))), stream, e);
    hide Step, Untouched, CompleteBody, EvaluateRiskContext;
    RunsOn(s, es, 0);
    RunsOn(s, es, 1);
    RunsOn(s, es, 2);
    RunsOn(s, es, 3);
    RunsOn(s, es, 4);
    RunsOn(s, es, 5);
    RunsOn(s, es, 6);
    RunsOn(s, es, 7);
    RunsOn(s, es, 8);
    RunsOn(s, es, 9);
    assert es[..10] == es;
  }

  lemma FirstIngested(s: System, v: LiveValuation) returns (stream: Stream, e: RiskEvent)
    requires Untouched(s) && s.stream.account.dailyLossLimit.None? && s.stream.account.maxLossLimit.None?
    requires v.complete && v.live && v.revision == Some(s.stream.account.revision)
    ensures stream == Ingest(s.stream, v, s.stream.account.riskDayKey) && stream.events == [e] && e.sequence == 1
    ensures e.state == RECEIVED && e.context.Valued? && EvaluateRiskContext(e.context).Safe?
    ensures stream.account == s.stream.account.(riskSequence := 1)
  {
    stream := Ingest(s.stream, v, s.stream.account.riskDayKey);
    e := stream.events[0];
  }

  /** The state in which both drains are about to complete the first event. */
  function Decided(stream: Stream, e: RiskEvent): (s: System)
    requires e.context.Valued?
  {
    var d := MustComplete(1, EVALUATED, Judged(EvaluateRiskContext(e.context)), false);
    System(stream, [d, d])
  }

  lemma TwoReadTwoDecide(s: System, v: LiveValuation, stream: Stream, e: RiskEvent)
    requires s.drains == [] && stream == Ingest(s.stream, v, s.stream.account.riskDayKey)
    requires stream.events == [e] && e.sequence == 1 && e.state == RECEIVED && stream.account.lastEvaluated == 0
    requires e.context.Valued? && EvaluateRiskContext(e.context).Safe?
    ensures var es := TwoDrains(v, s.stream.account.riskDayKey);
            var s5 := Step(Step(Step(Step(Step(s, es[0]), es[1]), es[2]), es[3]), es[4]);
            Step(Step(Step(Step(s5, es[5]), es[6]), es[7]), es[8]) == Decided(stream, e)
  {
    hide EvaluateRiskContext, Ingest, AppendTransition, CompleteBody, Append;
    var read, held := HasAccount(stream.account), HasEvent(stream.account, e);
    var d := MustComplete(1, EVALUATED, Judged(EvaluateRiskContext(e.context)), false);
    assert FindSequence(stream.events, 1) == Some(0);
    var s2 := System(stream, [AtLoop, AtLoop]);
    assert Step(Step(Step(s, Valuation(v, s.stream.account.riskDayKey)), StartDrain), StartDrain) == s2;
    var s4 := System(stream, [read, read]);
    assert Step(s2, Act(0, ReadAccount)) == System(stream, [read, AtLoop]);
    assert Step(System(stream, [read, AtLoop]), Act(1, ReadAccount)) == s4;
    assert AfterReadEvent(stream, stream.account) == held;
    var s6 := System(stream, [held, held]);
    assert Step(s4, Act(0, ReadEvent)) == System(stream, [held, read]);
    assert Step(System(stream, [held, read]), Act(1, ReadEvent)) == s6;
    assert AfterDecide(stream.account, e) == d;
    assert Step(s6, Act(0, Decide)) == System(stream, [d, held]);
    assert Step(System(stream, [d, held]), Act(1, Decide)) == System(stream, [d, d]);
  }

  lemma SecondIsRefused(t: System, stream: Stream, e: RiskEvent)
    requires e.context.Valued? && t == Step(Decided(stream, e), Act(0, CompleteEvent(true)))
    requires stream.events == [e] && e.sequence == 1 && stream.account.lastEvaluated == 0
    requires stream.account.riskSequence == 1
    ensures |t.drains| == 2 && t.drains[1].MustComplete? && t.stream.account.lastEvaluated == 1
    ensures var d := t.drains[1];
            var body := CompleteBody(t.stream, d.sequence, d.state, d.result);
            && body.thrown == Some(RISK_SEQUENCE_OUT_OF_ORDER) && body.written.account.unresolved
            && Step(t, Act(1, CompleteEvent(true))).stream == t.stream && !t.stream.account.unresolved
  {
    hide EvaluateRiskContext, Ingest, AppendTransition, Append;
    assert FindSequence(stream.events, 1) == Some(0);
  }

  lemma RunsOn(s: System, es: seq<Event>, i: nat)
    requires i < |es|
    ensures Run(s, es[..i + 1]) == Step(Run(s, es[..i]), es[i])
    ensures Run(s, es[..0]) == s
  {
    hide Step;
    assert es[..i + 1][..i] == es[..i];
  }

  /** What a drain does with the next event. A breach by the figures closes an account that is
      ACTIVE and trading, as the drain last read it, before the event is completed, and ends the
      drain; anything else is completed and the drain goes on. */
  lemma DrainEnforces(s: System, id: nat, a: RiskAccount, e: RiskEvent, f: Figures)
    requires id < |s.drains| && s.drains[id] == HasEvent(a, e) && s.stream.account.lastEvaluated + 1 == e.sequence
    requires FindSequence(s.stream.events, e.sequence) == Some(e.sequence - 1) && s.stream.events[e.sequence - 1] == e
    requires e.context.Valued? ==> HasFigures(e.context, f)
    ensures var u := Step(Step(Step(s, Act(id, Decide)), Act(id, BreachAccount(true))), Act(id, CompleteEvent(true)));
            var breached := e.state == RECEIVED && e.context.Valued? && (BelowMax(f) || BelowDaily(f));
            && u.stream.account.lastEvaluated == e.sequence
            && u.drains[id] == (if breached then Ended else AtLoop)
            && (breached && a.status == ACTIVE && a.tradingEnabled ==>
                  u.stream.account.status == BREACHED && !u.stream.account.tradingEnabled)
            && (!(breached && a.status == ACTIVE && a.tradingEnabled) ==>
                  && u.stream.account.status == s.stream.account.status
                  && u.stream.account.tradingEnabled == s.stream.account.tradingEnabled)
            && (e.state == RECEIVED ==>
                  u.stream.events[e.sequence - 1].state == (if breached then BREACHED_EVENT else EVALUATED))
            && (e.state != RECEIVED ==> u.stream.events == s.stream.events)
  {
    if e.context.Valued? {
      VerdictIff(e.context, f);
      VerdictSays(EvaluateRiskContext(e.context), f, e.context.riskDayKey, e.context.policyVersion);
    }
    hide EvaluateRiskContext, Append, Ingest, FindSequence, HasFigures, IsVerdict, BelowMax, BelowDaily;
    var s1 := Step(s, Act(id, Decide));
    var s2 := Step(s1, Act(id, BreachAccount(true)));
    assert s2.drains[id].MustComplete? && s2.drains[id].sequence == e.sequence && s2.stream.events == s.stream.events;
  }

  /** A drain that reads no next event stops; it marks the account exactly when the account it
      read had counted one. */
  lemma MissingEventIsGap(s: System, id: nat, a: RiskAccount)
    requires id < |s.drains| && s.drains[id] == HasAccount(a)
    requires forall i :: 0 <= i < |s.stream.events| ==> s.stream.events[i].sequence != a.lastEvaluated + 1
    ensures var t := Step(s, Act(id, ReadEvent));
            && t.stream.events == s.stream.events && (t.drains[id].Gap? || t.drains[id].Ended?)
            && (t.drains[id].Gap? <==> a.riskSequence > a.lastEvaluated)
            && t.stream.account
               == if a.riskSequence > a.lastEvaluated then s.stream.account.(unresolved := true) else s.stream.account
  {
    hide Append, Ingest;
  }

  /** A fresh drain that is left alone evaluates the next event, whoever crashed
      before it and whatever they had done. */
  lemma DrainMakesProgress(s: System)
    requires StreamOk(s) && s.stream.account.lastEvaluated < s.stream.account.riskSequence
    ensures var id := |s.drains|;
            var r := Run(s, [StartDrain, Act(id, ReadAccount), Act(id, ReadEvent), Act(id, Decide),
                             Act(id, BreachAccount(true)), Act(id, CompleteEvent(true))]);
            r.stream.account.lastEvaluated == s.stream.account.lastEvaluated + 1
  {
    var es := [StartDrain, Act(|s.drains|, ReadAccount), Act(|s.drains|, ReadEvent), Act(|s.drains|, Decide),
               Act(|s.drains|, BreachAccount(true)), Act(|s.drains|, CompleteEvent(true))];
    hide Step, Run, StreamOk;
    RunOfSix(s, es);
    LoneDrain(s);
  }

  lemma LoneDrain(s: System)
    requires StreamOk(s) && s.stream.account.lastEvaluated < s.stream.account.riskSequence
    ensures var id := |s.drains|;
            var s3 := Step(Step(Step(s, StartDrain), Act(id, ReadAccount)), Act(id, ReadEvent));
            var t := Step(Step(Step(s3, Act(id, Decide)), Act(id, BreachAccount(true))), Act(id, CompleteEvent(true)));
            t.stream.account.lastEvaluated == s.stream.account.lastEvaluated + 1
  {
    hide DrainOk, EvaluateRiskContext, FinalState, FinalVerdict, Append, Ingest;
    var id, n := |s.drains|, s.stream.account.lastEvaluated + 1;
    FindsNumber(s.stream, n);
    var e := s.stream.events[n - 1];
    var s1 := Step(s, StartDrain);
    var s2 := Step(s1, Act(id, ReadAccount));
    var s3 := Step(s2, Act(id, ReadEvent));
    assert s3.drains[id] == HasEvent(s.stream.account, e) && s3.stream == s.stream;
    LoneCompletion(s3, id, s.stream.account, e, n);
  }

  lemma LoneCompletion(s: System, id: nat, a: RiskAccount, e: RiskEvent, n: nat)
    requires id < |s.drains| && s.drains[id] == HasEvent(a, e) && e.sequence == n == s.stream.account.lastEvaluated + 1
    requires FindSequence(s.stream.events, n).Some? && e.state == RECEIVED
    ensures var t := Step(Step(Step(s, Act(id, Decide)), Act(id, BreachAccount(true))), Act(id, CompleteEvent(true)));
            t.stream.account.lastEvaluated == n
  {
    hide EvaluateRiskContext, FinalState, FinalVerdict, Append, Ingest;
    var s1 := Step(s, Act(id, Decide));
    var s2 := Step(s1, Act(id, BreachAccount(true)));
    assert s1.drains[id].MustBreach? || s1.drains[id].MustComplete?;
    assert s2.drains[id].MustComplete? && s2.drains[id].sequence == n && s2.stream.events == s.stream.events;
  }

  lemma RunOfSix(s: System, es: seq<Event>)
    requires |es| == 6
    ensures Run(s, es) == Step(Step(Step(Step(Step(Step(s, es[0]), es[1]), es[2]), es[3]), es[4]), es[5])
  {
    hide Step;
    assert es[..5][..4] == es[..4] && es[..4][..3] == es[..3] && es[..3][..2] == es[..2] && es[..2][..1] == es[..1]
        && es[..1][..0] == [];
    assert Run(s, es[..1]) == Step(s, es[0]);
    assert Run(s, es[..2]) == Step(Run(s, es[..1]), es[1]);
    assert Run(s, es[..3]) == Step(Run(s, es[..2]), es[2]);
    assert Run(s, es[..4]) == Step(Run(s, es[..3]), es[3]);
    assert Run(s, es[..5]) == Step(Run(s, es[..4]), es[4]);
  }

  // ---- the service, updating the account and its events ------------------------

  class RiskStreamService {
    var account: RiskAccount
    var events: seq<RiskEvent>

    constructor (account: RiskAccount)
      ensures View() == Stream(account, [])
    {
      this.account := account;
      events := [];
    }

    ghost function View(): (s: Stream)
      reads this
    {
      Stream(account, events)
    }

    method AppendEvent(key: EventKey, context: Context) returns (created: bool)
      modifies this
      ensures View() == Append(old(View()), key, context)
      ensures created == !HasEventKey(old(events), key)
    {
      created := true;
      for i := 0 to |events|
        invariant events == old(events) && account == old(account) && created
        invariant forall j :: 0 <= j < i ==> events[j].key != key
      {
        if events[i].key == key {
          return false;
        }
      }
      account := account.(riskSequence := account.riskSequence + 1);
      events := events + [RiskEvent(account.riskSequence, key, context, RECEIVED, NoVerdict)];
    }

    method IngestValuation(v: LiveValuation, today: string) returns (accepted: bool)
      modifies this
      ensures View() == Ingest(old(View()), v, today)
      ensures accepted == (v.complete && v.live && v.revision == Some(old(account).revision))
    {
      if !v.complete || !v.live {
        return false;
      }
      if v.revision != Some(account.revision) {
        return false;
      }
      var revision := account.revision;
      if account.riskDayKey != today {
        var rolled := AppendEvent(RolloverKey(today),
            RolledOver(account.riskDayKey, today, account.dailyStartEquity, v.equity));
        account := account.(riskDayKey := today, dailyStartEquity := v.equity, realizedPnlToday := 0.0);
      }
      assert View() == RollDay(old(View()), v, today);
      var added := AppendEvent(ValuationKey(v.sequence, v.valuedAtMs, revision, today, v.equity, v.usedMargin),
          ValuationContext(account, v, today));
      accepted := true;
    }

    /** The body of complete, writing the documents as it goes. */
    method CompleteBodyInPlace(sequence: nat, state: EventState, result: Verdict)
        returns (thrown: Option<CompletionError>)
      modifies this
      ensures Attempt(View(), thrown) == CompleteBody(old(View()), sequence, state, result)
    {
      if sequence != account.lastEvaluated + 1 {
        account := account.(unresolved := true);
        return Some(RISK_SEQUENCE_OUT_OF_ORDER);
      }
      var found := FindSequence(events, sequence);
      if found.None? {
        account := account.(unresolved := true);
        return Some(RISK_SEQUENCE_GAP);
      }
      var event := events[found.value];
      if event.state == RECEIVED {
        events := events[found.value := event.(state := state, result := result)];
      }
      account := account.(lastEvaluated := sequence);
      if account.lastEvaluated == account.riskSequence {
        account := account.(unresolved := false);
      }
      thrown := None;
    }

    /** The transaction around it: a throw puts the documents back. */
    method CompleteEvent(sequence: nat, state: EventState, result: Verdict) returns (thrown: Option<CompletionError>)
      modifies this
      ensures View() == Transact(old(View()), CompleteBody(old(View()), sequence, state, result), true)
      ensures thrown == CompleteBody(old(View()), sequence, state, result).thrown
    {
      var account0, events0 := account, events;
      thrown := CompleteBodyInPlace(sequence, state, result);
      if thrown.Some? {
        account, events := account0, events0;
      }
    }
  }
}
