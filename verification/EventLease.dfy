/**
  Store notifications (Apple and Google alike) are handled under a lease: the row of
  an event records who is processing it since when, and the lease runs out after
  fifteen minutes. Any number of handlers claim, finish or die in any order.
 */
module EventLease {
  import opened BillingTypes

  /** The same event id of different providers names different events. */
  datatype EventKey = EventKey(provider: Source, id: string)

  datatype EventStatus = Received | Processing | Processed | Ignored | Failed

  datatype Event = Event(
    kind: string, status: EventStatus, startedAt: Option<Time>, processedAt: Option<Time>, summary: string)

  const WINDOW: Time := 15 * 60 * 1_000_000

  type Events = map<EventKey, Event>

  function Prefix(s: string, n: nat): string {
    if |s| <= n then s else s[..n]
  }

  /** The event needs no handler any more. */
  predicate Settled(e: Event) {
    e.status == Processed || e.status == Ignored
  }

  predicate Running(e: Event, now: Time) {
    e.status == Processing && e.startedAt.Some? && now - e.startedAt.value < WINDOW
  }

  datatype ClaimOutcome = Claimed | Duplicate | InProgress

  datatype ClaimResult = ClaimResult(events: Events, outcome: ClaimOutcome)

  function ClaimEvent(events: Events, key: EventKey, kind: string, now: Time): ClaimResult {
    if key !in events then
      ClaimResult(events[key := Event(Prefix(kind, 120), Processing, Some(now), None, "")], Claimed)
    else if Settled(events[key]) then
      ClaimResult(events, Duplicate)
    else if Running(events[key], now) then
      ClaimResult(events, InProgress)
    else
      ClaimResult(events[key := Event(Prefix(kind, 120), Processing, Some(now), events[key].processedAt, "")], Claimed)
  }

  datatype Verdict = Success | Ignore(reason: string) | Failure(error: string)

  /** Written when a handler ends; whether it still holds the lease is not looked at. */
  function Mark(events: Events, key: EventKey, verdict: Verdict, now: Time): Events {
    if key !in events then events else
      events[key := match verdict
        case Success => events[key].(status := Processed, processedAt := Some(now), summary := "")
        case Ignore(reason) => events[key].(status := Ignored, processedAt := Some(now), summary := Prefix(reason, 255))
        case Failure(error) => events[key].(status := Failed, summary := Prefix(error, 255))]
  }

  // Handlers

  /** Waiting has read the clock but not yet the row; Holding has claimed it. */
  datatype Stage = Waiting | Holding | Gone

  datatype Handler = Handler(key: EventKey, kind: string, arrivedAt: Time, stage: Stage)

  datatype System = System(clock: Time, events: Events, handlers: seq<Handler>)

  datatype Action =
    | Tick(span: nat)
    | Arrive(key: EventKey, kind: string)
    | Claim(handler: nat)
    | Finish(handler: nat, verdict: Verdict)
    | Die(handler: nat)

  function Move(s: System, h: nat, stage: Stage): System
    requires h < |s.handlers|
  {
    s.(handlers := s.handlers[h := s.handlers[h].(stage := stage)])
  }

  function Next(s: System, act: Action): System {
    match act
    case Tick(span) => s.(clock := s.clock + span)
    case Arrive(key, kind) => s.(handlers := s.handlers + [Handler(key, kind, s.clock, Waiting)])
    case Claim(h) =>
      if h >= |s.handlers| || s.handlers[h].stage != Waiting then s else
        var me := s.handlers[h];
        var claim := ClaimEvent(s.events, me.key, me.kind, me.arrivedAt);
        Move(s, h, if claim.outcome == Claimed then Holding else Gone).(events := claim.events)
    case Finish(h, verdict) =>
      if h >= |s.handlers| || s.handlers[h].stage != Holding then s else
        Move(s, h, Gone).(events := Mark(s.events, s.handlers[h].key, verdict, s.clock))
    case Die(h) =>
      if h >= |s.handlers| then s else Move(s, h, Gone)
  }

  function Run(s: System, acts: seq<Action>): System {
    if acts == [] then s else Next(Run(s, acts[..|acts| - 1]), acts[|acts| - 1])
  }

  /** Nobody at work, and no row says that it was claimed in the future. */
  predicate AtRest(s: System) {
    s.handlers == [] && NoFutureClaims(s)
  }

  predicate NoFutureClaims(s: System) {
    && (forall k :: k in s.events && s.events[k].startedAt.Some? ==> s.events[k].startedAt.value <= s.clock)
    && (forall h :: 0 <= h < |s.handlers| ==> s.handlers[h].arrivedAt <= s.clock)
  }

  /** Every handler still at work arrived less than the window ago. */
  predicate Prompt(s: System) {
    forall h :: 0 <= h < |s.handlers| && s.handlers[h].stage != Gone ==> s.clock < s.handlers[h].arrivedAt + WINDOW
  }

  predicate PromptRun(s: System, acts: seq<Action>) {
    forall n :: 0 <= n <= |acts| ==> Prompt(Run(s, acts[..n]))
  }

  predicate Holds(s: System, h: nat, key: EventKey) {
    h < |s.handlers| && s.handlers[h].stage == Holding && s.handlers[h].key == key
  }

  /** The row of a held event names its holder, by the time of arrival. */
  ghost predicate Leased(s: System) {
    && NoFutureClaims(s)
    && (forall h :: 0 <= h < |s.handlers| && s.handlers[h].stage == Holding ==>
          s.handlers[h].key in s.events
          && s.events[s.handlers[h].key].status == Processing
          && s.events[s.handlers[h].key].startedAt == Some(s.handlers[h].arrivedAt))
    && (forall g, h :: 0 <= g < h < |s.handlers| && s.handlers[g].stage == s.handlers[h].stage == Holding ==>
          s.handlers[g].key != s.handlers[h].key)
  }

  ghost predicate KeepsSettled(before: Events, after: Events) {
    forall k :: k in before && Settled(before[k]) ==> k in after && after[k] == before[k]
  }

  lemma ClaimKeepsLeases(s: System, h: nat)
    requires Leased(s) && Prompt(s) && h < |s.handlers| && s.handlers[h].stage == Waiting
    ensures Leased(Next(s, Claim(h))) && KeepsSettled(s.events, Next(s, Claim(h)).events)
  {
    var me := s.handlers[h];
    forall g | 0 <= g < |s.handlers| && s.handlers[g].stage == Holding && s.handlers[g].key == me.key
      ensures Running(s.events[me.key], me.arrivedAt)
    {
    }
  }

  lemma FinishKeepsLeases(s: System, h: nat, verdict: Verdict)
    requires Leased(s) && h < |s.handlers| && s.handlers[h].stage == Holding
    ensures Leased(Next(s, Finish(h, verdict))) && KeepsSettled(s.events, Next(s, Finish(h, verdict)).events)
  {}

  lemma NextKeepsLeases(s: System, act: Action)
    requires Leased(s) && Prompt(s)
    ensures Leased(Next(s, act)) && KeepsSettled(s.events, Next(s, act).events)
  {
    if act.Claim? && act.handler < |s.handlers| && s.handlers[act.handler].stage == Waiting {
      ClaimKeepsLeases(s, act.handler);
    } else if act.Finish? && act.handler < |s.handlers| && s.handlers[act.handler].stage == Holding {
      FinishKeepsLeases(s, act.handler, act.verdict);
    }
  }

  lemma {:induction false} PromptRunsKeepLeases(s: System, acts: seq<Action>)
    requires AtRest(s) && PromptRun(s, acts)
    ensures Leased(Run(s, acts)) && Prompt(Run(s, acts))
  {
    assert acts[..|acts|] == acts;
    if acts != [] {
      var before := acts[..|acts| - 1];
      forall n | 0 <= n <= |before|
        ensures Prompt(Run(s, before[..n]))
      {
        assert before[..n] == acts[..n];
      }
      PromptRunsKeepLeases(s, before);
      NextKeepsLeases(Run(s, before), acts[|acts| - 1]);
    }
  }

  /** No two handlers ever work on the same event. */
  lemma AtMostOneHolder(s: System, acts: seq<Action>, key: EventKey, g: nat, h: nat)
    requires AtRest(s) && PromptRun(s, acts)
    requires Holds(Run(s, acts), g, key) && Holds(Run(s, acts), h, key)
    ensures g == h
  {
    PromptRunsKeepLeases(s, acts);
  }

  /** Once an event is processed or ignored its row never changes and nobody holds it again. */
  lemma {:induction false} SettledForGood(s: System, acts: seq<Action>, n: nat, key: EventKey)
    requires AtRest(s) && PromptRun(s, acts) && n <= |acts|
    requires var events := Run(s, acts[..n]).events; key in events && Settled(events[key])
    ensures var events := Run(s, acts).events; key in events && events[key] == Run(s, acts[..n]).events[key]
    ensures forall h :: !Holds(Run(s, acts), h, key)
  {
    PromptRunsKeepLeases(s, acts);
    if n == |acts| {
      assert acts[..n] == acts;
    } else {
      var before := acts[..|acts| - 1];
      assert forall m :: 0 <= m <= |before| ==> before[..m] == acts[..m];
      SettledForGood(s, before, n, key);
      PromptRunsKeepLeases(s, before);
      NextKeepsLeases(Run(s, before), acts[|acts| - 1]);
    }
  }

  lemma {:induction false} ClaimsAreNeverInTheFuture(s: System, acts: seq<Action>)
    requires AtRest(s)
    ensures NoFutureClaims(Run(s, acts))
  {
    if acts != [] {
      ClaimsAreNeverInTheFuture(s, acts[..|acts| - 1]);
    }
  }

  lemma RunExtends(s: System, acts: seq<Action>, act: Action)
    ensures Run(s, acts + [act]) == Next(Run(s, acts), act)
  {
    assert (acts + [act])[..|acts|] == acts;
  }

  /** After one window a new delivery of the event is admitted exactly if the event was not settled meanwhile. */
  lemma NeverStuck(s: System, acts: seq<Action>, key: EventKey, kind: string)
    requires AtRest(s)
    ensures var now := Run(s, acts);
            var h := |now.handlers|;
            var later := Run(s, acts + [Tick(WINDOW)] + [Arrive(key, kind)] + [Claim(h)]);
            Holds(later, h, key) <==> !(key in now.events && Settled(now.events[key]))
  {
    ClaimsAreNeverInTheFuture(s, acts);
    var h := |Run(s, acts).handlers|;
    RunExtends(s, acts, Tick(WINDOW));
    RunExtends(s, acts + [Tick(WINDOW)], Arrive(key, kind));
    RunExtends(s, acts + [Tick(WINDOW)] + [Arrive(key, kind)], Claim(h));
  }

  /** A failed event is admitted at once, without waiting for the window. */
  lemma FailureIsRetriedAtOnce(s: System, acts: seq<Action>, key: EventKey, kind: string)
    requires var now := Run(s, acts); key in now.events && now.events[key].status == Failed
    ensures var h := |Run(s, acts).handlers|;
            Holds(Run(s, acts + [Arrive(key, kind)] + [Claim(h)]), h, key)
  {
    var h := |Run(s, acts).handlers|;
    RunExtends(s, acts, Arrive(key, kind));
    RunExtends(s, acts + [Arrive(key, kind)], Claim(h));
  }

  /** Of all steps in any state, only a holder that fails takes a settled event back. */
  lemma UnsettlesIff(s: System, act: Action, key: EventKey)
    requires key in s.events && Settled(s.events[key])
    ensures key in Next(s, act).events
    ensures !Settled(Next(s, act).events[key]) <==> act.Finish? && Holds(s, act.handler, key) && act.verdict.Failure?
  {}

  /** A claim keeps every other delivery of the event out for fifteen minutes, and not longer. */
  lemma ClaimHoldsFifteenMinutes(events: Events, key: EventKey, kind: string, now: Time, other: string, later: Time)
    requires ClaimEvent(events, key, kind, now).outcome == Claimed && now <= later
    ensures var held := ClaimEvent(events, key, kind, now).events;
            var again := ClaimEvent(held, key, other, later);
            && (later - now < 900_000_000 ==> again == ClaimResult(held, InProgress))
            && (later - now >= 900_000_000 ==>
                  again.outcome == Claimed && key in again.events && again.events[key].startedAt == Some(later))
  {}

  /** What a claim writes: the event is being processed since now, under its kind; nothing else changes. */
  lemma ClaimWrites(events: Events, key: EventKey, kind: string, now: Time)
    ensures var c := ClaimEvent(events, key, kind, now);
            && (c.outcome == Claimed <==>
                  key !in events || events[key].status == Received || events[key].status == Failed
                  || (events[key].status == Processing
                      && (events[key].startedAt == None || now - events[key].startedAt.value >= 900_000_000)))
            && (c.outcome == Duplicate <==>
                  key in events && (events[key].status == Processed || events[key].status == Ignored))
            && (c.outcome != Claimed ==> c.events == events)
            && (c.outcome == Claimed ==>
                  && key in c.events && c.events == events[key := c.events[key]]
                  && c.events[key].status == Processing && c.events[key].startedAt == Some(now)
                  && c.events[key].kind == (if |kind| <= 120 then kind else kind[..120]) && c.events[key].summary == ""
                  && c.events[key].processedAt == if key in events then events[key].processedAt else None)
  {}

  /** What the end of the work writes: the verdict, when it was reached, and why. */
  lemma MarkWrites(events: Events, key: EventKey, verdict: Verdict, now: Time)
    requires key in events
    ensures var after := Mark(events, key, verdict, now);
            && key in after && after == events[key := after[key]]
            && after[key].kind == events[key].kind && after[key].startedAt == events[key].startedAt
            && match verdict
               case Success =>
                 after[key].status == Processed && after[key].processedAt == Some(now) && after[key].summary == ""
               case Ignore(reason) =>
                 && after[key].status == Ignored && after[key].processedAt == Some(now)
                 && after[key].summary == if |reason| <= 255 then reason else reason[..255]
               case Failure(error) =>
                 && after[key].status == Failed && after[key].processedAt == events[key].processedAt
                 && after[key].summary == if |error| <= 255 then error else error[..255]
  {}

  // Why promptness is needed

  /** The first handler outlives its lease; the second succeeds; then the first fails. */
  const OVERRUN: seq<Action> := [
    Claim(0), Tick(WINDOW), Arrive(EVENT, "DID_RENEW"), Claim(1), Finish(1, Success), Finish(0, Failure("late"))]

  const EVENT := EventKey(Apple, "notification")

  const EMPTY := System(0, map[], [Handler(EVENT, "DID_RENEW", 0, Waiting)])

  lemma OverrunGoesOn(n: nat)
    requires n < |OVERRUN|
    ensures Run(EMPTY, OVERRUN[..n + 1]) == Next(Run(EMPTY, OVERRUN[..n]), OVERRUN[n])
  {
    assert OVERRUN[..n + 1][..n] == OVERRUN[..n];
  }

  lemma FirstHandlerOverruns(a: Handler, b: Handler, e: Event)
    requires a == Handler(EVENT, "DID_RENEW", 0, Holding) && b == Handler(EVENT, "DID_RENEW", WINDOW, Waiting)
    requires e == Event("DID_RENEW", Processing, Some(0), None, "")
    ensures Run(EMPTY, OVERRUN[..3]) == System(WINDOW, map[EVENT := e], [a, b])
  {
    OverrunGoesOn(0);
    assert Run(EMPTY, OVERRUN[..1]) == System(0, map[EVENT := e], [a]);
    OverrunGoesOn(1);
    OverrunGoesOn(2);
  }

  /** Of two holders of one event, the one that ends last decides. */
  lemma TwoHoldersDisagree(s: System, g: nat, h: nat, key: EventKey, error: string)
    requires g != h && Holds(s, g, key) && Holds(s, h, key) && key in s.events
    ensures var settled := Next(s, Finish(g, Success));
            && key in settled.events && settled.events[key].status == Processed
            && key in Next(settled, Finish(h, Failure(error))).events
            && Next(settled, Finish(h, Failure(error))).events[key].status == Failed
  {}

  /** A handler that outlives its lease turns a processed event back into a failed one. */
  lemma OverrunReopensTheEvent()
    ensures var before := Run(EMPTY, OVERRUN[..5]); EVENT in before.events && before.events[EVENT].status == Processed
    ensures var after := Run(EMPTY, OVERRUN); EVENT in after.events && after.events[EVENT].status == Failed
  {
    var a, b := Handler(EVENT, "DID_RENEW", 0, Holding), Handler(EVENT, "DID_RENEW", WINDOW, Waiting);
    FirstHandlerOverruns(a, b, Event("DID_RENEW", Processing, Some(0), None, ""));
    OverrunGoesOn(3);
    OverrunGoesOn(4);
    OverrunGoesOn(5);
    TwoHoldersDisagree(Run(EMPTY, OVERRUN[..4]), 1, 0, EVENT, "late");
    assert OVERRUN[..6] == OVERRUN;
  }
}

/** The event table, updated in place. */
module EventStoreModule {
  import opened BillingTypes
  import opened EventLease

  class EventStore {
    var events: Events

    constructor ()
      ensures events == map[]
    {
      events := map[];
    }

    method ClaimEventRow(key: EventKey, kind: string, now: Time) returns (outcome: ClaimOutcome)
      modifies this
      ensures ClaimResult(events, outcome) == ClaimEvent(old(events), key, kind, now)
    {
      if key !in events {
        events := events[key := Event(Prefix(kind, 120), Processing, Some(now), None, "")];
        return Claimed;
      }
      var existing := events[key];
      match existing.status {
        case Processed => return Duplicate;
        case Ignored => return Duplicate;
        case Processing =>
          if existing.startedAt.Some? && now - existing.startedAt.value < WINDOW {
            return InProgress;
          }
          existing := existing.(status := Processing, startedAt := Some(now), summary := "");
          existing := existing.(kind := Prefix(kind, 120));
        case Received =>
          existing := existing.(status := Processing, startedAt := Some(now), kind := Prefix(kind, 120), summary := "");
        case Failed =>
          existing := existing.(status := Processing, startedAt := Some(now), kind := Prefix(kind, 120), summary := "");
      }
      events := events[key := existing];
      return Claimed;
    }

    method MarkProcessed(key: EventKey, now: Time)
      requires key in events
      modifies this
      ensures events == Mark(old(events), key, Success, now)
    {
      events := events[key := events[key].(status := Processed, processedAt := Some(now), summary := "")];
    }

    method MarkIgnored(key: EventKey, reason: string, now: Time)
      requires key in events
      modifies this
      ensures events == Mark(old(events), key, Ignore(reason), now)
    {
      var ignored := events[key].(status := Ignored, processedAt := Some(now), summary := Prefix(reason, 255));
      events := events[key := ignored];
    }

    method MarkFailed(key: EventKey, error: string, now: Time)
      requires key in events
      modifies this
      ensures events == Mark(old(events), key, Failure(error), now)
    {
      events := events[key := events[key].(status := Failed, summary := Prefix(error, 255))];
    }

    /** One delivery from claim to mark; `verdict` is how the work in between ended, `later` when. */
    method ProcessNotification(key: EventKey, kind: string, now: Time, verdict: Verdict,
            later: Time) returns (outcome: ClaimOutcome)
      modifies this
      ensures var claim := ClaimEvent(old(events), key, kind, now);
              outcome == claim.outcome
              && events == if outcome == Claimed then Mark(claim.events, key, verdict, later) else old(events)
    {
      outcome := ClaimEventRow(key, kind, now);
      if outcome != Claimed {
        return;
      }
      match verdict {
        case Success => MarkProcessed(key, later);
        case Ignore(reason) => MarkIgnored(key, reason, later);
        case Failure(error) => MarkFailed(key, error, later);
      }
    }
  }
}
