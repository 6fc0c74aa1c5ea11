/**
  Kiosk attendance of one participant. The current state is computed afresh from
  the log each time and decides which action may be appended next.
 */
module Attendance {
  import opened BillingTypes

  datatype Action = CheckIn | CheckOut | BreakStart | BreakEnd

  datatype Record = Record(at: Time, id: nat, action: Action)

  /** `maxBreaks` is None when the group sets no number, which counts as zero. */
  datatype Group = Group(checkIn: bool, checkOut: bool, breaks: bool, maxBreaks: Option<nat>)

  function Limit(g: Group): nat { if g.maxBreaks.Some? then g.maxBreaks.value else 0 }

  datatype State = State(checkedIn: bool, onBreak: bool, breakCount: nat)

  const ABSENT := State(false, false, 0)

  /** Log order: by time, then by id. */
  predicate Before(a: Record, b: Record) {
    a.at < b.at || (a.at == b.at && a.id < b.id)
  }

  predicate Ordered(log: seq<Record>) {
    forall i, j :: 0 <= i < j < |log| ==> Before(log[i], log[j])
  }

  /** The query `at >= from and at < until`, each bound only where given. */
  function Select(log: seq<Record>, from: Option<Time>, until: Option<Time>): seq<Record> {
    if log == [] then
      []
    else
      var last := log[|log| - 1];
      var front := Select(log[..|log| - 1], from, until);
      if && (from.Some? ==> from.value <= last.at)
         && (until.Some? ==> last.at < until.value)
      then front + [last] else front
  }

  function LastOf(log: seq<Record>, action: Action): Option<Record> {
    if log == [] then None
    else if log[|log| - 1].action == action then Some(log[|log| - 1])
    else LastOf(log[..|log| - 1], action)
  }

  function CountOf(log: seq<Record>, action: Action): nat {
    if log == [] then 0
    else CountOf(log[..|log| - 1], action) + if log[|log| - 1].action == action then 1 else 0
  }

  predicate IsNewer(left: Option<Record>, right: Option<Record>) {
    left.Some? && (right.None? || Before(right.value, left.value))
  }

  /** The breaks that count lie between the last check-in and the last check-out, whichever came first. */
  function Cycle(log: seq<Record>, lastIn: Record, lastOut: Option<Record>): seq<Record> {
    Select(log, Some(lastIn.at), if lastOut.Some? then Some(lastOut.value.at) else None)
  }

  /** The state as the kiosk sees it. */
  function CurrentState(log: seq<Record>, boundary: Option<Time>): State {
    StateIn(Select(log, boundary, None))
  }

  function StateIn(window: seq<Record>): State {
    var lastIn, lastOut := LastOf(window, CheckIn), LastOf(window, CheckOut);
    if !IsNewer(lastIn, lastOut) then
      ABSENT
    else
      var cycle := Cycle(window, lastIn.value, lastOut);
      State(true, IsNewer(LastOf(cycle, BreakStart), LastOf(cycle, BreakEnd)), CountOf(cycle, BreakStart))
  }

  /** Whether the kiosk offers an action. */
  predicate Permits(g: Group, s: State, action: Action) {
    match action
    case CheckIn => g.checkIn && !s.checkedIn
    case CheckOut => g.checkOut && ((s.checkedIn && !s.onBreak) || !g.checkIn)
    case BreakStart => g.breaks && s.checkedIn && !s.onBreak && s.breakCount < Limit(g)
    case BreakEnd => g.breaks && s.checkedIn && s.onBreak
  }

  // The flag

  predicate IsMove(a: Action) {
    a == CheckIn || a == CheckOut
  }

  predicate LastMoveIsCheckIn(log: seq<Record>) {
    exists i :: 0 <= i < |log| && log[i].action == CheckIn && forall j :: i < j < |log| ==> !IsMove(log[j].action)
  }

  lemma {:induction false} SelectKeepsOrder(log: seq<Record>, from: Option<Time>, until: Option<Time>)
    requires Ordered(log)
    ensures var part := Select(log, from, until);
            && Ordered(part)
            && (part != [] ==>
                  part[|part| - 1] == log[|log| - 1] || Before(part[|part| - 1], log[|log| - 1]))
  {
    if log != [] {
      SelectKeepsOrder(log[..|log| - 1], from, until);
    }
  }

  /** Position i holds the last record of its kind. */
  predicate LastAt(log: seq<Record>, action: Action, i: nat) {
    i < |log| && log[i].action == action && forall j :: i < j < |log| ==> log[j].action != action
  }

  lemma {:induction false} LastOfStands(log: seq<Record>, action: Action) returns (i: nat)
    ensures LastOf(log, action).None? ==> forall j :: 0 <= j < |log| ==> log[j].action != action
    ensures LastOf(log, action).Some? ==> LastAt(log, action, i) && log[i] == LastOf(log, action).value
  {
    if log != [] {
      var front := log[..|log| - 1];
      i := LastOfStands(front, action);
      if log[|log| - 1].action == action { i := |log| - 1; }
    } else {
      i := 0;
    }
  }

  lemma NewerIsLastMove(log: seq<Record>)
    requires Ordered(log)
    ensures IsNewer(LastOf(log, CheckIn), LastOf(log, CheckOut)) <==> LastMoveIsCheckIn(log)
  {
    var lastIn, lastOut := LastOf(log, CheckIn), LastOf(log, CheckOut);
    var i := LastOfStands(log, CheckIn);
    var o := LastOfStands(log, CheckOut);
    if lastIn.Some? && lastOut.Some? {
      assert i < o ==> Before(log[i], log[o]);
      assert o < i ==> Before(log[o], log[i]);
    }
  }

  /** For every log: checked in means that the last check-in or check-out of the window is a check-in. */
  lemma FlagIsLastMove(log: seq<Record>, boundary: Option<Time>)
    requires Ordered(log)
    ensures CurrentState(log, boundary).checkedIn <==> LastMoveIsCheckIn(Select(log, boundary, None))
  {
    SelectKeepsOrder(log, boundary, None);
    NewerIsLastMove(Select(log, boundary, None));
  }

  lemma {:induction false} SelectNone(log: seq<Record>, from: Time, until: Time)
    requires until <= from
    ensures Select(log, Some(from), Some(until)) == []
  {
    if log != [] { SelectNone(log[..|log| - 1], from, until); }
  }

  predicate Has(log: seq<Record>, action: Action) {
    exists i :: 0 <= i < |log| && log[i].action == action
  }

  /** For every log: once the window holds a check-out, no break of it is ever seen again. */
  lemma NoBreaksAfterCheckOut(log: seq<Record>, boundary: Option<Time>)
    requires Has(Select(log, boundary, None), CheckOut)
    ensures CurrentState(log, boundary).breakCount == 0 && !CurrentState(log, boundary).onBreak
  {
    var window := Select(log, boundary, None);
    var lastIn, lastOut := LastOf(window, CheckIn), LastOf(window, CheckOut);
    var o := LastOfStands(window, CheckOut);
    if IsNewer(lastIn, lastOut) {
      SelectNone(window, lastIn.value.at, lastOut.value.at);
    }
  }

  // Logs the kiosk writes

  /** Times do not go back, ids grow, and everything lies in one reset window. */
  predicate Timely(boundary: Option<Time>, log: seq<Record>) {
    && (forall i :: 0 <= i < |log| ==> boundary.Some? ==> boundary.value <= log[i].at)
    && (forall i, j :: 0 <= i < j < |log| ==> log[i].at <= log[j].at && log[i].id < log[j].id)
  }

  predicate Offers(g: Group, boundary: Option<Time>, log: seq<Record>, action: Action) {
    Permits(g, CurrentState(log, boundary), action)
  }

  /** Every action was on offer when it was appended. */
  predicate Grown(g: Group, boundary: Option<Time>, log: seq<Record>) {
    && Timely(boundary, log)
    && forall n {:trigger log[..n]} :: 0 <= n < |log| ==> Offers(g, boundary, log[..n], log[n].action)
  }

  lemma {:induction false} SelectAll(log: seq<Record>, from: Option<Time>)
    requires forall i :: 0 <= i < |log| ==> from.Some? ==> from.value <= log[i].at
    ensures Select(log, from, None) == log
  {
    if log != [] {
      SelectAll(log[..|log| - 1], from);
      assert log[..|log| - 1] + [log[|log| - 1]] == log;
    }
  }

  lemma TimelyIsOrdered(boundary: Option<Time>, log: seq<Record>)
    requires Timely(boundary, log)
    ensures Ordered(log) && Select(log, boundary, None) == log
  {
    SelectAll(log, boundary);
  }

  lemma PrefixIsGrown(g: Group, boundary: Option<Time>, log: seq<Record>, n: nat)
    requires Grown(g, boundary, log) && n <= |log|
    ensures Grown(g, boundary, log[..n])
    ensures n < |log| ==> Offers(g, boundary, log[..n], log[n].action)
  {
    forall k | 0 <= k < n
      ensures Offers(g, boundary, log[..n][..k], log[..n][k].action)
    {
      assert log[..n][..k] == log[..k];
    }
  }

  /** The state followed one action at a time, as the kiosk means it. */
  function Follow(log: seq<Record>): (s: State)
    ensures s.onBreak ==> s.breakCount > 0
  {
    if log == [] then
      ABSENT
    else
      var s := Follow(log[..|log| - 1]);
      match log[|log| - 1].action
      case CheckIn => State(true, false, 0)
      case CheckOut => ABSENT
      case BreakStart => State(s.checkedIn, true, s.breakCount + 1)
      case BreakEnd => State(s.checkedIn, false, s.breakCount)
  }

  lemma {:induction false} FollowFlag(log: seq<Record>)
    ensures Follow(log).checkedIn <==> LastMoveIsCheckIn(log)
  {
    if log != [] {
      var front, last := log[..|log| - 1], log[|log| - 1];
      FollowFlag(front);
      if LastMoveIsCheckIn(log) && !IsMove(last.action) {
        var i :| 0 <= i < |log| && log[i].action == CheckIn && forall j :: i < j < |log| ==> !IsMove(log[j].action);
        assert i < |front| && front[i] == log[i] && forall j :: i < j < |front| ==> front[j] == log[j];
      }
      if LastMoveIsCheckIn(front) && !IsMove(last.action) {
        var i :|
          0 <= i < |front| && front[i].action == CheckIn && forall j :: i < j < |front| ==> !IsMove(front[j].action);
        assert log[i].action == CheckIn && forall j :: i < j < |log| ==> !IsMove(log[j].action);
      }
      if last.action == CheckIn {
        assert log[|log| - 1].action == CheckIn;
      }
    }
  }

  /** A check-in followed by breaks that start and end in turn. */
  predicate OneCycle(log: seq<Record>) {
    forall i :: 0 <= i < |log| ==>
      log[i].action == if i == 0 then CheckIn else if i % 2 == 1 then BreakStart else BreakEnd
  }

  /** Last start and last end of the breaks in one cycle. */
  lemma {:induction false} OneCycleBreaks(log: seq<Record>)
    requires OneCycle(log) && log != []
    ensures LastOf(log, CheckIn) == Some(log[0]) && LastOf(log, CheckOut) == None
    ensures |log| % 2 == 0 ==> LastOf(log, BreakStart) == Some(log[|log| - 1])
    ensures |log| % 2 == 0 ==> LastOf(log, BreakEnd) == if |log| == 2 then None else Some(log[|log| - 2])
    ensures |log| % 2 == 1 ==> LastOf(log, BreakStart) == if |log| == 1 then None else Some(log[|log| - 2])
    ensures |log| % 2 == 1 ==> LastOf(log, BreakEnd) == if |log| == 1 then None else Some(log[|log| - 1])
    ensures CountOf(log, BreakStart) == |log| / 2
    ensures Follow(log) == State(true, |log| % 2 == 0, |log| / 2)
  {
    var front := log[..|log| - 1];
    if |log| > 1 {
      OneCycleBreaks(front);
    } else {
      assert front == [];
    }
  }

  lemma OneCycleWindow(log: seq<Record>)
    requires Ordered(log) && OneCycle(log) && log != []
    requires Cycle(log, log[0], None) == log
    ensures StateIn(log) == State(true, |log| % 2 == 0, |log| / 2)
  {
    OneCycleBreaks(log);
    if |log| > 1 {
      assert Before(log[|log| - 2], log[|log| - 1]);
    }
  }

  /** Up to the first check-out the kiosk sees exactly what happened. */
  lemma OneCycleState(boundary: Option<Time>, log: seq<Record>)
    requires Timely(boundary, log) && OneCycle(log)
    ensures CurrentState(log, boundary) == Follow(log)
    ensures log != [] ==> CurrentState(log, boundary) == State(true, |log| % 2 == 0, |log| / 2)
  {
    TimelyIsOrdered(boundary, log);
    if log != [] {
      OneCycleBreaks(log);
      SelectAll(log, Some(log[0].at));
      OneCycleWindow(log);
    }
  }

  /** Without a check-out the log is a single cycle. */
  lemma {:induction false} FirstCycle(g: Group, boundary: Option<Time>, log: seq<Record>)
    requires Grown(g, boundary, log) && !Has(log, CheckOut)
    ensures OneCycle(log)
    ensures log != [] ==> g.checkIn
    ensures |log| / 2 <= Limit(g) && (|log| > 1 ==> g.breaks)
  {
    if log != [] {
      var front := log[..|log| - 1];
      PrefixIsGrown(g, boundary, log, |log| - 1);
      FirstCycle(g, boundary, front);
      OneCycleState(boundary, front);
    }
  }

  /** A break was started since the last check-in or check-out. */
  predicate BreakThisStay(log: seq<Record>) {
    exists i :: 0 <= i < |log| && log[i].action == BreakStart && forall j :: i < j < |log| ==> !IsMove(log[j].action)
  }

  lemma {:induction false} FollowCountsThisStay(log: seq<Record>)
    ensures Follow(log).breakCount > 0 <==> BreakThisStay(log)
  {
    if log != [] {
      var front, last := log[..|log| - 1], log[|log| - 1];
      FollowCountsThisStay(front);
      if BreakThisStay(front) && !IsMove(last.action) {
        var i :|
          0 <= i < |front| && front[i].action == BreakStart && forall j :: i < j < |front| ==> !IsMove(front[j].action);
        assert log[i].action == BreakStart && forall j :: i < j < |log| ==> !IsMove(log[j].action);
      }
      if BreakThisStay(log) && last.action != BreakStart {
        var i :| 0 <= i < |log| && log[i].action == BreakStart && forall j :: i < j < |log| ==> !IsMove(log[j].action);
        assert i < |front| && front[i] == log[i] && forall j :: i < j < |front| ==> front[j] == log[j];
      }
      if last.action == BreakStart {
        assert log[|log| - 1].action == BreakStart;
      }
    }
  }

  /**
    For every log the kiosk can write: the computed state is the followed state, except
    exactly when there is a check-out in it and a break was started since the last check-in.
   */
  lemma MatchesFollowedStateIff(g: Group, boundary: Option<Time>, log: seq<Record>)
    requires Grown(g, boundary, log)
    ensures CurrentState(log, boundary) == Follow(log) <==> !(Has(log, CheckOut) && BreakThisStay(log))
  {
    TimelyIsOrdered(boundary, log);
    FollowCountsThisStay(log);
    if Has(log, CheckOut) {
      NoBreaksAfterCheckOut(log, boundary);
      FlagIsLastMove(log, boundary);
      FollowFlag(log);
    } else {
      FirstCycle(g, boundary, log);
      OneCycleState(boundary, log);
    }
  }

  /** After a check-out a checked-in participant may start breaks without end, and never end one. */
  lemma BreakLimitIsLostAfterCheckOut(g: Group, boundary: Option<Time>, log: seq<Record>)
    requires Grown(g, boundary, log) && Has(log, CheckOut) && LastMoveIsCheckIn(log)
    requires g.breaks && Limit(g) > 0
    ensures Permits(g, CurrentState(log, boundary), BreakStart) && !Permits(g, CurrentState(log, boundary), BreakEnd)
  {
    TimelyIsOrdered(boundary, log);
    NoBreaksAfterCheckOut(log, boundary);
    FlagIsLastMove(log, boundary);
  }

  // The shape of the log

  function Moves(log: seq<Record>): seq<Action> {
    if log == [] then []
    else Moves(log[..|log| - 1]) + if IsMove(log[|log| - 1].action) then [log[|log| - 1].action] else []
  }

  predicate Alternates(moves: seq<Action>) {
    forall i :: 0 <= i < |moves| ==> moves[i] == if i % 2 == 0 then CheckIn else CheckOut
  }

  lemma {:induction false} LastOfMoves(log: seq<Record>)
    ensures LastMoveIsCheckIn(log) <==> Moves(log) != [] && Moves(log)[|Moves(log)| - 1] == CheckIn
  {
    FollowFlag(log);
    if log != [] {
      FollowFlag(log[..|log| - 1]);
      LastOfMoves(log[..|log| - 1]);
    }
  }

  lemma TurnIsTaken(g: Group, boundary: Option<Time>, log: seq<Record>)
    requires Grown(g, boundary, log) && g.checkIn && log != []
    ensures Grown(g, boundary, log[..|log| - 1])
    ensures IsMove(log[|log| - 1].action) ==>
              (log[|log| - 1].action == CheckOut <==> LastMoveIsCheckIn(log[..|log| - 1]))
  {
    var front := log[..|log| - 1];
    PrefixIsGrown(g, boundary, log, |log| - 1);
    TimelyIsOrdered(boundary, front);
    FlagIsLastMove(front, boundary);
  }

  lemma AlternatesOn(moves: seq<Action>, move: Action)
    requires Alternates(moves) && IsMove(move)
    requires move == CheckOut <==> moves != [] && moves[|moves| - 1] == CheckIn
    ensures Alternates(moves + [move])
  {}

  /** With check-in enabled, check-ins and check-outs take turns, check-in first. */
  lemma {:induction false} MovesAlternate(g: Group, boundary: Option<Time>, log: seq<Record>)
    requires Grown(g, boundary, log) && g.checkIn
    ensures Alternates(Moves(log))
  {
    if log != [] {
      var front, last := log[..|log| - 1], log[|log| - 1];
      TurnIsTaken(g, boundary, log);
      MovesAlternate(g, boundary, front);
      LastOfMoves(front);
      if IsMove(last.action) {
        AlternatesOn(Moves(front), last.action);
      }
    }
  }

  /** The records before the first check-out. */
  function BeforeCheckOut(log: seq<Record>): (front: seq<Record>)
    ensures front <= log && !Has(front, CheckOut)
    ensures |front| < |log| ==> log[|front|].action == CheckOut
  {
    if log == [] then []
    else
      var front := BeforeCheckOut(log[..|log| - 1]);
      if |front| < |log| - 1 || log[|log| - 1].action == CheckOut then front else log
  }

  /**
    With check-in enabled, up to the first check-out: one check-in, then breaks that
    start and end in turn, no more than allowed, all ended when the check-out comes.
   */
  lemma BreaksAreDisciplined(g: Group, boundary: Option<Time>, log: seq<Record>)
    requires Grown(g, boundary, log) && g.checkIn
    ensures var stay := BeforeCheckOut(log);
            && OneCycle(stay)
            && CountOf(stay, BreakStart) <= Limit(g)
            && (|stay| < |log| ==> stay != [] && CountOf(stay, BreakStart) == CountOf(stay, BreakEnd))
  {
    var stay := BeforeCheckOut(log);
    PrefixIsGrown(g, boundary, log, |stay|);
    assert log[..|stay|] == stay;
    FirstCycle(g, boundary, stay);
    if stay != [] { OneCycleBreaks(stay); }
    CountOneCycleEnds(stay);
    if |stay| < |log| {
      OneCycleState(boundary, stay);
    }
  }

  lemma {:induction false} CountOneCycleEnds(log: seq<Record>)
    requires OneCycle(log)
    ensures CountOf(log, BreakEnd) == if log == [] then 0 else (|log| - 1) / 2
  {
    if log != [] { CountOneCycleEnds(log[..|log| - 1]); }
  }

  /** And conversely: exactly the logs of that shape can be written before a first check-out. */
  lemma {:induction false} FirstStayIff(g: Group, boundary: Option<Time>, log: seq<Record>)
    requires g.checkIn && Timely(boundary, log) && !Has(log, CheckOut)
    ensures Grown(g, boundary, log) <==> OneCycle(log) && |log| / 2 <= Limit(g) && (|log| > 1 ==> g.breaks)
  {
    if Grown(g, boundary, log) {
      FirstCycle(g, boundary, log);
    } else if OneCycle(log) && |log| / 2 <= Limit(g) && (|log| > 1 ==> g.breaks) {
      forall n | 0 <= n < |log|
        ensures Offers(g, boundary, log[..n], log[n].action)
      {
        OneCycleState(boundary, log[..n]);
      }
    }
  }

  /** What may be appended after a check-out: moves in turn, break starts while checked in, no break end. */
  predicate Loose(g: Group, front: seq<Record>, action: Action) {
    match action
    case CheckIn => !LastMoveIsCheckIn(front)
    case CheckOut => LastMoveIsCheckIn(front)
    case BreakStart => g.breaks && Limit(g) > 0 && LastMoveIsCheckIn(front)
    case BreakEnd => false
  }

  /** One disciplined stay, closed by a check-out if anything follows; afterwards breaks go unchecked. */
  predicate WholeShape(g: Group, log: seq<Record>) {
    var k := |BeforeCheckOut(log)|;
    && OneCycle(log[..k]) && k / 2 <= Limit(g) && (k > 1 ==> g.breaks)
    && (k < |log| ==> g.checkOut && k % 2 == 1)
    && forall n {:trigger log[..n]} :: k < n < |log| ==> Loose(g, log[..n], log[n].action)
  }

  lemma OffersAfterCheckOutIff(g: Group, boundary: Option<Time>, front: seq<Record>, action: Action)
    requires g.checkIn && g.checkOut && Timely(boundary, front) && Has(front, CheckOut)
    ensures Offers(g, boundary, front, action) <==> Loose(g, front, action)
  {
    TimelyIsOrdered(boundary, front);
    NoBreaksAfterCheckOut(front, boundary);
    FlagIsLastMove(front, boundary);
  }

  lemma FirstCheckOutIff(g: Group, boundary: Option<Time>, stay: seq<Record>)
    requires g.checkIn && Timely(boundary, stay) && OneCycle(stay)
    ensures Offers(g, boundary, stay, CheckOut) <==> g.checkOut && |stay| % 2 == 1
  {
    OneCycleState(boundary, stay);
  }

  lemma GrownHasShape(g: Group, boundary: Option<Time>, log: seq<Record>)
    requires g.checkIn && Grown(g, boundary, log)
    ensures WholeShape(g, log)
  {
    var k := |BeforeCheckOut(log)|;
    PrefixIsGrown(g, boundary, log, k);
    assert log[..k] == BeforeCheckOut(log);
    FirstCycle(g, boundary, log[..k]);
    if k < |log| {
      FirstCheckOutIff(g, boundary, log[..k]);
      forall n | k < n < |log|
        ensures Loose(g, log[..n], log[n].action)
      {
        PrefixIsGrown(g, boundary, log, n);
        assert log[..n][k].action == CheckOut;
        OffersAfterCheckOutIff(g, boundary, log[..n], log[n].action);
      }
    }
  }

  lemma ShapeIsGrown(g: Group, boundary: Option<Time>, log: seq<Record>)
    requires g.checkIn && Timely(boundary, log) && WholeShape(g, log)
    ensures Grown(g, boundary, log)
  {
    var k := |BeforeCheckOut(log)|;
    assert log[..k] == BeforeCheckOut(log);
    FirstStayIff(g, boundary, log[..k]);
    forall n | 0 <= n < |log|
      ensures Offers(g, boundary, log[..n], log[n].action)
    {
      if n < k {
        assert log[..k][..n] == log[..n] && log[..k][n] == log[n];
      } else if n == k {
        FirstCheckOutIff(g, boundary, log[..k]);
      } else {
        assert log[..n][k].action == CheckOut;
        OffersAfterCheckOutIff(g, boundary, log[..n], log[n].action);
      }
    }
  }

  /** With check-in enabled, exactly these logs can be written in one reset window. */
  lemma WholeLogIff(g: Group, boundary: Option<Time>, log: seq<Record>)
    requires g.checkIn && Timely(boundary, log)
    ensures Grown(g, boundary, log) <==> WholeShape(g, log)
  {
    if Grown(g, boundary, log) { GrownHasShape(g, boundary, log); }
    if WholeShape(g, log) { ShapeIsGrown(g, boundary, log); }
  }

  // Without check-in, and across reset windows

  /** A group without check-in only ever checks out, as often as it likes. */
  lemma CheckOutOnlyIff(g: Group, boundary: Option<Time>, log: seq<Record>)
    requires !g.checkIn && Timely(boundary, log)
    ensures Grown(g, boundary, log) <==>
              (log == [] || g.checkOut) && forall n :: 0 <= n < |log| ==> log[n].action == CheckOut
  {
    if Grown(g, boundary, log) {
      GrownOnlyChecksOut(g, boundary, log);
    }
    if (log == [] || g.checkOut) && forall n :: 0 <= n < |log| ==> log[n].action == CheckOut {
      forall n | 0 <= n < |log|
        ensures Offers(g, boundary, log[..n], log[n].action)
      {
      }
    }
  }

  lemma AbsentOnlyChecksOut(g: Group, s: State, action: Action)
    requires !g.checkIn && !s.checkedIn && Permits(g, s, action)
    ensures action == CheckOut && g.checkOut
  {}

  lemma {:induction false} GrownOnlyChecksOut(g: Group, boundary: Option<Time>, log: seq<Record>)
    requires !g.checkIn && Grown(g, boundary, log)
    ensures (log == [] || g.checkOut) && forall n :: 0 <= n < |log| ==> log[n].action == CheckOut
    decreases |log|
  {
    if log != [] {
      var front := log[..|log| - 1];
      PrefixIsGrown(g, boundary, log, |log| - 1);
      GrownOnlyChecksOut(g, boundary, front);
      StaysAbsent(boundary, front);
      assert Offers(g, boundary, log[..|log| - 1], log[|log| - 1].action);
      AbsentOnlyChecksOut(g, CurrentState(front, boundary), log[|log| - 1].action);
      assert forall n :: 0 <= n < |front| ==> front[n].action == log[n].action;
    }
  }

  lemma StaysAbsent(boundary: Option<Time>, log: seq<Record>)
    requires Timely(boundary, log) && forall n :: 0 <= n < |log| ==> log[n].action == CheckOut
    ensures !CurrentState(log, boundary).checkedIn
  {
    TimelyIsOrdered(boundary, log);
    FlagIsLastMove(log, boundary);
  }

  lemma {:induction false} SelectSplits(past: seq<Record>, log: seq<Record>, from: Option<Time>)
    ensures Select(past + log, from, None) == Select(past, from, None) + Select(log, from, None)
    decreases |log|
  {
    if log == [] {
      assert past + log == past;
    } else {
      var all := past + log;
      assert all[..|all| - 1] == past + log[..|log| - 1] && all[|all| - 1] == log[|log| - 1];
      SelectSplits(past, log[..|log| - 1], from);
    }
  }

  lemma {:induction false} SelectBefore(past: seq<Record>, from: Time)
    requires forall i :: 0 <= i < |past| ==> past[i].at < from
    ensures Select(past, Some(from), None) == []
  {
    if past != [] { SelectBefore(past[..|past| - 1], from); }
  }

  /** What was recorded before the reset does not count: the kiosk starts afresh. */
  lemma ResetStartsAfresh(past: seq<Record>, log: seq<Record>, reset: Time)
    requires forall i :: 0 <= i < |past| ==> past[i].at < reset
    requires forall i :: 0 <= i < |log| ==> reset <= log[i].at
    ensures CurrentState(past + log, Some(reset)) == CurrentState(log, None)
    ensures CurrentState(past, Some(reset)) == ABSENT
  {
    SelectSplits(past, log, Some(reset));
    SelectBefore(past, reset);
    SelectAll(log, Some(reset));
    SelectAll(log, None);
    assert Select(past + log, Some(reset), None) == log == Select(log, None, None);
    assert Select(past, Some(reset), None) == [];
  }
}
