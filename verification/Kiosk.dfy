/** The kiosk's scan, its list of allowed actions, and the append they guard. */
module Kiosk {
  import opened BillingTypes
  import opened Attendance

  /** Where the database's order by time and id puts a new record. */
  function Insert(log: seq<Record>, r: Record): seq<Record> {
    if log == [] || Before(log[|log| - 1], r) then
      log + [r]
    else
      Insert(log[..|log| - 1], r) + [log[|log| - 1]]
  }

  lemma {:induction false} InsertKeepsContents(log: seq<Record>, r: Record)
    ensures multiset(Insert(log, r)) == multiset(log) + multiset{r}
  {
    if log != [] && !Before(log[|log| - 1], r) {
      InsertKeepsContents(log[..|log| - 1], r);
      assert log == log[..|log| - 1] + [log[|log| - 1]];
    }
  }

  lemma {:induction false} InsertKeepsOrder(log: seq<Record>, r: Record)
    requires Ordered(log) && forall x :: x in log ==> x.id < r.id
    ensures var s := Insert(log, r);
            Ordered(s) && (s[|s| - 1] == r || (log != [] && s[|s| - 1] == log[|log| - 1]))
            && forall x :: x in s ==> x.id <= r.id
  {
    if log != [] && !Before(log[|log| - 1], r) {
      var front, last := log[..|log| - 1], log[|log| - 1];
      assert last in log && Before(r, last);
      InsertKeepsOrder(front, r);
    }
  }

  predicate Listed(a: Action, b: Action) {
    Place(a) < Place(b)
  }

  function Place(a: Action): nat {
    match a
    case CheckIn => 0
    case CheckOut => 1
    case BreakStart => 2
    case BreakEnd => 3
  }

  lemma ListedIff(a: Action, b: Action)
    ensures Listed(a, b) <==>
              (a == CheckIn && b != CheckIn) || (b == BreakEnd && a != BreakEnd) || (a == CheckOut && b == BreakStart)
  {}

  /** The four last records come from one pass over the window. */
  method ComputeCurrentAttendanceState(records: seq<Record>, boundary: Option<Time>) returns (state: State)
    ensures state == CurrentState(records, boundary)
  {
    var qs := Select(records, boundary, None);
    var lastCheckIn: Option<Record> := None;
    var lastCheckOut: Option<Record> := None;
    var lastBreakStart: Option<Record> := None;
    var lastBreakEnd: Option<Record> := None;
    for i := 0 to |qs|
      invariant lastCheckIn == LastOf(qs[..i], CheckIn)
      invariant lastCheckOut == LastOf(qs[..i], CheckOut)
      invariant lastBreakStart == LastOf(qs[..i], BreakStart)
      invariant lastBreakEnd == LastOf(qs[..i], BreakEnd)
    {
      assert qs[..i + 1][..i] == qs[..i];
      match qs[i].action {
        case CheckIn => lastCheckIn := Some(qs[i]);
        case CheckOut => lastCheckOut := Some(qs[i]);
        case BreakStart => lastBreakStart := Some(qs[i]);
        case BreakEnd => lastBreakEnd := Some(qs[i]);
      }
    }
    assert qs[..|qs|] == qs;
    if lastCheckIn.None? || !(lastCheckOut.None? || IsNewer(lastCheckIn, lastCheckOut)) {
      return ABSENT;
    }
    var breakQs := Cycle(qs, lastCheckIn.value, lastCheckOut);
    var onBreak := IsNewer(LastOf(breakQs, BreakStart), LastOf(breakQs, BreakEnd));
    return State(true, onBreak, CountOf(breakQs, BreakStart));
  }

  method GetValidActionsForState(g: Group, state: State) returns (allowed: seq<Action>)
    ensures forall a :: a in allowed <==> Permits(g, state, a)
    ensures forall i, j :: 0 <= i < j < |allowed| ==> Listed(allowed[i], allowed[j])
  {
    allowed := [];
    if g.checkIn && !state.checkedIn {
      allowed := allowed + [CheckIn];
    }
    if g.checkOut && ((state.checkedIn && !state.onBreak) || !g.checkIn) {
      allowed := allowed + [CheckOut];
    }
    if g.breaks && state.checkedIn {
      if !state.onBreak && state.breakCount < Limit(g) {
        allowed := allowed + [BreakStart];
      }
      if state.onBreak {
        allowed := allowed + [BreakEnd];
      }
    }
  }

  /** The clock has not gone back, and the reset window is still the same. */
  predicate InTime(boundary: Option<Time>, log: seq<Record>, now: Time) {
    (boundary.Some? ==> boundary.value <= now) && (log != [] ==> log[|log| - 1].at <= now)
  }

  /**
    What is checked of group and participant first; a group-only participant is always in the
    group and not archived.
   */
  datatype Standing = Standing(groupActive: bool, identified: bool, inGroup: bool, memberActive: bool)

  datatype KioskReply = Performed | GroupArchived | NotIdentified | NotInGroup | MemberArchived | InvalidAction

  function Answer(standing: Standing, offered: bool): KioskReply {
    if !standing.groupActive then GroupArchived
    else if !standing.identified then NotIdentified
    else if !standing.inGroup then NotInGroup
    else if !standing.memberActive then MemberArchived
    else if !offered then InvalidAction
    else Performed
  }

  /** An action is taken exactly if all is in order and it is on offer; otherwise the first thing amiss is named. */
  lemma PerformedIff(s: Standing, offered: bool)
    ensures Answer(s, offered) == Performed
            <==> s.groupActive && s.identified && s.inGroup && s.memberActive && offered
    ensures Answer(s, offered) == GroupArchived <==> !s.groupActive
    ensures Answer(s, offered) == NotIdentified <==> s.groupActive && !s.identified
    ensures Answer(s, offered) == NotInGroup <==> s.groupActive && s.identified && !s.inGroup
    ensures Answer(s, offered) == MemberArchived
            <==> s.groupActive && s.identified && s.inGroup && !s.memberActive
  {}

  class Participant {
    const group: Group
    var records: seq<Record>
    var nextId: nat

    predicate Valid()
      reads this
    {
      Ordered(records) && forall r :: r in records ==> r.id < nextId
    }

    constructor (g: Group)
      ensures Valid() && group == g && records == []
    {
      group, records, nextId := g, [], 0;
    }

    /** Appends the action if group and participant are in order and it is on offer. */
    method PerformActionRecordFromKiosk(standing: Standing, action: Action, now: Time,
            boundary: Option<Time>) returns (reply: KioskReply)
      requires Valid()
      modifies this
      ensures Valid()
      ensures reply == Answer(standing, Offers(group, boundary, old(records), action))
      ensures records == if reply == Performed then Insert(old(records), Record(now, old(nextId), action))
                         else old(records)
      ensures Grown(group, boundary, old(records)) && InTime(boundary, old(records), now) ==>
                Grown(group, boundary, records)
    {
      if !standing.groupActive {
        return GroupArchived;
      }
      if !standing.identified {
        return NotIdentified;
      }
      if !standing.inGroup {
        return NotInGroup;
      }
      if !standing.memberActive {
        return MemberArchived;
      }
      var state := ComputeCurrentAttendanceState(records, boundary);
      var allowed := GetValidActionsForState(group, state);
      if action !in allowed {
        return InvalidAction;
      }
      var r := Record(now, nextId, action);
      InsertKeepsOrder(records, r);
      if InTime(boundary, records, now) {
        AppendsAtTheEnd(boundary, records, r);
        if Grown(group, boundary, records) {
          AppendKeepsGrown(group, boundary, records, r);
        }
      }
      records := Insert(records, r);
      nextId := nextId + 1;
      return Performed;
    }
  }

  lemma AppendsAtTheEnd(boundary: Option<Time>, log: seq<Record>, r: Record)
    requires forall x :: x in log ==> x.id < r.id
    requires InTime(boundary, log, r.at)
    ensures Insert(log, r) == log + [r]
    ensures Timely(boundary, log) ==> Timely(boundary, log + [r])
  {
    assert forall i :: 0 <= i < |log| ==> log[i] in log;
  }

  lemma AppendKeepsGrown(g: Group, boundary: Option<Time>, log: seq<Record>, r: Record)
    requires Grown(g, boundary, log) && Offers(g, boundary, log, r.action)
    requires Timely(boundary, log + [r])
    ensures Grown(g, boundary, log + [r])
  {
    var grown := log + [r];
    assert grown[..|log|] == log;
    forall n | 0 <= n < |log|
      ensures Offers(g, boundary, grown[..n], grown[n].action)
    {
      assert grown[..n] == log[..n] && grown[n] == log[n];
    }
  }
}
