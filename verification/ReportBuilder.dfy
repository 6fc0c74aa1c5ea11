/** The whole report: range, selection, columns and sections; and what it means for a single record. */
module ReportBuilder {
  import opened BillingTypes
  import opened Attendance
  import opened ReportCalendar
  import opened AttendanceReport
  import opened ReportOrder
  import opened ReportSections

  datatype Report = Report(range: Range, columns: seq<Action>, sections: seq<Section>)

  /** What the report is about: the groups the viewer may see, one group, one member, one group-only participant. */
  datatype Filter = Filter(allowed: Option<set<nat>>, group: Option<nat>, member: Option<nat>, visitor: Option<nat>)

  predicate Admits(f: Filter, e: Entry) {
    && (f.allowed.Some? ==> e.group.Some? && e.group.value in f.allowed.value)
    && (f.group.Some? ==> e.group == f.group)
    && (f.member.Some? ==> e.member == f.member)
    && (f.visitor.Some? ==> e.visitor == f.visitor)
  }

  /** Newest first, and of records at one instant the later id first. */
  predicate NewestFirst(s: seq<Entry>) {
    forall i, j :: 0 <= i < j < |s| ==> Precedes(s[j], s[i])
  }

  function PlaceNewest(s: seq<Entry>, e: Entry): seq<Entry> {
    if s == [] || Precedes(s[0], e) then [e] + s else [s[0]] + PlaceNewest(s[1..], e)
  }

  /** The query over range and filter, newest first. */
  function SelectedEntries(log: seq<Entry>, f: Filter, r: Range, offset: Offset): seq<Entry>
    requires r.Range?
  {
    if log == [] then []
    else
      var rest, last := SelectedEntries(log[..|log| - 1], f, r, offset), log[|log| - 1];
      if Admits(f, last) && Selected(r, offset, last.at) then PlaceNewest(rest, last) else rest
  }

  lemma {:induction false} PlacedNewest(s: seq<Entry>, e: Entry)
    requires NewestFirst(s)
    ensures NewestFirst(PlaceNewest(s, e)) && multiset(PlaceNewest(s, e)) == multiset(s) + multiset{e}
  {
    if s != [] && !Precedes(s[0], e) {
      PlacedNewest(s[1..], e);
      var rest := PlaceNewest(s[1..], e);
      assert s == [s[0]] + s[1..];
      forall j | 0 <= j < |rest|
        ensures Precedes(rest[j], s[0])
      {
        assert rest[j] in multiset(rest);
        if rest[j] in s[1..] {
          var k :| 0 <= k < |s[1..]| && s[1..][k] == rest[j];
          assert s[k + 1] == rest[j];
        }
      }
    }
  }

  /** The query gives each record it admits, as often as the table holds it, in the order asked for. */
  lemma {:induction false} SelectedIsTheQuery(log: seq<Entry>, f: Filter, r: Range, offset: Offset, e: Entry)
    requires r.Range?
    ensures NewestFirst(SelectedEntries(log, f, r, offset))
    ensures multiset(SelectedEntries(log, f, r, offset))[e]
            == if Admits(f, e) && Selected(r, offset, e.at) then multiset(log)[e] else 0
  {
    if log != [] {
      var front, last := log[..|log| - 1], log[|log| - 1];
      SelectedIsTheQuery(front, f, r, offset, e);
      PlacedNewest(SelectedEntries(front, f, r, offset), last);
      CountOneMore(log, front, last, e);
    }
  }

  lemma CountOneMore(log: seq<Entry>, front: seq<Entry>, last: Entry, e: Entry)
    requires log != [] && front == log[..|log| - 1] && last == log[|log| - 1]
    ensures multiset(log)[e] == multiset(front)[e] + if e == last then 1 else 0
  {
    assert log == front + [last];
  }

  /** The columns there are, in the order they are shown. */
  const COLUMNS: seq<Action> := [CheckIn, BreakStart, CheckOut]

  predicate Occurs(records: seq<Entry>, a: Action) {
    exists i :: 0 <= i < |records| && records[i].action == a
  }

  predicate ColumnOrder(a: Action, b: Action) {
    (a == CheckIn && b != CheckIn) || (a == BreakStart && b == CheckOut)
  }

  method ActionTypesPresent(records: seq<Entry>) returns (present: set<Action>)
    ensures forall a :: a in present <==> Occurs(records, a)
  {
    present := {};
    for i := 0 to |records|
      invariant forall a :: a in present <==> Occurs(records[..i], a)
    {
      OccursOneMore(records, i);
      present := present + {records[i].action};
    }
    assert records[..|records|] == records;
  }

  lemma ColumnIsLater(columns: seq<Action>, i: nat)
    requires i < |COLUMNS| && forall a :: a in columns ==> a in COLUMNS[..i]
    ensures forall p :: 0 <= p < |columns| ==> ColumnOrder(columns[p], COLUMNS[i])
  {
    forall p | 0 <= p < |columns|
      ensures ColumnOrder(columns[p], COLUMNS[i])
    {
      assert columns[p] in columns;
      var k :| 0 <= k < i && COLUMNS[..i][k] == columns[p];
      assert COLUMNS[k] == columns[p];
    }
  }

  method VisibleColumns(records: seq<Entry>) returns (columns: seq<Action>)
    ensures forall a :: a in columns <==> a != BreakEnd && Occurs(records, a)
    ensures forall i, j :: 0 <= i < j < |columns| ==> ColumnOrder(columns[i], columns[j])
  {
    var present := ActionTypesPresent(records);
    present := present - {BreakEnd};
    columns := [];
    for i := 0 to |COLUMNS|
      invariant forall a :: a in columns <==> a in present && a in COLUMNS[..i]
      invariant forall p, q :: 0 <= p < q < |columns| ==> ColumnOrder(columns[p], columns[q])
    {
      assert COLUMNS[..i + 1] == COLUMNS[..i] + [COLUMNS[i]];
      if COLUMNS[i] in present {
        ColumnIsLater(columns, i);
        columns := columns + [COLUMNS[i]];
      }
    }
    assert COLUMNS[..|COLUMNS|] == COLUMNS;
    assert COLUMNS[0] == CheckIn && COLUMNS[1] == BreakStart && COLUMNS[2] == CheckOut;
  }

  lemma OccursOneMore(records: seq<Entry>, i: nat)
    requires i < |records|
    ensures forall a :: Occurs(records[..i + 1], a) <==> Occurs(records[..i], a) || a == records[i].action
  {
    forall a
      ensures Occurs(records[..i + 1], a) <==> Occurs(records[..i], a) || a == records[i].action
    {
      if Occurs(records[..i], a) {
        var k :| 0 <= k < i && records[..i][k].action == a;
        assert records[..i + 1][k].action == a;
      }
      if a == records[i].action { assert records[..i + 1][i].action == a; }
      if Occurs(records[..i + 1], a) && a != records[i].action {
        var k :| 0 <= k < i + 1 && records[..i + 1][k].action == a;
        assert records[..i][k].action == a;
      }
    }
  }

  // What the report is asked for

  datatype Mode = ByGroup | ByMember | OtherMode

  /** A row of the participants' list of a group: a membership, a group-only participant, or another kind. */
  datatype Subject = MembershipOf(id: nat) | VisitorOf(id: nat) | OtherSubject

  /** `allowed` holds the groups a staff viewer may see; None is an owner. */
  datatype Request = Request(
    mode: Mode, group: Option<nat>, member: Option<nat>, subject: Option<Subject>, allowed: Option<set<nat>>)

  datatype Membership = Membership(group: nat, member: nat)

  /**
    The tables looked up: the groups that exist or have left records, each with its being
    structured; the members; the memberships; and the group of each group-only participant.
   */
  datatype Directory = Directory(
    groups: map<nat, bool>, members: set<nat>, memberships: map<nat, Membership>, visitors: map<nat, nat>)

  datatype Lookup = NotThere | BadRequest | Ready(filter: Filter)

  /** The member belongs to the group or has a record in it, and the viewer may see it. */
  predicate ReportsIn(dir: Directory, log: seq<Entry>, q: Request, member: nat, group: nat) {
    && ((exists id :: id in dir.memberships && dir.memberships[id] == Membership(group, member))
        || (exists i :: 0 <= i < |log| && log[i].member == Some(member) && log[i].group == Some(group)))
    && (q.allowed.Some? ==> group in q.allowed.value)
  }

  /** The checks before the range is looked at, in their order. */
  function Scope(dir: Directory, log: seq<Entry>, q: Request): Lookup {
    if q.mode == OtherMode then BadRequest
    else if q.group.Some? && q.group.value !in dir.groups then NotThere
    else if q.mode == ByGroup then
      if q.group.None? then BadRequest else Ready(Filter(q.allowed, q.group, None, None))
    else if q.member.None? || q.member.value !in dir.members then NotThere
    else if q.group.Some? && !ReportsIn(dir, log, q, q.member.value, q.group.value) then NotThere
    else Ready(Filter(q.allowed, q.group, q.member, None))
  }

  /** And the one after it: a single participant, in group mode only. */
  function Narrowed(dir: Directory, q: Request, f: Filter): Lookup {
    if q.mode != ByGroup || q.subject.None? then Ready(f)
    else
      match q.subject.value
      case MembershipOf(id) =>
        if id !in dir.memberships || Some(dir.memberships[id].group) != q.group then NotThere
        else Ready(f.(member := Some(dir.memberships[id].member)))
      case VisitorOf(id) =>
        if id !in dir.visitors || Some(dir.visitors[id]) != q.group then NotThere
        else Ready(f.(visitor := Some(id)))
      case OtherSubject => BadRequest
  }

  /** A group column where a member's groups come together; classes apart where the one group is structured. */
  function LayoutOf(dir: Directory, q: Request): Layout {
    Layout(q.mode == ByMember && q.group.None?,
           q.group.Some? && q.group.value in dir.groups && dir.groups[q.group.value])
  }

  function FilterOf(dir: Directory, log: seq<Entry>, q: Request): Lookup {
    var scope := Scope(dir, log, q);
    if scope.Ready? then Narrowed(dir, q, scope.filter) else scope
  }

  /** The records of the report, as the query gives them. */
  function QueryOf(dir: Directory, log: seq<Entry>, q: Request, r: Range, offset: Offset): seq<Entry>
    requires r.Range?
  {
    var lookup := FilterOf(dir, log, q);
    if lookup.Ready? then SelectedEntries(log, lookup.filter, r, offset) else []
  }

  // What the request means

  /** The group or the member asked for is not there, or the member has nothing to do with the group. */
  predicate UnknownScope(dir: Directory, log: seq<Entry>, q: Request) {
    && q.mode != OtherMode
    && ((q.group.Some? && q.group.value !in dir.groups)
        || (q.mode == ByMember && (q.member.None? || q.member.value !in dir.members))
        || (q.mode == ByMember && q.group.Some? && !ReportsIn(dir, log, q, q.member.value, q.group.value)))
  }

  /** The participant asked for is not in the group. */
  predicate UnknownSubject(dir: Directory, q: Request) {
    && q.subject.Some? && !q.subject.value.OtherSubject?
    && !InGroup(dir, q.subject.value, q.group)
  }

  predicate InGroup(dir: Directory, s: Subject, group: Option<nat>) {
    match s
    case MembershipOf(id) => id in dir.memberships && group == Some(dir.memberships[id].group)
    case VisitorOf(id) => id in dir.visitors && group == Some(dir.visitors[id])
    case OtherSubject => false
  }

  /** A group, or one of its participants; or a member, in all groups or in one of its own. */
  predicate Answerable(dir: Directory, log: seq<Entry>, q: Request) {
    && !UnknownScope(dir, log, q)
    && ((q.mode == ByGroup && q.group.Some? && (q.subject.Some? ==> InGroup(dir, q.subject.value, q.group)))
        || q.mode == ByMember)
  }

  datatype Answer = Missing | Rejected | Built(report: Report)

  /** The range the report is for; Invalid is an error, also where the present has no date. */
  function RangeFor(offset: Offset, preset: Preset, now: Time, from: Option<Date>, to: Option<Date>): Range {
    var today := DateAt(LocalDay(now, offset));
    if today.None? then Invalid else ReportRange(preset, today.value, from, to)
  }

  /** What a report shows of the records the query selects. */
  ghost predicate Reports(
    report: Report, records: seq<Entry>, l: Layout, offset: Offset, heading: Entry -> Heading)
  {
    && IsReport(report.sections, records, e => SpotOf(e, l, offset))
    && InDisplayOrder(report.sections, records, e => SpotOf(e, l, offset), heading)
    && forall a :: a in report.columns <==> a != BreakEnd && Occurs(records, a)
  }

  lemma ScopeMeans(dir: Directory, log: seq<Entry>, q: Request)
    ensures var scope := Scope(dir, log, q);
            && (scope.NotThere? <==> UnknownScope(dir, log, q))
            && (scope.BadRequest? ==> !Answerable(dir, log, q) && (q.mode != ByGroup || q.group.None?))
            && (scope.Ready? ==> q.mode == ByMember || (q.mode == ByGroup && q.group.Some?))
  {}

  lemma NarrowedMeans(dir: Directory, log: seq<Entry>, q: Request)
    requires Scope(dir, log, q).Ready?
    ensures var lookup := Narrowed(dir, q, Scope(dir, log, q).filter);
            && (lookup.Ready? <==> Answerable(dir, log, q))
            && (lookup.NotThere? <==> q.mode == ByGroup && UnknownSubject(dir, q))
            && FilterOf(dir, log, q) == lookup
  {
    ScopeMeans(dir, log, q);
  }

  method ReportRecords(records: seq<Entry>, range: Range, l: Layout, offset: Offset, heading: Entry -> Heading)
    returns (report: Report)
    ensures report.range == range && Reports(report, records, l, offset, heading)
  {
    var columns := VisibleColumns(records);
    var sections := BuildSections(records, e => SpotOf(e, l, offset), heading);
    return Report(range, columns, sections);
  }

  method BuildAttendanceReport(dir: Directory, log: seq<Entry>, q: Request, offset: Offset, preset: Preset,
                               now: Time, from: Option<Date>, to: Option<Date>, heading: Entry -> Heading)
    returns (answer: Answer)
    requires (from.Some? ==> IsDate(from.value)) && (to.Some? ==> IsDate(to.value))
    ensures var range := RangeFor(offset, preset, now, from, to);
            && (answer.Missing? <==>
                  || UnknownScope(dir, log, q)
                  || (range.Range? && q.mode == ByGroup && q.group.Some? && UnknownSubject(dir, q)))
            && (answer.Built? <==> range.Range? && Answerable(dir, log, q))
            && (answer.Built? ==>
                  && answer.report.range == range && IsDate(range.from) && IsDate(range.to)
                  && Reports(answer.report, QueryOf(dir, log, q, range, offset), LayoutOf(dir, q), offset, heading))
  {
    var scope := Scope(dir, log, q);
    ScopeMeans(dir, log, q);
    if scope.NotThere? { return Missing; }
    if scope.BadRequest? { return Rejected; }
    NarrowedMeans(dir, log, q);
    var today := DateAt(LocalDay(now, offset));
    if today.None? { return Rejected; }
    var range := ReportRange(preset, today.value, from, to);
    if range.Invalid? { return Rejected; }
    var lookup := Narrowed(dir, q, scope.filter);
    if lookup.NotThere? { return Missing; }
    if lookup.BadRequest? { return Rejected; }
    RangeHasDates(preset, today.value, from, to);
    var records := SelectedEntries(log, lookup.filter, range, offset);
    var report := ReportRecords(records, range, LayoutOf(dir, q), offset, heading);
    return Built(report);
  }

  /** A viewer limited to some groups is never shown a record of another, nor any record that is of no group. */
  lemma OnlyAllowedGroups(dir: Directory, log: seq<Entry>, q: Request, r: Range, offset: Offset, e: Entry)
    requires r.Range? && q.allowed.Some? && e in QueryOf(dir, log, q, r, offset)
    ensures e.group.Some? && e.group.value in q.allowed.value
  {
    SelectedFrom(log, FilterOf(dir, log, q).filter, r, offset, e);
  }

  /** A row is headed by its latest record: what the row shows is as that record had it, on all days. */
  lemma {:induction false} LatestHeads(records: seq<Entry>, spot: Entry -> Spot, key: string, e: Entry)
    requires NewestFirst(records) && e in records && e.action != BreakEnd && spot(e).key == key
    ensures var head := FirstOf(records, spot, key);
            && head.Some? && head.value in records && head.value.action != BreakEnd
            && spot(head.value).key == key && NotAfter(e, head.value)
  {
    var front, last := records[..|records| - 1], records[|records| - 1];
    assert records == front + [last];
    if e in front {
      LatestHeads(front, spot, key, e);
    } else {
      FirstIsThere(front, spot, key);
      var head := FirstOf(front, spot, key);
      if head.Some? {
        var i :| 0 <= i < |front| && front[i] == head.value;
        assert records[i] == head.value;
      }
    }
  }

  lemma {:induction false} FirstIsThere(records: seq<Entry>, spot: Entry -> Spot, key: string)
    ensures var head := FirstOf(records, spot, key);
            head.Some? ==> head.value in records && head.value.action != BreakEnd && spot(head.value).key == key
  {
    if records != [] {
      FirstIsThere(records[..|records| - 1], spot, key);
      assert records == records[..|records| - 1] + [records[|records| - 1]];
    }
  }

  lemma RangeHasDates(preset: Preset, today: Date, from: Option<Date>, to: Option<Date>)
    requires IsDate(today) && (from.Some? ==> IsDate(from.value)) && (to.Some? ==> IsDate(to.value))
    ensures var r := ReportRange(preset, today, from, to); r.Range? ==> IsDate(r.from) && IsDate(r.to)
  {
    match preset
    case ThisWeek => WeekBounds(today);
    case ThisMonth =>
      MonthBounds(today, Date(today.year, today.month, DaysIn(today.year, today.month)), NextMonth(today));
    case _ =>
  }

  lemma SelectedFrom(log: seq<Entry>, f: Filter, r: Range, offset: Offset, e: Entry)
    requires r.Range?
    ensures e in SelectedEntries(log, f, r, offset) <==> e in log && Admits(f, e) && Selected(r, offset, e.at)
  {
    SelectedIsTheQuery(log, f, r, offset, e);
    assert e in SelectedEntries(log, f, r, offset) <==> multiset(SelectedEntries(log, f, r, offset))[e] > 0;
    assert e in log <==> multiset(log)[e] > 0;
  }

  lemma {:induction false} BucketFrom(records: seq<Entry>, spot: Entry -> Spot, at: Spot, e: Entry)
    ensures e in Bucket(records, spot, at) <==> e in records && e.action != BreakEnd && spot(e) == at
  {
    if records != [] {
      BucketFrom(records[..|records| - 1], spot, at, e);
      assert records == records[..|records| - 1] + [records[|records| - 1]];
    }
  }

  /** No section lies outside the range. */
  lemma SectionsLieInRange(sections: seq<Section>, log: seq<Entry>, f: Filter, l: Layout, offset: Offset, r: Range,
          i: nat)
    requires r.Range? && IsDate(r.from) && IsDate(r.to) && i < |sections|
    requires IsReport(sections, SelectedEntries(log, f, r, offset), e => SpotOf(e, l, offset))
    ensures DateAt(sections[i].day).Some? && InRange(r, DateAt(sections[i].day).value)
  {
    var records, spot := SelectedEntries(log, f, r, offset), (e: Entry) => SpotOf(e, l, offset);
    var s := sections[i];
    assert ShowsDay(s, records, spot);
    var bucket := Bucket(records, spot, Spot(s.day, s.rows[0].key));
    var e := bucket[0];
    assert e in bucket;
    BucketFrom(records, spot, Spot(s.day, s.rows[0].key), e);
    SelectedFrom(log, f, r, offset, e);
    SelectedHasADate(r, offset, e.at);
  }

  /** A record the filter admits has its row exactly when its local date is in the range. */
  lemma RowIffInRange(sections: seq<Section>, log: seq<Entry>, f: Filter, l: Layout, offset: Offset, r: Range,
          e: Entry, d: Date)
    requires r.Range? && IsDate(r.from) && IsDate(r.to)
    requires IsReport(sections, SelectedEntries(log, f, r, offset), x => SpotOf(x, l, offset))
    requires e in log && Admits(f, e) && e.action != BreakEnd && IsDate(d) && Ordinal(d) == LocalDay(e.at, offset)
    ensures HasRow(sections, SpotOf(e, l, offset)) <==> InRange(r, d)
  {
    var records, spot := SelectedEntries(log, f, r, offset), (x: Entry) => SpotOf(x, l, offset);
    SelectedIffInRange(r, offset, e.at, d);
    SelectedFrom(log, f, r, offset, e);
    BucketFrom(records, spot, SpotOf(e, l, offset), e);
    if HasRow(sections, SpotOf(e, l, offset)) {
      var i :|
        0 <= i < |sections| && sections[i].day == LocalDay(e.at, offset) && KeyIn(sections[i].rows, RowKey(e, l));
      SectionsLieInRange(sections, log, f, l, offset, r, i);
      DateAtInverts(d);
    }
  }

  // Columns and cells

  predicate Filled(c: Cells, a: Action) {
    match a
    case CheckIn => c.checkIn.Some?
    case BreakStart => c.breaks != []
    case CheckOut => c.checkOut.Some?
    case BreakEnd => false
  }

  lemma {:induction false} OnlyFrom(s: seq<Entry>, a: Action, e: Entry)
    ensures e in Only(s, a) <==> e in s && e.action == a
  {
    if s != [] {
      OnlyFrom(s[..|s| - 1], a, e);
      assert s == s[..|s| - 1] + [s[|s| - 1]];
    }
  }

  lemma FilledIff(c: Cells, bucket: seq<Entry>, a: Action)
    requires Shows(c, bucket) && a != BreakEnd
    ensures Filled(c, a) <==> Only(bucket, a) != []
  {
    if a == BreakStart {
      SameContents(c.breaks, Only(bucket, BreakStart));
    }
  }

  predicate ShownSomewhere(sections: seq<Section>, a: Action) {
    exists i, p :: 0 <= i < |sections| && 0 <= p < |sections[i].rows| && Filled(sections[i].rows[p].cells, a)
  }

  lemma OccurringIsShown(sections: seq<Section>, records: seq<Entry>, spot: Entry -> Spot, e: Entry)
    requires IsReport(sections, records, spot) && e in records && e.action != BreakEnd
    ensures ShownSomewhere(sections, e.action)
  {
    BucketFrom(records, spot, spot(e), e);
    assert HasRow(sections, spot(e));
    var i :| 0 <= i < |sections| && sections[i].day == spot(e).day && KeyIn(sections[i].rows, spot(e).key);
    var p :| 0 <= p < |sections[i].rows| && sections[i].rows[p].key == spot(e).key;
    assert ShowsDay(sections[i], records, spot);
    OnlyFrom(Bucket(records, spot, spot(e)), e.action, e);
    FilledIff(sections[i].rows[p].cells, Bucket(records, spot, spot(e)), e.action);
  }

  lemma ShownOccurs(sections: seq<Section>, records: seq<Entry>, spot: Entry -> Spot, a: Action, i: nat, p: nat)
    requires IsReport(sections, records, spot) && a != BreakEnd
    requires i < |sections| && p < |sections[i].rows| && Filled(sections[i].rows[p].cells, a)
    ensures Occurs(records, a)
  {
    assert ShowsDay(sections[i], records, spot);
    var bucket := Bucket(records, spot, Spot(sections[i].day, sections[i].rows[p].key));
    FilledIff(sections[i].rows[p].cells, bucket, a);
    var e := Only(bucket, a)[0];
    OnlyFrom(bucket, a, e);
    BucketFrom(records, spot, Spot(sections[i].day, sections[i].rows[p].key), e);
  }

  /** A column is there exactly when some row has something to show in it. */
  lemma ColumnIffShown(sections: seq<Section>, records: seq<Entry>, spot: Entry -> Spot, a: Action)
    requires IsReport(sections, records, spot) && a != BreakEnd
    ensures Occurs(records, a) <==> ShownSomewhere(sections, a)
  {
    if Occurs(records, a) {
      var k :| 0 <= k < |records| && records[k].action == a;
      OccurringIsShown(sections, records, spot, records[k]);
    }
    if ShownSomewhere(sections, a) {
      var i, p :| 0 <= i < |sections| && 0 <= p < |sections[i].rows| && Filled(sections[i].rows[p].cells, a);
      ShownOccurs(sections, records, spot, a, i, p);
    }
  }
}
