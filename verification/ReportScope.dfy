/** Which records a report is about, and which of them share a row, read off the request and the tables. */
module ReportScope {
  import opened BillingTypes
  import opened Attendance
  import opened ReportCalendar
  import opened AttendanceReport
  import opened ReportKeys
  import opened ReportBuilder
  import opened ReportOrder
  import opened ReportSections

  /** The record is of a group the viewer may see and of the group asked for. */
  predicate OfGroups(q: Request, e: Entry) {
    && (q.allowed.Some? ==> e.group.Some? && e.group.value in q.allowed.value)
    && (q.group.Some? ==> e.group == q.group)
  }

  /** In member mode it is the member's; in group mode everybody's, or the one participant's. */
  predicate OfParticipant(dir: Directory, q: Request, e: Entry) {
    if q.mode == ByMember then e.member == q.member
    else
      match q.subject
      case None => true
      case Some(MembershipOf(id)) => id in dir.memberships && e.member == Some(dir.memberships[id].member)
      case Some(VisitorOf(id)) => e.visitor == Some(id)
      case Some(OtherSubject) => false
  }

  /** A member may be asked for in each permitted group that has a membership or a record of it. */
  lemma MemberInGroupIff(dir: Directory, log: seq<Entry>, q: Request, m: nat, g: nat)
    requires q.mode == ByMember && q.member == Some(m) && q.group == Some(g)
    ensures Answerable(dir, log, q) <==>
              && m in dir.members && g in dir.groups && (q.allowed.Some? ==> g in q.allowed.value)
              && (Membership(g, m) in dir.memberships.Values
                  || exists e :: e in log && e.member == Some(m) && e.group == Some(g))
  {
    if i :| 0 <= i < |log| && log[i].member == Some(m) && log[i].group == Some(g) {
      assert log[i] in log;
    }
  }

  /** A record is reported, as often as stored, exactly if its date, its group and its participant are asked for. */
  lemma QueryMeans(dir: Directory, log: seq<Entry>, q: Request, r: Range, offset: Offset, e: Entry, d: Date)
    requires r.Range? && IsDate(r.from) && IsDate(r.to)
    requires IsDate(d) && Ordinal(d) == LocalDay(e.at, offset)
    ensures multiset(QueryOf(dir, log, q, r, offset))[e]
            == if Answerable(dir, log, q) && OfGroups(q, e) && OfParticipant(dir, q, e) && InRange(r, d)
               then multiset(log)[e] else 0
    ensures var records := QueryOf(dir, log, q, r, offset);
            forall i, j :: 0 <= i < j < |records| ==> NotAfter(records[j], records[i])
  {
    SelectedIffInRange(r, offset, e.at, d);
    var lookup := FilterOf(dir, log, q);
    assert lookup.Ready? <==> Answerable(dir, log, q);
    if lookup.Ready? {
      SelectedIsTheQuery(log, lookup.filter, r, offset, e);
    }
  }

  /** A member's report shows that member alone. */
  lemma MembersReportIsTheirOwn(
    dir: Directory, log: seq<Entry>, q: Request, r: Range, offset: Offset, e: Entry)
    requires r.Range? && q.mode == ByMember && e in QueryOf(dir, log, q, r, offset)
    ensures q.member.Some? && e.member == q.member && e in log
  {
    SelectedFrom(log, FilterOf(dir, log, q).filter, r, offset, e);
  }

  // ---- rows ----

  /** The report of one member over all groups. */
  predicate AcrossGroups(q: Request) { q.mode == ByMember && q.group.None? }

  /** Rows of this record are kept apart by class: in a structured group; across groups, where the record itself is. */
  predicate ByClass(dir: Directory, q: Request, e: Entry) {
    || (q.group.Some? && q.group.value in dir.groups && dir.groups[q.group.value])
    || (AcrossGroups(q) && (e.structured || e.section.Some?))
  }

  /** Filed under the same section, or without one under the same class name. */
  predicate SameClassroom(a: Entry, b: Entry) {
    if a.section.Some? || b.section.Some? then a.section == b.section else a.classFolded == b.classFolded
  }

  predicate SamePerson(a: Entry, b: Entry) {
    if a.member.Some? || b.member.Some? then a.member == b.member else a.visitor == b.visitor
  }

  /**
    Two records of members or group-only participants share a row exactly if the person, and
    where they count the group and the class, are the same.
   */
  lemma RequestedRowsIff(dir: Directory, q: Request, a: Entry, b: Entry)
    requires Known(a) && Known(b)
    ensures RowKey(a, LayoutOf(dir, q)) == RowKey(b, LayoutOf(dir, q)) <==>
              && SamePerson(a, b) && (AcrossGroups(q) ==> a.group == b.group)
              && ByClass(dir, q, a) == ByClass(dir, q, b) && (ByClass(dir, q, a) ==> SameClassroom(a, b))
  {
    KnownRowsAreTheirOwn(a, b, LayoutOf(dir, q));
  }

  const RECORD := Entry(0, 0, CheckIn, Some(1), None, "", "", "", None, "", Some(1), false)

  /** Records of different groups never share a row exactly in a report across groups. */
  lemma GroupsHaveOwnRowsIff(dir: Directory, q: Request)
    ensures AcrossGroups(q) <==>
              forall a: Entry, b: Entry ::
                a.group != b.group ==> RowKey(a, LayoutOf(dir, q)) != RowKey(b, LayoutOf(dir, q))
  {
    if AcrossGroups(q) {
      forall a: Entry, b: Entry | a.group != b.group
        ensures RowKey(a, LayoutOf(dir, q)) != RowKey(b, LayoutOf(dir, q))
      {
        GroupedRowsIff(a, b, LayoutOf(dir, q));
      }
    } else {
      var other := RECORD.(group := Some(2));
      RequestedRowsIff(dir, q, RECORD, other);
      assert RECORD.group != other.group;
    }
  }

  // ---- the report ----

  /** The record is one the request asks for, and its local date is `d`. */
  predicate AskedFor(dir: Directory, log: seq<Entry>, q: Request, r: Range, offset: Offset, e: Entry, d: Date)
    requires r.Range?
  {
    && Answerable(dir, log, q) && e in log && OfGroups(q, e) && OfParticipant(dir, q, e)
    && IsDate(d) && Ordinal(d) == LocalDay(e.at, offset) && InRange(r, d)
  }

  /** The cell for this action is filled, by this record or one that comes before it in the cell. */
  predicate Accounted(c: Cells, e: Entry) {
    match e.action
    case CheckIn => c.checkIn.Some? && NotAfter(c.checkIn.value, e)
    case CheckOut => c.checkOut.Some? && NotAfter(e, c.checkOut.value)
    case BreakStart => e in c.breaks
    case BreakEnd => true
  }

  predicate InCells(c: Cells, e: Entry) {
    c.checkIn == Some(e) || c.checkOut == Some(e) || e in c.breaks
  }

  ghost predicate IsReportOf(sections: seq<Section>, dir: Directory, log: seq<Entry>, q: Request, r: Range,
          offset: Offset)
    requires r.Range?
  {
    IsReport(sections, QueryOf(dir, log, q, r, offset), e => SpotOf(e, LayoutOf(dir, q), offset))
  }

  /** Every record asked for is accounted for in its row under its date. */
  lemma EveryRecordIsAccountedFor(sections: seq<Section>, dir: Directory, log: seq<Entry>, q: Request, r: Range,
          offset: Offset, e: Entry, d: Date)
    requires r.Range? && IsDate(r.from) && IsDate(r.to) && IsReportOf(sections, dir, log, q, r, offset)
    requires AskedFor(dir, log, q, r, offset, e, d) && e.action != BreakEnd
    ensures exists i, p :: 0 <= i < |sections| && 0 <= p < |sections[i].rows| && sections[i].day == Ordinal(d)
                           && sections[i].rows[p].key == RowKey(e, LayoutOf(dir, q))
                           && Accounted(sections[i].rows[p].cells, e)
  {
    var records, spot := QueryOf(dir, log, q, r, offset), (x: Entry) => SpotOf(x, LayoutOf(dir, q), offset);
    QueryMeans(dir, log, q, r, offset, e, d);
    assert multiset(log)[e] > 0 && e in multiset(records);
    var i, p := RowOf(sections, records, spot, e);
    CellAccountsFor(sections[i].rows[p].cells, Bucket(records, spot, spot(e)), e);
  }

  lemma RowOf(sections: seq<Section>, records: seq<Entry>, spot: Entry -> Spot, e: Entry) returns (i: nat, p: nat)
    requires IsReport(sections, records, spot) && e in records && e.action != BreakEnd
    ensures i < |sections| && p < |sections[i].rows|
    ensures sections[i].day == spot(e).day && sections[i].rows[p].key == spot(e).key
    ensures Shows(sections[i].rows[p].cells, Bucket(records, spot, spot(e))) && e in Bucket(records, spot, spot(e))
  {
    BucketFrom(records, spot, spot(e), e);
    assert HasRow(sections, spot(e));
    i :| 0 <= i < |sections| && sections[i].day == spot(e).day && KeyIn(sections[i].rows, spot(e).key);
    p :| 0 <= p < |sections[i].rows| && sections[i].rows[p].key == spot(e).key;
    assert ShowsDay(sections[i], records, spot);
  }

  lemma CellAccountsFor(c: Cells, records: seq<Entry>, e: Entry)
    requires Shows(c, records) && e in records && e.action != BreakEnd
    ensures Accounted(c, e)
  {
    CellsMean(c, records, e);
    assert multiset(records)[e] > 0;
    assert e.action == BreakStart ==> e in multiset(c.breaks);
  }

  /** And no cell shows anything else: what stands in it was asked for, on the day and in the row it is shown. */
  lemma NothingElseIsShown(sections: seq<Section>, dir: Directory, log: seq<Entry>, q: Request, r: Range,
          offset: Offset, i: nat, p: nat, e: Entry)
    requires r.Range? && IsDate(r.from) && IsDate(r.to) && IsReportOf(sections, dir, log, q, r, offset)
    requires i < |sections| && p < |sections[i].rows| && InCells(sections[i].rows[p].cells, e)
    ensures exists d :: AskedFor(dir, log, q, r, offset, e, d) && sections[i].day == Ordinal(d)
    ensures sections[i].rows[p].key == RowKey(e, LayoutOf(dir, q)) && e.action != BreakEnd
  {
    var records, spot := QueryOf(dir, log, q, r, offset), (x: Entry) => SpotOf(x, LayoutOf(dir, q), offset);
    assert ShowsDay(sections[i], records, spot);
    var here := Spot(sections[i].day, sections[i].rows[p].key);
    CellsMean(sections[i].rows[p].cells, Bucket(records, spot, here), e);
    assert e in multiset(sections[i].rows[p].cells.breaks) <==> e in sections[i].rows[p].cells.breaks;
    assert e in multiset(Bucket(records, spot, here)) <==> e in Bucket(records, spot, here);
    BucketFrom(records, spot, here, e);
    SelectedFrom(log, FilterOf(dir, log, q).filter, r, offset, e);
    SelectedHasADate(r, offset, e.at);
    var d := DateAt(LocalDay(e.at, offset)).value;
    QueryMeans(dir, log, q, r, offset, e, d);
    assert e in multiset(records);
  }

  /** Days go back in time; rows of a day are in alphabetical order of group, class and name, and last of their key. */
  lemma ReportIsInOrder(report: Report, records: seq<Entry>, l: Layout, offset: Offset, heading: Entry -> Heading,
          i: nat, p: nat, q: nat)
    requires Reports(report, records, l, offset, heading) && i < |report.sections| && p < q < |report.sections[i].rows|
    ensures forall j :: i < j < |report.sections| ==> report.sections[j].day < report.sections[i].day
    ensures var a, b := report.sections[i].rows[p].key, report.sections[i].rows[q].key;
            var spot := (e: Entry) => SpotOf(e, l, offset);
            var first, second := FirstOf(records, spot, a), FirstOf(records, spot, b);
            && first.Some? && second.Some?
            && var g, h := heading(first.value), heading(second.value);
               if g.group != h.group then Alphabetical(g.group, h.group)
               else if g.klass != h.klass then Alphabetical(g.klass, h.klass)
               else if g.name != h.name then Alphabetical(g.name, h.name)
               else Alphabetical(a, b)
  {
    var section := report.sections[i];
    var spot := (e: Entry) => SpotOf(e, l, offset);
    assert ShowsDay(section, records, spot);
    HeadIsThere(records, spot, Spot(section.day, section.rows[p].key));
    HeadIsThere(records, spot, Spot(section.day, section.rows[q].key));
    var a, b := section.rows[p].key, section.rows[q].key;
    var g, h := heading(FirstOf(records, spot, a).value), heading(FirstOf(records, spot, b).value);
    assert RankBefore(RankOf(records, spot, heading, a), RankOf(records, spot, heading, b));
    if g.group != h.group {
      TextBeforeIsAlphabetical(g.group, h.group);
    } else if g.klass != h.klass {
      TextsCompare(g.group, h.group);
      TextBeforeIsAlphabetical(g.klass, h.klass);
    } else if g.name != h.name {
      TextsCompare(g.group, h.group);
      TextsCompare(g.klass, h.klass);
      TextBeforeIsAlphabetical(g.name, h.name);
    } else {
      TextsCompare(g.group, h.group);
      TextsCompare(g.klass, h.klass);
      TextsCompare(g.name, h.name);
      TextBeforeIsAlphabetical(a, b);
    }
  }

  lemma HeadIsThere(records: seq<Entry>, spot: Entry -> Spot, at: Spot)
    requires Bucket(records, spot, at) != []
    ensures FirstOf(records, spot, at.key).Some?
  {
    BucketFrom(records, spot, at, Bucket(records, spot, at)[0]);
    KeyHasHead(records, spot, at.key, Bucket(records, spot, at)[0]);
  }

  lemma {:induction false} KeyHasHead(records: seq<Entry>, spot: Entry -> Spot, key: string, e: Entry)
    requires e in records && e.action != BreakEnd && spot(e).key == key
    ensures FirstOf(records, spot, key).Some?
  {
    if e in records[..|records| - 1] {
      KeyHasHead(records[..|records| - 1], spot, key, e);
    }
  }
}
