/**
  The attendance report: records are put into rows by local day and row key, and
  each row shows a first check-in, all breaks and a last check-out.
 */
module AttendanceReport {
  import opened BillingTypes
  import opened Attendance

  /** Texts are as the source strips them; `classFolded` is the class name in lower case. */
  datatype Entry = Entry(
    at: Time, id: nat, action: Action,
    member: Option<nat>, visitor: Option<nat>, kind: string, name: string, identifier: string,
    section: Option<nat>, classFolded: string, group: Option<nat>, structured: bool)

  /** `group` shows a group column; `structured` is the report's own group being structured. */
  datatype Layout = Layout(group: bool, structured: bool)

  function Digits(n: nat): string {
    if n < 10 then [Digit(n)] else Digits(n / 10) + [Digit(n % 10)]
  }

  function Digit(d: nat): char
    requires d < 10
  {
    ('0' as int + d) as char
  }

  function ParticipantKey(e: Entry): string {
    if e.member.Some? then "member:" + Digits(e.member.value)
    else if e.visitor.Some? then "group_only:" + Digits(e.visitor.value)
    else "snapshot:" + e.kind + ":" + e.name + ":" + e.identifier
  }

  function ClassKey(e: Entry): string {
    if e.section.Some? then "section:" + Digits(e.section.value)
    else if e.classFolded != "" then "snap:" + e.classFolded
    else "unknown"
  }

  /** Rows of this record are kept apart by class. */
  predicate Structured(e: Entry, l: Layout) {
    l.structured || (l.group && (e.structured || e.section.Some?))
  }

  function BodyKey(e: Entry, l: Layout): string {
    if Structured(e, l) then ParticipantKey(e) + "|" + ClassKey(e) else ParticipantKey(e)
  }

  function GroupKey(e: Entry): string {
    if e.group.Some? then Digits(e.group.value) else "unknown"
  }

  function RowKey(e: Entry, l: Layout): string {
    if l.group then "group:" + GroupKey(e) + "|" + BodyKey(e, l) else BodyKey(e, l)
  }

  /** The query's order within a cell: by time, then by id. */
  predicate Precedes(a: Entry, b: Entry) {
    a.at < b.at || (a.at == b.at && a.id <= b.id)
  }

  predicate Chronological(s: seq<Entry>) {
    forall i, j :: 0 <= i < j < |s| ==> Precedes(s[i], s[j])
  }

  function Only(s: seq<Entry>, action: Action): seq<Entry> {
    if s == [] then [] else Only(s[..|s| - 1], action) + if s[|s| - 1].action == action then [s[|s| - 1]] else []
  }

  /** The times shown, each with the record it comes from; the formatting is left to the reader. */
  datatype Cells = Cells(checkIn: Option<Entry>, breaks: seq<Entry>, checkOut: Option<Entry>)

  /** Empty exactly when there is nothing to show, else the first of the candidates. */
  predicate IsFirst(cell: Option<Entry>, candidates: seq<Entry>) {
    if cell.None? then candidates == []
    else cell.value in candidates && forall e :: e in candidates ==> Precedes(cell.value, e)
  }

  predicate IsLast(cell: Option<Entry>, candidates: seq<Entry>) {
    if cell.None? then candidates == []
    else cell.value in candidates && forall e :: e in candidates ==> Precedes(e, cell.value)
  }

  /** What the cells of a row must show of its records. */
  predicate Shows(c: Cells, records: seq<Entry>) {
    && IsFirst(c.checkIn, Only(records, CheckIn))
    && IsLast(c.checkOut, Only(records, CheckOut))
    && multiset(c.breaks) == multiset(Only(records, BreakStart)) && Chronological(c.breaks)
  }

  // Sorting

  function Place(s: seq<Entry>, e: Entry): seq<Entry> {
    if s == [] || Precedes(s[|s| - 1], e) then s + [e] else Place(s[..|s| - 1], e) + [s[|s| - 1]]
  }

  function Sorted(s: seq<Entry>): seq<Entry> {
    if s == [] then [] else Place(Sorted(s[..|s| - 1]), s[|s| - 1])
  }

  lemma {:induction false} PlaceKeepsOrder(s: seq<Entry>, e: Entry)
    requires Chronological(s)
    ensures var p := Place(s, e);
            Chronological(p) && (p[|p| - 1] == e || (s != [] && p[|p| - 1] == s[|s| - 1]))
  {
    if s != [] && !Precedes(s[|s| - 1], e) {
      PlaceKeepsOrder(s[..|s| - 1], e);
      AddLast(Place(s[..|s| - 1], e), s[|s| - 1]);
    } else {
      AddLast(s, e);
    }
  }

  lemma AddLast(s: seq<Entry>, e: Entry)
    requires Chronological(s) && (s != [] ==> Precedes(s[|s| - 1], e))
    ensures Chronological(s + [e])
  {
    forall i | 0 <= i < |s|
      ensures Precedes(s[i], e)
    {
      assert i < |s| - 1 ==> Precedes(s[i], s[|s| - 1]);
    }
  }

  lemma {:induction false} PlaceKeepsContents(s: seq<Entry>, e: Entry)
    ensures multiset(Place(s, e)) == multiset(s) + multiset{e}
  {
    if s != [] && !Precedes(s[|s| - 1], e) {
      PlaceKeepsContents(s[..|s| - 1], e);
      assert s == s[..|s| - 1] + [s[|s| - 1]];
    }
  }

  lemma {:induction false} SortedIsChronological(s: seq<Entry>)
    ensures Chronological(Sorted(s))
  {
    if s != [] {
      SortedIsChronological(s[..|s| - 1]);
      PlaceKeepsOrder(Sorted(s[..|s| - 1]), s[|s| - 1]);
    }
  }

  lemma {:induction false} SortedKeepsContents(s: seq<Entry>)
    ensures multiset(Sorted(s)) == multiset(s)
  {
    if s != [] {
      var front, last := s[..|s| - 1], s[|s| - 1];
      SortedKeepsContents(front);
      PlaceKeepsContents(Sorted(front), last);
      assert multiset(s) == multiset(front) + multiset{last} by {
        assert s == front + [last];
      }
    }
  }

  lemma SortedSorts(s: seq<Entry>)
    ensures Chronological(Sorted(s)) && multiset(Sorted(s)) == multiset(s)
  {
    SortedIsChronological(s);
    SortedKeepsContents(s);
  }

  /** Counting records of one kind does not depend on their order. */
  lemma {:induction false} OnlyCounts(s: seq<Entry>, action: Action, e: Entry)
    ensures multiset(Only(s, action))[e] == if e.action == action then multiset(s)[e] else 0
  {
    if s != [] {
      OnlyCounts(s[..|s| - 1], action, e);
      assert s == s[..|s| - 1] + [s[|s| - 1]];
    }
  }

  lemma OnlyOfSame(s: seq<Entry>, t: seq<Entry>, action: Action)
    requires multiset(s) == multiset(t)
    ensures multiset(Only(s, action)) == multiset(Only(t, action))
  {
    forall e
      ensures multiset(Only(s, action))[e] == multiset(Only(t, action))[e]
    {
      OnlyCounts(s, action, e);
      OnlyCounts(t, action, e);
    }
  }

  lemma {:induction false} OnlyKeepsOrder(s: seq<Entry>, action: Action)
    requires Chronological(s)
    ensures Chronological(Only(s, action))
    ensures forall e :: e in Only(s, action) ==> e in s
  {
    if s != [] {
      var front, last := s[..|s| - 1], s[|s| - 1];
      OnlyKeepsOrder(front, action);
      var part := Only(front, action);
      if part != [] {
        assert part[|part| - 1] in front;
      }
      AddLast(part, last);
    }
  }

  lemma SameContents(s: seq<Entry>, t: seq<Entry>)
    requires multiset(s) == multiset(t)
    ensures |s| == |t| && forall e :: e in s <==> e in t
  {
    assert forall e :: e in s <==> e in multiset(s);
    assert forall e :: e in t <==> e in multiset(t);
    assert |multiset(s)| == |s|;
  }

  /** Each kind of record, taken from the sorted records: in order and complete. */
  lemma SortedOnly(records: seq<Entry>, action: Action)
    ensures var part, all := Only(Sorted(records), action), Only(records, action);
            && Chronological(part) && multiset(part) == multiset(all)
            && |part| == |all| && forall e :: e in part <==> e in all
  {
    SortedSorts(records);
    OnlyKeepsOrder(Sorted(records), action);
    OnlyOfSame(Sorted(records), records, action);
    SameContents(Only(Sorted(records), action), Only(records, action));
  }

  function First(s: seq<Entry>): Option<Entry> { if s == [] then None else Some(s[0]) }

  function Last(s: seq<Entry>): Option<Entry> { if s == [] then None else Some(s[|s| - 1]) }

  lemma EndsOfOrder(part: seq<Entry>, all: seq<Entry>)
    requires Chronological(part) && |part| == |all| && forall e :: e in part <==> e in all
    ensures IsFirst(First(part), all) && IsLast(Last(part), all)
  {
  }

  /** One pass over the sorted records. */
  method CellValuesForDay(records: seq<Entry>) returns (cells: Cells)
    ensures Shows(cells, records)
  {
    var sorted := Sorted(records);
    var checkIns: seq<Entry> := [];
    var breaks: seq<Entry> := [];
    var checkOuts: seq<Entry> := [];
    for i := 0 to |sorted|
      invariant checkIns == Only(sorted[..i], CheckIn)
      invariant breaks == Only(sorted[..i], BreakStart)
      invariant checkOuts == Only(sorted[..i], CheckOut)
    {
      assert sorted[..i + 1][..i] == sorted[..i];
      match sorted[i].action {
        case CheckIn => checkIns := checkIns + [sorted[i]];
        case BreakStart => breaks := breaks + [sorted[i]];
        case CheckOut => checkOuts := checkOuts + [sorted[i]];
        case BreakEnd =>
      }
    }
    assert sorted[..|sorted|] == sorted;
    cells := Cells(First(checkIns), breaks, Last(checkOuts));
    SortedOnly(records, CheckIn);
    SortedOnly(records, BreakStart);
    SortedOnly(records, CheckOut);
    EndsOfOrder(checkIns, Only(records, CheckIn));
    EndsOfOrder(checkOuts, Only(records, CheckOut));
  }

  /** By time, and among records of one instant by id. */
  predicate NotAfter(a: Entry, b: Entry) {
    if a.at == b.at then a.id <= b.id else a.at < b.at
  }

  /** The cells read off the records: the earliest check-in, the latest check-out, each break as often as recorded. */
  lemma CellsMean(c: Cells, records: seq<Entry>, e: Entry)
    requires Shows(c, records)
    ensures c.checkIn == Some(e) ==> e in records && e.action == CheckIn
    ensures c.checkOut == Some(e) ==> e in records && e.action == CheckOut
    ensures e in records && e.action == CheckIn ==> c.checkIn.Some? && NotAfter(c.checkIn.value, e)
    ensures e in records && e.action == CheckOut ==> c.checkOut.Some? && NotAfter(e, c.checkOut.value)
    ensures multiset(c.breaks)[e] == if e.action == BreakStart then multiset(records)[e] else 0
    ensures forall i, j :: 0 <= i < j < |c.breaks| ==> NotAfter(c.breaks[i], c.breaks[j])
  {
    OnlyCounts(records, CheckIn, e);
    OnlyCounts(records, CheckOut, e);
    OnlyCounts(records, BreakStart, e);
    assert forall s: seq<Entry> :: e in s <==> multiset(s)[e] > 0;
  }
}
