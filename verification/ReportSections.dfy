/**
  The sections of the report: two levels of dictionaries, day and row key, filled in
  one pass, then read out with the latest day first and the rows by what they display.
 */
module ReportSections {
  import opened BillingTypes
  import opened Attendance
  import opened ReportCalendar
  import opened AttendanceReport
  import opened ReportOrder

  /** Where a record belongs. */
  datatype Spot = Spot(day: int, key: string)

  function SpotOf(e: Entry, l: Layout, offset: Offset): Spot {
    Spot(LocalDay(e.at, offset), RowKey(e, l))
  }

  datatype ReportRow = ReportRow(key: string, cells: Cells)

  datatype Section = Section(day: int, rows: seq<ReportRow>)

  /** Break ends take part in nothing. */
  function Kept(records: seq<Entry>): seq<Entry> {
    if records == [] then []
    else
      var last := records[|records| - 1];
      Kept(records[..|records| - 1]) + if last.action == BreakEnd then [] else [last]
  }

  function Bucket(records: seq<Entry>, spot: Entry -> Spot, at: Spot): seq<Entry> {
    if records == [] then []
    else
      var last := records[|records| - 1];
      Bucket(records[..|records| - 1], spot, at) + if last.action != BreakEnd && spot(last) == at then [last] else []
  }

  /** What a record shows at the head of its row, in lower case; blank where the report has no such column. */
  datatype Heading = Heading(group: string, klass: string, name: string)

  /** The first record filed under a key, on whatever day: its texts head the row on every day. */
  function FirstOf(records: seq<Entry>, spot: Entry -> Spot, key: string): Option<Entry> {
    if records == [] then None
    else
      var before, last := FirstOf(records[..|records| - 1], spot, key), records[|records| - 1];
      if before.Some? || last.action == BreakEnd || spot(last).key != key then before else Some(last)
  }

  function RankOf(records: seq<Entry>, spot: Entry -> Spot, heading: Entry -> Heading, key: string): Rank {
    var first := FirstOf(records, spot, key);
    if first.None? then Rank("", "", "", key) else Headed(heading(first.value), key)
  }

  function Headed(l: Heading, key: string): Rank { Rank(l.group, l.klass, l.name, key) }

  // Filling the dictionaries

  type Days = map<int, map<string, seq<Entry>>>

  type Labels = map<string, Heading>

  ghost predicate Labelled(labels: Labels, records: seq<Entry>, spot: Entry -> Spot, heading: Entry -> Heading) {
    forall k :: (k in labels <==> FirstOf(records, spot, k).Some?)
                && (k in labels ==> labels[k] == heading(FirstOf(records, spot, k).value))
  }

  lemma LabelAdded(labels: Labels, records: seq<Entry>, spot: Entry -> Spot, heading: Entry -> Heading, e: Entry)
    requires Labelled(labels, records, spot, heading)
    ensures var k := spot(e).key;
            var after := if e.action == BreakEnd || k in labels then labels else labels[k := heading(e)];
            Labelled(after, records + [e], spot, heading)
  {
    assert (records + [e])[..|records|] == records;
  }

  predicate HasBucket(byDay: Days, at: Spot) {
    at.day in byDay && at.key in byDay[at.day]
  }

  ghost predicate Filled(byDay: Days, records: seq<Entry>, spot: Entry -> Spot) {
    && (forall d :: d in byDay ==> byDay[d] != map[])
    && (forall at :: HasBucket(byDay, at) <==> Bucket(records, spot, at) != [])
    && (forall at :: HasBucket(byDay, at) ==> byDay[at.day][at.key] == Bucket(records, spot, at))
  }

  function Added(byDay: Days, at: Spot, e: Entry): Days {
    var day := if at.day in byDay then byDay[at.day] else map[];
    byDay[at.day := day[at.key := (if at.key in day then day[at.key] else []) + [e]]]
  }

  lemma AddedFills(byDay: Days, records: seq<Entry>, spot: Entry -> Spot, e: Entry)
    requires Filled(byDay, records, spot) && e.action != BreakEnd
    ensures Filled(Added(byDay, spot(e), e), records + [e], spot)
  {
    var after := Added(byDay, spot(e), e);
    assert (records + [e])[..|records|] == records;
    forall at
      ensures HasBucket(after, at) <==> Bucket(records + [e], spot, at) != []
      ensures HasBucket(after, at) ==> after[at.day][at.key] == Bucket(records + [e], spot, at)
    {
      assert HasBucket(byDay, at) <==> Bucket(records, spot, at) != [];
      if at == spot(e) {
        assert Bucket(records + [e], spot, at) == Bucket(records, spot, at) + [e];
      } else {
        assert HasBucket(after, at) <==> HasBucket(byDay, at);
      }
    }
  }

  method FillDays(records: seq<Entry>, spot: Entry -> Spot, heading: Entry -> Heading)
    returns (byDay: Days, labels: Labels)
    ensures Filled(byDay, records, spot) && Labelled(labels, records, spot, heading)
  {
    byDay, labels := map[], map[];
    for i := 0 to |records|
      invariant Filled(byDay, records[..i], spot) && Labelled(labels, records[..i], spot, heading)
    {
      assert records[..i + 1] == records[..i] + [records[i]];
      LabelAdded(labels, records[..i], spot, heading, records[i]);
      if records[i].action == BreakEnd {
        assert records[..i + 1][..i] == records[..i];
        SkipKeepsFilled(byDay, records[..i], spot, records[i]);
        continue;
      }
      AddedFills(byDay, records[..i], spot, records[i]);
      var at := spot(records[i]);
      var day := if at.day in byDay then byDay[at.day] else map[];
      day := day[at.key := (if at.key in day then day[at.key] else []) + [records[i]]];
      byDay := byDay[at.day := day];
      if at.key !in labels {
        labels := labels[at.key := heading(records[i])];
      }
    }
    assert records[..|records|] == records;
  }

  lemma SkipKeepsFilled(byDay: Days, records: seq<Entry>, spot: Entry -> Spot, e: Entry)
    requires Filled(byDay, records, spot) && e.action == BreakEnd
    ensures Filled(byDay, records + [e], spot)
  {
    assert (records + [e])[..|records|] == records;
    forall at
      ensures Bucket(records + [e], spot, at) == Bucket(records, spot, at)
    {
    }
  }

  // Reading them out

  lemma EmptyOrNot(days: set<int>)
    ensures days == {} || exists d :: d in days
  {
    if forall d :: d !in days {
      assert days == {};
    }
  }

  lemma {:induction false} Latest(days: set<int>) returns (top: int)
    requires days != {}
    ensures top in days && forall e :: e in days ==> e <= top
    decreases days
  {
    EmptyOrNot(days);
    var d :| d in days;
    var rest := days - {d};
    top := d;
    if rest != {} {
      top := Latest(rest);
      if top < d { top := d; }
    }
    forall e | e in days
      ensures e <= top
    {
      assert e == d || e in rest;
    }
  }

  method DaysLatestFirst(days: set<int>) returns (s: seq<int>)
    ensures forall i, j :: 0 <= i < j < |s| ==> s[i] > s[j]
    ensures forall i :: 0 <= i < |s| ==> s[i] in days
    ensures forall d :: d in days ==> d in s
  {
    s := [];
    var left := days;
    while left != {}
      invariant left <= days
      invariant forall i, j :: 0 <= i < j < |s| ==> s[i] > s[j]
      invariant forall i :: 0 <= i < |s| ==> s[i] in days
      invariant forall d :: d in days ==> d in s || d in left
      invariant forall i, e :: 0 <= i < |s| && e in left ==> s[i] > e
      decreases left
    {
      ghost var top := Latest(left);
      var d :| d in left && forall e :: e in left ==> e <= d;
      s := s + [d];
      left := left - {d};
    }
  }

  predicate KeyIn(rows: seq<ReportRow>, key: string) {
    exists p :: 0 <= p < |rows| && rows[p].key == key
  }

  /** Every bucket but the ones left has exactly one row. */
  ghost predicate RowsCover(rows: seq<ReportRow>, keys: set<string>, left: set<string>) {
    && (forall p, q :: 0 <= p < q < |rows| ==> rows[p].key != rows[q].key)
    && (forall p :: 0 <= p < |rows| ==> rows[p].key in keys && rows[p].key !in left)
    && (forall k :: k in keys ==> k in left || KeyIn(rows, k))
  }

  ghost predicate RowsShow(rows: seq<ReportRow>, buckets: map<string, seq<Entry>>) {
    forall p :: 0 <= p < |rows| ==> rows[p].key in buckets && Shows(rows[p].cells, buckets[rows[p].key])
  }

  ghost predicate RowsSoFar(rows: seq<ReportRow>, buckets: map<string, seq<Entry>>, left: set<string>) {
    RowsCover(rows, buckets.Keys, left) && RowsShow(rows, buckets)
  }

  lemma RowAdded(rows: seq<ReportRow>, keys: set<string>, left: set<string>, row: ReportRow)
    requires RowsCover(rows, keys, left) && row.key in left && row.key in keys
    ensures RowsCover(rows + [row], keys, left - {row.key})
  {
    var after := rows + [row];
    assert forall p :: 0 <= p < |rows| ==> after[p] == rows[p];
    forall k | k in keys
      ensures k in left - {row.key} || KeyIn(after, k)
    {
      if k == row.key {
        assert after[|rows|].key == k;
      } else if k !in left {
        var p :| 0 <= p < |rows| && rows[p].key == k;
        assert after[p].key == k;
      }
    }
  }

  function RankIn(labels: Labels, key: string): Rank {
    if key in labels then Headed(labels[key], key) else Rank("", "", "", key)
  }

  predicate RowsInOrder(rows: seq<ReportRow>, labels: Labels) {
    forall p, q :: 0 <= p < q < |rows| ==> RankBefore(RankIn(labels, rows[p].key), RankIn(labels, rows[q].key))
  }

  predicate Foremost(labels: Labels, keys: set<string>, key: string) {
    forall k :: k in keys ==> k == key || RankBefore(RankIn(labels, key), RankIn(labels, k))
  }

  lemma NoneOrSome(keys: set<string>)
    ensures keys == {} || exists k :: k in keys
  {
    if forall k :: k !in keys {
      assert keys == {};
    }
  }

  lemma {:induction false} SomeKeyIsForemost(labels: Labels, keys: set<string>) returns (key: string)
    requires keys != {}
    ensures key in keys && Foremost(labels, keys, key)
    decreases keys
  {
    NoneOrSome(keys);
    var extra :| extra in keys;
    var rest := keys - {extra};
    assert rest + {extra} == keys;
    if rest == {} {
      key := extra;
    } else {
      var other := SomeKeyIsForemost(labels, rest);
      key := ForemostWithOneMore(labels, rest, other, extra);
    }
  }

  lemma ForemostWithOneMore(labels: Labels, keys: set<string>, key: string, extra: string) returns (first: string)
    requires key in keys && Foremost(labels, keys, key)
    ensures first in keys + {extra} && Foremost(labels, keys + {extra}, first)
  {
    var a, b := RankIn(labels, key), RankIn(labels, extra);
    RanksCompare(a, b);
    first := if RankBefore(b, a) then extra else key;
    if RankBefore(b, a) {
      forall k | k in keys
        ensures RankBefore(b, RankIn(labels, k))
      {
        if k != key { RankBeforeIsTransitive(b, a, RankIn(labels, k)); }
      }
    }
  }

  predicate RowsPrecede(rows: seq<ReportRow>, labels: Labels, keys: set<string>) {
    forall p, k :: 0 <= p < |rows| && k in keys ==> RankBefore(RankIn(labels, rows[p].key), RankIn(labels, k))
  }

  lemma ForemostIsNext(rows: seq<ReportRow>, labels: Labels, left: set<string>, row: ReportRow)
    requires RowsInOrder(rows, labels) && RowsPrecede(rows, labels, left)
    requires row.key in left && Foremost(labels, left, row.key)
    ensures RowsInOrder(rows + [row], labels) && RowsPrecede(rows + [row], labels, left - {row.key})
  {
  }

  /** The rows of one day, each time the one that comes first of those left. */
  method RowsOf(buckets: map<string, seq<Entry>>, labels: Labels) returns (rows: seq<ReportRow>)
    ensures RowsSoFar(rows, buckets, {}) && RowsInOrder(rows, labels)
  {
    rows := [];
    var left := buckets.Keys;
    while left != {}
      invariant left <= buckets.Keys
      invariant RowsSoFar(rows, buckets, left)
      invariant RowsInOrder(rows, labels) && RowsPrecede(rows, labels, left)
      decreases left
    {
      ghost var first := SomeKeyIsForemost(labels, left);
      var k :| k in left && Foremost(labels, left, k);
      var cells := CellValuesForDay(buckets[k]);
      RowAdded(rows, buckets.Keys, left, ReportRow(k, cells));
      ForemostIsNext(rows, labels, left, ReportRow(k, cells));
      rows := rows + [ReportRow(k, cells)];
      left := left - {k};
    }
  }

  predicate HasRow(sections: seq<Section>, at: Spot) {
    exists i :: 0 <= i < |sections| && sections[i].day == at.day && KeyIn(sections[i].rows, at.key)
  }

  predicate LatestFirst(sections: seq<Section>) {
    forall i, j :: 0 <= i < j < |sections| ==> sections[i].day > sections[j].day
  }

  /** One day: rows under different keys, each showing the records of its bucket, none empty. */
  predicate ShowsDay(s: Section, records: seq<Entry>, spot: Entry -> Spot) {
    && s.rows != []
    && (forall p, q :: 0 <= p < q < |s.rows| ==> s.rows[p].key != s.rows[q].key)
    && (forall p :: 0 <= p < |s.rows| ==>
          Bucket(records, spot, Spot(s.day, s.rows[p].key)) != []
          && Shows(s.rows[p].cells, Bucket(records, spot, Spot(s.day, s.rows[p].key))))
  }

  /** What the report promises of the records it was given. */
  ghost predicate IsReport(sections: seq<Section>, records: seq<Entry>, spot: Entry -> Spot) {
    && LatestFirst(sections)
    && (forall i :: 0 <= i < |sections| ==> ShowsDay(sections[i], records, spot))
    && (forall at :: Bucket(records, spot, at) != [] ==> HasRow(sections, at))
  }

  lemma DayIsShown(byDay: Days, records: seq<Entry>, spot: Entry -> Spot, s: Section)
    requires Filled(byDay, records, spot) && s.day in byDay && RowsSoFar(s.rows, byDay[s.day], {})
    ensures ShowsDay(s, records, spot)
  {
    var k :| k in byDay[s.day];
    assert KeyIn(s.rows, k);
    forall p | 0 <= p < |s.rows|
      ensures Bucket(records, spot, Spot(s.day, s.rows[p].key)) != []
      ensures Shows(s.rows[p].cells, Bucket(records, spot, Spot(s.day, s.rows[p].key)))
    {
      assert HasBucket(byDay, Spot(s.day, s.rows[p].key));
    }
  }

  /** The sections hold, in order, the given days with all their rows. */
  ghost predicate SectionsSoFar(sections: seq<Section>, days: seq<int>, byDay: Days, labels: Labels) {
    && |sections| == |days|
    && forall i :: 0 <= i < |days| ==>
         && days[i] in byDay && sections[i].day == days[i]
         && RowsSoFar(sections[i].rows, byDay[days[i]], {}) && RowsInOrder(sections[i].rows, labels)
  }

  lemma SectionAdded(sections: seq<Section>, days: seq<int>, byDay: Days, labels: Labels, s: Section)
    requires SectionsSoFar(sections, days, byDay, labels)
    requires s.day in byDay && RowsSoFar(s.rows, byDay[s.day], {}) && RowsInOrder(s.rows, labels)
    ensures SectionsSoFar(sections + [s], days + [s.day], byDay, labels)
  {
  }

  /** Within a day the rows ascend by group, class and name as displayed, then by key. */
  predicate InDisplayOrder(
    sections: seq<Section>, records: seq<Entry>, spot: Entry -> Spot, heading: Entry -> Heading)
  {
    forall i, p, q :: 0 <= i < |sections| && 0 <= p < q < |sections[i].rows| ==>
      RankBefore(RankOf(records, spot, heading, sections[i].rows[p].key),
                 RankOf(records, spot, heading, sections[i].rows[q].key))
  }

  lemma RowsAreDisplayed(sections: seq<Section>, days: seq<int>, byDay: Days, labels: Labels, records: seq<Entry>,
          spot: Entry -> Spot, heading: Entry -> Heading)
    requires SectionsSoFar(sections, days, byDay, labels) && Labelled(labels, records, spot, heading)
    ensures InDisplayOrder(sections, records, spot, heading)
  {
    forall i, p, q | 0 <= i < |sections| && 0 <= p < q < |sections[i].rows|
      ensures RankBefore(RankOf(records, spot, heading, sections[i].rows[p].key),
                         RankOf(records, spot, heading, sections[i].rows[q].key))
    {
      assert sections[i].day == days[i];
      LabelsAreRanks(labels, records, spot, heading, sections[i].rows[p].key);
      LabelsAreRanks(labels, records, spot, heading, sections[i].rows[q].key);
    }
  }

  lemma LabelsAreRanks(labels: Labels, records: seq<Entry>, spot: Entry -> Spot, heading: Entry -> Heading, key: string)
    requires Labelled(labels, records, spot, heading)
    ensures RankIn(labels, key) == RankOf(records, spot, heading, key)
  {
    assert key in labels <==> FirstOf(records, spot, key).Some?;
  }

  lemma SectionsMakeTheReport(sections: seq<Section>, days: seq<int>, byDay: Days, labels: Labels,
          records: seq<Entry>, spot: Entry -> Spot)
    requires Filled(byDay, records, spot) && SectionsSoFar(sections, days, byDay, labels)
    requires forall i, j :: 0 <= i < j < |days| ==> days[i] > days[j]
    requires forall d :: d in byDay ==> d in days
    ensures IsReport(sections, records, spot)
  {
    forall i | 0 <= i < |sections|
      ensures ShowsDay(sections[i], records, spot)
    {
      assert sections[i].day == days[i];
      DayIsShown(byDay, records, spot, sections[i]);
    }
    forall at | Bucket(records, spot, at) != []
      ensures HasRow(sections, at)
    {
      assert HasBucket(byDay, at);
      var i :| 0 <= i < |days| && days[i] == at.day;
      assert sections[i].day == at.day && KeyIn(sections[i].rows, at.key);
    }
  }

  method ReadDays(byDay: Days, days: seq<int>, labels: Labels) returns (sections: seq<Section>)
    requires forall i :: 0 <= i < |days| ==> days[i] in byDay
    ensures SectionsSoFar(sections, days, byDay, labels)
  {
    sections := [];
    for i := 0 to |days|
      invariant SectionsSoFar(sections, days[..i], byDay, labels)
    {
      var rows := RowsOf(byDay[days[i]], labels);
      SectionAdded(sections, days[..i], byDay, labels, Section(days[i], rows));
      assert days[..i + 1] == days[..i] + [days[i]];
      sections := sections + [Section(days[i], rows)];
    }
    assert days[..|days|] == days;
  }

  method BuildSections(records: seq<Entry>, spot: Entry -> Spot, heading: Entry -> Heading)
    returns (sections: seq<Section>)
    ensures IsReport(sections, records, spot) && InDisplayOrder(sections, records, spot, heading)
  {
    var byDay, labels := FillDays(records, spot, heading);
    var days := DaysLatestFirst(byDay.Keys);
    sections := ReadDays(byDay, days, labels);
    SectionsMakeTheReport(sections, days, byDay, labels, records, spot);
    RowsAreDisplayed(sections, days, byDay, labels, records, spot, heading);
  }

  // The records determine which rows there are, and where

  predicate Descending(s: seq<int>) {
    forall i, j :: 0 <= i < j < |s| ==> s[i] > s[j]
  }

  lemma LaterDays(s: seq<int>)
    requires Descending(s) && s != []
    ensures Descending(s[1..]) && forall d :: d in s[1..] <==> d in s && d != s[0]
  {
    assert s == [s[0]] + s[1..];
  }

  lemma {:induction false} DescendingIsUnique(s: seq<int>, t: seq<int>)
    requires Descending(s) && Descending(t) && forall d :: d in s <==> d in t
    ensures s == t
  {
    if s == [] {
      assert forall i :: 0 <= i < |t| ==> t[i] in t;
    } else {
      assert s[0] in t && t[0] in s;
      assert s[0] == t[0];
      LaterDays(s);
      LaterDays(t);
      DescendingIsUnique(s[1..], t[1..]);
      assert s == [s[0]] + s[1..] && t == [t[0]] + t[1..];
    }
  }

  function DaysOf(sections: seq<Section>): (days: seq<int>)
    ensures |days| == |sections| && forall i :: 0 <= i < |days| ==> days[i] == sections[i].day
  {
    seq(|sections|, i requires 0 <= i < |sections| => sections[i].day)
  }

  function Ranks(rows: seq<ReportRow>, records: seq<Entry>, spot: Entry -> Spot,
                 heading: Entry -> Heading): (r: seq<Rank>)
    ensures |r| == |rows| && forall p :: 0 <= p < |r| ==> r[p] == RankOf(records, spot, heading, rows[p].key)
  {
    seq(|rows|, p requires 0 <= p < |rows| => RankOf(records, spot, heading, rows[p].key))
  }

  lemma DayHasRows(sections: seq<Section>, records: seq<Entry>, spot: Entry -> Spot, day: int)
    requires IsReport(sections, records, spot)
    ensures day in DaysOf(sections) <==> exists key :: Bucket(records, spot, Spot(day, key)) != []
  {
    if day in DaysOf(sections) {
      var i :| 0 <= i < |sections| && sections[i].day == day;
      assert ShowsDay(sections[i], records, spot);
      assert Bucket(records, spot, Spot(day, sections[i].rows[0].key)) != [];
    }
    if key :| Bucket(records, spot, Spot(day, key)) != [] {
      assert HasRow(sections, Spot(day, key));
      var i :| 0 <= i < |sections| && sections[i].day == day;
      assert DaysOf(sections)[i] == day;
    }
  }

  lemma DayHasKey(sections: seq<Section>, records: seq<Entry>, spot: Entry -> Spot, i: nat, key: string)
    requires IsReport(sections, records, spot) && i < |sections|
    ensures KeyIn(sections[i].rows, key) <==> Bucket(records, spot, Spot(sections[i].day, key)) != []
  {
    assert ShowsDay(sections[i], records, spot);
    if Bucket(records, spot, Spot(sections[i].day, key)) != [] {
      assert HasRow(sections, Spot(sections[i].day, key));
    }
  }

  lemma RanksAreKeys(sections: seq<Section>, records: seq<Entry>, spot: Entry -> Spot,
                     heading: Entry -> Heading, i: nat, r: Rank)
    requires IsReport(sections, records, spot) && i < |sections|
    ensures r in Ranks(sections[i].rows, records, spot, heading) <==>
              r == RankOf(records, spot, heading, r.key) && Bucket(records, spot, Spot(sections[i].day, r.key)) != []
  {
    DayHasKey(sections, records, spot, i, r.key);
    var ranks := Ranks(sections[i].rows, records, spot, heading);
    if r in ranks {
      var p :| 0 <= p < |ranks| && ranks[p] == r;
      assert sections[i].rows[p].key == r.key;
    } else if KeyIn(sections[i].rows, r.key) {
      var p :| 0 <= p < |sections[i].rows| && sections[i].rows[p].key == r.key;
      assert ranks[p] in ranks;
    }
  }

  /** Two reports on the same records have the same days and, day by day, the same rows in the same places. */
  lemma RowsAreDetermined(s: seq<Section>, t: seq<Section>, records: seq<Entry>, spot: Entry -> Spot,
          heading: Entry -> Heading)
    requires IsReport(s, records, spot) && InDisplayOrder(s, records, spot, heading)
    requires IsReport(t, records, spot) && InDisplayOrder(t, records, spot, heading)
    ensures DaysOf(s) == DaysOf(t)
    ensures forall i :: 0 <= i < |s| ==> i < |t| && |s[i].rows| == |t[i].rows|
    ensures forall i, p :: 0 <= i < |s| && 0 <= p < |s[i].rows| ==> s[i].rows[p].key == t[i].rows[p].key
  {
    forall day
      ensures day in DaysOf(s) <==> day in DaysOf(t)
    {
      DayHasRows(s, records, spot, day);
      DayHasRows(t, records, spot, day);
    }
    DescendingIsUnique(DaysOf(s), DaysOf(t));
    forall i | 0 <= i < |s|
      ensures Ranks(s[i].rows, records, spot, heading) == Ranks(t[i].rows, records, spot, heading)
    {
      assert s[i].day == DaysOf(s)[i] == DaysOf(t)[i] == t[i].day;
      forall r
        ensures r in Ranks(s[i].rows, records, spot, heading) <==> r in Ranks(t[i].rows, records, spot, heading)
      {
        RanksAreKeys(s, records, spot, heading, i, r);
        RanksAreKeys(t, records, spot, heading, i, r);
      }
      AscendingIsUnique(Ranks(s[i].rows, records, spot, heading), Ranks(t[i].rows, records, spot, heading));
    }
    forall i, p | 0 <= i < |s| && 0 <= p < |s[i].rows|
      ensures s[i].rows[p].key == t[i].rows[p].key
    {
      assert Ranks(s[i].rows, records, spot, heading)[p] == Ranks(t[i].rows, records, spot, heading)[p];
    }
  }

  // Conservation

  /** The spots of all rows, section by section. */
  function SpotsOf(day: int, rows: seq<ReportRow>): seq<Spot> {
    if rows == [] then [] else SpotsOf(day, rows[..|rows| - 1]) + [Spot(day, rows[|rows| - 1].key)]
  }

  function Spots(sections: seq<Section>): seq<Spot> {
    if sections == [] then []
    else Spots(sections[..|sections| - 1]) + SpotsOf(sections[|sections| - 1].day, sections[|sections| - 1].rows)
  }

  /** How often the rows at these spots use a record. */
  function Uses(spots: seq<Spot>, records: seq<Entry>, spot: Entry -> Spot, e: Entry): nat {
    if spots == [] then 0
    else Uses(spots[..|spots| - 1], records, spot, e) + multiset(Bucket(records, spot, spots[|spots| - 1]))[e]
  }

  predicate Distinct(spots: seq<Spot>) {
    forall i, j :: 0 <= i < j < |spots| ==> spots[i] != spots[j]
  }

  /** A bucket holds the records of its own spot, each as often as it is kept. */
  lemma {:induction false} BucketCounts(records: seq<Entry>, spot: Entry -> Spot, at: Spot, e: Entry)
    ensures multiset(Bucket(records, spot, at))[e] == if spot(e) == at then multiset(Kept(records))[e] else 0
  {
    if records != [] { BucketCounts(records[..|records| - 1], spot, at, e); }
  }

  lemma {:induction false} UsesCount(spots: seq<Spot>, records: seq<Entry>, spot: Entry -> Spot, e: Entry)
    requires Distinct(spots)
    ensures Uses(spots, records, spot, e) == if spot(e) in spots then multiset(Kept(records))[e] else 0
  {
    if spots != [] {
      var front, last := spots[..|spots| - 1], spots[|spots| - 1];
      UsesCount(front, records, spot, e);
      BucketCounts(records, spot, last, e);
      assert spots == front + [last] && last !in front;
    }
  }

  lemma {:induction false} KeptComesFrom(records: seq<Entry>, e: Entry)
    requires e in Kept(records)
    ensures exists i :: 0 <= i < |records| && records[i] == e && e.action != BreakEnd
  {
    var front, last := records[..|records| - 1], records[|records| - 1];
    if last == e && e.action != BreakEnd {
    } else {
      KeptComesFrom(front, e);
      var i :| 0 <= i < |front| && front[i] == e;
      assert records[i] == e;
    }
  }

  lemma {:induction false} SpotsOfRows(day: int, rows: seq<ReportRow>)
    ensures |SpotsOf(day, rows)| == |rows|
    ensures forall p :: 0 <= p < |rows| ==> SpotsOf(day, rows)[p] == Spot(day, rows[p].key)
  {
    if rows != [] { SpotsOfRows(day, rows[..|rows| - 1]); }
  }

  lemma {:induction false} SpotsAreDistinct(sections: seq<Section>)
    requires LatestFirst(sections)
    requires forall i, p, q :: 0 <= i < |sections| && 0 <= p < q < |sections[i].rows| ==>
               sections[i].rows[p].key != sections[i].rows[q].key
    ensures Distinct(Spots(sections))
    ensures forall s :: s in Spots(sections) ==> exists i :: 0 <= i < |sections| && sections[i].day == s.day
  {
    if sections != [] {
      var front, last := sections[..|sections| - 1], sections[|sections| - 1];
      SpotsAreDistinct(front);
      SpotsOfRows(last.day, last.rows);
      var before, here := Spots(front), SpotsOf(last.day, last.rows);
      forall s | s in before
        ensures exists i :: 0 <= i < |front| && sections[i].day == s.day && s.day > last.day
      {
        var i :| 0 <= i < |front| && front[i].day == s.day;
        assert sections[i].day == s.day && sections[i].day > sections[|sections| - 1].day;
      }
      forall s | s in here
        ensures s.day == last.day
      {
        var p :| 0 <= p < |here| && here[p] == s;
      }
    }
  }

  lemma {:induction false} RowsAreSpots(sections: seq<Section>, i: nat, p: nat)
    requires i < |sections| && p < |sections[i].rows|
    ensures Spot(sections[i].day, sections[i].rows[p].key) in Spots(sections)
  {
    var front, last := sections[..|sections| - 1], sections[|sections| - 1];
    if i < |front| {
      RowsAreSpots(front, i, p);
    } else {
      SpotsOfRows(last.day, last.rows);
      assert SpotsOf(last.day, last.rows)[p] in SpotsOf(last.day, last.rows);
    }
  }

  lemma {:induction false} InItsBucket(records: seq<Entry>, spot: Entry -> Spot, i: nat)
    requires i < |records| && records[i].action != BreakEnd
    ensures Bucket(records, spot, spot(records[i])) != []
  {
    if i < |records| - 1 { InItsBucket(records[..|records| - 1], spot, i); }
  }

  lemma HasRowIsSpot(sections: seq<Section>, at: Spot)
    requires HasRow(sections, at)
    ensures at in Spots(sections)
  {
    var s :| 0 <= s < |sections| && sections[s].day == at.day && KeyIn(sections[s].rows, at.key);
    var p :| 0 <= p < |sections[s].rows| && sections[s].rows[p].key == at.key;
    RowsAreSpots(sections, s, p);
  }

  /** Among different rows, each record that is no break end is used exactly as often as it was given, and no other. */
  lemma NothingLostNothingTwice(sections: seq<Section>, records: seq<Entry>, spot: Entry -> Spot, e: Entry)
    requires IsReport(sections, records, spot)
    ensures Distinct(Spots(sections))
    ensures Uses(Spots(sections), records, spot, e) == multiset(Kept(records))[e]
  {
    SpotsAreDistinct(sections);
    UsesCount(Spots(sections), records, spot, e);
    if e in Kept(records) {
      KeptComesFrom(records, e);
      var i :| 0 <= i < |records| && records[i] == e && e.action != BreakEnd;
      InItsBucket(records, spot, i);
      HasRowIsSpot(sections, spot(e));
    }
  }
}
