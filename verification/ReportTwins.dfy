/**
  Which records known only by their snapshot share a row with a different
  snapshot: the exact condition on the record, in every layout.
 */
module ReportTwins {
  import opened BillingTypes
  import opened AttendanceReport
  import opened ReportKeys

  /** What stripping a text removes at its ends. */
  predicate Blank(c: char) {
    var n := c as int;
    || 0x09 <= n <= 0x0D || 0x1C <= n <= 0x20 || n == 0x85 || n == 0xA0 || n == 0x1680
    || 0x2000 <= n <= 0x200A || n == 0x2028 || n == 0x2029 || n == 0x202F || n == 0x205F || n == 0x3000
  }

  predicate StartsClean(s: string) { s == "" || !Blank(s[0]) }

  predicate EndsClean(s: string) { s == "" || !Blank(s[|s| - 1]) }

  predicate Stripped(s: string) { StartsClean(s) && EndsClean(s) }

  /** A snapshot as the report reads it: one of the two kinds, which hold no colon, and stripped texts. */
  predicate Snapshot(e: Entry) {
    !Known(e) && ':' !in e.kind && Stripped(e.name) && Stripped(e.identifier) && Stripped(e.classFolded)
  }

  /** Another snapshot, or where classes are shown another class of it, in the same row. */
  predicate Twins(a: Entry, b: Entry, l: Layout) {
    && Snapshot(b) && RowKey(a, l) == RowKey(b, l)
    && !(SameSnapshot(a, b) && Structured(a, l) == Structured(b, l) && (Structured(a, l) ==> SameClass(a, b)))
  }

  // The key as a text

  function Text(e: Entry): string { e.name + ":" + e.identifier }

  function Tail(e: Entry, l: Layout): string { if Structured(e, l) then Text(e) + "|" + ClassKey(e) else Text(e) }

  lemma BodyIsTail(e: Entry, l: Layout)
    requires !Known(e)
    ensures BodyKey(e, l) == "snapshot:" + (e.kind + ":" + Tail(e, l))
  {
    assert ParticipantKey(e) == "snapshot:" + (e.kind + ":" + Text(e));
    if Structured(e, l) {
      assert BodyKey(e, l) == "snapshot:" + (e.kind + ":" + Text(e)) + "|" + ClassKey(e);
      assert BodyKey(e, l) == "snapshot:" + (e.kind + ":" + (Text(e) + "|" + ClassKey(e)));
    }
  }

  lemma RowsAreTails(a: Entry, b: Entry, l: Layout)
    requires Snapshot(a) && Snapshot(b)
    ensures RowKey(a, l) == RowKey(b, l)
            <==> a.kind == b.kind && Tail(a, l) == Tail(b, l) && (l.group ==> SameGroup(a, b))
  {
    BodyIsTail(a, l);
    BodyIsTail(b, l);
    SamePrefix("snapshot:", a.kind + ":" + Tail(a, l), b.kind + ":" + Tail(b, l));
    SplitUnique(a.kind, Tail(a, l), b.kind, Tail(b, l), ':');
    GroupedRowsIff(a, b, l);
  }

  /** A colon that no blank touches can be read as the one between name and identifier. */
  predicate Cut(t: string, i: nat) {
    && i < |t| && t[i] == ':'
    && (i > 0 ==> !Blank(t[i - 1])) && (i + 1 < |t| ==> !Blank(t[i + 1]))
  }

  /** Name or identifier holds a colon at which the snapshot can be read in another way. */
  ghost predicate Recut(e: Entry) { exists i: nat :: i != |e.name| && Cut(Text(e), i) }

  /** The class name ends in a bar and what reads as a class key. */
  ghost predicate EndsInClassKey(e: Entry) {
    && e.section.None?
    && exists x: string, c: Entry ::
         EndsClean(x) && Stripped(c.classFolded) && e.classFolded == x + "|" + ClassKey(c)
  }

  ghost predicate EndsInUnknown(e: Entry) { exists x: string :: EndsClean(x) && e.identifier == x + "|" + "unknown" }

  /** The records that share their row, read off the record and the layout. */
  ghost predicate Shared(e: Entry, l: Layout) {
    || Recut(e)
    || (if Structured(e, l) then !l.structured || EndsInClassKey(e) else l.group && EndsInUnknown(e))
  }

  // Shared records have twins

  lemma TextEndsClean(e: Entry)
    requires Stripped(e.identifier)
    ensures EndsClean(Text(e))
  {}

  lemma ColonsMergeRows(a: Entry, l: Layout, i: nat) returns (b: Entry)
    requires Snapshot(a) && i != |a.name| && Cut(Text(a), i)
    ensures Twins(a, b, l) && Text(b) == Text(a) && b.name == Text(a)[..i]
  {
    var t := Text(a);
    b := a.(name := t[..i], identifier := t[i + 1..]);
    CutStrips(a, i);
    assert Text(b) == t;
    RowsAreTails(a, b, l);
  }

  lemma CutStrips(a: Entry, i: nat)
    requires Stripped(a.name) && Stripped(a.identifier) && Cut(Text(a), i)
    ensures Stripped(Text(a)[..i]) && Stripped(Text(a)[i + 1..])
  {
    TextEndsClean(a);
    assert StartsClean(Text(a));
  }

  lemma BarsMergeRows(a: Entry, l: Layout, x: string, c: Entry) returns (b: Entry)
    requires Snapshot(a) && Structured(a, l) && a.section.None?
    requires EndsClean(x) && Stripped(c.classFolded) && a.classFolded == x + "|" + ClassKey(c)
    ensures Twins(a, b, l) && b.identifier == a.identifier + "|snap:" + x && SameClass(b, c)
  {
    b := a.(identifier := a.identifier + "|snap:" + x, section := c.section, classFolded := c.classFolded);
    SnapEndsClean(a.identifier, x);
    SnapMoves(a.name + ":", a.identifier, x, ClassKey(c));
    RowsAreTails(a, b, l);
  }

  lemma SnapEndsClean(identifier: string, x: string)
    requires Stripped(identifier) && EndsClean(x)
    ensures Stripped(identifier + "|snap:" + x)
  {
    var s := identifier + "|snap:" + x;
    assert s[0] == if identifier == "" then '|' else identifier[0];
    assert s[|s| - 1] == if x == "" then ':' else x[|x| - 1];
  }

  /** The bar before the class moves to the next one. */
  lemma SnapMoves(front: string, identifier: string, x: string, key: string)
    ensures front + (identifier + "|snap:" + x) + "|" + key == front + identifier + "|" + ("snap:" + (x + "|" + key))
  {
    assert "|snap:" == "|" + "snap:";
  }

  lemma ClassesMergeRows(a: Entry, l: Layout) returns (b: Entry)
    requires Snapshot(a) && Structured(a, l) && !l.structured
    ensures Twins(a, b, l) && !Structured(b, l) && b.identifier == a.identifier + "|" + ClassKey(a)
  {
    b := a.(identifier := a.identifier + "|" + ClassKey(a), section := None, structured := false);
    BarMoves(a.name + ":", a.identifier, ClassKey(a));
    ClassEndsClean(a);
    assert Stripped(b.identifier) by {
      assert a.identifier == "" ==> b.identifier[0] == '|';
    }
    RowsAreTails(a, b, l);
  }

  lemma ClassEndsClean(e: Entry)
    requires Stripped(e.classFolded)
    ensures ClassKey(e) != "" && EndsClean(ClassKey(e))
  {
    if e.section.Some? {
      DigitsAreDigits(e.section.value);
    }
  }

  lemma BarMoves(front: string, identifier: string, key: string)
    ensures front + (identifier + "|" + key) == front + identifier + "|" + key
  {
  }

  lemma UnknownMergesRows(a: Entry, l: Layout, x: string) returns (b: Entry)
    requires Snapshot(a) && !Structured(a, l) && l.group && EndsClean(x) && a.identifier == x + "|" + "unknown"
    ensures Twins(a, b, l) && Structured(b, l) && b.identifier == x
  {
    b := a.(identifier := x, classFolded := "", structured := true);
    FrontIsStripped(x, "|" + "unknown", a.identifier);
    BarMoves(a.name + ":", x, "unknown");
    RowsAreTails(a, b, l);
  }

  lemma FrontIsStripped(x: string, rest: string, identifier: string)
    requires EndsClean(x) && StartsClean(identifier) && identifier == x + rest
    ensures Stripped(x)
  {
    assert x != "" ==> x[0] == identifier[0];
  }

  // and only they have

  lemma OtherCutRecuts(a: Entry, b: Entry)
    requires Snapshot(b) && Text(a) == Text(b) && a.name != b.name
    ensures Recut(a)
  {
    var i := |b.name|;
    assert Cut(Text(b), i);
    assert a.name == Text(a)[..|a.name|] && b.name == Text(b)[..i];
  }

  /** A shorter text before a bar in this one, and a colon after the bar: one of the two colons is not the separator. */
  lemma ShorterTextRecuts(a: Entry, b: Entry, k: nat)
    requires Snapshot(b) && Text(b) < Text(a) && Text(a)[|Text(b)|] == '|'
    requires k > |Text(b)| && Cut(Text(a), k)
    ensures Recut(a)
  {
    var i := |b.name|;
    assert Text(a)[..|Text(b)|] == Text(b);
    assert Cut(Text(a), i);
  }

  /** In a class key, a bar stands only behind a colon that no blank touches. */
  lemma BarFollowsColon(c: Entry, k: nat)
    requires Stripped(c.classFolded) && k < |ClassKey(c)| && ClassKey(c)[k] == '|'
    ensures c.section.None? && ClassKey(c) == "snap:" + c.classFolded && 5 <= k && Cut(ClassKey(c), 4)
  {
    if c.section.Some? {
      DigitsAreDigits(c.section.value);
    }
  }

  /**
    Two readings of one text at a bar: the longer front holds the shorter one, a bar, and what the
    other end begins with.
   */
  lemma BarReadings(s: string, u: string, t: string, v: string) returns (between: string)
    requires s + "|" + u == t + "|" + v && |s| < |t|
    ensures t == s + "|" + between && u == between + "|" + v
  {
    var whole := s + "|" + u;
    between := t[|s| + 1..];
    assert whole[..|t|] == t && whole[..|s| + 1] == s + "|";
    assert whole[|s| + 1..] == u && whole[|t|..] == "|" + v;
    assert t[..|s| + 1] == s + "|";
    assert u[..|between|] == between && u[|between|..] == whole[|t|..];
  }

  lemma LongerTextShowsClass(a: Entry, b: Entry)
    requires Snapshot(a) && Snapshot(b) && |Text(a)| < |Text(b)|
    requires Text(a) + "|" + ClassKey(a) == Text(b) + "|" + ClassKey(b)
    ensures EndsInClassKey(a)
  {
    var between := BarReadings(Text(a), ClassKey(a), Text(b), ClassKey(b));
    var x := ClassEnds(a, b, between);
    TextEndsClean(b);
    assert x != "" ==> x[|x| - 1] == Text(b)[|Text(b)| - 1];
  }

  lemma ClassEnds(a: Entry, b: Entry, between: string) returns (x: string)
    requires Stripped(a.classFolded) && ClassKey(a) == between + "|" + ClassKey(b)
    ensures a.section.None? && between == "snap:" + x && a.classFolded == x + "|" + ClassKey(b)
  {
    BarFollowsColon(a, |between|);
    x := AfterFront("snap:", a.classFolded, between, "|" + ClassKey(b));
    assert x + ("|" + ClassKey(b)) == x + "|" + ClassKey(b);
  }

  lemma AfterFront(front: string, s: string, between: string, rest: string) returns (x: string)
    requires front + s == between + rest && |front| <= |between|
    ensures between == front + x && s == x + rest
  {
    var n := |front|;
    x := between[n..];
    assert (front + s)[..n] == front && (between + rest)[..n] == between[..n];
    assert (front + s)[n..] == s && (between + rest)[n..] == x + rest;
  }

  lemma ShorterTextShowsColon(a: Entry, b: Entry)
    requires Snapshot(a) && Snapshot(b) && |Text(b)| < |Text(a)|
    requires Text(a) + "|" + ClassKey(a) == Text(b) + "|" + ClassKey(b)
    ensures Recut(a)
  {
    var between := BarReadings(Text(b), ClassKey(b), Text(a), ClassKey(a));
    var x := ClassEnds(b, a, between);
    ColonBehindBar(a, b, "snap", x);
  }

  lemma ColonBehindBar(a: Entry, b: Entry, word: string, rest: string)
    requires Snapshot(b) && word != "" && EndsClean(word) && StartsClean(rest)
    requires Text(a) == Text(b) + "|" + (word + ":" + rest)
    ensures Recut(a)
  {
    var k := |Text(b)| + 1 + |word|;
    assert Text(a)[|Text(b)| + 1..] == word + ":" + rest;
    assert Cut(word + ":" + rest, |word|);
    ShorterTextRecuts(a, b, k);
  }

  /** An unstructured record that shares a row with a structured one. */
  lemma LooseTextRecuts(a: Entry, b: Entry)
    requires Snapshot(a) && Snapshot(b) && Text(a) == Text(b) + "|" + ClassKey(b)
    ensures Recut(a) || EndsInUnknown(a)
  {
    if b.section.Some? || b.classFolded != "" {
      NamedClassRecuts(a, b, ClassKey(b));
    } else {
      UnknownTextRecuts(a, b, b.(identifier := b.identifier + "|" + "unknown"));
    }
  }

  /** The key of a class that is known holds a colon that no blank touches. */
  lemma ClassHoldsColon(c: Entry) returns (k: nat)
    requires Stripped(c.classFolded) && (c.section.Some? || c.classFolded != "")
    ensures k < |ClassKey(c)| && Cut(ClassKey(c), k)
  {
    if c.section.Some? {
      DigitsAreDigits(c.section.value);
      k := 7;
    } else {
      k := 4;
    }
  }

  lemma NamedClassRecuts(a: Entry, b: Entry, key: string)
    requires Snapshot(b) && key == ClassKey(b) && Text(a) == Text(b) + "|" + key
    requires b.section.Some? || b.classFolded != ""
    ensures Recut(a)
  {
    var k := ClassHoldsColon(b);
    CutFurther(Text(b) + "|", key, k);
    ShorterTextRecuts(a, b, |Text(b)| + 1 + k);
  }

  lemma CutFurther(front: string, key: string, k: nat)
    requires front != "" && !Blank(front[|front| - 1]) && Cut(key, k)
    ensures Cut(front + key, |front| + k)
  {
    var all := front + key;
    assert all[|front|..] == key;
    assert k > 0 ==> all[|front| + k - 1] == key[k - 1];
  }

  /** `c` is `b` with the class as part of its identifier, so that both texts are the same. */
  lemma UnknownTextRecuts(a: Entry, b: Entry, c: Entry)
    requires Snapshot(b) && Text(a) == Text(b) + "|" + "unknown"
    requires c == b.(identifier := b.identifier + "|" + "unknown")
    ensures Recut(a) || EndsInUnknown(a)
  {
    BarMoves(b.name + ":", b.identifier, "unknown");
    if a.name != c.name {
      OtherCutRecuts(a, c);
    } else {
      SamePrefix(a.name + ":", a.identifier, c.identifier);
    }
  }

  lemma TwinIsShared(a: Entry, b: Entry, l: Layout)
    requires Snapshot(a) && Twins(a, b, l)
    ensures Shared(a, l)
  {
    RowsAreTails(a, b, l);
    if Structured(a, l) != Structured(b, l) {
      if Structured(b, l) {
        LooseTextRecuts(a, b);
      }
    } else if Structured(a, l) && |Text(a)| < |Text(b)| {
      LongerTextShowsClass(a, b);
    } else if Structured(a, l) && |Text(b)| < |Text(a)| {
      ShorterTextShowsColon(a, b);
    } else {
      SameTextsSameClass(a, b, l);
      if a.name != b.name {
        OtherCutRecuts(a, b);
      } else {
        SamePrefix(a.name + ":", a.identifier, b.identifier);
      }
    }
  }

  lemma SameTextsSameClass(a: Entry, b: Entry, l: Layout)
    requires Tail(a, l) == Tail(b, l) && Structured(a, l) == Structured(b, l)
    requires Structured(a, l) ==> |Text(a)| == |Text(b)|
    ensures Text(a) == Text(b) && (Structured(a, l) ==> SameClass(a, b))
  {
    if Structured(a, l) {
      var n := |Text(a)|;
      assert Tail(a, l)[..n] == Text(a) && Tail(b, l)[..n] == Text(b);
      assert Tail(a, l)[n + 1..] == ClassKey(a) && Tail(b, l)[n + 1..] == ClassKey(b);
      ClassKeysIff(a, b);
    }
  }

  /**
    In every layout, a record known only by its snapshot shares its row with a different
    snapshot, or a different class of its own, exactly if its texts and the layout allow
    the key to be read in two ways.
   */
  lemma SharedRowIff(a: Entry, l: Layout)
    requires Snapshot(a)
    ensures (exists b :: Twins(a, b, l)) <==> Shared(a, l)
  {
    if b :| Twins(a, b, l) {
      TwinIsShared(a, b, l);
    }
    if Shared(a, l) {
      var b := Twin(a, l);
    }
  }

  lemma Twin(a: Entry, l: Layout) returns (b: Entry)
    requires Snapshot(a) && Shared(a, l)
    ensures Twins(a, b, l)
  {
    if Recut(a) {
      var i: nat :| i != |a.name| && Cut(Text(a), i);
      b := ColonsMergeRows(a, l, i);
    } else if !Structured(a, l) {
      var x: string :| EndsClean(x) && a.identifier == x + "|" + "unknown";
      b := UnknownMergesRows(a, l, x);
    } else if !l.structured {
      b := ClassesMergeRows(a, l);
    } else {
      var x: string, c: Entry :|
        EndsClean(x) && Stripped(c.classFolded) && a.classFolded == x + "|" + ClassKey(c);
      b := BarsMergeRows(a, l, x, c);
    }
  }
}
