/** Which records of a day share a row: row keys are texts glued together, and this is when they can be told apart. */
module ReportKeys {
  import opened AttendanceReport

  // Texts

  /** Up to the first separator and after it: both halves can be read back when the first holds no separator. */
  lemma SplitUnique(x: string, u: string, y: string, v: string, c: char)
    requires c !in x && c !in y
    ensures x + [c] + u == y + [c] + v <==> x == y && u == v
  {
    var a, b := x + [c] + u, y + [c] + v;
    assert a[|x|] == c && b[|y|] == c;
    assert |x| < |y| ==> b[|x|] == y[|x|];
    assert |y| < |x| ==> a[|y|] == x[|y|];
    if a == b {
      assert a[..|x|] == x && b[..|y|] == y;
      assert a[|x| + 1..] == u && b[|y| + 1..] == v;
    }
  }

  lemma SamePrefix(front: string, x: string, y: string)
    ensures front + x == front + y <==> x == y
  {
    assert (front + x)[|front|..] == x && (front + y)[|front|..] == y;
  }

  lemma {:induction false} DigitsAreDigits(n: nat)
    ensures |Digits(n)| >= 1 && forall i :: 0 <= i < |Digits(n)| ==> '0' <= Digits(n)[i] <= '9'
  {
    if n >= 10 { DigitsAreDigits(n / 10); }
  }

  lemma {:induction false} DigitsAreInjective(m: nat, n: nat)
    ensures Digits(m) == Digits(n) <==> m == n
  {
    DigitsAreDigits(m / 10);
    DigitsAreDigits(n / 10);
    if Digits(m) == Digits(n) {
      if m >= 10 && n >= 10 {
        var a, b := Digits(m), Digits(n);
        assert a[..|a| - 1] == Digits(m / 10) && b[..|b| - 1] == Digits(n / 10);
        assert a[|a| - 1] == Digit(m % 10) && b[|b| - 1] == Digit(n % 10);
        DigitsAreInjective(m / 10, n / 10);
      } else if m < 10 && n < 10 {
        assert Digits(m)[0] == Digit(m) && Digits(n)[0] == Digit(n);
      }
    }
  }

  // The parts of a key

  predicate SameGroup(a: Entry, b: Entry) {
    a.group == b.group
  }

  lemma GroupKeysIff(a: Entry, b: Entry)
    ensures GroupKey(a) == GroupKey(b) <==> SameGroup(a, b)
    ensures '|' !in GroupKey(a)
  {
    if a.group.Some? { DigitsAreDigits(a.group.value); }
    if b.group.Some? { DigitsAreDigits(b.group.value); }
    if a.group.Some? && b.group.Some? { DigitsAreInjective(a.group.value, b.group.value); }
    var u := "unknown";
    assert u[0] == 'u';
  }

  /** The class a record is filed under: its section, or without one its class name. */
  predicate SameClass(a: Entry, b: Entry) {
    a.section == b.section && (a.section.None? ==> a.classFolded == b.classFolded)
  }

  lemma ClassKeysIff(a: Entry, b: Entry)
    ensures ClassKey(a) == ClassKey(b) <==> SameClass(a, b)
  {
    var section, snap, unknown := "section:", "snap:", "unknown";
    assert section[1] == 'e' && snap[1] == 'n' && unknown[0] == 'u' && section[0] == snap[0] == 's';
    if a.section.Some? && b.section.Some? {
      SamePrefix(section, Digits(a.section.value), Digits(b.section.value));
      DigitsAreInjective(a.section.value, b.section.value);
    } else if a.section.None? && b.section.None? && a.classFolded != "" && b.classFolded != "" {
      SamePrefix(snap, a.classFolded, b.classFolded);
    } else {
      assert a.section.Some? ==> ClassKey(a)[0] == 's' && ClassKey(a)[1] == 'e';
      assert b.section.Some? ==> ClassKey(b)[0] == 's' && ClassKey(b)[1] == 'e';
      assert a.section.None? && a.classFolded != "" ==> ClassKey(a)[0] == 's' && ClassKey(a)[1] == 'n';
      assert b.section.None? && b.classFolded != "" ==> ClassKey(b)[0] == 's' && ClassKey(b)[1] == 'n';
    }
  }

  /** A group column only adds the group. */
  lemma GroupedRowsIff(a: Entry, b: Entry, l: Layout)
    ensures RowKey(a, l) == RowKey(b, l) <==> BodyKey(a, l) == BodyKey(b, l) && (l.group ==> SameGroup(a, b))
  {
    if l.group {
      var u, v := BodyKey(a, l), BodyKey(b, l);
      GroupKeysIff(a, b);
      GroupKeysIff(b, a);
      SplitUnique(GroupKey(a), u, GroupKey(b), v, '|');
      SamePrefix("group:", GroupKey(a) + "|" + u, GroupKey(b) + "|" + v);
      assert RowKey(a, l) == "group:" + (GroupKey(a) + "|" + u);
      assert RowKey(b, l) == "group:" + (GroupKey(b) + "|" + v);
    }
  }

  /** Group and class columns take a key apart, as long as the participant's part holds no separator. */
  lemma RowKeysIff(a: Entry, b: Entry, l: Layout)
    requires Structured(a, l) || Structured(b, l) ==> '|' !in ParticipantKey(a) && '|' !in ParticipantKey(b)
    ensures RowKey(a, l) == RowKey(b, l) <==>
              && ParticipantKey(a) == ParticipantKey(b) && (l.group ==> SameGroup(a, b))
              && Structured(a, l) == Structured(b, l) && (Structured(a, l) ==> SameClass(a, b))
  {
    BodyKeysIff(a, b, l);
    GroupedRowsIff(a, b, l);
  }

  lemma BodyKeysIff(a: Entry, b: Entry, l: Layout)
    requires Structured(a, l) || Structured(b, l) ==> '|' !in ParticipantKey(a) && '|' !in ParticipantKey(b)
    ensures BodyKey(a, l) == BodyKey(b, l) <==>
              && ParticipantKey(a) == ParticipantKey(b)
              && Structured(a, l) == Structured(b, l) && (Structured(a, l) ==> SameClass(a, b))
  {
    var p, q := ParticipantKey(a), ParticipantKey(b);
    if Structured(a, l) && Structured(b, l) {
      SplitUnique(p, ClassKey(a), q, ClassKey(b), '|');
      ClassKeysIff(a, b);
    } else if Structured(a, l) {
      assert BodyKey(a, l)[|p|] == '|';
    } else if Structured(b, l) {
      assert BodyKey(b, l)[|q|] == '|';
    }
  }

  // Participants

  /** The record names a member or a group-only participant. */
  predicate Known(e: Entry) {
    e.member.Some? || e.visitor.Some?
  }

  predicate SameParticipant(a: Entry, b: Entry) {
    a.member == b.member && (a.member.None? ==> a.visitor == b.visitor)
  }

  lemma KnownKeysIff(a: Entry, b: Entry)
    requires Known(a)
    ensures ParticipantKey(a) == ParticipantKey(b) <==> SameParticipant(a, b)
    ensures '|' !in ParticipantKey(a)
  {
    var member, visitor, snapshot := "member:", "group_only:", "snapshot:";
    assert member[0] == 'm' && visitor[0] == 'g' && snapshot[0] == 's';
    assert a.member.None? ==> ParticipantKey(a)[0] == 'g';
    assert b.member.Some? ==> ParticipantKey(b)[0] == 'm';
    assert b.member.None? && b.visitor.Some? ==> ParticipantKey(b)[0] == 'g';
    assert !Known(b) ==> ParticipantKey(b)[0] == 's';
    if a.member.Some? {
      DigitsAreDigits(a.member.value);
      if b.member.Some? {
        SamePrefix(member, Digits(a.member.value), Digits(b.member.value));
        DigitsAreInjective(a.member.value, b.member.value);
      }
    } else {
      DigitsAreDigits(a.visitor.value);
      if b.member.None? && b.visitor.Some? {
        SamePrefix(visitor, Digits(a.visitor.value), Digits(b.visitor.value));
        DigitsAreInjective(a.visitor.value, b.visitor.value);
      }
    }
  }

  /**
    In every layout, members and group-only participants have rows of their own: two
    records share one exactly if participant, and where shown group and class, are the same.
   */
  lemma KnownRowsAreTheirOwn(a: Entry, b: Entry, l: Layout)
    requires Known(a) && Known(b)
    ensures RowKey(a, l) == RowKey(b, l) <==>
              && SameParticipant(a, b) && (l.group ==> SameGroup(a, b))
              && Structured(a, l) == Structured(b, l) && (Structured(a, l) ==> SameClass(a, b))
  {
    KnownKeysIff(a, b);
    KnownKeysIff(b, a);
    RowKeysIff(a, b, l);
  }

  /** No record known only by its snapshot shares a row with a member or group-only participant. */
  lemma SnapshotsStayApart(a: Entry, b: Entry, l: Layout)
    requires Known(a) && !Known(b)
    ensures RowKey(a, l) != RowKey(b, l)
  {
    KnownKeysIff(a, b);
    assert BodyKey(a, l)[0] != BodyKey(b, l)[0] by {
      var member, visitor, snapshot := "member:", "group_only:", "snapshot:";
      assert member[0] == 'm' && visitor[0] == 'g' && snapshot[0] == 's';
      assert ParticipantKey(b)[0] == 's' && ParticipantKey(a)[0] != 's';
    }
    GroupedRowsIff(a, b, l);
  }

  /** Kind and name can be read back from the key. */
  predicate Readable(e: Entry) {
    ':' !in e.kind && ':' !in e.name
  }

  predicate SameSnapshot(a: Entry, b: Entry) {
    a.kind == b.kind && a.name == b.name && a.identifier == b.identifier
  }

  lemma SnapshotKeysIff(a: Entry, b: Entry)
    requires !Known(a) && !Known(b) && Readable(a) && Readable(b)
    ensures ParticipantKey(a) == ParticipantKey(b) <==> SameSnapshot(a, b)
  {
    var u, v := a.name + ":" + a.identifier, b.name + ":" + b.identifier;
    SplitUnique(a.kind, u, b.kind, v, ':');
    SplitUnique(a.name, a.identifier, b.name, b.identifier, ':');
    SamePrefix("snapshot:", a.kind + ":" + u, b.kind + ":" + v);
    assert ParticipantKey(a) == "snapshot:" + (a.kind + ":" + u);
    assert ParticipantKey(b) == "snapshot:" + (b.kind + ":" + v);
  }

  /**
    Records known only by their snapshot share a row exactly if the snapshots are equal,
    as long as no kind or name holds a colon, nor, where classes are shown, the key a bar.
   */
  lemma SnapshotRowsIff(a: Entry, b: Entry, l: Layout)
    requires !Known(a) && !Known(b) && Readable(a) && Readable(b)
    requires Structured(a, l) || Structured(b, l) ==> '|' !in ParticipantKey(a) && '|' !in ParticipantKey(b)
    ensures RowKey(a, l) == RowKey(b, l) <==>
              && SameSnapshot(a, b) && (l.group ==> SameGroup(a, b))
              && Structured(a, l) == Structured(b, l) && (Structured(a, l) ==> SameClass(a, b))
  {
    SnapshotKeysIff(a, b);
    RowKeysIff(a, b, l);
  }
}
