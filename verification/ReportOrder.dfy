/** The order in which the rows of a day are shown: by group, class and name as displayed, and last by row key. */
module ReportOrder {

  /** Texts compare by their characters; a front of a text comes before it. */
  predicate TextBefore(s: string, t: string) {
    t != "" && (s == "" || s[0] < t[0] || (s[0] == t[0] && TextBefore(s[1..], t[1..])))
  }

  lemma {:induction false} TextsCompare(s: string, t: string)
    ensures TextBefore(s, t) || s == t || TextBefore(t, s)
    ensures !(TextBefore(s, t) && TextBefore(t, s)) && !TextBefore(s, s)
  {
    if s != "" && t != "" && s[0] == t[0] {
      TextsCompare(s[1..], t[1..]);
      assert s == [s[0]] + s[1..] && t == [t[0]] + t[1..];
    }
    if s != "" { TextsCompare(s[1..], s[1..]); }
  }

  lemma {:induction false} TextBeforeIsTransitive(s: string, t: string, u: string)
    requires TextBefore(s, t) && TextBefore(t, u)
    ensures TextBefore(s, u)
  {
    if s != "" && s[0] == t[0] == u[0] {
      TextBeforeIsTransitive(s[1..], t[1..], u[1..]);
    }
  }

  /** Equal up to some place, where the first text ends or has the smaller character. */
  predicate Alphabetical(s: string, t: string) {
    exists k :: 0 <= k <= |s| && k < |t| && s[..k] == t[..k] && (k == |s| || s[k] < t[k])
  }

  lemma {:induction false} TextBeforeIsAlphabetical(s: string, t: string)
    requires TextBefore(s, t)
    ensures Alphabetical(s, t)
  {
    if s != "" && s[0] == t[0] {
      var u, v := s[1..], t[1..];
      TextBeforeIsAlphabetical(u, v);
      var k :| 0 <= k <= |u| && k < |v| && u[..k] == v[..k] && (k == |u| || u[k] < v[k]);
      assert s[..k + 1] == [s[0]] + u[..k] && t[..k + 1] == [t[0]] + v[..k];
      assert k + 1 == |s| || s[k + 1] < t[k + 1];
    } else {
      assert s[..0] == t[..0];
    }
  }

  /** What a row is sorted by; group and class are blank where the report does not show them. */
  datatype Rank = Rank(group: string, klass: string, name: string, key: string)

  predicate RankBefore(a: Rank, b: Rank) {
    || TextBefore(a.group, b.group)
    || (a.group == b.group && TextBefore(a.klass, b.klass))
    || (a.group == b.group && a.klass == b.klass && TextBefore(a.name, b.name))
    || (a.group == b.group && a.klass == b.klass && a.name == b.name && TextBefore(a.key, b.key))
  }

  lemma RanksCompare(a: Rank, b: Rank)
    ensures RankBefore(a, b) || a == b || RankBefore(b, a)
    ensures !(RankBefore(a, b) && RankBefore(b, a)) && !RankBefore(a, a)
  {
    TextsCompare(a.group, b.group);
    TextsCompare(a.klass, b.klass);
    TextsCompare(a.name, b.name);
    TextsCompare(a.key, b.key);
    TextsCompare(a.group, a.group);
    TextsCompare(a.klass, a.klass);
    TextsCompare(a.name, a.name);
    TextsCompare(a.key, a.key);
  }

  lemma RankBeforeIsTransitive(a: Rank, b: Rank, c: Rank)
    requires RankBefore(a, b) && RankBefore(b, c)
    ensures RankBefore(a, c)
  {
    if TextBefore(a.group, b.group) && TextBefore(b.group, c.group) {
      TextBeforeIsTransitive(a.group, b.group, c.group);
    } else if TextBefore(a.klass, b.klass) && TextBefore(b.klass, c.klass) {
      TextBeforeIsTransitive(a.klass, b.klass, c.klass);
    } else if TextBefore(a.name, b.name) && TextBefore(b.name, c.name) {
      TextBeforeIsTransitive(a.name, b.name, c.name);
    } else if TextBefore(a.key, b.key) && TextBefore(b.key, c.key) {
      TextBeforeIsTransitive(a.key, b.key, c.key);
    }
  }

  ghost predicate Ascending(s: seq<Rank>) {
    forall i, j :: 0 <= i < j < |s| ==> RankBefore(s[i], s[j])
  }

  /** Ranks in order are determined by which ranks there are. */
  lemma {:induction false} AscendingIsUnique(s: seq<Rank>, t: seq<Rank>)
    requires Ascending(s) && Ascending(t) && forall r :: r in s <==> r in t
    ensures s == t
  {
    if s == [] {
      assert forall i :: 0 <= i < |t| ==> t[i] in t;
    } else {
      assert s[0] in s && s[0] in t;
      assert t != [] && t[0] in t && t[0] in s;
      SmallestComesFirst(s, t[0]);
      SmallestComesFirst(t, s[0]);
      RanksCompare(s[0], t[0]);
      TailMembers(s);
      TailMembers(t);
      AscendingIsUnique(s[1..], t[1..]);
      assert s == [s[0]] + s[1..] && t == [t[0]] + t[1..];
    }
  }

  lemma SmallestComesFirst(s: seq<Rank>, r: Rank)
    requires Ascending(s) && r in s
    ensures r == s[0] || RankBefore(s[0], r)
  {
    var i :| 0 <= i < |s| && s[i] == r;
  }

  lemma TailMembers(s: seq<Rank>)
    requires Ascending(s) && s != []
    ensures Ascending(s[1..]) && forall r :: r in s[1..] <==> r in s && r != s[0]
  {
    forall r
      ensures r in s[1..] <==> r in s && r != s[0]
    {
      if r in s[1..] {
        var i :| 0 <= i < |s[1..]| && s[1..][i] == r;
        assert s[i + 1] == r;
        RanksCompare(s[0], r);
      }
      assert s == [s[0]] + s[1..];
    }
  }
}
