/** The ordered set of base URLs a repository descriptor keeps (a
    `std::set<Url>`), as a strictly increasing sequence of URL texts.
    Iterating the set visits the URLs in this order, which is the order the
    `.repo` dump writes them in. */
module RepoUrls {

  type Url = string

  /** Lexicographic order of URL texts, character by character. */
  predicate Less(a: Url, b: Url)
    decreases |a|
  {
    b != [] && (a == [] || if a[0] == b[0] then Less(a[1..], b[1..]) else a[0] < b[0])
  }

  lemma {:induction false} LessIrreflexive(a: Url)
    ensures !Less(a, a)
  {
    if a != [] { LessIrreflexive(a[1..]); }
  }

  lemma {:induction false} LessTransitive(a: Url, b: Url, c: Url)
    requires Less(a, b) && Less(b, c)
    ensures Less(a, c)
    decreases |a|
  {
    if a != [] && a[0] == b[0] && b[0] == c[0] {
      LessTransitive(a[1..], b[1..], c[1..]);
    }
  }

  lemma {:induction false} LessTotal(a: Url, b: Url)
    requires a != b
    ensures Less(a, b) || Less(b, a)
    decreases |a|
  {
    if a != [] && b != [] && a[0] == b[0] {
      assert a == [a[0]] + a[1..] && b == [b[0]] + b[1..];
      LessTotal(a[1..], b[1..]);
    }
  }

  lemma LessAsymmetric(a: Url, b: Url)
    requires Less(a, b)
    ensures !Less(b, a)
  {
    if Less(b, a) {
      LessTransitive(a, b, a);
      LessIrreflexive(a);
    }
  }

  /** Strictly increasing: the sequence is a set listed in its order. */
  ghost predicate Sorted(s: seq<Url>) {
    forall i, j :: 0 <= i < j < |s| ==> Less(s[i], s[j])
  }

  /** A set has one listing: two ordered sequences with the same URLs are equal. */
  lemma {:induction false} SortedUnique(a: seq<Url>, b: seq<Url>)
    requires Sorted(a) && Sorted(b)
    requires forall u :: u in a <==> u in b
    ensures a == b
  {
    assert b != [] ==> b[0] in a;
    if a != [] {
      assert a[0] in a && b != [] && b[0] in b;
      if a[0] != b[0] {
        var i :| 0 <= i < |b| && b[i] == a[0];
        var j :| 0 <= j < |a| && a[j] == b[0];
        LessAsymmetric(b[0], a[0]);
      }
      assert a == [a[0]] + a[1..] && b == [b[0]] + b[1..];
      forall u ensures u in a[1..] <==> u in b[1..] {
        if u in a[1..] {
          var k :| 0 <= k < |a[1..]| && a[1..][k] == u;
          assert Less(a[0], a[k + 1]);
          LessIrreflexive(u);
          assert u in b && u != b[0];
        }
        if u in b[1..] {
          var k :| 0 <= k < |b[1..]| && b[1..][k] == u;
          assert Less(b[0], b[k + 1]);
          LessIrreflexive(u);
          assert u in a && u != a[0];
        }
      }
      SortedUnique(a[1..], b[1..]);
      assert a == [a[0]] + a[1..] && b == [b[0]] + b[1..];
    }
  }

  /** `std::set::insert`: an URL already present leaves the set as it is. */
  function Insert(s: seq<Url>, u: Url): seq<Url> {
    if s == [] then [u]
    else if u == s[0] then s
    else if Less(u, s[0]) then [u] + s
    else [s[0]] + Insert(s[1..], u)
  }

  /** Range insert: every URL of `us` in turn. */
  function InsertAll(s: seq<Url>, us: seq<Url>): seq<Url>
    decreases |us|
  {
    if us == [] then s else InsertAll(Insert(s, us[0]), us[1..])
  }

  lemma {:induction false} InsertElements(s: seq<Url>, u: Url)
    ensures forall x :: x in Insert(s, u) <==> x in s || x == u
  {
    if s != [] && u != s[0] && !Less(u, s[0]) {
      InsertElements(s[1..], u);
      assert s == [s[0]] + s[1..];
    }
  }

  lemma {:induction false} InsertSorted(s: seq<Url>, u: Url)
    requires Sorted(s)
    ensures Sorted(Insert(s, u))
  {
    if s == [] {
    } else if u == s[0] {
    } else if Less(u, s[0]) {
      var r := [u] + s;
      forall i, j | 0 <= i < j < |r| ensures Less(r[i], r[j]) {
        if i == 0 && j > 1 { LessTransitive(u, s[0], s[j - 1]); }
      }
    } else {
      LessTotal(u, s[0]);
      var rest := Insert(s[1..], u);
      InsertSorted(s[1..], u);
      InsertElements(s[1..], u);
      var r := [s[0]] + rest;
      forall i, j | 0 <= i < j < |r| ensures Less(r[i], r[j]) {
        if i == 0 {
          assert r[j] in rest;
          if r[j] != u {
            var k :| 0 <= k < |s[1..]| && s[1..][k] == r[j];
            assert s[k + 1] == r[j];
          }
        }
      }
    }
  }

  /** Inserting a present URL changes nothing; inserting a new one adds exactly one. */
  lemma {:induction false} InsertSize(s: seq<Url>, u: Url)
    requires Sorted(s)
    ensures u in s ==> Insert(s, u) == s
    ensures u !in s ==> |Insert(s, u)| == |s| + 1
  {
    if s != [] && u != s[0] {
      assert s == [s[0]] + s[1..];
      if Less(u, s[0]) {
        assert Insert(s, u) == [u] + s;
        if u in s {
          var k :| 0 <= k < |s| && s[k] == u;
          LessAsymmetric(s[0], u);
        }
      } else {
        assert Insert(s, u) == [s[0]] + Insert(s[1..], u);
        InsertSize(s[1..], u);
        assert u in s <==> u in s[1..];
      }
    }
  }

  /** Inserting an URL above every present one appends it: copying a set in
      its own order rebuilds it unchanged. */
  lemma {:induction false} InsertGreatest(s: seq<Url>, u: Url)
    requires Sorted(s)
    requires forall j :: 0 <= j < |s| ==> Less(s[j], u)
    ensures Insert(s, u) == s + [u]
  {
    if s != [] {
      LessIrreflexive(u);
      LessAsymmetric(s[0], u);
      InsertGreatest(s[1..], u);
      assert s == [s[0]] + s[1..];
    }
  }

  lemma {:induction false} InsertAllSorted(s: seq<Url>, us: seq<Url>)
    requires Sorted(s)
    ensures Sorted(InsertAll(s, us))
    ensures forall x :: x in InsertAll(s, us) <==> x in s || x in us
    decreases |us|
  {
    if us != [] {
      InsertSorted(s, us[0]);
      InsertElements(s, us[0]);
      InsertAllSorted(Insert(s, us[0]), us[1..]);
      assert us == [us[0]] + us[1..];
    }
  }
}
