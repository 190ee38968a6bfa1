/** Publication dates: discovering them in the index page, ordering them as
    JavaScript compares strings, and choosing the ones a department still
    has to process (index.js lines 133, 148-150 and 187). */
module PublicationDates {
  import opened Common

  // ---------------------------------------------------------------------------
  // The token `[0-9]{4}-[0-9]{2}-[0-9]{2}`
  // ---------------------------------------------------------------------------

  predicate IsDigit(c: char)
  {
    '0' <= c <= '9'
  }

  /** A string the date pattern matches in full: ten characters, digits except
      for a '-' at positions 4 and 7. */
  predicate IsDateToken(t: string)
  {
    && |t| == 10
    && t[4] == '-' && t[7] == '-'
    && forall k | 0 <= k < 10 && k != 4 && k != 7 :: IsDigit(t[k])
  }

  /** The date pattern matches the text at position p. */
  predicate DateAt(s: string, p: nat)
  {
    p + 10 <= |s| && IsDateToken(s[p..p + 10])
  }

  /** t occurs in s starting at position p. */
  predicate OccursAt(s: string, p: nat, t: string)
  {
    p + |t| <= |s| && s[p..p + |t|] == t
  }

  /** The matches of the global regular expression, as `matchAll` yields them:
      the search resumes at position i, takes the leftmost match, and goes on
      right after it, so matches never overlap. */
  function Scan(s: string, i: nat): seq<string>
    requires i <= |s|
    decreases |s| - i
  {
    if |s| - i < 10 then []
    else if DateAt(s, i) then [s[i..i + 10]] + Scan(s, i + 10)
    else Scan(s, i + 1)
  }

  /** Every match is a date token that occurs in the text at or after i. */
  lemma {:induction false} ScanSound(s: string, i: nat)
    requires i <= |s|
    ensures forall t | t in Scan(s, i) :: IsDateToken(t) && exists p: nat :: i <= p && OccursAt(s, p, t)
    decreases |s| - i
  {
    if |s| - i < 10 {
    } else if DateAt(s, i) {
      ScanSound(s, i + 10);
      assert OccursAt(s, i, s[i..i + 10]);
    } else {
      ScanSound(s, i + 1);
    }
  }

  /** Where the matches of Scan(s, i) start. */
  function MatchPositions(s: string, i: nat): seq<nat>
    requires i <= |s|
    decreases |s| - i
  {
    if |s| - i < 10 then []
    else if DateAt(s, i) then [i] + MatchPositions(s, i + 10)
    else MatchPositions(s, i + 1)
  }

  /** There are as many matches as match positions. */
  lemma {:induction false} ScanLength(s: string, i: nat)
    requires i <= |s|
    ensures |Scan(s, i)| == |MatchPositions(s, i)|
    decreases |s| - i
  {
    if |s| - i >= 10 {
      if DateAt(s, i) {
        ScanLength(s, i + 10);
      } else {
        ScanLength(s, i + 1);
      }
    }
  }

  /** The k-th match is the token at the k-th match position, which is at
      or after i and carries a token. */
  lemma {:induction false} ScanAt(s: string, i: nat, k: nat)
    requires i <= |s| && k < |MatchPositions(s, i)|
    ensures k < |Scan(s, i)|
    ensures i <= MatchPositions(s, i)[k] && DateAt(s, MatchPositions(s, i)[k])
    ensures Scan(s, i)[k] == s[MatchPositions(s, i)[k]..MatchPositions(s, i)[k] + 10]
    decreases |s| - i
  {
    ScanLength(s, i);
    if DateAt(s, i) {
      assert MatchPositions(s, i) == [i] + MatchPositions(s, i + 10);
      assert Scan(s, i) == [s[i..i + 10]] + Scan(s, i + 10);
      if k > 0 {
        ScanAt(s, i + 10, k - 1);
      }
    } else {
      assert MatchPositions(s, i) == MatchPositions(s, i + 1);
      assert Scan(s, i) == Scan(s, i + 1);
      ScanAt(s, i + 1, k);
    }
  }

  /** The k-th match is the token at the k-th match position, and every
      position is at or after i and carries a token. */
  lemma {:induction false} ScanAtPositions(s: string, i: nat)
    requires i <= |s|
    ensures |Scan(s, i)| == |MatchPositions(s, i)|
    ensures forall k | 0 <= k < |MatchPositions(s, i)| ::
              && i <= MatchPositions(s, i)[k] && DateAt(s, MatchPositions(s, i)[k])
              && Scan(s, i)[k] == s[MatchPositions(s, i)[k]..MatchPositions(s, i)[k] + 10]
  {
    ScanLength(s, i);
    forall k | 0 <= k < |MatchPositions(s, i)|
      ensures && i <= MatchPositions(s, i)[k] && DateAt(s, MatchPositions(s, i)[k])
              && Scan(s, i)[k] == s[MatchPositions(s, i)[k]..MatchPositions(s, i)[k] + 10]
    {
      ScanAt(s, i, k);
    }
  }

  /** The match positions are at or after i, and any later one starts at
      least ten characters after an earlier one: matches never overlap. */
  lemma {:induction false} MatchesApart(s: string, i: nat)
    requires i <= |s|
    ensures forall k | 0 <= k < |MatchPositions(s, i)| :: i <= MatchPositions(s, i)[k]
    ensures forall j, k | 0 <= j < k < |MatchPositions(s, i)| :: MatchPositions(s, i)[j] + 10 <= MatchPositions(s, i)[k]
    decreases |s| - i
  {
    if |s| - i >= 10 {
      if DateAt(s, i) {
        MatchesApart(s, i + 10);
        var m, m' := MatchPositions(s, i), MatchPositions(s, i + 10);
        assert m == [i] + m';
        forall j, k | 0 <= j < k < |m| ensures m[j] + 10 <= m[k] {
          assert m[k] == m'[k - 1];
          if j > 0 { assert m[j] == m'[j - 1]; }
        }
      } else {
        MatchesApart(s, i + 1);
      }
    }
  }

  /** A token at p is matched, at position p, unless a match starting
      before p overlaps it. */
  lemma {:induction false} ScanComplete(s: string, i: nat, p: nat)
    requires i <= p && DateAt(s, p)
    requires forall q | q in MatchPositions(s, i) && q < p :: q + 10 <= p
    ensures p in MatchPositions(s, i)
    ensures s[p..p + 10] in Scan(s, i)
    decreases p - i
  {
    if i == p {
    } else if DateAt(s, i) {
      assert MatchPositions(s, i) == [i] + MatchPositions(s, i + 10);
      assert i in MatchPositions(s, i);
      assert i + 10 <= p;
      var m, m' := MatchPositions(s, i), MatchPositions(s, i + 10);
      forall k | 0 <= k < |m'| && m'[k] < p ensures m'[k] + 10 <= p {
        assert m'[k] == m[k + 1] && m[k + 1] in m;
      }
      ScanComplete(s, i + 10, p);
    } else {
      assert MatchPositions(s, i) == MatchPositions(s, i + 1);
      ScanComplete(s, i + 1, p);
    }
  }

  /** The match positions are exactly the token positions, at or after i,
      that no earlier match overlaps. */
  lemma MatchPositionsExact(s: string, i: nat, p: nat)
    requires i <= |s|
    ensures (p in MatchPositions(s, i))
            == (i <= p && DateAt(s, p) && forall q | q in MatchPositions(s, i) && q < p :: q + 10 <= p)
  {
    var m := MatchPositions(s, i);
    if p in m {
      ScanAtPositions(s, i);
      MatchesApart(s, i);
      var k :| 0 <= k < |m| && m[k] == p;
      forall q | q in m && q < p ensures q + 10 <= p {
        var j :| 0 <= j < |m| && m[j] == q;
      }
    } else if i <= p && DateAt(s, p) && forall q | q in m && q < p :: q + 10 <= p {
      ScanComplete(s, i, p);
    }
  }

  // ---------------------------------------------------------------------------
  // String order: JavaScript's `<`, `>` and default sort compare strings
  // character by character, a proper prefix coming first.
  // ---------------------------------------------------------------------------

  predicate Lt(a: string, b: string)
    decreases |a|
  {
    if |a| == 0 then |b| > 0
    else if |b| == 0 then false
    else a[0] < b[0] || (a[0] == b[0] && Lt(a[1..], b[1..]))
  }

  lemma {:induction false} LtIrreflexive(a: string)
    ensures !Lt(a, a)
    decreases |a|
  {
    if |a| > 0 {
      LtIrreflexive(a[1..]);
    }
  }

  lemma {:induction false} LtTransitive(a: string, b: string, c: string)
    requires Lt(a, b) && Lt(b, c)
    ensures Lt(a, c)
    decreases |a|
  {
    if |a| > 0 && a[0] == b[0] && b[0] == c[0] {
      LtTransitive(a[1..], b[1..], c[1..]);
    }
  }

  lemma {:induction false} LtTotal(a: string, b: string)
    requires a != b
    ensures Lt(a, b) || Lt(b, a)
    decreases |a|
  {
    if |a| > 0 && |b| > 0 && a[0] == b[0] {
      assert a == [a[0]] + a[1..] && b == [b[0]] + b[1..];
      LtTotal(a[1..], b[1..]);
    }
  }

  lemma LtAsymmetric(a: string, b: string)
    requires Lt(a, b)
    ensures !Lt(b, a)
  {
    if Lt(b, a) {
      LtTransitive(a, b, a);
      LtIrreflexive(a);
    }
  }

  /** Strictly increasing: sorted ascending with no duplicate. */
  predicate StrictlySorted(s: seq<string>)
  {
    forall i, j | 0 <= i < j < |s| :: Lt(s[i], s[j])
  }

  // ---------------------------------------------------------------------------
  // `[...new Set(matches)].sort()`
  // ---------------------------------------------------------------------------

  /** Adds x to an already strictly sorted list, keeping it strictly sorted. */
  function Insert(x: string, r: seq<string>): (r': seq<string>)
    requires StrictlySorted(r)
    ensures StrictlySorted(r')
    ensures forall y :: y in r' <==> y == x || y in r
    decreases |r|
  {
    if r == [] then [x]
    else if x == r[0] then r
    else if Lt(x, r[0]) then
      assert forall j | 0 < j < |r| :: Lt(x, r[j]) by {
        forall j | 0 < j < |r| ensures Lt(x, r[j]) { LtTransitive(x, r[0], r[j]); }
      }
      [x] + r
    else
      LtTotal(x, r[0]);
      var t := Insert(x, r[1..]);
      assert forall y | y in t :: Lt(r[0], y) by {
        forall y | y in t ensures Lt(r[0], y) {
          if y != x {
            var k :| 0 <= k < |r[1..]| && r[1..][k] == y;
            assert r[k + 1] == y;
          }
        }
      }
      var s := [r[0]] + t;
      assert forall i, j | 0 <= i < j < |s| :: Lt(s[i], s[j]) by {
        forall i, j | 0 <= i < j < |s| ensures Lt(s[i], s[j]) {
          assert s[j] == t[j - 1] && s[j] in t;
          if i > 0 { assert s[i] == t[i - 1]; }
        }
      }
      s
  }

  /** The distinct elements of xs in ascending order. */
  function SortUnique(xs: seq<string>): (r: seq<string>)
    ensures StrictlySorted(r)
    ensures forall y :: y in r <==> y in xs
  {
    if xs == [] then [] else Insert(xs[0], SortUnique(xs[1..]))
  }

  lemma SameElementsBothEmpty(a: seq<string>, b: seq<string>)
    requires forall y :: y in a <==> y in b
    ensures a == [] <==> b == []
  {
    if a != [] { assert a[0] in a; }
    if b != [] { assert b[0] in b; }
  }

  /** A strictly sorted list is determined by its elements, so SortUnique
      returns exactly what deduplicating and sorting in any other way does. */
  lemma {:induction false} StrictlySortedUnique(a: seq<string>, b: seq<string>)
    requires StrictlySorted(a) && StrictlySorted(b)
    requires forall y :: y in a <==> y in b
    ensures a == b
    decreases |a|
  {
    SameElementsBothEmpty(a, b);
    if a != [] {
      assert a[0] in a && b[0] in b;
      if a[0] != b[0] {
        var i :| 0 <= i < |b| && b[i] == a[0];
        var j :| 0 <= j < |a| && a[j] == b[0];
        assert Lt(b[0], a[0]) by { LtIrreflexive(a[0]); }
        assert Lt(a[0], b[0]) by { LtIrreflexive(b[0]); }
        LtAsymmetric(a[0], b[0]);
        assert false;
      }
      forall y ensures y in a[1..] <==> y in b[1..] {
        if y in a[1..] {
          var k :| 0 <= k < |a[1..]| && a[1..][k] == y;
          assert a[k + 1] == y && y in a;
          var i :| 0 <= i < |b| && b[i] == y;
          if i == 0 { LtIrreflexive(y); assert false; }
          assert b[1..][i - 1] == y;
        }
        if y in b[1..] {
          var k :| 0 <= k < |b[1..]| && b[1..][k] == y;
          assert b[k + 1] == y && y in b;
          var i :| 0 <= i < |a| && a[i] == y;
          if i == 0 { LtIrreflexive(y); assert false; }
          assert a[1..][i - 1] == y;
        }
      }
      StrictlySortedUnique(a[1..], b[1..]);
    }
  }

  /** The publication dates announced by the index page: the distinct date
      tokens found by the scan, in ascending order. */
  function DiscoverDates(html: string): (dates: seq<string>)
    ensures StrictlySorted(dates)
    ensures forall d | d in dates :: IsDateToken(d) && exists p: nat :: OccursAt(html, p, d)
    ensures forall d :: d in dates <==> d in Scan(html, 0)
  {
    ScanSound(html, 0);
    SortUnique(Scan(html, 0))
  }

  /** Every token of the page that no earlier match overlaps is discovered. */
  lemma DiscoverComplete(html: string, p: nat)
    requires DateAt(html, p)
    requires forall q | q in MatchPositions(html, 0) && q < p :: q + 10 <= p
    ensures html[p..p + 10] in DiscoverDates(html)
  {
    ScanComplete(html, 0, p);
  }

  /** A page without any token announces no date. */
  lemma {:induction false} NoTokenNoDate(html: string, i: nat)
    requires i <= |html|
    requires forall q | i <= q :: !DateAt(html, q)
    ensures Scan(html, i) == []
    decreases |html| - i
  {
    if |html| - i >= 10 {
      NoTokenNoDate(html, i + 1);
    }
  }

  // ---------------------------------------------------------------------------
  // Resume filter: `lastProcessedDate ? dates.filter(d => d > lastProcessedDate) : dates`
  // ---------------------------------------------------------------------------

  /** The dates strictly after d0, in their original order. */
  function After(dates: seq<string>, d0: string): seq<string>
  {
    if dates == [] then []
    else (if Lt(d0, dates[0]) then [dates[0]] else []) + After(dates[1..], d0)
  }

  /** The dates a department still has to process, given its stored date. */
  function PendingDates(dates: seq<string>, stored: Option<string>): seq<string>
  {
    if Truthy(stored) then After(dates, stored.value) else dates
  }

  lemma {:induction false} AfterMembers(dates: seq<string>, d0: string)
    ensures forall d :: d in After(dates, d0) <==> d in dates && Lt(d0, d)
    decreases |dates|
  {
    if dates != [] {
      AfterMembers(dates[1..], d0);
      assert dates == [dates[0]] + dates[1..];
    }
  }

  /** On an ascending list nothing is dropped once one date is kept. */
  lemma {:induction false} AfterKeepsTail(dates: seq<string>, d0: string)
    requires StrictlySorted(dates)
    requires dates != [] && Lt(d0, dates[0])
    ensures After(dates, d0) == dates
    decreases |dates|
  {
    if |dates| > 1 {
      LtTransitive(d0, dates[0], dates[1]);
      AfterKeepsTail(dates[1..], d0);
    }
  }

  /** How many leading dates are at or before d0. */
  function Dropped(dates: seq<string>, d0: string): (n: nat)
    ensures n <= |dates|
  {
    if dates == [] || Lt(d0, dates[0]) then 0 else 1 + Dropped(dates[1..], d0)
  }

  lemma SortedTail(dates: seq<string>)
    requires StrictlySorted(dates) && dates != []
    ensures StrictlySorted(dates[1..])
  {
    var rest := dates[1..];
    forall i, j | 0 <= i < j < |rest| ensures Lt(rest[i], rest[j]) {
      assert rest[i] == dates[i + 1] && rest[j] == dates[j + 1];
    }
  }

  /** On an ascending list the filter keeps a suffix: every dropped date is at
      or before d0 and every kept one is after it. */
  lemma {:induction false} AfterIsSuffix(dates: seq<string>, d0: string)
    requires StrictlySorted(dates)
    ensures After(dates, d0) == dates[Dropped(dates, d0)..]
    ensures forall j | 0 <= j < Dropped(dates, d0) :: !Lt(d0, dates[j])
    decreases |dates|
  {
    if dates == [] {
    } else if Lt(d0, dates[0]) {
      AfterKeepsTail(dates, d0);
    } else {
      var rest := dates[1..];
      SortedTail(dates);
      AfterIsSuffix(rest, d0);
      var k := Dropped(rest, d0);
      assert rest[k..] == dates[k + 1..];
      forall j | 0 <= j < k + 1 ensures !Lt(d0, dates[j]) {
        if j > 0 { assert dates[j] == rest[j - 1]; }
      }
    }
  }

  /** The resume filter: exactly the discovered dates after the stored one
      (all of them when nothing is stored), a suffix of the ascending list,
      hence itself ascending. */
  lemma PendingDatesSpec(dates: seq<string>, stored: Option<string>)
    requires StrictlySorted(dates)
    ensures !Truthy(stored) ==> PendingDates(dates, stored) == dates
    ensures Truthy(stored) ==> forall d :: d in PendingDates(dates, stored) <==> d in dates && Lt(stored.value, d)
    ensures exists k | 0 <= k <= |dates| :: PendingDates(dates, stored) == dates[k..]
    ensures StrictlySorted(PendingDates(dates, stored))
  {
    if Truthy(stored) {
      AfterMembers(dates, stored.value);
      AfterIsSuffix(dates, stored.value);
    } else {
      assert dates == dates[0..];
    }
    var k :| 0 <= k <= |dates| && PendingDates(dates, stored) == dates[k..];
    assert forall i, j | 0 <= i < j < |dates[k..]| :: dates[k..][i] == dates[k + i] && dates[k..][j] == dates[k + j];
  }

  // ---------------------------------------------------------------------------
  // The date committed for a department: `dates[dates.length - 1]`
  // ---------------------------------------------------------------------------

  /** The last discovered date; undefined (None) when nothing was discovered. */
  function LastDate(dates: seq<string>): Option<string>
  {
    if dates == [] then None else Some(dates[|dates| - 1])
  }

  /** On the ascending list the last date is its maximum. */
  lemma LastDateIsMaximum(dates: seq<string>)
    requires StrictlySorted(dates)
    ensures dates != [] <==> LastDate(dates).Some?
    ensures LastDate(dates).Some? ==> forall d | d in dates :: d == LastDate(dates).value || Lt(d, LastDate(dates).value)
  {
  }
}
