/** The catalog lookup `loadtle`: a line-by-line scan of a two-line-element
    catalog for the record of a named satellite. */
module Catalog {
  import opened Wrappers

  /** The three lines of a catalog record: the name line and the two element lines
      that follow it. */
  datatype Tle = Tle(line1: string, line2: string, line3: string)

  /** Why a lookup fails. */
  datatype LoadError =
    | NotFound   // no tested line contains the name, so the first record line is never bound
    | Truncated  // the name is found on one of the last two lines, so the scan runs out of lines

  /** `t` stands in `s` starting at position `i`. */
  predicate OccursAt(s: string, t: string, i: nat) {
    i + |t| <= |s| && s[i..i + |t|] == t
  }

  /** Python's substring test `t in s`. */
  predicate Contains(s: string, t: string) {
    exists i: nat :: i <= |s| && OccursAt(s, t, i)
  }

  /** Where the scan ends: the start of the record it keeps, no match, or the
      position of a match too close to the end to have two lines after it. */
  datatype Scan = Found(at: nat) | Missing | TruncatedAt(at: nat)

  /** The scan from line `p` on, where `found` is the start of the last record
      taken before `p`. A matching line takes itself and the next two lines and the
      scan resumes after them, so those two lines are never tested. */
  function ScanFrom(lines: seq<string>, name: string, p: nat, found: Option<nat>): (r: Scan)
    requires p <= |lines|
    requires found.Some? ==> found.value + 2 < |lines|
    ensures r.Missing? ==> found.None?
    ensures r.Found? ==> r.at + 2 < |lines| && (found == Some(r.at) || (p <= r.at && Contains(lines[r.at], name)))
    ensures r.TruncatedAt? ==> p <= r.at < |lines| <= r.at + 2 && Contains(lines[r.at], name)
    decreases |lines| - p
  {
    if p == |lines| then
      match found
      case Some(k) => Found(k)
      case None => Missing
    else if Contains(lines[p], name) then
      if p + 2 < |lines| then ScanFrom(lines, name, p + 3, Some(p)) else TruncatedAt(p)
    else
      ScanFrom(lines, name, p + 1, found)
  }

  /** What `loadtle` returns for satellite `name` in the catalog `lines`. */
  function Load(name: string, lines: seq<string>): Result<Tle, LoadError> {
    match ScanFrom(lines, name, 0, None)
    case Found(k) => Ok(Tle(lines[k], lines[k + 1], lines[k + 2]))
    case Missing => Err(NotFound)
    case TruncatedAt(_) => Err(Truncated)
  }

  /** The lookup as the source performs it: one pass over the lines, rebinding the
      three record lines at every tested match. */
  method LoadTle(satname: string, catalog: seq<string>) returns (r: Result<Tle, LoadError>)
    ensures r == Load(satname, catalog)
  {
    var line1, line2, line3 := "", "", "";
    var bound := false;
    ghost var at: nat := 0;
    var p := 0;
    while p < |catalog|
      invariant p <= |catalog|
      invariant bound ==> at + 2 < |catalog| && Tle(line1, line2, line3) == Tle(catalog[at], catalog[at + 1], catalog[at + 2])
      invariant ScanFrom(catalog, satname, p, if bound then Some(at) else None) == ScanFrom(catalog, satname, 0, None)
      decreases |catalog| - p
    {
      var line := catalog[p];
      if Contains(line, satname) {
        if p + 2 >= |catalog| {
          return Err(Truncated);
        }
        line1, line2, line3 := line, catalog[p + 1], catalog[p + 2];
        bound, at := true, p;
        p := p + 3;
      } else {
        p := p + 1;
      }
    }
    if !bound {
      return Err(NotFound);
    }
    r := Ok(Tle(line1, line2, line3));
  }

  lemma {:induction false} ScanMissing(lines: seq<string>, name: string, p: nat)
    requires p <= |lines|
    ensures ScanFrom(lines, name, p, None) == Missing <==> forall j :: p <= j < |lines| ==> !Contains(lines[j], name)
    decreases |lines| - p
  {
    if p < |lines| && !Contains(lines[p], name) {
      ScanMissing(lines, name, p + 1);
    }
  }

  lemma {:induction false} ScanFoundIsLast(lines: seq<string>, name: string, p: nat, found: Option<nat>)
    requires p <= |lines|
    requires found.Some? ==> found.value + 2 < |lines|
    ensures ScanFrom(lines, name, p, found).Found? ==>
      forall j :: p <= j < |lines| && ScanFrom(lines, name, p, found).at + 3 <= j ==> !Contains(lines[j], name)
    decreases |lines| - p
  {
    if p < |lines| {
      if Contains(lines[p], name) {
        if p + 2 < |lines| {
          ScanFoundIsLast(lines, name, p + 3, Some(p));
        }
      } else {
        ScanFoundIsLast(lines, name, p + 1, found);
      }
    }
  }

  /** The lookup fails with NotFound exactly when no line of the catalog contains
      the name. */
  lemma LoadNotFoundIff(name: string, lines: seq<string>)
    ensures Load(name, lines) == Err(NotFound) <==> forall j :: 0 <= j < |lines| ==> !Contains(lines[j], name)
  {
    ScanMissing(lines, name, 0);
  }

  /** The record starting at line `k` contains the name in its first line and is
      followed by no other line containing it. */
  ghost predicate LastRecordAt(lines: seq<string>, name: string, k: nat, t: Tle) {
    k + 2 < |lines| && Contains(lines[k], name)
    && t == Tle(lines[k], lines[k + 1], lines[k + 2])
    && forall j :: k + 3 <= j < |lines| ==> !Contains(lines[j], name)
  }

  /** A successful lookup returns the three lines starting at a matching line, and
      no line after those three contains the name: the last tested match wins. */
  lemma LoadFoundIsLastMatch(name: string, lines: seq<string>)
    requires Load(name, lines).Ok?
    ensures exists k: nat :: LastRecordAt(lines, name, k, Load(name, lines).value)
  {
    ScanFoundIsLast(lines, name, 0, None);
    var k := ScanFrom(lines, name, 0, None).at;
    assert LastRecordAt(lines, name, k, Load(name, lines).value);
  }

  /** A Truncated failure means the match that ended the scan lies on one of the
      last two lines. */
  lemma LoadTruncatedAtEnd(name: string, lines: seq<string>)
    requires Load(name, lines) == Err(Truncated)
    ensures exists k: nat :: |lines| - 2 <= k < |lines| && Contains(lines[k], name)
  {
    var k := ScanFrom(lines, name, 0, None).at;
    assert |lines| - 2 <= k < |lines| && Contains(lines[k], name);
  }

  lemma {:induction false} ScanAppend(lines: seq<string>, ext: seq<string>, name: string, p: nat, found: Option<nat>)
    requires p <= |lines|
    requires found.Some? ==> found.value + 2 < |lines|
    requires !ScanFrom(lines, name, p, found).TruncatedAt?
    ensures var s := ScanFrom(lines, name, p, found);
      ScanFrom(lines + ext, name, p, found) == ScanFrom(lines + ext, name, |lines|, if s.Found? then Some(s.at) else None)
    decreases |lines| - p
  {
    var all := lines + ext;
    if p < |lines| {
      assert all[p] == lines[p];
      if Contains(lines[p], name) {
        ScanAppend(lines, ext, name, p + 3, Some(p));
      } else {
        ScanAppend(lines, ext, name, p + 1, found);
      }
    }
  }

  /** Appending a record whose first line contains the name makes it the result of
      the lookup, whatever earlier record matched. */
  lemma LaterRecordWins(name: string, lines: seq<string>, a: string, b: string, c: string)
    requires Load(name, lines) != Err(Truncated)
    requires Contains(a, name)
    ensures Load(name, lines + [a, b, c]) == Ok(Tle(a, b, c))
  {
    var all := lines + [a, b, c];
    ScanAppend(lines, [a, b, c], name, 0, None);
    assert all[|lines|] == a;
    assert ScanFrom(all, name, |lines| + 3, Some(|lines|)) == Found(|lines|);
  }

  /** Appending a line that does not contain the name leaves the result as it was:
      it is tested and skipped, and cannot start or end a record. */
  lemma NonMatchingLineKeepsResult(name: string, lines: seq<string>, y: string)
    requires Load(name, lines) != Err(Truncated)
    requires !Contains(y, name)
    ensures Load(name, lines + [y]) == Load(name, lines)
  {
    var all := lines + [y];
    ScanAppend(lines, [y], name, 0, None);
    assert all[|lines|] == y;
    var s := ScanFrom(lines, name, 0, None);
    if s.Found? {
      assert ScanFrom(all, name, |lines|, Some(s.at)) == Found(s.at);
      assert all[s.at] == lines[s.at] && all[s.at + 1] == lines[s.at + 1] && all[s.at + 2] == lines[s.at + 2];
    } else {
      assert ScanFrom(all, name, |lines|, None) == Missing;
    }
  }

  /** A tested match with fewer than two lines after it makes the lookup fail as
      truncated, whatever record was taken before it. */
  lemma MatchNearEndTruncates(name: string, lines: seq<string>, a: string, b: string)
    requires Load(name, lines) != Err(Truncated)
    requires Contains(a, name)
    ensures Load(name, lines + [a]) == Err(Truncated)
    ensures Load(name, lines + [a, b]) == Err(Truncated)
  {
    var one := lines + [a];
    var two := lines + [a, b];
    var s := ScanFrom(lines, name, 0, None);
    var f := if s.Found? then Some(s.at) else None;
    ScanAppend(lines, [a], name, 0, None);
    ScanAppend(lines, [a, b], name, 0, None);
    assert one[|lines|] == a && two[|lines|] == a;
    assert ScanFrom(one, name, |lines|, f) == TruncatedAt(|lines|);
    assert ScanFrom(two, name, |lines|, f) == TruncatedAt(|lines|);
  }

  /** The two lines taken after a match are not tested: three matching lines give
      one record, and a fourth matching line is tested and runs out of lines. */
  lemma SkippedLinesNotTested(name: string, x: string)
    requires Contains(x, name)
    ensures Load(name, [x, x, x]) == Ok(Tle(x, x, x))
    ensures Load(name, [x, x, x, x]) == Err(Truncated)
  {
    var four := [x, x, x, x];
    assert four[3] == x;
    assert ScanFrom(four, name, 3, Some(0)) == TruncatedAt(3);
  }
}
