/**
  The two fixed tag patterns the extractor runs through `re.findall` with
  `re.DOTALL` both have the shape

      OPEN (.*?) MID (.*?) CLOSE

  for three literal strings. This module gives
  - the meaning of `findall` for such a pattern, written the way a
    backtracking engine finds matches (leftmost start, then the shortest
    first group for which the rest can still match, then the shortest
    second group, then resume at the end of the match): `FindAll`;
  - a scanner that only searches for the three literals one after another
    (`Scan`, carried out by the method `FindAllMatches`), and the proof that
    it finds the same matches.
 */
module TagScan {
  import opened Wrappers

  /** The three literals of `OPEN (.*?) MID (.*?) CLOSE`. */
  datatype Pattern = Pattern(open: string, mid: string, close: string)

  /** One match: where it starts and ends in the text, and the two groups. */
  datatype Match = Match(start: nat, end: nat, group1: string, group2: string)

  /** `lit` occurs in `s` at position `i`, compared character by character. */
  predicate At(s: string, i: nat, lit: string)
    ensures At(s, i, lit) ==> i + |lit| <= |s|
    decreases lit
  {
    if lit == [] then i <= |s| else i < |s| && s[i] == lit[0] && At(s, i + 1, lit[1..])
  }

  /** `At` is the comparison of the slice at `i` with `lit`. */
  lemma {:induction false} AtIsSlice(s: string, i: nat, lit: string)
    ensures At(s, i, lit) <==> i + |lit| <= |s| && s[i..i + |lit|] == lit
    decreases lit
  {
    if lit != [] && i < |s| {
      AtIsSlice(s, i + 1, lit[1..]);
      if i + |lit| <= |s| {
        assert s[i..i + |lit|] == [s[i]] + s[i + 1..i + 1 + |lit[1..]|];
        assert lit == [lit[0]] + lit[1..];
      }
    }
  }

  /** Where `lit` occurs, each of its characters is in place. */
  lemma {:induction false} AtChar(s: string, i: nat, lit: string, k: nat)
    requires At(s, i, lit) && k < |lit|
    ensures s[i + k] == lit[k]
    decreases k
  {
    if k > 0 {
      AtChar(s, i + 1, lit[1..], k - 1);
    }
  }

  /** The first position at or after `from` where `lit` occurs. */
  function FirstAt(s: string, lit: string, from: nat): (r: Option<nat>)
    ensures r.Some? ==> from <= r.value && At(s, r.value, lit)
    ensures r.Some? ==> forall j: nat :: from <= j < r.value ==> !At(s, j, lit)
    ensures r.None? ==> forall j: nat :: from <= j ==> !At(s, j, lit)
    decreases |s| - from
  {
    if from + |lit| > |s| then None
    else if At(s, from, lit) then Some(from)
    else
      assert lit != [];
      FirstAt(s, lit, from + 1)
  }

  // ---------------------------------------------------------------------
  // The matching rules of the regular expression
  // ---------------------------------------------------------------------

  /** The first group may end at `k`: MID starts there and CLOSE still
      occurs somewhere after it, so the rest of the pattern can match. */
  ghost predicate SplitsAt(s: string, pat: Pattern, k: nat)
  {
    At(s, k, pat.mid) && FirstAt(s, pat.close, k + |pat.mid|).Some?
  }

  /** The lazy first group: the least end `k >= from` at which the rest of
      the pattern can still match. */
  ghost function LazySplit(s: string, pat: Pattern, from: nat): (r: Option<nat>)
    ensures r.Some? ==> from <= r.value && SplitsAt(s, pat, r.value)
    ensures r.Some? ==> forall k: nat :: from <= k < r.value ==> !SplitsAt(s, pat, k)
    ensures r.None? ==> forall k: nat :: from <= k ==> !SplitsAt(s, pat, k)
    decreases |s| - from
  {
    if from > |s| then None
    else if SplitsAt(s, pat, from) then Some(from)
    else LazySplit(s, pat, from + 1)
  }

  /** The match the pattern makes when it is tried at position `p`. */
  ghost function MatchAt(s: string, pat: Pattern, p: nat): (r: Option<Match>)
    ensures r.Some? ==> r.value.start == p && p + |pat.open| <= r.value.end <= |s|
  {
    if !At(s, p, pat.open) then None
    else
      match LazySplit(s, pat, p + |pat.open|)
      case None => None
      case Some(k) => Some(MatchEndingGroup1At(s, pat, p, k))
  }

  /** The match that starts at `p` and whose first group ends at `k`: the
      second group is the shortest one, up to the first CLOSE. */
  function MatchEndingGroup1At(s: string, pat: Pattern, p: nat, k: nat): (m: Match)
    requires p + |pat.open| <= k && At(s, k, pat.mid) && FirstAt(s, pat.close, k + |pat.mid|).Some?
    ensures m.start == p && k + |pat.mid| + |pat.close| <= m.end <= |s|
  {
    var j := FirstAt(s, pat.close, k + |pat.mid|).value;
    Match(p, j + |pat.close|, s[p + |pat.open|..k], s[k + |pat.mid|..j])
  }

  /** The leftmost match that starts at or after `pos`. */
  ghost function Leftmost(s: string, pat: Pattern, pos: nat): (r: Option<Match>)
    ensures r.Some? ==> pos <= r.value.start && MatchAt(s, pat, r.value.start) == r
    ensures r.Some? ==> forall p: nat :: pos <= p < r.value.start ==> MatchAt(s, pat, p).None?
    ensures r.None? ==> forall p: nat :: pos <= p ==> MatchAt(s, pat, p).None?
    decreases |s| - pos
  {
    if pos > |s| then None
    else if MatchAt(s, pat, pos).Some? then MatchAt(s, pat, pos)
    else Leftmost(s, pat, pos + 1)
  }

  /** `re.findall` from position `pos`: the leftmost match, then the
      matches after its end. */
  ghost function FindAll(s: string, pat: Pattern, pos: nat): (r: seq<Match>)
    requires pat.open != []
    ensures forall i :: 0 <= i < |r| ==> pos <= r[i].start && r[i].end <= |s|
    decreases |s| - pos
  {
    match Leftmost(s, pat, pos)
    case None => []
    case Some(m) => [m] + FindAll(s, pat, m.end)
  }

  /** What `findall` returns are genuine matches of the pattern, in text
      order and without overlap. */
  lemma {:induction false} FindAllMatchesInOrder(s: string, pat: Pattern, pos: nat)
    requires pat.open != []
    ensures forall i :: 0 <= i < |FindAll(s, pat, pos)| ==>
              pos <= FindAll(s, pat, pos)[i].start && MatchAt(s, pat, FindAll(s, pat, pos)[i].start) == Some(FindAll(s, pat, pos)[i])
    ensures forall i :: 0 < i < |FindAll(s, pat, pos)| ==> FindAll(s, pat, pos)[i - 1].end <= FindAll(s, pat, pos)[i].start
    decreases |s| - pos
  {
    match Leftmost(s, pat, pos)
    case None =>
    case Some(m) =>
      FindAllMatchesInOrder(s, pat, m.end);
      var rest := FindAll(s, pat, m.end);
      assert FindAll(s, pat, pos) == [m] + rest;
      assert rest != [] ==> m.end <= rest[0].start;
  }

  // ---------------------------------------------------------------------
  // The scanner: search for OPEN, then MID, then CLOSE
  // ---------------------------------------------------------------------

  /** One step of the scanner: the first OPEN at or after `pos`, the first
      MID after it and the first CLOSE after that. */
  function Scan(s: string, pat: Pattern, pos: nat): Option<Match>
  {
    match FirstAt(s, pat.open, pos)
    case None => None
    case Some(p) =>
      match FirstAt(s, pat.mid, p + |pat.open|)
      case None => None
      case Some(k) =>
        if FirstAt(s, pat.close, k + |pat.mid|).None? then None
        else Some(MatchEndingGroup1At(s, pat, p, k))
  }

  /** If no match starts anywhere in `[pos, ..)`, there is no leftmost one. */
  lemma NoMatchFrom(s: string, pat: Pattern, pos: nat)
    requires forall p: nat :: pos <= p ==> MatchAt(s, pat, p).None?
    ensures Leftmost(s, pat, pos).None?
  {
    var r := Leftmost(s, pat, pos);
    if r.Some? {
      assert MatchAt(s, pat, r.value.start).Some?;
    }
  }

  /** Once the lazy first group cannot end anywhere after the OPEN at `p`, no
      start at or after `p` can match: any way for it to split and close is
      also open to `p`. */
  lemma LaterStartNoBetter(s: string, pat: Pattern, p: nat, q: nat)
    requires p <= q
    requires LazySplit(s, pat, p + |pat.open|).None?
    ensures MatchAt(s, pat, q).None?
  {
  }

  /** When MID first occurs at `k`, the lazy first group ends there if the
      pattern can match at all: a later MID leaves less room for CLOSE. */
  lemma FirstMidIsLazySplit(s: string, pat: Pattern, from: nat, k: nat)
    requires FirstAt(s, pat.mid, from) == Some(k)
    ensures LazySplit(s, pat, from) == (if FirstAt(s, pat.close, k + |pat.mid|).Some? then Some(k) else None)
  {
    var r := LazySplit(s, pat, from);
    if FirstAt(s, pat.close, k + |pat.mid|).Some? {
      assert SplitsAt(s, pat, k);
      assert r.Some?;
      assert !(r.value < k);
    }
  }

  /** No OPEN at or after `pos`: no match. */
  lemma NoOpenNoMatch(s: string, pat: Pattern, pos: nat)
    requires FirstAt(s, pat.open, pos).None?
    ensures Leftmost(s, pat, pos).None?
  {
    forall p: nat | pos <= p ensures MatchAt(s, pat, p).None? {
      assert !At(s, p, pat.open);
    }
    NoMatchFrom(s, pat, pos);
  }

  /** The first OPEN at or after `pos` is at `p`, but the first group cannot
      end anywhere after it: no match. */
  lemma NoSplitNoMatch(s: string, pat: Pattern, pos: nat, p: nat)
    requires FirstAt(s, pat.open, pos) == Some(p)
    requires LazySplit(s, pat, p + |pat.open|).None?
    ensures Leftmost(s, pat, pos).None?
  {
    forall q: nat | pos <= q ensures MatchAt(s, pat, q).None? {
      if p <= q {
        LaterStartNoBetter(s, pat, p, q);
      } else {
        assert !At(s, q, pat.open);
      }
    }
    NoMatchFrom(s, pat, pos);
  }

  /** The first OPEN at or after `pos` is at `p` and the pattern matches
      there: that is the leftmost match. */
  lemma FirstOpenMatches(s: string, pat: Pattern, pos: nat, p: nat)
    requires FirstAt(s, pat.open, pos) == Some(p)
    requires MatchAt(s, pat, p).Some?
    ensures Leftmost(s, pat, pos) == MatchAt(s, pat, p)
  {
    var r := Leftmost(s, pat, pos);
    assert r.Some? && r.value.start == p;
  }

  /** The scanner's step finds exactly the leftmost match of the pattern. */
  lemma ScanIsLeftmost(s: string, pat: Pattern, pos: nat)
    ensures Scan(s, pat, pos) == Leftmost(s, pat, pos)
  {
    var p := FirstAt(s, pat.open, pos);
    if p.None? {
      NoOpenNoMatch(s, pat, pos);
    } else if FirstAt(s, pat.mid, p.value + |pat.open|).None? {
      ScanWithoutMid(s, pat, pos, p.value);
    } else {
      ScanAfterMid(s, pat, pos, p.value, FirstAt(s, pat.mid, p.value + |pat.open|).value);
    }
  }

  /** `ScanIsLeftmost` when OPEN is found at `p` but no MID after it. */
  lemma ScanWithoutMid(s: string, pat: Pattern, pos: nat, p: nat)
    requires FirstAt(s, pat.open, pos) == Some(p)
    requires FirstAt(s, pat.mid, p + |pat.open|).None?
    ensures Scan(s, pat, pos).None? && Leftmost(s, pat, pos).None?
  {
    NoMidNoSplit(s, pat, p + |pat.open|);
    NoSplitNoMatch(s, pat, pos, p);
  }

  /** `ScanIsLeftmost` when OPEN is found at `p` and then MID at `k`. */
  lemma ScanAfterMid(s: string, pat: Pattern, pos: nat, p: nat, k: nat)
    requires FirstAt(s, pat.open, pos) == Some(p)
    requires FirstAt(s, pat.mid, p + |pat.open|) == Some(k)
    ensures Scan(s, pat, pos) == Leftmost(s, pat, pos)
  {
    FirstMidIsLazySplit(s, pat, p + |pat.open|, k);
    if FirstAt(s, pat.close, k + |pat.mid|).None? {
      ScanWithoutClose(s, pat, pos, p, k);
    } else {
      ScanFindsMatch(s, pat, pos, p, k);
    }
  }

  /** OPEN at `p`, MID at `k`, but no CLOSE afterwards. */
  lemma ScanWithoutClose(s: string, pat: Pattern, pos: nat, p: nat, k: nat)
    requires FirstAt(s, pat.open, pos) == Some(p)
    requires FirstAt(s, pat.mid, p + |pat.open|) == Some(k)
    requires FirstAt(s, pat.close, k + |pat.mid|).None?
    requires LazySplit(s, pat, p + |pat.open|).None?
    ensures Scan(s, pat, pos).None? && Leftmost(s, pat, pos).None?
  {
    NoSplitNoMatch(s, pat, pos, p);
  }

  /** OPEN at `p`, MID at `k` and CLOSE after it: the scanner's match. */
  lemma ScanFindsMatch(s: string, pat: Pattern, pos: nat, p: nat, k: nat)
    requires FirstAt(s, pat.open, pos) == Some(p)
    requires FirstAt(s, pat.mid, p + |pat.open|) == Some(k)
    requires FirstAt(s, pat.close, k + |pat.mid|).Some?
    requires LazySplit(s, pat, p + |pat.open|) == Some(k)
    ensures Scan(s, pat, pos) == MatchAt(s, pat, p) == Leftmost(s, pat, pos)
  {
    ScanBuildsMatch(s, pat, pos, p, k);
    MatchAtBuildsMatch(s, pat, p, k);
    FirstOpenMatches(s, pat, pos, p);
  }

  lemma ScanBuildsMatch(s: string, pat: Pattern, pos: nat, p: nat, k: nat)
    requires FirstAt(s, pat.open, pos) == Some(p)
    requires FirstAt(s, pat.mid, p + |pat.open|) == Some(k)
    requires FirstAt(s, pat.close, k + |pat.mid|).Some?
    ensures Scan(s, pat, pos) == Some(MatchEndingGroup1At(s, pat, p, k))
  {
  }

  lemma MatchAtBuildsMatch(s: string, pat: Pattern, p: nat, k: nat)
    requires At(s, p, pat.open)
    requires LazySplit(s, pat, p + |pat.open|) == Some(k)
    ensures MatchAt(s, pat, p) == Some(MatchEndingGroup1At(s, pat, p, k))
  {
  }

  /** Without any MID after `from`, the first group cannot end there. */
  lemma NoMidNoSplit(s: string, pat: Pattern, from: nat)
    requires FirstAt(s, pat.mid, from).None?
    ensures LazySplit(s, pat, from).None?
  {
  }

  /** `FindAll` is empty where there is no leftmost match. */
  lemma FindAllWithoutMatch(s: string, pat: Pattern, pos: nat)
    requires pat.open != []
    requires Leftmost(s, pat, pos).None?
    ensures FindAll(s, pat, pos) == []
  {
  }

  /** `FindAll` continues after the leftmost match. */
  lemma FindAllAfterMatch(s: string, pat: Pattern, pos: nat, m: Match)
    requires pat.open != []
    requires Leftmost(s, pat, pos) == Some(m)
    ensures pos < m.end <= |s|
    ensures FindAll(s, pat, pos) == [m] + FindAll(s, pat, m.end)
  {
  }

  /** `re.findall` for the pattern, by repeated scanning. */
  method FindAllMatches(s: string, pat: Pattern) returns (ms: seq<Match>)
    requires pat.open != []
    ensures ms == FindAll(s, pat, 0)
  {
    ms := [];
    var pos := 0;
    while true
      invariant pos <= |s|
      invariant ms + FindAll(s, pat, pos) == FindAll(s, pat, 0)
      decreases |s| - pos
    {
      var r := NextMatch(s, pat, pos);
      ScanIsLeftmost(s, pat, pos);
      if r.None? {
        FindAllWithoutMatch(s, pat, pos);
        return;
      }
      FindAllAfterMatch(s, pat, pos, r.value);
      ms := ms + [r.value];
      pos := r.value.end;
    }
  }

  /** One step of the scanner, searching for the three literals in turn. */
  method NextMatch(s: string, pat: Pattern, pos: nat) returns (r: Option<Match>)
    ensures r == Scan(s, pat, pos)
  {
    r := None;
    var p := Find(s, pat.open, pos);
    if p.Some? {
      var k := Find(s, pat.mid, p.value + |pat.open|);
      if k.Some? {
        var j := Find(s, pat.close, k.value + |pat.mid|);
        if j.Some? {
          r := Some(MatchEndingGroup1At(s, pat, p.value, k.value));
        }
      }
    }
  }

  /** Linear search for `lit` from position `from`. */
  method Find(s: string, lit: string, from: nat) returns (r: Option<nat>)
    ensures r == FirstAt(s, lit, from)
  {
    var i := from;
    while i + |lit| <= |s|
      invariant from <= i
      invariant forall j: nat :: from <= j < i ==> !At(s, j, lit)
      decreases |s| - i
    {
      AtIsSlice(s, i, lit);
      if s[i..i + |lit|] == lit {
        return Some(i);
      }
      i := i + 1;
    }
    return None;
  }
}
