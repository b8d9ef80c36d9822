/**
 * The line filter the IAU configuration puts in front of the WKT dictionary:
 * every `BASEGEOGCRS`, in any ASCII letter case, becomes `BASEGEODCRS`.
 * The rewrite is Java's `replaceAll("(?i)BASEGEOGCRS", "BASEGEODCRS")`: a
 * left-to-right scan that replaces each match and resumes after it. Without
 * `UNICODE_CASE`, `(?i)` folds the letters A-Z only.
 */
module WktPatch {
  import opened Basics

  const Keyword: string := "BASEGEOGCRS"
  const Replacement: string := "BASEGEODCRS"
  /** The keyword as `(?i)` compares it: lower-cased. */
  const Folded: string := "basegeogcrs"

  /** ASCII lower-casing: A-Z map to a-z, every other character is itself. */
  function LowerAscii(c: char): char
  {
    if 'A' <= c <= 'Z' then (c as int + 32) as char else c
  }

  /** A string with every character ASCII-lower-cased. */
  function Lower(t: string): (r: string)
    ensures |r| == |t|
  {
    if |t| == 0 then "" else [LowerAscii(t[0])] + Lower(t[1..])
  }

  /** The keyword occurs at index `i` of `s`, letter case ignored. */
  predicate MatchesAt(s: string, i: int)
  {
    0 <= i && i + |Keyword| <= |s| && Lower(s[i..i + |Keyword|]) == Folded
  }

  /** `Lower` works character by character. */
  lemma {:induction false} LowerAt(t: string, k: int)
    requires 0 <= k < |t|
    ensures Lower(t)[k] == LowerAscii(t[k])
    decreases |t|
  {
    if k > 0 {
      LowerAt(t[1..], k - 1);
    }
  }

  /** A string whose characters lower-case to those of `f` lower-cases to `f`. */
  lemma {:induction false} LowerFromPoints(t: string, f: string)
    requires |t| == |f|
    requires forall k :: 0 <= k < |t| ==> LowerAscii(t[k]) == f[k]
    ensures Lower(t) == f
  {
    forall k | 0 <= k < |t| ensures Lower(t)[k] == f[k] {
      LowerAt(t, k);
    }
  }

  /** Character `i + d` of an occurrence at `i` lower-cases to letter `d` of the keyword. */
  lemma {:induction false} LetterOf(s: string, i: int, d: int)
    requires MatchesAt(s, i) && 0 <= d < |Keyword|
    ensures LowerAscii(s[i + d]) == Folded[d]
  {
    LowerAt(s[i..i + |Keyword|], d);
    assert s[i..i + |Keyword|][d] == s[i + d];
  }

  /** Index `p` of `s` lies inside some occurrence of the keyword. */
  ghost predicate Covered(s: string, p: int)
  {
    exists j :: MatchesAt(s, j) && j <= p < j + |Keyword|
  }

  /** The line after `replaceAll`: same length, each occurrence replaced. */
  function ReplaceGeog(line: string): (r: string)
    ensures |r| == |line|
    decreases |line|
  {
    if |line| == 0 then ""
    else if MatchesAt(line, 0) then Replacement + ReplaceGeog(line[|Keyword|..])
    else [line[0]] + ReplaceGeog(line[1..])
  }

  /** `readLine` of the patching reader: end of input (null) passes through. */
  function ReadLine(line: Option<string>): (r: Option<string>)
    ensures r.None? <==> line.None?
    ensures line.Some? ==> |r.value| == |line.value|
    ensures line.Some? ==> forall i :: !MatchesAt(r.value, i)
  {
    match line
    case None => None
    case Some(s) => KeywordGone(s); Some(ReplaceGeog(s))
  }

  /**
   * What the dictionary reads for one underlying line: the patching reader
   * when `replaceGeog` is set, the plain buffered reader otherwise.
   */
  function ImportedLine(replaceGeog: bool, line: Option<string>): (r: Option<string>)
    ensures r.None? <==> line.None?
    ensures !replaceGeog ==> r == line
    ensures replaceGeog && line.Some? ==> forall i :: !MatchesAt(r.value, i)
  {
    if replaceGeog then ReadLine(line) else line
  }

  // ----- facts about the keyword and its replacement -----

  /** An occurrence starts with a letter that folds to 'b'. */
  lemma FirstLetter(s: string, j: int)
    requires MatchesAt(s, j)
    ensures LowerAscii(s[j]) == 'b'
  {
    LetterOf(s, j, 0);
  }

  /** No later letter of an occurrence folds to 'b'. */
  lemma LaterLetter(s: string, i: int, d: int)
    requires MatchesAt(s, i) && 1 <= d < |Keyword|
    ensures LowerAscii(s[i + d]) != 'b'
  {
    LetterOf(s, i, d);
  }

  /** The eighth letter of an occurrence folds to 'g'. */
  lemma EighthLetter(s: string, i: int)
    requires MatchesAt(s, i)
    ensures LowerAscii(s[i + 7]) == 'g'
  {
    LetterOf(s, i, 7);
  }

  /**
   * In a line that starts with the replacement, only the first of its letters
   * folds to 'b', and its eighth folds to 'd'.
   */
  lemma ReplacementLetters(r: string, i: int)
    requires |Replacement| <= |r| && r[..|Replacement|] == Replacement
    requires 0 <= i < |Replacement|
    ensures i > 0 ==> LowerAscii(r[i]) != 'b'
    ensures LowerAscii(r[7]) == 'd'
  {
    assert r[i] == Replacement[i] && r[7] == Replacement[7];
  }

  /**
   * No occurrence starts at `i` when the eighth letter folds to 'd' and, for
   * `i > 0`, letter `i` does not fold to 'b'.
   */
  lemma NoKeywordByLetters(r: string, i: int)
    requires 0 <= i < |Keyword| <= |r|
    requires LowerAscii(r[7]) == 'd'
    requires i > 0 ==> LowerAscii(r[i]) != 'b'
    ensures !MatchesAt(r, i)
  {
    if MatchesAt(r, i) {
      if i == 0 {
        EighthLetter(r, 0);
      } else {
        FirstLetter(r, i);
      }
      assert false;
    }
  }

  /**
   * No occurrence starts inside a freshly written replacement: at its start
   * the eighth letter is D, not G, and further in there is no B.
   */
  lemma NoKeywordInReplacement(r: string, i: int)
    requires |Replacement| <= |r| && r[..|Replacement|] == Replacement
    requires 0 <= i < |Replacement|
    ensures !MatchesAt(r, i)
  {
    ReplacementLetters(r, i);
    NoKeywordByLetters(r, i);
  }

  /**
   * An occurrence in the tail that begins within the first ten letters puts
   * the replacement's B inside the first eleven letters of the rewritten line.
   */
  lemma {:induction false} ReplacedNearStart(s: string, m: int)
    requires |s| >= 1 && 0 <= m < |Keyword| - 1 && MatchesAt(s[1..], m)
    ensures !MatchesAt([s[0]] + ReplaceGeog(s[1..]), 0)
  {
    var r := [s[0]] + ReplaceGeog(s[1..]);
    OccurrenceReplaced(s[1..], m);
    assert r[m + 1] == Replacement[0];
    if MatchesAt(r, 0) {
      LaterLetter(r, 0, m + 1);
      assert false;
    }
  }

  /**
   * Without an occurrence in the tail that begins within the first ten
   * letters, the first eleven letters are the input's own, so an occurrence
   * at the start of the rewritten line is one of the input line.
   */
  lemma {:induction false} CopiedStartMatches(s: string)
    requires |s| >= 1 && MatchesAt([s[0]] + ReplaceGeog(s[1..]), 0)
    requires forall m :: 0 <= m < |Keyword| - 1 ==> !MatchesAt(s[1..], m)
    ensures MatchesAt(s, 0)
  {
    var n := |Keyword|;
    var r := [s[0]] + ReplaceGeog(s[1..]);
    forall p | 0 <= p < n ensures LowerAscii(s[0..n][p]) == Folded[p] {
      if p > 0 {
        OutsideUnchanged(s[1..], p - 1);
      }
      LetterOf(r, 0, p);
    }
    LowerFromPoints(s[0..n], Folded);
  }

  /**
   * When the line does not start with the keyword, the rewritten line does
   * not either: a replacement within the first eleven letters would put a B
   * where the keyword has none, and without one the letters are the input's.
   */
  lemma {:induction false} NoKeywordAtCopiedStart(s: string)
    requires |s| >= 1 && !MatchesAt(s, 0)
    ensures !MatchesAt([s[0]] + ReplaceGeog(s[1..]), 0)
  {
    if m :| 0 <= m < |Keyword| - 1 && MatchesAt(s[1..], m) {
      ReplacedNearStart(s, m);
    } else if MatchesAt([s[0]] + ReplaceGeog(s[1..]), 0) {
      CopiedStartMatches(s);
      assert false;
    }
  }

  /** `NoKeywordAtCopiedStart`, stated of the rewritten line itself. */
  lemma {:induction false} NoKeywordAtStart(s: string)
    requires |s| >= 1 && !MatchesAt(s, 0)
    ensures !MatchesAt(ReplaceGeog(s), 0)
  {
    UnrollCopied(s);
    NoKeywordAtCopiedStart(s);
  }

  /** Two occurrences never overlap. */
  lemma NoOverlap(s: string, i: int, j: int)
    requires MatchesAt(s, i) && MatchesAt(s, j) && i < j
    ensures i + |Keyword| <= j
  {
    if j < i + |Keyword| {
      FirstLetter(s, j);
      LaterLetter(s, i, j - i);
      assert false;
    }
  }

  /** Occurrences in a suffix are occurrences in the whole line, shifted. */
  lemma MatchesInSuffix(s: string, d: nat, j: int)
    requires d <= |s| && 0 <= j
    ensures MatchesAt(s[d..], j) <==> MatchesAt(s, j + d)
  {
    if j + d + |Keyword| <= |s| {
      assert s[d..][j..j + |Keyword|] == s[j + d..j + d + |Keyword|];
    }
  }

  // ----- one step of the scan -----

  /** The scan at an occurrence: the replacement, then the rest rewritten. */
  lemma {:induction false} UnrollReplaced(s: string)
    requires MatchesAt(s, 0)
    ensures ReplaceGeog(s) == Replacement + ReplaceGeog(s[|Keyword|..])
  {
  }

  /** The scan elsewhere: the first character, then the rest rewritten. */
  lemma {:induction false} UnrollCopied(s: string)
    requires |s| >= 1 && !MatchesAt(s, 0)
    ensures ReplaceGeog(s) == [s[0]] + ReplaceGeog(s[1..])
  {
  }

  /** A line starting with the keyword starts with the replacement. */
  lemma {:induction false} ReplacedHead(s: string)
    requires MatchesAt(s, 0)
    ensures ReplaceGeog(s)[..|Keyword|] == Replacement
  {
    UnrollReplaced(s);
  }

  /** A slice lying past the head of a concatenation is a slice of its tail. */
  lemma SliceOfTail(h: string, t: string, j: int, m: nat)
    requires |h| <= j && j + m <= |h| + |t|
    ensures (h + t)[j..j + m] == t[j - |h|..j - |h| + m]
  {
    forall p | j <= p < j + m ensures (h + t)[p] == t[p - |h|] {
    }
  }

  /** After a replaced head, the rewritten line is the rewritten rest. */
  lemma {:induction false} SliceAfterReplaced(s: string, j: int)
    requires MatchesAt(s, 0) && |Keyword| <= j && j + |Keyword| <= |s|
    ensures ReplaceGeog(s)[j..j + |Keyword|]
         == ReplaceGeog(s[|Keyword|..])[j - |Keyword|..j - |Keyword| + |Keyword|]
  {
    var t := ReplaceGeog(s[|Keyword|..]);
    UnrollReplaced(s);
    SliceOfTail(Replacement, t, j, |Keyword|);
  }

  /** After a copied first character, the rewritten line is the rewritten rest. */
  lemma {:induction false} SliceAfterCopied(s: string, j: int)
    requires !MatchesAt(s, 0) && 1 <= j && j + |Keyword| <= |s|
    ensures ReplaceGeog(s)[j..j + |Keyword|]
         == ReplaceGeog(s[1..])[j - 1..j - 1 + |Keyword|]
  {
    var t := ReplaceGeog(s[1..]);
    UnrollCopied(s);
    SliceOfTail([s[0]], t, j, |Keyword|);
  }

  /** An occurrence past the head of a concatenation is an occurrence in its tail. */
  lemma MatchInTail(r: string, h: string, t: string, i: int)
    requires r == h + t && MatchesAt(r, i) && i >= |h|
    ensures MatchesAt(t, i - |h|)
  {
    SliceOfTail(h, t, i, |Keyword|);
  }

  /** An occurrence past a replaced head is an occurrence in the rewritten rest. */
  lemma {:induction false} MatchAfterReplaced(s: string, i: int)
    requires MatchesAt(s, 0) && MatchesAt(ReplaceGeog(s), i) && i >= |Keyword|
    ensures MatchesAt(ReplaceGeog(s[|Keyword|..]), i - |Keyword|)
  {
    var t := ReplaceGeog(s[|Keyword|..]);
    UnrollReplaced(s);
    MatchInTail(ReplaceGeog(s), Replacement, t, i);
  }

  /** An occurrence past a copied first character is an occurrence in the rewritten rest. */
  lemma {:induction false} MatchAfterCopied(s: string, i: int)
    requires !MatchesAt(s, 0) && MatchesAt(ReplaceGeog(s), i) && i >= 1
    ensures MatchesAt(ReplaceGeog(s[1..]), i - 1)
  {
    var t := ReplaceGeog(s[1..]);
    UnrollCopied(s);
    MatchInTail(ReplaceGeog(s), [s[0]], t, i);
  }

  // ----- what the rewrite does, position by position -----

  /** Every occurrence in the input reads `BASEGEODCRS` in the output. */
  lemma {:induction false} OccurrenceReplaced(s: string, j: int)
    requires MatchesAt(s, j)
    ensures ReplaceGeog(s)[j..j + |Keyword|] == Replacement
    decreases |s|
  {
    var n := |Keyword|;
    if MatchesAt(s, 0) {
      if j == 0 {
        ReplacedHead(s);
      } else {
        NoOverlap(s, 0, j);
        MatchesInSuffix(s, n, j - n);
        OccurrenceReplaced(s[n..], j - n);
        SliceAfterReplaced(s, j);
      }
    } else {
      MatchesInSuffix(s, 1, j - 1);
      OccurrenceReplaced(s[1..], j - 1);
      SliceAfterCopied(s, j);
    }
  }

  /** A character inside no occurrence is copied unchanged. */
  lemma {:induction false} OutsideUnchanged(s: string, p: int)
    requires 0 <= p < |s| && !Covered(s, p)
    ensures ReplaceGeog(s)[p] == s[p]
    decreases |s|
  {
    var n := |Keyword|;
    if MatchesAt(s, 0) {
      assert p >= n;
      if Covered(s[n..], p - n) {
        var j :| MatchesAt(s[n..], j) && j <= p - n < j + n;
        MatchesInSuffix(s, n, j);
        assert false;
      }
      OutsideUnchanged(s[n..], p - n);
    } else if p > 0 {
      if Covered(s[1..], p - 1) {
        var j :| MatchesAt(s[1..], j) && j <= p - 1 < j + n;
        MatchesInSuffix(s, 1, j);
        assert false;
      }
      OutsideUnchanged(s[1..], p - 1);
    }
  }

  /** A line without the keyword comes back unchanged. */
  lemma {:induction false} PlainLineUnchanged(s: string)
    requires forall j :: !MatchesAt(s, j)
    ensures ReplaceGeog(s) == s
  {
    forall p | 0 <= p < |s| ensures ReplaceGeog(s)[p] == s[p] {
      OutsideUnchanged(s, p);
    }
  }

  /** No occurrence of the keyword survives the rewrite, at any index. */
  lemma {:induction false} NoKeywordLeft(s: string, i: int)
    ensures !MatchesAt(ReplaceGeog(s), i)
    decreases |s|
  {
    var n := |Keyword|;
    if MatchesAt(ReplaceGeog(s), i) {
      if MatchesAt(s, 0) {
        if i >= n {
          MatchAfterReplaced(s, i);
          NoKeywordLeft(s[n..], i - n);
        } else {
          ReplacedHead(s);
          NoKeywordInReplacement(ReplaceGeog(s), i);
        }
      } else if i >= 1 {
        MatchAfterCopied(s, i);
        NoKeywordLeft(s[1..], i - 1);
      } else {
        NoKeywordAtStart(s);
      }
      assert false;
    }
  }

  /** `NoKeywordLeft` at every index. */
  lemma {:induction false} KeywordGone(s: string)
    ensures forall i :: !MatchesAt(ReplaceGeog(s), i)
  {
    forall i ensures !MatchesAt(ReplaceGeog(s), i) {
      NoKeywordLeft(s, i);
    }
  }

  /** Rewriting an already rewritten line changes nothing. */
  lemma {:induction false} ReplaceGeogIdempotent(s: string)
    ensures ReplaceGeog(ReplaceGeog(s)) == ReplaceGeog(s)
  {
    KeywordGone(s);
    PlainLineUnchanged(ReplaceGeog(s));
  }

  /** Mixed case is matched and the replacement is always upper case. */
  lemma MixedCaseExample()
    ensures ReplaceGeog("baseGeogCrs") == "BASEGEODCRS"
  {
    MixedCaseMatches();
  }

  /** Each letter of `baseGeogCrs` folds to the keyword's letter. */
  lemma LetterPair(k: int)
    requires 0 <= k < |Folded|
    ensures LowerAscii("baseGeogCrs"[k]) == Folded[k]
  {
  }

  /** A string whose characters lower-case to the keyword's is an occurrence at 0. */
  lemma {:induction false} CaseFolded(line: string)
    requires |line| == |Keyword|
    requires forall k :: 0 <= k < |line| ==> LowerAscii(line[k]) == Folded[k]
    ensures MatchesAt(line, 0)
  {
    LowerFromPoints(line, Folded);
    assert line[0..|Keyword|] == line;
  }

  /** `baseGeogCrs` is an occurrence: letter case is ignored. */
  lemma MixedCaseMatches()
    ensures MatchesAt("baseGeogCrs", 0)
  {
    forall k | 0 <= k < |Folded| ensures LowerAscii("baseGeogCrs"[k]) == Folded[k] {
      LetterPair(k);
    }
    CaseFolded("baseGeogCrs");
  }
}
