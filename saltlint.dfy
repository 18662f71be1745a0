/** saltlint (tools/saltlint.py): the brand-voice gate that reports every
    whole-word, case-insensitive occurrence of a forbidden word in the site's
    sources, formats a report and turns it into an exit status. */
module SaltLint {
  import opened Wrappers
  import opened Text

  /** The forbidden words, in the order the pattern's alternation tries them. */
  const ForbiddenWords: seq<string> := ["sweat", "sweaty", "perspire", "perspiration"]

  /** The suffixes of the files that are scanned. */
  const ScanExtensions: set<string> := {".html", ".css", ".js", ".md"}

  // ---------------------------------------------------------------------------
  // The pattern \b(sweat|sweaty|perspire|perspiration)\b, case-insensitive
  // ---------------------------------------------------------------------------

  /** A character `\w` matches (ASCII letters, digits and underscore). */
  predicate IsWordChar(c: char)
  {
    'a' <= c <= 'z' || 'A' <= c <= 'Z' || '0' <= c <= '9' || c == '_'
  }

  /** `\b` at position `q`: exactly one of the characters either side of `q`
      is a word character, a line edge counting as a non-word character. */
  predicate BoundaryAt(line: string, q: int)
    requires 0 <= q <= |line|
  {
    (q > 0 && IsWordChar(line[q - 1])) != (q < |line| && IsWordChar(line[q]))
  }

  /** The characters of `line` from `p` on spell `w`, ignoring case. */
  predicate FoldsAt(line: string, p: int, w: string)
    requires 0 <= p && p + |w| <= |line|
    decreases |w|
  {
    |w| == 0 || (LowerChar(line[p]) == w[0] && FoldsAt(line, p + 1, w[1..]))
  }

  /** Spelling `w` means each character lower-cases to the matching letter. */
  lemma {:induction false} FoldsAtChars(line: string, p: int, w: string)
    requires 0 <= p && p + |w| <= |line|
    ensures FoldsAt(line, p, w) <==> forall i :: 0 <= i < |w| ==> LowerChar(line[p + i]) == w[i]
    decreases |w|
  {
    if |w| > 0 {
      FoldsAtChars(line, p + 1, w[1..]);
      assert forall i :: 1 <= i < |w| ==> w[1..][i - 1] == w[i] && line[p + 1 + (i - 1)] == line[p + i];
    }
  }

  /** Word `w` matches whole at position `p`, ignoring case. */
  predicate OccursAt(line: string, p: int, w: string)
    requires 0 <= p <= |line|
  {
    && p + |w| <= |line|
    && BoundaryAt(line, p)
    && FoldsAt(line, p, w)
    && BoundaryAt(line, p + |w|)
  }

  /** No alternative is empty. */
  predicate NonEmptyWords(words: seq<string>)
  {
    forall k :: 0 <= k < |words| ==> |words[k]| > 0
  }

  /** The words an alternation of whole words can be built from: non-empty,
      lower-case letters, no word twice. */
  predicate WordList(words: seq<string>)
  {
    NonEmptyWords(words) && LetterWords(words) && DistinctWords(words)
  }

  /** Every word is spelt in lower-case letters. */
  predicate LetterWords(words: seq<string>)
  {
    |words| == 0 || (LowerLetters(words[0]) && LetterWords(words[1..]))
  }

  lemma {:induction false} LetterWordsAt(words: seq<string>, k: nat)
    requires LetterWords(words)
    requires k < |words|
    ensures LowerLetters(words[k])
  {
    if k > 0 {
      LetterWordsAt(words[1..], k - 1);
    }
  }

  predicate DistinctWords(words: seq<string>)
  {
    forall k, l :: 0 <= k < l < |words| ==> words[k] != words[l]
  }

  /** Spelt in lower-case letters only. */
  predicate LowerLetters(w: string)
  {
    forall i :: 0 <= i < |w| ==> 'a' <= w[i] <= 'z'
  }

  /** The length of the match the alternation `words[k] | words[k+1] | ...`
      finds at `p`: the first alternative that matches whole wins. */
  function MatchFrom(words: seq<string>, line: string, p: int, k: nat): (n: Option<nat>)
    requires 0 <= p <= |line|
    requires k <= |words|
    ensures n.Some? ==> p + n.value <= |line|
    decreases |words| - k
  {
    if k == |words| then None
    else if OccursAt(line, p, words[k]) then Some(|words[k]|)
    else MatchFrom(words, line, p, k + 1)
  }

  /** A match found by the alternation is a whole-word occurrence of one of
      the alternatives tried. */
  lemma {:induction false} MatchFromSound(words: seq<string>, line: string, p: int, k: nat) returns (i: nat)
    requires 0 <= p <= |line|
    requires k <= |words|
    requires MatchFrom(words, line, p, k).Some?
    ensures k <= i < |words| && MatchFrom(words, line, p, k).value == |words[i]|
    ensures OccursAt(line, p, words[i])
    decreases |words| - k
  {
    if OccursAt(line, p, words[k]) {
      i := k;
    } else {
      i := MatchFromSound(words, line, p, k + 1);
    }
  }

  /** With no empty alternative, a match is never empty. */
  lemma {:induction false} MatchFromAdvances(words: seq<string>, line: string, p: int, k: nat)
    requires NonEmptyWords(words)
    requires 0 <= p <= |line|
    requires k <= |words|
    ensures MatchFrom(words, line, p, k).Some? ==> MatchFrom(words, line, p, k).value > 0
    decreases |words| - k
  {
    if k < |words| && !OccursAt(line, p, words[k]) {
      MatchFromAdvances(words, line, p, k + 1);
    }
  }

  /** The alternation fails exactly where none of the alternatives tried
      occurs whole. */
  lemma {:induction false} MatchFromNone(words: seq<string>, line: string, p: int, k: nat)
    requires 0 <= p <= |line|
    requires k <= |words|
    ensures MatchFrom(words, line, p, k).None? <==> forall i :: k <= i < |words| ==> !OccursAt(line, p, words[i])
    decreases |words| - k
  {
    if k < |words| {
      MatchFromNone(words, line, p, k + 1);
    }
  }

  /** One match object: where it starts and the text it covers, in the line's
      own case. */
  datatype Hit = Hit(start: nat, text: string)

  function End(h: Hit): nat { h.start + |h.text| }

  /** `h` is a whole-word match of one of the words: the line's own text
      between two word boundaries, reading as a word once lower-cased. */
  predicate IsHit(words: seq<string>, line: string, h: Hit)
  {
    && End(h) <= |line|
    && h.text == line[h.start..End(h)]
    && BoundaryAt(line, h.start)
    && BoundaryAt(line, End(h))
    && ToLower(h.text) in words
  }

  /** What the alternation matches at `p` is a whole-word match. */
  lemma MatchIsHit(words: seq<string>, line: string, p: nat, n: nat)
    requires NonEmptyWords(words)
    requires p <= |line|
    requires MatchFrom(words, line, p, 0) == Some(n)
    ensures n > 0 && p + n <= |line|
    ensures IsHit(words, line, Hit(p, line[p..p + n]))
  {
    var k := MatchFromSound(words, line, p, 0);
    var w := words[k];
    FoldsAtToLower(line, p, w);
    var h := Hit(p, line[p..p + n]);
    assert End(h) == p + |w|;
    assert ToLower(h.text) == w;
  }

  /** `finditer` from position `p`: a match is taken where the pattern matches
      and the search resumes at its end; elsewhere it moves on by one. */
  function Matches(words: seq<string>, line: string, p: nat): seq<Hit>
    requires NonEmptyWords(words)
    requires p <= |line|
    decreases |line| - p
  {
    if p == |line| then []
    else
      match MatchFrom(words, line, p, 0)
      case Some(n) =>
        MatchFromAdvances(words, line, p, 0);
        [Hit(p, line[p..p + n])] + Matches(words, line, p + n)
      case None => Matches(words, line, p + 1)
  }

  /** Every match `finditer` reports from `p` on starts at or after `p` and
      is a whole-word match of one of the words. */
  lemma {:induction false} MatchesSound(words: seq<string>, line: string, p: nat)
    requires NonEmptyWords(words)
    requires p <= |line|
    ensures forall h :: h in Matches(words, line, p) ==> p <= h.start && IsHit(words, line, h)
    decreases |line| - p
  {
    if p < |line| {
      match MatchFrom(words, line, p, 0)
      case Some(n) =>
        MatchIsHit(words, line, p, n);
        MatchesSound(words, line, p + n);
      case None =>
        MatchesSound(words, line, p + 1);
    }
  }

  /** The matches come left to right and do not overlap. */
  lemma {:induction false} MatchesOrdered(words: seq<string>, line: string, p: nat)
    requires NonEmptyWords(words)
    requires p <= |line|
    ensures forall i, j :: 0 <= i < j < |Matches(words, line, p)| ==>
              End(Matches(words, line, p)[i]) <= Matches(words, line, p)[j].start
    decreases |line| - p
  {
    if p < |line| {
      match MatchFrom(words, line, p, 0)
      case Some(n) =>
        MatchesStep(words, line, p, n);
        MatchesOrdered(words, line, p + n);
        MatchesStart(words, line, p + n);
      case None =>
        MatchesSkip(words, line, p);
        MatchesOrdered(words, line, p + 1);
    }
  }

  /** Every match reported from `p` on starts at or after `p`. */
  lemma {:induction false} MatchesStart(words: seq<string>, line: string, p: nat)
    requires NonEmptyWords(words)
    requires p <= |line|
    ensures forall i :: 0 <= i < |Matches(words, line, p)| ==> p <= Matches(words, line, p)[i].start
    decreases |line| - p
  {
    if p < |line| {
      match MatchFrom(words, line, p, 0)
      case Some(n) =>
        MatchesStep(words, line, p, n);
        MatchesStart(words, line, p + n);
      case None =>
        MatchesSkip(words, line, p);
        MatchesStart(words, line, p + 1);
    }
  }

  /** Characters that fold to a word of lower-case letters are word characters. */
  lemma LettersOfWord(line: string, p: int, w: string)
    requires LowerLetters(w)
    requires 0 <= p && p + |w| <= |line|
    requires FoldsAt(line, p, w)
    ensures forall i :: p <= i < p + |w| ==> IsWordChar(line[i])
  {
    FoldsAtChars(line, p, w);
    forall i | p <= i < p + |w|
      ensures IsWordChar(line[i])
    {
      assert LowerChar(line[p + (i - p)]) == w[i - p];
    }
  }

  /** Folding a stretch of the line that spells `w` gives `w`. */
  lemma FoldsAtToLower(line: string, p: int, w: string)
    requires 0 <= p && p + |w| <= |line|
    requires FoldsAt(line, p, w)
    ensures ToLower(line[p..p + |w|]) == w
  {
    FoldsAtChars(line, p, w);
    var s := line[p..p + |w|];
    forall i | 0 <= i < |w|
      ensures ToLower(s)[i] == w[i]
    {
      assert s[i] == line[p + i];
    }
  }

  /** A match is a whole word: the characters either side of it, if any,
      are not word characters. */
  lemma HitIsWholeWord(words: seq<string>, line: string, h: Hit)
    requires WordList(words)
    requires IsHit(words, line, h)
    ensures |h.text| > 0
    ensures h.start == 0 || !IsWordChar(line[h.start - 1])
    ensures End(h) == |line| || !IsWordChar(line[End(h)])
  {
    var k :| 0 <= k < |words| && words[k] == ToLower(h.text);
    LetterWordsAt(words, k);
    assert IsWordChar(h.text[0]) by {
      assert LowerChar(h.text[0]) == words[k][0];
    }
    assert IsWordChar(h.text[|h.text| - 1]) by {
      assert LowerChar(h.text[|h.text| - 1]) == words[k][|h.text| - 1];
    }
  }

  /** Two different words of letters cannot both match whole at one position:
      a shorter one would end inside a word, and words of equal length differ
      in some letter. */
  lemma OneWordAt(line: string, p: int, u: string, v: string)
    requires 0 <= p <= |line|
    requires |u| > 0 && |v| > 0 && LowerLetters(u) && LowerLetters(v) && u != v
    requires OccursAt(line, p, u)
    ensures !OccursAt(line, p, v)
  {
    if OccursAt(line, p, v) {
      if |u| < |v| {
        LettersOfWord(line, p, v);
      } else if |v| < |u| {
        LettersOfWord(line, p, u);
      } else {
        FoldsAtChars(line, p, u);
        FoldsAtChars(line, p, v);
      }
    }
  }

  /** Where a word occurs whole, the alternation matches exactly it. */
  lemma MatchAtOccurrence(words: seq<string>, line: string, p: int, i: nat)
    requires WordList(words)
    requires 0 <= p <= |line|
    requires i < |words|
    requires OccursAt(line, p, words[i])
    ensures MatchFrom(words, line, p, 0) == Some(|words[i]|)
  {
    MatchFromNone(words, line, p, 0);
    var n := MatchFrom(words, line, p, 0);
    var j := MatchFromSound(words, line, p, 0);
    if j != i {
      LetterWordsAt(words, i);
      LetterWordsAt(words, j);
      OneWordAt(line, p, words[i], words[j]);
    }
  }

  /** A match never swallows a word boundary, so a match starting before a
      boundary ends at or before it. */
  lemma MatchEndsBefore(words: seq<string>, line: string, q: nat, n: nat, p: nat)
    requires LetterWords(words)
    requires q < p <= |line|
    requires MatchFrom(words, line, q, 0) == Some(n)
    requires BoundaryAt(line, p)
    ensures q + n <= p
  {
    var j := MatchFromSound(words, line, q, 0);
    LetterWordsAt(words, j);
    LettersOfWord(line, q, words[j]);
  }

  /** One step of `finditer` where the pattern matches. */
  lemma MatchesStep(words: seq<string>, line: string, q: nat, m: nat)
    requires NonEmptyWords(words)
    requires q < |line|
    requires MatchFrom(words, line, q, 0) == Some(m)
    ensures 0 < m && q + m <= |line|
    ensures Matches(words, line, q) == [Hit(q, line[q..q + m])] + Matches(words, line, q + m)
  {
    MatchFromAdvances(words, line, q, 0);
  }

  /** One step of `finditer` where the pattern does not match. */
  lemma MatchesSkip(words: seq<string>, line: string, q: nat)
    requires NonEmptyWords(words)
    requires q < |line|
    requires MatchFrom(words, line, q, 0).None?
    ensures Matches(words, line, q) == Matches(words, line, q + 1)
  {
  }

  /** `finditer` reaches every position at a word boundary where the pattern
      matches, and reports that match. */
  lemma {:induction false} MatchesReach(words: seq<string>, line: string, q: nat, p: nat, n: nat)
    requires NonEmptyWords(words) && LetterWords(words)
    requires q <= p <= |line|
    requires BoundaryAt(line, p)
    requires MatchFrom(words, line, p, 0) == Some(n)
    ensures p + n <= |line| && Hit(p, line[p..p + n]) in Matches(words, line, q)
    decreases p - q
  {
    if q == p {
      MatchFromAdvances(words, line, p, 0);
      MatchesStep(words, line, p, n);
    } else {
      match MatchFrom(words, line, q, 0)
      case Some(m) =>
        MatchesStep(words, line, q, m);
        MatchEndsBefore(words, line, q, m, p);
        MatchesReach(words, line, q + m, p, n);
      case None =>
        MatchesSkip(words, line, q);
        MatchesReach(words, line, q + 1, p, n);
    }
  }

  /** Every whole-word occurrence of a word is reported, with the line's own
      spelling. */
  lemma MatchesComplete(words: seq<string>, line: string, p: nat, i: nat)
    requires WordList(words)
    requires p <= |line|
    requires i < |words|
    requires OccursAt(line, p, words[i])
    ensures Hit(p, line[p..p + |words[i]|]) in Matches(words, line, 0)
  {
    MatchAtOccurrence(words, line, p, i);
    MatchesReach(words, line, 0, p, |words[i]|);
  }

  /** A line in which no word occurs whole has no matches. */
  lemma {:induction false} NoOccurrenceNoMatches(words: seq<string>, line: string, p: nat)
    requires WordList(words)
    requires p <= |line|
    requires forall q, i :: p <= q <= |line| && 0 <= i < |words| ==> !OccursAt(line, q, words[i])
    ensures Matches(words, line, p) == []
    decreases |line| - p
  {
    if p < |line| {
      MatchFromNone(words, line, p, 0);
      NoOccurrenceNoMatches(words, line, p + 1);
    }
  }

  /** The forbidden words make such an alternation. */
  lemma ForbiddenWordList()
    ensures WordList(ForbiddenWords)
  {
  }

  /** The forbidden-word pattern applied to one line. */
  function LineMatches(line: string): seq<Hit>
  {
    ForbiddenWordList();
    Matches(ForbiddenWords, line, 0)
  }

  /** Every match of the forbidden-word pattern is a whole-word match. */
  lemma LineMatchesSound(line: string)
    ensures forall h :: h in LineMatches(line) ==> IsHit(ForbiddenWords, line, h)
  {
    ForbiddenWordList();
    MatchesSound(ForbiddenWords, line, 0);
  }

  /** `sweaty` is reported whole, not as `sweat`. */
  lemma SweatyReportedWhole()
    ensures LineMatches("Sweaty!") == [Hit(0, "Sweaty")]
  {
    var line := "Sweaty!";
    ForbiddenWordList();
    assert OccursAt(line, 0, ForbiddenWords[1]);
    MatchAtOccurrence(ForbiddenWords, line, 0, 1);
    MatchesStep(ForbiddenWords, line, 0, 6);
    MatchFromNone(ForbiddenWords, line, 6, 0);
    MatchesSkip(ForbiddenWords, line, 6);
    assert Matches(ForbiddenWords, line, 7) == [];
    assert line[0..6] == "Sweaty";
  }

  /** `sweatshirt` is not a forbidden word, although it starts with one. */
  lemma SweatshirtNotReported()
    ensures LineMatches("sweatshirt") == []
  {
    var line := "sweatshirt";
    ForbiddenWordList();
    forall p, i | 0 <= p <= |line| && 0 <= i < |ForbiddenWords|
      ensures !OccursAt(line, p, ForbiddenWords[i])
    {
      if p + |ForbiddenWords[i]| <= |line| {
        if 0 < p {
          assert !BoundaryAt(line, p);
        } else {
          assert !BoundaryAt(line, |ForbiddenWords[i]|);
        }
      }
    }
    NoOccurrenceNoMatches(ForbiddenWords, line, 0);
  }

  // ---------------------------------------------------------------------------
  // scan_file
  // ---------------------------------------------------------------------------

  /** The characters Python's `str.strip()` removes: the ASCII controls
      U+0009-U+000D and U+001C-U+001F, the space, and Unicode's other
      white-space characters. */
  predicate IsSpace(c: char)
  {
    var n := c as int;
    || n == 0x20 || 0x09 <= n <= 0x0D || 0x1C <= n <= 0x1F
    || n == 0x85 || n == 0xA0 || n == 0x1680 || 0x2000 <= n <= 0x200A
    || n == 0x2028 || n == 0x2029 || n == 0x202F || n == 0x205F || n == 0x3000
  }

  /** `s` with its leading white space removed. */
  function TrimStart(s: string): (r: string)
    ensures |r| <= |s| && r == s[|s| - |r|..]
    ensures forall i :: 0 <= i < |s| - |r| ==> IsSpace(s[i])
    ensures r == [] || !IsSpace(r[0])
  {
    if |s| > 0 && IsSpace(s[0]) then TrimStart(s[1..]) else s
  }

  /** `s` with its trailing white space removed. */
  function TrimEnd(s: string): (r: string)
    ensures |r| <= |s| && r == s[..|r|]
    ensures forall i :: |r| <= i < |s| ==> IsSpace(s[i])
    ensures r == [] || !IsSpace(r[|r| - 1])
  {
    if |s| > 0 && IsSpace(s[|s| - 1]) then TrimEnd(s[..|s| - 1]) else s
  }

  /** `str.strip()`: the line without the white space at either end. */
  function Strip(s: string): string
  {
    TrimEnd(TrimStart(s))
  }

  /** The stripped line is the slice of `s` that starts after its leading
      white space and is followed only by white space; it neither starts nor
      ends with white space. */
  lemma StripSpec(s: string)
    ensures |s| - |TrimStart(s)| + |Strip(s)| <= |s|
    ensures Strip(s) == s[|s| - |TrimStart(s)|..|s| - |TrimStart(s)| + |Strip(s)|]
    ensures forall k :: 0 <= k < |s| - |TrimStart(s)| ==> IsSpace(s[k])
    ensures forall k :: |s| - |TrimStart(s)| + |Strip(s)| <= k < |s| ==> IsSpace(s[k])
    ensures Strip(s) == [] || (!IsSpace(Strip(s)[0]) && !IsSpace(Strip(s)[|Strip(s)| - 1]))
  {
    var t := TrimStart(s);
    var r := TrimEnd(t);
    var a := |s| - |t|;
    assert r == t[..|r|];
    assert t == s[a..];
    assert r == s[a..a + |r|];
    forall k | a + |r| <= k < |s|
      ensures IsSpace(s[k])
    {
      assert s[k] == t[k - a];
    }
  }

  /** Stripping a stripped line changes nothing. */
  lemma StripIdempotent(s: string)
    ensures Strip(Strip(s)) == Strip(s)
  {
    var r := Strip(s);
    StripSpec(s);
    if r != [] {
      assert TrimStart(r) == r;
      assert TrimEnd(r) == r;
    }
  }

  /** One entry of `scan_file`'s result: the 1-based line number, the
      stripped line and the matched text. */
  datatype Violation = Violation(lineNumber: nat, text: string, word: string)

  /** The entries one line contributes, one per match, in match order. */
  function LineViolations(lineNumber: nat, line: string, hits: seq<Hit>): seq<Violation>
  {
    if |hits| == 0 then []
    else LineViolations(lineNumber, line, hits[..|hits| - 1]) + [Violation(lineNumber, Strip(line), hits[|hits| - 1].text)]
  }

  /** A line's entries are its matches' texts, in order, each with the line
      number and the stripped line. */
  lemma {:induction false} LineViolationsAt(lineNumber: nat, line: string, hits: seq<Hit>)
    ensures |LineViolations(lineNumber, line, hits)| == |hits|
    ensures forall i :: 0 <= i < |hits| ==>
              LineViolations(lineNumber, line, hits)[i] == Violation(lineNumber, Strip(line), hits[i].text)
  {
    if |hits| > 0 {
      LineViolationsAt(lineNumber, line, hits[..|hits| - 1]);
    }
  }

  /** What `scan_file` returns for a file with these lines, searched with
      the alternation of `words`. */
  function FileViolations(words: seq<string>, lines: seq<string>): seq<Violation>
    requires NonEmptyWords(words)
  {
    if |lines| == 0 then []
    else
      var last := lines[|lines| - 1];
      FileViolations(words, lines[..|lines| - 1]) + LineViolations(|lines|, last, Matches(words, last, 0))
  }

  /** `scan_file`: every match of every line, line by line. */
  method ScanFile(words: seq<string>, lines: seq<string>) returns (violations: seq<Violation>)
    requires NonEmptyWords(words)
    ensures violations == FileViolations(words, lines)
  {
    violations := [];
    for index := 0 to |lines|
      invariant violations == FileViolations(words, lines[..index])
    {
      var lineNumber := index + 1;
      var line := lines[index];
      var matches := Matches(words, line, 0);
      ghost var before := violations;
      for j := 0 to |matches|
        invariant violations == before + LineViolations(lineNumber, line, matches[..j])
      {
        var word := matches[j].text;
        violations := violations + [Violation(lineNumber, Strip(line), word)];
        assert matches[..j + 1][..j] == matches[..j];
      }
      assert matches[..|matches|] == matches;
      assert lines[..index + 1][..index] == lines[..index];
    }
    assert lines[..|lines|] == lines;
  }

  /** Each entry names a line of the file, carries that line stripped, and
      its word reads as one of the words once lower-cased. */
  lemma {:induction false} FileViolationsSound(words: seq<string>, lines: seq<string>)
    requires NonEmptyWords(words)
    ensures forall v :: v in FileViolations(words, lines) ==>
              && 1 <= v.lineNumber <= |lines|
              && v.text == Strip(lines[v.lineNumber - 1])
              && ToLower(v.word) in words
  {
    if |lines| > 0 {
      var init, last := lines[..|lines| - 1], lines[|lines| - 1];
      var hits := Matches(words, last, 0);
      var earlier, here := FileViolations(words, init), LineViolations(|lines|, last, hits);
      assert FileViolations(words, lines) == earlier + here;
      FileViolationsSound(words, init);
      MatchesSound(words, last, 0);
      LineViolationsAt(|lines|, last, hits);
      forall v: Violation | v in earlier + here
        ensures 1 <= v.lineNumber <= |lines|
        ensures v.text == Strip(lines[v.lineNumber - 1])
        ensures ToLower(v.word) in words
      {
        if v in earlier {
          assert lines[v.lineNumber - 1] == init[v.lineNumber - 1];
        } else {
          var i :| 0 <= i < |here| && here[i] == v;
          assert hits[i] in hits;
        }
      }
    }
  }

  /** Entries come in line order. */
  lemma {:induction false} FileViolationsOrdered(words: seq<string>, lines: seq<string>)
    requires NonEmptyWords(words)
    ensures forall i, j :: 0 <= i < j < |FileViolations(words, lines)| ==>
              FileViolations(words, lines)[i].lineNumber <= FileViolations(words, lines)[j].lineNumber
  {
    if |lines| > 0 {
      var init, last := lines[..|lines| - 1], lines[|lines| - 1];
      var hits := Matches(words, last, 0);
      var earlier, here := FileViolations(words, init), LineViolations(|lines|, last, hits);
      assert FileViolations(words, lines) == earlier + here;
      FileViolationsOrdered(words, init);
      FileViolationsSound(words, init);
      LineViolationsAt(|lines|, last, hits);
      forall i | 0 <= i < |earlier|
        ensures earlier[i].lineNumber <= |init|
      {
        assert earlier[i] in earlier;
      }
    }
  }

  /** Every whole-word occurrence of a forbidden word in any line is an entry
      of the file's result, with the line's own spelling. */
  lemma {:induction false} FileViolationsComplete(words: seq<string>, lines: seq<string>, n: nat, p: nat, k: nat)
    requires WordList(words)
    requires 0 <= n < |lines|
    requires p <= |lines[n]|
    requires k < |words|
    requires OccursAt(lines[n], p, words[k])
    ensures Violation(n + 1, Strip(lines[n]), lines[n][p..p + |words[k]|]) in FileViolations(words, lines)
  {
    var init, last := lines[..|lines| - 1], lines[|lines| - 1];
    if n < |lines| - 1 {
      assert init[n] == lines[n];
      FileViolationsComplete(words, init, n, p, k);
    } else {
      MatchesComplete(words, last, p, k);
      var hits := Matches(words, last, 0);
      var i :| 0 <= i < |hits| && hits[i] == Hit(p, last[p..p + |words[k]|]);
      LineViolationsAt(|lines|, last, hits);
      assert LineViolations(|lines|, last, hits)[i] in LineViolations(|lines|, last, hits);
    }
  }

  // ---------------------------------------------------------------------------
  // scan_directory
  // ---------------------------------------------------------------------------

  /** A file found under the scanned directory: its path and its lines. */
  datatype SourceFile = SourceFile(path: string, lines: seq<string>)

  /** The last component of a path: what follows the last '/'. */
  function FileName(path: string): string
  {
    if |path| == 0 || path[|path| - 1] == '/' then ""
    else FileName(path[..|path| - 1]) + [path[|path| - 1]]
  }

  /** The name is the end of the path after its last slash. */
  lemma {:induction false} FileNameLastComponent(path: string)
    ensures |FileName(path)| <= |path| && FileName(path) == path[|path| - |FileName(path)|..]
    ensures forall i :: 0 <= i < |FileName(path)| ==> FileName(path)[i] != '/'
    ensures |FileName(path)| < |path| ==> path[|path| - |FileName(path)| - 1] == '/'
  {
    if |path| > 0 && path[|path| - 1] != '/' {
      var init := path[..|path| - 1];
      FileNameLastComponent(init);
      assert path[|path| - |FileName(path)|..] == path[|init| - |FileName(init)|..|init|] + [path[|path| - 1]];
    }
  }

  /** `str.rfind('.')`: the index of the last dot, if there is one. */
  function LastDot(s: string): (i: Option<nat>)
    ensures i.Some? ==> i.value < |s| && s[i.value] == '.' &&
                        forall j :: i.value < j < |s| ==> s[j] != '.'
    ensures i.None? ==> forall j :: 0 <= j < |s| ==> s[j] != '.'
  {
    if |s| == 0 then None
    else if s[|s| - 1] == '.' then Some(|s| - 1)
    else LastDot(s[..|s| - 1])
  }

  /** `PurePath.suffix`: from the last dot of the name on, provided that dot
      is neither the name's first nor its last character; otherwise empty. */
  function Suffix(path: string): string
  {
    NameSuffix(FileName(path))
  }

  /** The suffix of a file name. */
  function NameSuffix(name: string): string
  {
    match LastDot(name)
    case Some(i) => if 0 < i < |name| - 1 then name[i..] else ""
    case None => ""
  }

  /** An extension of the form ".xyz": a dot followed by at least one
      character, none of them a dot or a slash. */
  predicate Extension(e: string)
  {
    |e| >= 2 && e[0] == '.' && forall i :: 1 <= i < |e| ==> e[i] != '.' && e[i] != '/'
  }

  /** A dot with no dot after it is the last dot. */
  lemma LastDotAt(s: string, k: nat)
    requires k < |s| && s[k] == '.'
    requires forall j :: k < j < |s| ==> s[j] != '.'
    ensures LastDot(s) == Some(k)
  {
  }

  /** A non-empty suffix is a proper ending of the name. */
  lemma SuffixEndsName(name: string)
    ensures NameSuffix(name) != "" ==>
              |name| > |NameSuffix(name)| &&
              name[|name| - |NameSuffix(name)|..] == NameSuffix(name)
  {
    match LastDot(name)
    case Some(i) =>
      if 0 < i < |name| - 1 {
        assert NameSuffix(name) == name[i..];
        assert |name| - |NameSuffix(name)| == i;
      }
    case None =>
  }

  /** A name that ends in an extension, with something in front of it, has
      that extension as its suffix. */
  lemma ExtensionIsSuffix(name: string, e: string)
    requires Extension(e)
    requires |name| > |e| && name[|name| - |e|..] == e
    ensures NameSuffix(name) == e
  {
    var k := |name| - |e|;
    forall j | k < j < |name|
      ensures name[j] != '.'
    {
      assert name[j] == e[j - k];
    }
    assert name[k] == e[0];
    LastDotAt(name, k);
    assert name[k..] == e;
  }

  /** A path has suffix `e` exactly when its name ends in `e` and has at least
      one more character in front of it. */
  lemma SuffixIsExtension(path: string, e: string)
    requires Extension(e)
    ensures Suffix(path) == e <==>
              (|FileName(path)| > |e| && FileName(path)[|FileName(path)| - |e|..] == e)
  {
    var name := FileName(path);
    SuffixEndsName(name);
    if |name| > |e| && name[|name| - |e|..] == e {
      ExtensionIsSuffix(name, e);
    }
  }

  /** The files `scan_directory` keeps: a scanned suffix. */
  predicate Scanned(f: SourceFile)
  {
    Suffix(f.path) in ScanExtensions
  }

  /** Every scanned suffix is an extension. */
  lemma ScanExtensionsAreExtensions()
    ensures forall e :: e in ScanExtensions ==> Extension(e)
  {
  }

  /** The map `scan_directory` builds from the files in the order found: a
      file with a scanned suffix and at least one entry is recorded under its
      path. */
  function DirectoryViolations(words: seq<string>, files: seq<SourceFile>): map<string, seq<Violation>>
    requires NonEmptyWords(words)
  {
    if |files| == 0 then map[]
    else
      var found := DirectoryViolations(words, files[..|files| - 1]);
      var f := files[|files| - 1];
      var violations := FileViolations(words, f.lines);
      if Scanned(f) && |violations| > 0 then found[f.path := violations] else found
  }

  /** `scan_directory`: `None` stands for a directory that does not exist. */
  method ScanDirectory(words: seq<string>, tree: Option<seq<SourceFile>>)
    returns (allViolations: map<string, seq<Violation>>)
    requires NonEmptyWords(words)
    ensures tree.None? ==> allViolations == map[]
    ensures tree.Some? ==> allViolations == DirectoryViolations(words, tree.value)
  {
    allViolations := map[];
    if tree.None? {
      return;
    }
    var files := tree.value;
    for i := 0 to |files|
      invariant allViolations == DirectoryViolations(words, files[..i])
    {
      var file := files[i];
      if Suffix(file.path) in ScanExtensions {
        var violations := ScanFile(words, file.lines);
        if |violations| > 0 {
          allViolations := allViolations[file.path := violations];
        }
      }
      assert files[..i + 1][..i] == files[..i];
    }
    assert files[..|files|] == files;
  }

  /** Scanning more files never drops a path already recorded. */
  lemma DirectoryViolationsGrows(words: seq<string>, files: seq<SourceFile>, path: string)
    requires NonEmptyWords(words)
    requires |files| > 0
    requires path in DirectoryViolations(words, files[..|files| - 1])
    ensures path in DirectoryViolations(words, files)
  {
  }

  /** A recorded path belongs to a scanned file whose result is its value. */
  lemma {:induction false} DirectoryViolationsFrom(words: seq<string>, files: seq<SourceFile>, path: string)
    returns (i: nat)
    requires NonEmptyWords(words)
    requires path in DirectoryViolations(words, files)
    ensures i < |files| && files[i].path == path && Scanned(files[i])
    ensures DirectoryViolations(words, files)[path] == FileViolations(words, files[i].lines)
    ensures |DirectoryViolations(words, files)[path]| > 0
  {
    var init, f := files[..|files| - 1], files[|files| - 1];
    if f.path == path && Scanned(f) && |FileViolations(words, f.lines)| > 0 {
      i := |files| - 1;
    } else {
      i := DirectoryViolationsFrom(words, init, path);
      assert files[i] == init[i];
    }
  }

  /** A scanned file with an entry has its path recorded. */
  lemma {:induction false} DirectoryViolationsHas(words: seq<string>, files: seq<SourceFile>, i: nat)
    requires NonEmptyWords(words)
    requires i < |files| && Scanned(files[i]) && |FileViolations(words, files[i].lines)| > 0
    ensures files[i].path in DirectoryViolations(words, files)
  {
    if i < |files| - 1 {
      var init := files[..|files| - 1];
      assert init[i] == files[i];
      DirectoryViolationsHas(words, init, i);
      DirectoryViolationsGrows(words, files, files[i].path);
    }
  }

  // ---------------------------------------------------------------------------
  // format_report
  // ---------------------------------------------------------------------------

  /** Python's `<` on strings: code point by code point, a proper prefix
      coming first. */
  predicate StrLt(a: string, b: string)
  {
    if |a| == 0 then |b| > 0
    else if |b| == 0 then false
    else if a[0] != b[0] then a[0] < b[0]
    else StrLt(a[1..], b[1..])
  }

  lemma {:induction false} StrLtIrreflexive(a: string)
    ensures !StrLt(a, a)
  {
    if |a| > 0 {
      StrLtIrreflexive(a[1..]);
    }
  }

  lemma {:induction false} StrLtAsymmetric(a: string, b: string)
    requires StrLt(a, b)
    ensures !StrLt(b, a)
  {
    if |a| > 0 && |b| > 0 && a[0] == b[0] {
      StrLtAsymmetric(a[1..], b[1..]);
    }
  }

  lemma {:induction false} StrLtTransitive(a: string, b: string, c: string)
    requires StrLt(a, b) && StrLt(b, c)
    ensures StrLt(a, c)
  {
    if |a| > 0 && |b| > 0 && |c| > 0 && a[0] == b[0] && b[0] == c[0] {
      StrLtTransitive(a[1..], b[1..], c[1..]);
    }
  }

  lemma {:induction false} StrLtTotal(a: string, b: string)
    requires a != b
    ensures StrLt(a, b) || StrLt(b, a)
  {
    if |a| > 0 && |b| > 0 && a[0] == b[0] {
      assert a == [a[0]] + a[1..] && b == [b[0]] + b[1..];
      StrLtTotal(a[1..], b[1..]);
    }
  }

  /** `k` is the first of `paths` in string order. */
  predicate IsLeast(k: string, paths: set<string>)
  {
    k in paths && forall j :: j in paths && j != k ==> StrLt(k, j)
  }

  lemma {:induction false} LeastExists(paths: set<string>)
    requires paths != {}
    ensures exists k :: IsLeast(k, paths)
    decreases |paths|
  {
    var x :| x in paths;
    var rest := paths - {x};
    if rest == {} {
      assert paths == {x};
      assert IsLeast(x, paths);
    } else {
      LeastExists(rest);
      var y :| IsLeast(y, rest);
      if StrLt(x, y) {
        forall j | j in paths && j != x
          ensures StrLt(x, j)
        {
          if j != y {
            StrLtTransitive(x, y, j);
          }
        }
        assert IsLeast(x, paths);
      } else {
        StrLtTotal(x, y);
        assert IsLeast(y, paths);
      }
    }
  }

  lemma LeastUnique(a: string, b: string, paths: set<string>)
    requires IsLeast(a, paths) && IsLeast(b, paths)
    ensures a == b
  {
    if a != b {
      StrLtAsymmetric(a, b);
    }
  }

  /** The first path in string order. */
  ghost function Least(paths: set<string>): (k: string)
    requires paths != {}
    ensures IsLeast(k, paths)
  {
    LeastExists(paths);
    var k :| IsLeast(k, paths);
    k
  }

  /** The paths in the order `sorted` puts them. */
  ghost function SortedPaths(paths: set<string>): seq<string>
    decreases |paths|
  {
    if paths == {} then [] else [Least(paths)] + SortedPaths(paths - {Least(paths)})
  }

  /** `SortedPaths` lists every path once... */
  lemma {:induction false} SortedPathsMembers(paths: set<string>)
    ensures |SortedPaths(paths)| == |paths|
    ensures forall k :: k in SortedPaths(paths) <==> k in paths
    decreases |paths|
  {
    if paths != {} {
      SortedPathsMembers(paths - {Least(paths)});
    }
  }

  /** ... in strictly increasing order. */
  lemma {:induction false} SortedPathsSorted(paths: set<string>)
    ensures forall i, j :: 0 <= i < j < |SortedPaths(paths)| ==> StrLt(SortedPaths(paths)[i], SortedPaths(paths)[j])
    decreases |paths|
  {
    if paths != {} {
      var k := Least(paths);
      SortedPathsSorted(paths - {k});
      SortedPathsMembers(paths - {k});
      var rest := SortedPaths(paths - {k});
      assert SortedPaths(paths) == [k] + rest;
      forall j | 0 <= j < |rest|
        ensures StrLt(k, rest[j])
      {
        assert rest[j] in rest;
      }
    }
  }

  /** Taking the least path first. */
  lemma SortedPathsStep(paths: set<string>, k: string)
    requires IsLeast(k, paths)
    ensures SortedPaths(paths) == [k] + SortedPaths(paths - {k})
  {
    LeastUnique(k, Least(paths), paths);
  }

  /** `sum(len(v) for v in violations.values())` over the given paths. */
  ghost function Total(m: map<string, seq<Violation>>, paths: set<string>): nat
    requires paths <= m.Keys
    decreases |paths|
  {
    if paths == {} then 0
    else
      var k := Least(paths);
      |m[k]| + Total(m, paths - {k})
  }

  /** The total does not depend on the order the paths are visited in: any
      path can be taken out first. */
  lemma {:induction false} TotalRemove(m: map<string, seq<Violation>>, paths: set<string>, k: string)
    requires paths <= m.Keys && k in paths
    ensures Total(m, paths) == |m[k]| + Total(m, paths - {k})
    decreases |paths|
  {
    var l := Least(paths);
    if k != l {
      TotalRemove(m, paths - {l}, k);
      TotalRemove(m, paths - {k}, l);
      assert paths - {l} - {k} == paths - {k} - {l};
    }
  }

  const PassTag := "[PASS]"
  const FailTag := "[FAIL]"
  const PassReport := PassTag + " No forbidden words found. Site is compliant."
  const FailHeader := FailTag + " FORBIDDEN WORDS DETECTED"
  const FailFooter := "Brand compliance FAILED. Remove all forbidden words before deploying."

  /** The line shown under an entry: at most 80 characters of it, with "..."
      when it was cut. */
  function Preview(text: string): (preview: string)
    ensures |preview| <= 83
    ensures |text| <= 80 ==> preview == text
    ensures |text| > 80 ==> preview == text[..80] + "..."
  {
    if |text| > 80 then text[..80] + "..." else text
  }

  /** The two report lines of one entry. */
  function EntryLines(v: Violation): seq<string>
  {
    ["  Line " + NatToDecimal(v.lineNumber) + ": '" + v.word + "' found", "    " + Preview(v.text)]
  }

  function EntriesLines(vs: seq<Violation>): (lines: seq<string>)
    ensures |lines| == 2 * |vs|
  {
    if |vs| == 0 then [] else EntriesLines(vs[..|vs| - 1]) + EntryLines(vs[|vs| - 1])
  }

  /** The report section of one file. */
  function SectionLines(path: string, vs: seq<Violation>): seq<string>
  {
    ["File: " + path] + EntriesLines(vs) + [""]
  }

  /** The sections of the given paths, in the given order. */
  function Sections(m: map<string, seq<Violation>>, paths: seq<string>): seq<string>
    requires forall k :: k in paths ==> k in m
  {
    if |paths| == 0 then [] else SectionLines(paths[0], m[paths[0]]) + Sections(m, paths[1..])
  }

  /** The lines of the report for a non-empty map. */
  ghost function ReportLines(m: map<string, seq<Violation>>): seq<string>
  {
    SortedPathsMembers(m.Keys);
    [FailHeader, "", "Total violations: " + NatToDecimal(Total(m, m.Keys)),
     "Files affected: " + NatToDecimal(|m.Keys|), ""]
    + Sections(m, SortedPaths(m.Keys)) + [FailFooter]
  }

  /** `"\n".join(lines)`. */
  function Join(lines: seq<string>): string
  {
    if |lines| == 0 then ""
    else if |lines| == 1 then lines[0]
    else Join(lines[..|lines| - 1]) + "\n" + lines[|lines| - 1]
  }

  /** What `format_report` returns. */
  ghost function Report(m: map<string, seq<Violation>>): string
  {
    if |m| == 0 then PassReport else Join(ReportLines(m))
  }

  /** The loop of `format_report` that adds up the counts, in whatever
      order the dictionary yields its keys. */
  method CountViolations(m: map<string, seq<Violation>>) returns (totalCount: nat)
    ensures totalCount == Total(m, m.Keys)
  {
    totalCount := 0;
    var left := m.Keys;
    while left != {}
      invariant left <= m.Keys
      invariant totalCount + Total(m, left) == Total(m, m.Keys)
      decreases |left|
    {
      var k :| k in left;
      TotalRemove(m, left, k);
      totalCount := totalCount + |m[k]|;
      left := left - {k};
    }
  }

  /** The lines `format_report` writes for one file. */
  method FileSection(filePath: string, fileViolations: seq<Violation>) returns (lines: seq<string>)
    ensures lines == SectionLines(filePath, fileViolations)
  {
    lines := ["File: " + filePath];
    for j := 0 to |fileViolations|
      invariant lines == ["File: " + filePath] + EntriesLines(fileViolations[..j])
    {
      var v := fileViolations[j];
      var preview := if |v.text| > 80 then v.text[..80] + "..." else v.text;
      lines := lines + ["  Line " + NatToDecimal(v.lineNumber) + ": '" + v.word + "' found", "    " + preview];
      assert fileViolations[..j + 1][..j] == fileViolations[..j];
    }
    assert fileViolations[..|fileViolations|] == fileViolations;
    lines := lines + [""];
  }

  /** The sections of the files in `paths`, taking them in sorted order. */
  lemma SectionsStep(m: map<string, seq<Violation>>, paths: set<string>, k: string)
    requires paths <= m.Keys && IsLeast(k, paths)
    ensures forall p :: p in SortedPaths(paths) ==> p in m
    ensures forall p :: p in SortedPaths(paths - {k}) ==> p in m
    ensures Sections(m, SortedPaths(paths)) == SectionLines(k, m[k]) + Sections(m, SortedPaths(paths - {k}))
  {
    SortedPathsMembers(paths);
    SortedPathsMembers(paths - {k});
    SortedPathsStep(paths, k);
  }

  /** The sections of all files, visiting the paths in sorted order. */
  method AllSections(m: map<string, seq<Violation>>) returns (lines: seq<string>)
    ensures forall k :: k in SortedPaths(m.Keys) ==> k in m
    ensures lines == Sections(m, SortedPaths(m.Keys))
  {
    SortedPathsMembers(m.Keys);
    lines := [];
    var remaining := m.Keys;
    while remaining != {}
      invariant remaining <= m.Keys
      invariant forall k :: k in SortedPaths(remaining) ==> k in m
      invariant lines + Sections(m, SortedPaths(remaining)) == Sections(m, SortedPaths(m.Keys))
      decreases |remaining|
    {
      LeastExists(remaining);
      var filePath :| IsLeast(filePath, remaining);
      var section := FileSection(filePath, m[filePath]);
      SectionsAdvance(m, remaining, filePath, lines, section, Sections(m, SortedPaths(m.Keys)));
      lines := lines + section;
      remaining := remaining - {filePath};
    }
    SortedPathsMembers(remaining);
  }

  /** The loop of `AllSections` keeps its invariant. */
  lemma SectionsAdvance(m: map<string, seq<Violation>>, remaining: set<string>, filePath: string,
                        lines: seq<string>, section: seq<string>, all: seq<string>)
    requires remaining <= m.Keys && IsLeast(filePath, remaining)
    requires forall k :: k in SortedPaths(remaining) ==> k in m
    requires section == SectionLines(filePath, m[filePath])
    requires lines + Sections(m, SortedPaths(remaining)) == all
    ensures forall k :: k in SortedPaths(remaining - {filePath}) ==> k in m
    ensures (lines + section) + Sections(m, SortedPaths(remaining - {filePath})) == all
  {
    SectionsStep(m, remaining, filePath);
  }

  /** `format_report`. */
  method FormatReport(m: map<string, seq<Violation>>) returns (report: string)
    ensures report == Report(m)
  {
    if |m| == 0 {
      return PassReport;
    }
    var totalCount := CountViolations(m);
    var sections := AllSections(m);
    var reportLines := [FailHeader, "", "Total violations: " + NatToDecimal(totalCount),
                        "Files affected: " + NatToDecimal(|m.Keys|), ""] + sections + [FailFooter];
    report := Join(reportLines);
  }

  /** `str.split("\n")`: the inverse of `Join` on lines without a newline. */
  function Split(s: string): (parts: seq<string>)
    ensures |parts| >= 1
  {
    if |s| == 0 then [""]
    else if s[0] == '\n' then [""] + Split(s[1..])
    else
      var rest := Split(s[1..]);
      [[s[0]] + rest[0]] + rest[1..]
  }

  lemma {:induction false} SplitNoNewline(a: string)
    requires forall i :: 0 <= i < |a| ==> a[i] != '\n'
    ensures Split(a) == [a]
  {
    if |a| > 0 {
      SplitNoNewline(a[1..]);
      assert [a[0]] + a[1..] == a;
    }
  }

  lemma {:induction false} SplitAtNewline(a: string, b: string)
    requires forall i :: 0 <= i < |a| ==> a[i] != '\n'
    ensures Split(a + "\n" + b) == [a] + Split(b)
  {
    if |a| == 0 {
      assert a + "\n" + b == "\n" + b;
      assert ("\n" + b)[1..] == b;
    } else {
      SplitAtNewline(a[1..], b);
      assert (a + "\n" + b)[1..] == a[1..] + "\n" + b;
      assert [a[0]] + a[1..] == a;
    }
  }

  /** Joining puts the first line, a newline, and the rest. */
  lemma {:induction false} JoinFirst(lines: seq<string>)
    requires |lines| >= 2
    ensures Join(lines) == lines[0] + "\n" + Join(lines[1..])
    decreases |lines|
  {
    var n := |lines|;
    if n > 2 {
      JoinFirst(lines[..n - 1]);
      assert lines[..n - 1][1..] == lines[1..][..n - 2];
    }
  }

  /** Splitting the joined lines gives the lines back, when none of them
      holds a newline. */
  lemma {:induction false} SplitJoin(lines: seq<string>)
    requires |lines| >= 1
    requires forall k, i :: 0 <= k < |lines| && 0 <= i < |lines[k]| ==> lines[k][i] != '\n'
    ensures Split(Join(lines)) == lines
    decreases |lines|
  {
    if |lines| == 1 {
      SplitNoNewline(lines[0]);
    } else {
      JoinFirst(lines);
      SplitAtNewline(lines[0], Join(lines[1..]));
      SplitJoin(lines[1..]);
      assert [lines[0]] + lines[1..] == lines;
    }
  }

  /** Each file contributes its header, two lines per entry and a blank line. */
  lemma {:induction false} SectionsLength(m: map<string, seq<Violation>>, paths: set<string>)
    requires paths <= m.Keys
    ensures forall p :: p in SortedPaths(paths) ==> p in m
    ensures |Sections(m, SortedPaths(paths))| == 2 * Total(m, paths) + 2 * |paths|
    decreases |paths|
  {
    SortedPathsMembers(paths);
    if paths != {} {
      var k := Least(paths);
      SectionsStep(m, paths, k);
      SectionsLength(m, paths - {k});
    }
  }

  /** A failing report has five header lines, the sections and the footer. */
  lemma ReportLength(m: map<string, seq<Violation>>)
    ensures |ReportLines(m)| == 6 + 2 * Total(m, m.Keys) + 2 * |m|
  {
    SectionsLength(m, m.Keys);
  }

  /** Every file's violation count shows in the total: when no file is
      listed without violations, there are at least as many violations as
      files. */
  lemma {:induction false} TotalAtLeastFiles(m: map<string, seq<Violation>>, paths: set<string>)
    requires paths <= m.Keys
    requires forall k :: k in paths ==> |m[k]| > 0
    ensures Total(m, paths) >= |paths|
    decreases |paths|
  {
    if paths != {} {
      TotalAtLeastFiles(m, paths - {Least(paths)});
    }
  }

  /** The joined text starts with the first line and a newline, and ends
      with a newline and the last line. */
  lemma JoinEnds(lines: seq<string>)
    requires |lines| >= 2
    ensures |Join(lines)| > |lines[0]| + |lines[|lines| - 1]|
    ensures Join(lines)[..|lines[0]| + 1] == lines[0] + "\n"
    ensures Join(lines)[|Join(lines)| - |lines[|lines| - 1]| - 1..] == "\n" + lines[|lines| - 1]
  {
    JoinFirst(lines);
  }

  lemma ReportLinesEnds(m: map<string, seq<Violation>>)
    ensures |ReportLines(m)| >= 2
    ensures ReportLines(m)[0] == FailHeader
    ensures ReportLines(m)[|ReportLines(m)| - 1] == FailFooter
  {
  }

  /** A report with violations starts with the failure header line and ends
      with the footer line. */
  lemma ReportFails(m: map<string, seq<Violation>>)
    requires |m| > 0
    ensures |Report(m)| > |FailHeader| + |FailFooter|
    ensures Report(m)[..|FailHeader| + 1] == FailHeader + "\n"
    ensures Report(m)[|Report(m)| - |FailFooter| - 1..] == "\n" + FailFooter
  {
    ReportLinesEnds(m);
    JoinEnds(ReportLines(m));
  }

  /** Without violations the report is the passing text ... */
  lemma PassWhenClean(m: map<string, seq<Violation>>)
    requires |m| == 0
    ensures Report(m) == PassReport
  {
  }

  /** ... and with violations it is not. */
  lemma FailWhenDirty(m: map<string, seq<Violation>>)
    requires |m| > 0
    ensures Report(m) != PassReport
  {
    ReportFails(m);
    assert Report(m)[1] == (FailHeader + "\n")[1] == FailTag[1];
    assert PassReport[1] == PassTag[1];
    DifferAt(Report(m), PassReport, 1);
  }

  lemma DifferAt(a: string, b: string, i: nat)
    requires i < |a| && i < |b| && a[i] != b[i]
    ensures a != b
  {
  }

  /** The exit status of `main`. */
  function ExitCode(m: map<string, seq<Violation>>): (code: int)
    ensures code == 1 <==> |m| > 0
    ensures 0 <= code <= 1
  {
    if |m| > 0 then 1 else 0
  }

  /** `main` fails exactly when the report it prints is not the passing one. */
  lemma ExitCodeMatchesReport(m: map<string, seq<Violation>>)
    ensures ExitCode(m) == 0 <==> Report(m) == PassReport
  {
    if |m| > 0 {
      FailWhenDirty(m);
    }
  }
}
