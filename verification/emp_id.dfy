/**
 * Employee identifiers (src/lib/empId.ts): three upper-case initials of the
 * department name, padded with `X`, then `-` and the one-based sequence
 * number padded to at least three digits, e.g. `HRX-005`.
 */
module EmpId {
  import opened Text

  /** `s.replace(/[^A-Za-z]+/g, ' ')`: every maximal run of non-letters becomes one space. */
  function ReplaceNonLetters(s: string): (r: string)
    ensures forall i :: 0 <= i < |r| ==> IsAsciiLetter(r[i]) || r[i] == ' '
    ensures s != [] && !IsAsciiLetter(s[0]) ==> r != [] && r[0] == ' '
    decreases |s|
  {
    if s == [] then []
    else if !IsAsciiLetter(s[0]) then " " + ReplaceNonLetters(s[GapLen(s, IsAsciiLetter)..])
    else
      var k := PrefixLen(s, IsAsciiLetter);
      s[..k] + ReplaceNonLetters(s[k..])
  }

  /** `s.split(/\s+/)`: the pieces between maximal whitespace runs (`""` splits into `[""]`). */
  function SplitWhitespace(s: string): (parts: seq<string>)
    ensures parts != []
    decreases |s|
  {
    var k := PrefixLen(s, IsNotWhitespace);
    if k == |s| then [s]
    else
      var rest := s[k..];
      [s[..k]] + SplitWhitespace(rest[GapLen(rest, IsNotWhitespace)..])
  }

  /** `word[0]?.toUpperCase() ?? ''` */
  function FirstUpper(word: string): (r: string)
    ensures |r| == if word == [] then 0 else 1
  {
    if word == [] then "" else [UpperChar(word[0])]
  }

  /** `words.map(FirstUpper).join('')` */
  function Initials(words: seq<string>): string {
    if words == [] then "" else FirstUpper(words[0]) + Initials(words[1..])
  }

  /** The prefix chain of `makeEmpId`: replace, trim, split, take three words, initials, pad, slice. */
  function Prefix(deptName: string): (p: string)
    ensures |p| == 3
  {
    PrefixOfWords(SplitWhitespace(Trim(ReplaceNonLetters(deptName))))
  }

  /** The tail of the prefix chain: take three words, initials, pad with `X`, cut to three. */
  function PrefixOfWords(words: seq<string>): (p: string)
    ensures |p| == 3
  {
    var firstThree := if |words| <= 3 then words else words[..3];
    PadEnd(Initials(firstThree), 3, 'X')[..3]
  }

  /** `(existingCount + 1).toString().padStart(3, '0')` */
  function NumberPart(existingCount: int): (r: string)
    ensures |r| >= 3
  {
    PadStart(IntToString(existingCount + 1), 3, '0')
  }

  /** `makeEmpId(deptName, existingCount)` */
  function MakeEmpId(deptName: string, existingCount: int): (id: string)
    ensures deptName == "" <==> id == ""
    ensures deptName != "" ==>
              (|id| >= 7 && id[3] == '-' && id[..3] == Prefix(deptName) && id[4..] == NumberPart(existingCount))
  {
    if deptName == "" then ""
    else
      var prefix, numberPart := Prefix(deptName), NumberPart(existingCount);
      JoinedShape(prefix, numberPart);
      prefix + "-" + numberPart
  }

  /** Three characters, a dash and the number part: each piece sits at its fixed place. */
  lemma JoinedShape(prefix: string, numberPart: string)
    requires |prefix| == 3 && |numberPart| >= 3
    ensures var id := prefix + "-" + numberPart;
            |id| >= 7 && id[3] == '-' && id[..3] == prefix && id[4..] == numberPart
  {
    var id := prefix + "-" + numberPart;
    assert id[..3] == prefix;
    assert id[4..] == numberPart;
  }

  // ---------------------------------------------------------------------------
  // The reference definition: maximal runs of characters satisfying `p`.

  /** The maximal runs of consecutive characters of `s` satisfying `p`, left to right. */
  function Runs(s: string, p: char -> bool): (ws: seq<string>)
    ensures forall i :: 0 <= i < |ws| ==> ws[i] != [] && forall j :: 0 <= j < |ws[i]| ==> p(ws[i][j])
    decreases |s|
  {
    var t := s[GapLen(s, p)..];
    if t == [] then []
    else
      var k := PrefixLen(t, p);
      [t[..k]] + Runs(t[k..], p)
  }

  /** A run of `p`-characters followed by a non-`p` character (or nothing) is one run. */
  lemma RunsCons(x: string, y: string, p: char -> bool)
    requires x != [] && forall i :: 0 <= i < |x| ==> p(x[i])
    requires y == [] || !p(y[0])
    ensures Runs(x + y, p) == [x] + Runs(y, p)
  {
    PrefixLenAppend(x, y, p);
    assert (x + y)[..|x|] == x;
    assert (x + y)[|x|..] == y;
  }

  /** Leading characters outside `p` do not start a run. */
  lemma RunsSkip(s: string, p: char -> bool)
    ensures Runs(s, p) == Runs(s[GapLen(s, p)..], p)
  {
    var t := s[GapLen(s, p)..];
    assert GapLen(t, p) == 0;
  }

  /** Replacing non-letter runs by single spaces turns letter runs into whitespace-separated words. */
  lemma {:induction false} WordsOfReplace(s: string)
    ensures Runs(ReplaceNonLetters(s), IsNotWhitespace) == Runs(s, IsAsciiLetter)
    decreases |s|
  {
    if s == [] {
    } else if !IsAsciiLetter(s[0]) {
      var g := GapLen(s, IsAsciiLetter);
      var x := ReplaceNonLetters(s[g..]);
      assert GapLen(" " + x, IsNotWhitespace) == 1 + GapLen(x, IsNotWhitespace) by {
        assert (" " + x)[1..] == x;
      }
      assert (" " + x)[1 + GapLen(x, IsNotWhitespace)..] == x[GapLen(x, IsNotWhitespace)..];
      RunsSkip(" " + x, IsNotWhitespace);
      RunsSkip(x, IsNotWhitespace);
      RunsSkip(s, IsAsciiLetter);
      WordsOfReplace(s[g..]);
    } else {
      var k := PrefixLen(s, IsAsciiLetter);
      var y := ReplaceNonLetters(s[k..]);
      assert s[..k] + s[k..] == s;
      RunsCons(s[..k], y, IsNotWhitespace);
      RunsCons(s[..k], s[k..], IsAsciiLetter);
      WordsOfReplace(s[k..]);
    }
  }

  lemma {:induction false} TrimEndWhitespaceTail(w: string, r: string)
    requires w != [] && !IsWhitespace(w[|w| - 1])
    requires forall i :: 0 <= i < |r| ==> IsWhitespace(r[i])
    ensures TrimEnd(w + r) == w
    decreases |r|
  {
    if r == [] {
      assert w + r == w;
    } else {
      assert (w + r)[..|w + r| - 1] == w + r[..|r| - 1];
      TrimEndWhitespaceTail(w, r[..|r| - 1]);
    }
  }

  lemma {:induction false} TrimEndKeepsPrefix(x: string, y: string, j: nat)
    requires j < |y| && !IsWhitespace(y[j])
    ensures TrimEnd(x + y) == x + TrimEnd(y)
    decreases |y|
  {
    if IsWhitespace(y[|y| - 1]) {
      assert (x + y)[..|x + y| - 1] == x + y[..|y| - 1];
      TrimEndKeepsPrefix(x, y[..|y| - 1], j);
    }
  }

  /** A word, a whitespace run, then the rest: the split yields the word, then the split of the rest. */
  lemma SplitCons(w: string, gap: string, v: string)
    requires w != [] && forall i :: 0 <= i < |w| ==> IsNotWhitespace(w[i])
    requires gap != [] && forall i :: 0 <= i < |gap| ==> IsWhitespace(gap[i])
    requires v == [] || IsNotWhitespace(v[0])
    ensures SplitWhitespace(w + (gap + v)) == [w] + SplitWhitespace(v)
  {
    PrefixLenAppend(w, gap + v, IsNotWhitespace);
    GapLenAppend(gap, v, IsNotWhitespace);
    assert (w + (gap + v))[..|w|] == w;
    assert (w + (gap + v))[|w|..] == gap + v;
    assert (gap + v)[|gap|..] == v;
  }

  /** Splitting a string that has no leading whitespace, after trimming its end, yields its words. */
  lemma {:induction false} SplitTrimmed(u: string)
    requires u == [] || !IsWhitespace(u[0])
    ensures SplitWhitespace(TrimEnd(u)) == if Runs(u, IsNotWhitespace) == [] then [""] else Runs(u, IsNotWhitespace)
    decreases |u|
  {
    if u == [] {
      assert SplitWhitespace([]) == [""];
    } else {
      var k := PrefixLen(u, IsNotWhitespace);
      var r := u[k..];
      var r' := r[GapLen(r, IsNotWhitespace)..];
      RunsHead(u);
      SplitTrimmedHead(u);
      if r' != [] {
        SplitTrimmed(r');
      }
    }
  }

  /** The split of a trimmed string that starts with a word: that word, then the split of what follows the next gap. */
  lemma SplitTrimmedHead(u: string)
    requires u != [] && !IsWhitespace(u[0])
    ensures var k := PrefixLen(u, IsNotWhitespace);
            var r := u[k..];
            var r' := r[GapLen(r, IsNotWhitespace)..];
            && (r' == [] ==> SplitWhitespace(TrimEnd(u)) == [u[..k]])
            && (r' != [] ==> SplitWhitespace(TrimEnd(u)) == [u[..k]] + SplitWhitespace(TrimEnd(r')))
  {
    var k := PrefixLen(u, IsNotWhitespace);
    var w, r := u[..k], u[k..];
    var g := GapLen(r, IsNotWhitespace);
    var r' := r[g..];
    WordPart(u, k);
    GapPart(r, g);
    if g == |r| {
      SplitTrimmedLast(w, r);
    } else {
      SplitTrimmedStep(w, r[..g], r');
    }
  }

  /** The first word of a string that starts with one, and the whitespace after it. */
  lemma WordPart(u: string, k: nat)
    requires u != [] && !IsWhitespace(u[0])
    requires k == PrefixLen(u, IsNotWhitespace)
    ensures u[..k] != [] && forall i :: 0 <= i < |u[..k]| ==> IsNotWhitespace(u[..k][i])
    ensures u[k..] == [] || IsWhitespace(u[k..][0])
    ensures u == u[..k] + u[k..]
  {
  }

  /** The whitespace gap at the start of `r`, and the word after it. */
  lemma GapPart(r: string, g: nat)
    requires r == [] || IsWhitespace(r[0])
    requires g == GapLen(r, IsNotWhitespace)
    ensures g <= |r|
    ensures g == |r| ==> forall i :: 0 <= i < |r| ==> IsWhitespace(r[i])
    ensures g < |r| ==>
              && r[..g] != [] && (forall i :: 0 <= i < |r[..g]| ==> IsWhitespace(r[..g][i]))
              && IsNotWhitespace(r[g..][0]) && r == r[..g] + r[g..]
  {
  }

  /** A string that starts with a word has that word as its first run, then the runs after the next gap. */
  lemma RunsHead(u: string)
    requires u != [] && !IsWhitespace(u[0])
    ensures var k := PrefixLen(u, IsNotWhitespace);
            var r := u[k..];
            var r' := r[GapLen(r, IsNotWhitespace)..];
            && 0 < k
            && Runs(u, IsNotWhitespace) == [u[..k]] + Runs(r', IsNotWhitespace)
            && (r' == [] ==> Runs(r', IsNotWhitespace) == [])
            && (r' != [] ==> IsNotWhitespace(r'[0]) && Runs(r', IsNotWhitespace) != [])
  {
    var k := PrefixLen(u, IsNotWhitespace);
    var w, r := u[..k], u[k..];
    assert u == w + r;
    RunsCons(w, r, IsNotWhitespace);
    RunsSkip(r, IsNotWhitespace);
    var r' := r[GapLen(r, IsNotWhitespace)..];
    if r' != [] {
      assert GapLen(r', IsNotWhitespace) == 0;
    }
  }

  /** A last word followed only by whitespace splits, once trimmed, into that word alone. */
  lemma SplitTrimmedLast(w: string, r: string)
    requires w != [] && forall i :: 0 <= i < |w| ==> IsNotWhitespace(w[i])
    requires forall i :: 0 <= i < |r| ==> IsWhitespace(r[i])
    ensures SplitWhitespace(TrimEnd(w + r)) == [w]
  {
    TrimEndWhitespaceTail(w, r);
    PrefixLenAppend(w, [], IsNotWhitespace);
    assert w + [] == w;
  }

  lemma SplitTrimmedStep(w: string, gap: string, r': string)
    requires w != [] && forall i :: 0 <= i < |w| ==> IsNotWhitespace(w[i])
    requires gap != [] && forall i :: 0 <= i < |gap| ==> IsWhitespace(gap[i])
    requires r' != [] && IsNotWhitespace(r'[0])
    ensures SplitWhitespace(TrimEnd(w + (gap + r'))) == [w] + SplitWhitespace(TrimEnd(r'))
  {
    assert w + (gap + r') == (w + gap) + r';
    TrimEndKeepsPrefix(w + gap, r', 0);
    var v := TrimEnd(r');
    assert v != [] && v[0] == r'[0];
    assert (w + gap) + v == w + (gap + v);
    SplitCons(w, gap, v);
  }

  /** The words `makeEmpId` takes initials from are exactly the maximal ASCII-letter runs. */
  lemma WordsAreLetterRuns(deptName: string)
    ensures var ws := Runs(deptName, IsAsciiLetter);
            SplitWhitespace(Trim(ReplaceNonLetters(deptName))) == if ws == [] then [""] else ws
  {
    var t := ReplaceNonLetters(deptName);
    WordsOfReplace(deptName);
    RunsSkip(t, IsNotWhitespace);
    var u := TrimStart(t);
    assert GapLen(u, IsNotWhitespace) == 0;
    SplitTrimmed(u);
  }

  lemma {:induction false} InitialsOfWords(ws: seq<string>)
    requires forall i :: 0 <= i < |ws| ==> ws[i] != []
    ensures |Initials(ws)| == |ws|
    ensures forall i :: 0 <= i < |ws| ==> Initials(ws)[i] == UpperChar(ws[i][0])
  {
    if ws != [] {
      InitialsOfWords(ws[1..]);
      assert Initials(ws) == [UpperChar(ws[0][0])] + Initials(ws[1..]);
    }
  }

  /**
   * The prefix is exactly three characters: the upper-cased first letters of the
   * first (up to) three maximal ASCII-letter runs, then `X` padding.
   */
  lemma PrefixIsPaddedInitials(deptName: string)
    ensures var ws := Runs(deptName, IsAsciiLetter);
            |Prefix(deptName)| == 3 &&
            forall i :: 0 <= i < 3 ==> Prefix(deptName)[i] == if i < |ws| then UpperChar(ws[i][0]) else 'X'
  {
    var ws := Runs(deptName, IsAsciiLetter);
    PrefixOfLetterRuns(deptName);
    if ws == [] {
      PaddedInitialsOfNoWord();
    } else {
      PaddedInitials(ws);
    }
  }

  /** The prefix is the prefix of the letter runs, or of `[""]` when there is none. */
  lemma PrefixOfLetterRuns(deptName: string)
    ensures var ws := Runs(deptName, IsAsciiLetter);
            Prefix(deptName) == PrefixOfWords(if ws == [] then [""] else ws)
  {
    WordsAreLetterRuns(deptName);
  }

  /** `[""]`, the split of a blank string, gives `XXX`. */
  lemma PaddedInitialsOfNoWord()
    ensures PrefixOfWords([""]) == "XXX"
  {
    assert Initials([""]) == "";
  }

  /** The prefix of non-empty words: their upper-cased initials (at most three), then `X`. */
  lemma PaddedInitials(ws: seq<string>)
    requires forall i :: 0 <= i < |ws| ==> ws[i] != []
    ensures forall i :: 0 <= i < 3 ==> PrefixOfWords(ws)[i] == if i < |ws| then UpperChar(ws[i][0]) else 'X'
  {
    var firstThree := if |ws| <= 3 then ws else ws[..3];
    InitialsOfWords(firstThree);
  }

  /** A name with no ASCII letter gets the prefix `XXX`. */
  lemma NoLettersGivesXXX(deptName: string)
    requires forall i :: 0 <= i < |deptName| ==> !IsAsciiLetter(deptName[i])
    ensures Prefix(deptName) == "XXX"
  {
    assert GapLen(deptName, IsAsciiLetter) == |deptName|;
    PrefixIsPaddedInitials(deptName);
  }

  /** The number part spells `existingCount + 1` with at least three digits and is never truncated. */
  lemma NumberPartDenotesNextCount(existingCount: nat)
    ensures var np := NumberPart(existingCount);
            var digits := NatToString(existingCount + 1);
            (forall i :: 0 <= i < |np| ==> IsDigit(np[i])) &&
            DecimalValue(np) == existingCount + 1 &&
            |np| == (if |digits| >= 3 then |digits| else 3) &&
            np[|np| - |digits|..] == digits
  {
    var np := NumberPart(existingCount);
    var digits := NatToString(existingCount + 1);
    var z := np[..|np| - |digits|];
    assert np == z + digits;
    DecimalValueLeadingZeros(z, digits);
    DecimalValueOfNatToString(existingCount + 1);
  }

  /** Two letter words around a non-letter separator make two runs. */
  lemma RunsOfTwoWords(x: string, sep: string, y: string)
    requires x != [] && forall i :: 0 <= i < |x| ==> IsAsciiLetter(x[i])
    requires sep != [] && forall i :: 0 <= i < |sep| ==> !IsAsciiLetter(sep[i])
    requires y != [] && forall i :: 0 <= i < |y| ==> IsAsciiLetter(y[i])
    ensures Runs(x + sep + y, IsAsciiLetter) == [x, y]
  {
    RunsOfTwo(x, sep, y, IsAsciiLetter);
  }

  lemma RunsOfTwo(x: string, sep: string, y: string, p: char -> bool)
    requires x != [] && forall i :: 0 <= i < |x| ==> p(x[i])
    requires sep != [] && forall i :: 0 <= i < |sep| ==> !p(sep[i])
    requires y != [] && forall i :: 0 <= i < |y| ==> p(y[i])
    ensures Runs(x + sep + y, p) == [x, y]
  {
    var rest := sep + y;
    RunsAfterGap(sep, y, p);
    RunsOfOneWord(y, p);
    assert Runs(rest, p) == [y];
    assert !p(rest[0]) by { assert rest[0] == sep[0]; }
    RunsCons(x, rest, p);
    assert x + sep + y == x + rest;
  }

  /** Characters outside `p` in front of a run start change nothing. */
  lemma RunsAfterGap(sep: string, y: string, p: char -> bool)
    requires forall i :: 0 <= i < |sep| ==> !p(sep[i])
    requires y == [] || p(y[0])
    ensures Runs(sep + y, p) == Runs(y, p)
  {
    GapLenAppend(sep, y, p);
    assert (sep + y)[|sep|..] == y;
    RunsSkip(sep + y, p);
  }

  /** A non-empty string of `p`-characters is a single run. */
  lemma RunsOfOneWord(y: string, p: char -> bool)
    requires y != [] && forall i :: 0 <= i < |y| ==> p(y[i])
    ensures Runs(y, p) == [y]
  {
    assert y + [] == y;
    RunsCons(y, [], p);
  }

  lemma PrefixOfTwoWords(name: string, x: string, sep: string, y: string)
    requires name == x + sep + y
    requires x != [] && forall i :: 0 <= i < |x| ==> IsAsciiLetter(x[i])
    requires sep != [] && forall i :: 0 <= i < |sep| ==> !IsAsciiLetter(sep[i])
    requires y != [] && forall i :: 0 <= i < |y| ==> IsAsciiLetter(y[i])
    ensures Prefix(name) == [UpperChar(x[0]), UpperChar(y[0]), 'X']
  {
    RunsOfTwoWords(x, sep, y);
    PrefixIsPaddedInitials(name);
    ThreeChars(Prefix(name), UpperChar(x[0]), UpperChar(y[0]), 'X');
  }

  lemma ThreeChars(p: string, a: char, b: char, c: char)
    requires |p| == 3 && p[0] == a && p[1] == b && p[2] == c
    ensures p == [a, b, c]
  {
  }

  lemma PrefixOfOneWord(x: string)
    requires x != [] && forall i :: 0 <= i < |x| ==> IsAsciiLetter(x[i])
    ensures Prefix(x) == [UpperChar(x[0]), 'X', 'X']
  {
    RunsOfOneWord(x, IsAsciiLetter);
    PrefixIsPaddedInitials(x);
  }

  lemma ExampleHumanResources()
    ensures MakeEmpId("Human Resources", 4) == "HRX-005"
  {
    HumanResourcesPrefix("Human Resources");
    FifthNumber();
  }

  lemma HumanResourcesPrefix(name: string)
    requires name == "Human Resources"
    ensures Prefix(name) + "-" == "HRX-"
  {
    PrefixOfTwoWords(name, "Human", " ", "Resources");
  }

  lemma FifthNumber()
    ensures "HRX-" + NumberPart(4) == "HRX-005"
  {
  }

  lemma ExampleRAndD()
    ensures MakeEmpId("R&D", 0) == "RDX-001"
  {
    RAndDPrefix("R&D");
    FirstNumber();
  }

  lemma RAndDPrefix(name: string)
    requires name == "R&D"
    ensures Prefix(name) + "-" == "RDX-"
  {
    PrefixOfTwoWords(name, "R", "&", "D");
  }

  lemma FirstNumber()
    ensures "RDX-" + NumberPart(0) == "RDX-001"
  {
  }

  /** The thousandth employee of a department gets four digits, not a truncated `000`. */
  lemma ExampleThousandth()
    ensures MakeEmpId("ops", 999) == "OXX-1000"
  {
    OpsPrefix("ops");
    ThousandthNumber();
  }

  lemma OpsPrefix(name: string)
    requires name == "ops"
    ensures Prefix(name) + "-" == "OXX-"
  {
    PrefixOfOneWord(name);
  }

  lemma ThousandthNumber()
    ensures "OXX-" + NumberPart(999) == "OXX-1000"
  {
    assert NatToString(100) == "100";
    assert NatToString(1000) == "1000";
  }
}
