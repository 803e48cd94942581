/** The statistics of src/tools/Social/CharacterCounter.tsx: characters,
    characters without whitespace, words, lines and paragraphs of a text, each
    one expression over the text, and the reset to the empty text. */
module CharacterCounter {

  import opened Wrappers
  import opened Strings

  // ---------------------------------------------------------------------------
  // Characters without whitespace.

  /** `text.replace(/\s/g, "")`: the text with its whitespace removed. */
  function RemoveSpaces(s: string): (r: string)
    ensures |r| <= |s|
    ensures forall i :: 0 <= i < |r| ==> !IsSpace(r[i])
  {
    if s == [] then "" else (if IsSpace(s[0]) then "" else [s[0]]) + RemoveSpaces(s[1..])
  }

  lemma {:induction false} RemoveSpacesAppend(a: string, b: string)
    ensures RemoveSpaces(a + b) == RemoveSpaces(a) + RemoveSpaces(b)
  {
    if a == [] {
      assert a + b == b;
    } else {
      assert (a + b)[1..] == a[1..] + b;
      RemoveSpacesAppend(a[1..], b);
    }
  }

  /** Removing whitespace keeps every other character with its number of
      occurrences; it shortens the text exactly when there was whitespace, and
      empties it exactly when there was nothing else. */
  lemma {:induction false} RemoveSpacesMeaning(s: string)
    ensures forall c :: !IsSpace(c) ==> Count(RemoveSpaces(s), c) == Count(s, c)
    ensures |RemoveSpaces(s)| == |s| <==> forall i :: 0 <= i < |s| ==> !IsSpace(s[i])
    ensures RemoveSpaces(s) == "" <==> Blank(s)
  {
    if s != [] {
      RemoveSpacesMeaning(s[1..]);
      var head := if IsSpace(s[0]) then "" else [s[0]];
      forall c | !IsSpace(c) ensures Count(RemoveSpaces(s), c) == Count(s, c) {
        CountAppend(head, RemoveSpaces(s[1..]), c);
      }
      if forall i :: 0 <= i < |s| ==> !IsSpace(s[i]) {
        assert forall i :: 0 <= i < |s[1..]| ==> !IsSpace(s[1..][i]) by {
          forall i | 0 <= i < |s[1..]| ensures !IsSpace(s[1..][i]) {
            assert s[1..][i] == s[i + 1];
          }
        }
      } else if !IsSpace(s[0]) {
        var i :| 0 <= i < |s| && IsSpace(s[i]);
        assert s[1..][i - 1] == s[i];
      }
      if Blank(s[1..]) && IsSpace(s[0]) {
        forall i | 0 <= i < |s| ensures IsSpace(s[i]) {
          if i > 0 {
            assert s[i] == s[1..][i - 1];
          }
        }
      }
    }
  }

  /** Every character removed is whitespace, one UTF-16 unit each, so the units
      lost are exactly the characters lost. */
  lemma {:induction false} RemoveSpacesUtf16(s: string)
    ensures Utf16Length(s) == Utf16Length(RemoveSpaces(s)) + (|s| - |RemoveSpaces(s)|)
  {
    if s != [] {
      RemoveSpacesUtf16(s[1..]);
      var head := if IsSpace(s[0]) then "" else [s[0]];
      Utf16Append(head, RemoveSpaces(s[1..]));
      assert Utf16Length([s[0]]) == Utf16Units(s[0]);
    }
  }

  // ---------------------------------------------------------------------------
  // Words.

  /** `s.split(/\s+/)`: the pieces between the maximal runs of whitespace. */
  function SplitSpaces(s: string): (r: seq<string>)
    ensures |r| > 0
    decreases |s|
  {
    if s == [] then [""]
    else if IsSpace(s[0]) then [""] + SplitSpaces(s[LeadingSpaces(s)..])
    else
      var rest := SplitSpaces(s[1..]);
      [[s[0]] + rest[0]] + rest[1..]
  }

  /** The number of words of `s`: the positions holding a non-whitespace
      character that opens the text or follows whitespace (`afterSpace` says
      whether the position before `s` counts as whitespace). */
  function WordStarts(s: string, afterSpace: bool): nat {
    if s == [] then 0
    else (if afterSpace && !IsSpace(s[0]) then 1 else 0) + WordStarts(s[1..], IsSpace(s[0]))
  }

  /** The `words` statistic. */
  function Words(text: string): nat {
    if Trim(text) == "" then 0 else |SplitSpaces(Trim(text))|
  }

  lemma {:induction false} BlankHasNoWords(s: string, afterSpace: bool)
    requires Blank(s)
    ensures WordStarts(s, afterSpace) == 0
  {
    if s != [] {
      assert Blank(s[1..]) by {
        forall i | 0 <= i < |s[1..]| ensures IsSpace(s[1..][i]) {
          assert s[1..][i] == s[i + 1];
        }
      }
      BlankHasNoWords(s[1..], true);
    }
  }

  /** A leading run of whitespace opens no word and leaves the next position
      after whitespace. */
  lemma {:induction false} SkipBlank(s: string, k: nat, afterSpace: bool)
    requires 0 < k <= |s| && Blank(s[..k])
    ensures WordStarts(s, afterSpace) == WordStarts(s[k..], true)
    decreases k
  {
    assert IsSpace(s[..k][0]);
    if k > 1 {
      var t := s[1..][..k - 1];
      assert Blank(t) by {
        forall i | 0 <= i < |t| ensures IsSpace(t[i]) {
          assert t[i] == s[..k][i + 1];
        }
      }
      SkipBlank(s[1..], k - 1, true);
      assert s[1..][k - 1..] == s[k..];
    }
  }

  /** Trailing whitespace opens no word. */
  lemma {:induction false} TrailingBlank(a: string, z: string, afterSpace: bool)
    requires Blank(z)
    ensures WordStarts(a + z, afterSpace) == WordStarts(a, afterSpace)
  {
    if a == [] {
      assert a + z == z;
      BlankHasNoWords(z, afterSpace);
    } else {
      assert (a + z)[1..] == a[1..] + z;
      TrailingBlank(a[1..], z, IsSpace(a[0]));
    }
  }

  /** On a text that ends in a non-whitespace character, the pieces of the split
      are one more than the words that follow whitespace. */
  lemma {:induction false} PiecesFollowWords(s: string)
    requires s == [] || !IsSpace(s[|s| - 1])
    ensures |SplitSpaces(s)| == WordStarts(s, false) + 1
    decreases |s|
  {
    if s != [] {
      if IsSpace(s[0]) {
        var k := LeadingSpaces(s);
        var t := s[k..];
        assert !IsSpace(t[0]);
        assert t[1..] == [] || t[1..][|t[1..]| - 1] == s[|s| - 1];
        PiecesFollowWords(t[1..]);
        SkipBlank(s, k, false);
      } else {
        assert s[1..] == [] || s[1..][|s[1..]| - 1] == s[|s| - 1];
        PiecesFollowWords(s[1..]);
      }
    }
  }

  /** Trimming the text changes no word count. */
  lemma TrimKeepsWords(text: string)
    ensures WordStarts(Trim(text), true) == WordStarts(text, true)
  {
    var k := LeadingSpaces(text);
    var front := text[k..];
    var m := TrailingStart(front);
    if k > 0 {
      SkipBlank(text, k, true);
    }
    assert front == front[..m] + front[m..];
    TrailingBlank(front[..m], front[m..], true);
  }

  /** A trimmed text that is not empty starts and ends with non-whitespace. */
  lemma TrimmedEnds(text: string)
    requires Trim(text) != ""
    ensures !IsSpace(Trim(text)[0]) && !IsSpace(Trim(text)[|Trim(text)| - 1])
  {
    var k := LeadingSpaces(text);
    var front := text[k..];
    var m := TrailingStart(front);
    assert Trim(text)[0] == front[0];
    assert Trim(text)[|Trim(text)| - 1] == front[m - 1];
  }

  /** `words` is the number of maximal runs of non-whitespace characters, so it
      is 0 exactly when the text is blank. */
  lemma WordsCountsRuns(text: string)
    ensures Words(text) == WordStarts(text, true)
    ensures Words(text) == 0 <==> Blank(text)
  {
    TrimEmptyIffBlank(text);
    TrimKeepsWords(text);
    var u := Trim(text);
    if u == "" {
      BlankHasNoWords(text, true);
    } else {
      TrimmedEnds(text);
      PiecesFollowWords(u);
    }
  }

  // ---------------------------------------------------------------------------
  // Lines.

  /** The `lines` statistic. */
  function Lines(text: string): nat {
    if text == "" then 0 else |Split(text, '\n')|
  }

  /** A non-empty text has one line more than it has newlines. */
  lemma LinesCountsNewlines(text: string)
    ensures text == "" ==> Lines(text) == 0
    ensures text != "" ==> Lines(text) == Count(text, '\n') + 1
  {
    SplitCount(text, '\n');
  }

  // ---------------------------------------------------------------------------
  // Paragraphs.

  /** The index of the last newline of `w`, if it has one. */
  function LastNewline(w: string): (r: Option<nat>)
    ensures r.Some? ==> r.value < |w| && w[r.value] == '\n'
    ensures r.Some? ==> forall j :: r.value < j < |w| ==> w[j] != '\n'
    ensures r.None? ==> '\n' !in w
  {
    if w == [] then None
    else if w[|w| - 1] == '\n' then Some(|w| - 1)
    else
      var r := LastNewline(w[..|w| - 1]);
      assert forall i :: 0 <= i < |w| - 1 ==> w[i] == w[..|w| - 1][i];
      r
  }

  /** `/\n\s*\n/` matches the first `n` characters of `s`. */
  predicate SeparatorOfLength(s: string, n: nat) {
    2 <= n <= |s| && s[0] == '\n' && s[n - 1] == '\n' && Blank(s[..n])
  }

  /** A separator at the start of `s` ends inside the whitespace run after
      its first newline. */
  lemma SeparatorEndsInRun(s: string, n: nat)
    requires SeparatorOfLength(s, n)
    ensures n - 2 < LeadingSpaces(s[1..]) && s[1..][n - 2] == '\n'
  {
  }

  /** The length of the match of `/\n\s*\n/` at the start of `s`, if there is
      one: a newline, then the whitespace after it up to the last newline of
      that whitespace (the greedy `\s*` backs off to it). It is found whenever
      some separator starts `s`, and it is the longest one. */
  function SeparatorAt(s: string): (r: Option<nat>)
    ensures r.Some? ==> SeparatorOfLength(s, r.value)
    ensures r.Some? ==> forall n: nat :: SeparatorOfLength(s, n) ==> n <= r.value
    ensures r.None? ==> forall n: nat :: !SeparatorOfLength(s, n)
  {
    if s == [] || s[0] != '\n' then None
    else
      var run := s[1..][..LeadingSpaces(s[1..])];
      assert forall n: nat :: SeparatorOfLength(s, n) ==> n - 2 < |run| && run[n - 2] == '\n' by {
        forall n: nat | SeparatorOfLength(s, n) ensures n - 2 < |run| && run[n - 2] == '\n' {
          SeparatorEndsInRun(s, n);
        }
      }
      match LastNewline(run)
      case None => None
      case Some(m) =>
        var sep := s[..m + 2];
        assert Blank(sep) by {
          forall i | 0 <= i < |sep| ensures IsSpace(sep[i]) {
            if i > 0 {
              assert sep[i] == run[i - 1];
            }
          }
        }
        Some(m + 2)
  }

  /** `s.split(/\n\s*\n/)`: the separator is sought at each position in turn,
      and the search resumes after each separator found. */
  function SplitParagraphs(s: string): (r: seq<string>)
    ensures |r| > 0
    decreases |s|
  {
    if s == [] then [""]
    else match SeparatorAt(s)
      case Some(n) => [""] + SplitParagraphs(s[n..])
      case None =>
        var rest := SplitParagraphs(s[1..]);
        [[s[0]] + rest[0]] + rest[1..]
  }

  /** `.filter((p) => p.trim() !== "")`. */
  function NonBlankPieces(parts: seq<string>): (r: seq<string>)
    ensures |r| <= |parts|
  {
    if parts == [] then []
    else (if Trim(parts[0]) != "" then [parts[0]] else []) + NonBlankPieces(parts[1..])
  }

  /** The `paragraphs` statistic. */
  function Paragraphs(text: string): nat {
    if text == "" then 0 else |NonBlankPieces(SplitParagraphs(text))|
  }

  /** The pieces written one after the other. */
  function Concat(parts: seq<string>): string {
    if parts == [] then "" else parts[0] + Concat(parts[1..])
  }

  /** A blank prefix leaves nothing once whitespace is removed. */
  lemma BlankPrefixRemoved(s: string, n: nat)
    requires n <= |s| && Blank(s[..n])
    ensures RemoveSpaces(s) == RemoveSpaces(s[n..])
  {
    assert s == s[..n] + s[n..];
    RemoveSpacesAppend(s[..n], s[n..]);
    RemoveSpacesMeaning(s[..n]);
  }

  /** The split only drops separators, which are whitespace: the pieces hold
      every other character of the text, in order. */
  lemma {:induction false} PiecesKeepText(s: string)
    ensures RemoveSpaces(Concat(SplitParagraphs(s))) == RemoveSpaces(s)
    decreases |s|
  {
    if s != [] {
      match SeparatorAt(s)
      case Some(n) =>
        PiecesKeepText(s[n..]);
        BlankPrefixRemoved(s, n);
        assert Concat([""] + SplitParagraphs(s[n..])) == Concat(SplitParagraphs(s[n..]));
      case None =>
        PiecesKeepText(s[1..]);
        var rest := SplitParagraphs(s[1..]);
        assert Concat(SplitParagraphs(s)) == [s[0]] + Concat(rest) by {
          assert Concat(rest) == rest[0] + Concat(rest[1..]);
          assert ([[s[0]] + rest[0]] + rest[1..])[1..] == rest[1..];
        }
        RemoveSpacesAppend([s[0]], Concat(rest));
        RemoveSpacesAppend([s[0]], s[1..]);
        assert [s[0]] + s[1..] == s;
    }
  }

  /** No piece survives the filter exactly when every piece is blank. */
  lemma {:induction false} NoPiecesIffBlank(parts: seq<string>)
    ensures NonBlankPieces(parts) == [] <==> RemoveSpaces(Concat(parts)) == ""
  {
    if parts != [] {
      NoPiecesIffBlank(parts[1..]);
      RemoveSpacesAppend(parts[0], Concat(parts[1..]));
      RemoveSpacesMeaning(parts[0]);
      TrimEmptyIffBlank(parts[0]);
    }
  }

  /** The split yields at most one piece more than there are newlines, since
      every separator holds a newline. */
  lemma {:induction false} PiecesBoundedByNewlines(s: string)
    ensures |SplitParagraphs(s)| <= Count(s, '\n') + 1
    decreases |s|
  {
    if s != [] {
      match SeparatorAt(s)
      case Some(n) =>
        PiecesBoundedByNewlines(s[n..]);
        assert s == s[..n] + s[n..];
        CountAppend(s[..n], s[n..], '\n');
        assert s[..n][0] == '\n';
      case None =>
        PiecesBoundedByNewlines(s[1..]);
    }
  }

  /** `paragraphs` is 0 exactly when the text is blank, and never exceeds
      `lines`. */
  lemma ParagraphsMeaning(text: string)
    ensures Paragraphs(text) == 0 <==> Blank(text)
    ensures Paragraphs(text) <= Lines(text)
  {
    if text != "" {
      PiecesKeepText(text);
      NoPiecesIffBlank(SplitParagraphs(text));
      RemoveSpacesMeaning(text);
      PiecesBoundedByNewlines(text);
      LinesCountsNewlines(text);
    }
  }

  /** The filter distributes over concatenated piece lists. */
  lemma {:induction false} NonBlankPiecesAppend(a: seq<string>, b: seq<string>)
    ensures NonBlankPieces(a + b) == NonBlankPieces(a) + NonBlankPieces(b)
  {
    if a == [] {
      assert a + b == b;
    } else {
      var keep := Trim(a[0]) != "";
      var head := if keep then [a[0]] else [];
      assert (a + b)[0] == a[0] && (a + b)[1..] == a[1..] + b;
      NonBlankPiecesAppend(a[1..], b);
      assert NonBlankPieces(a) == head + NonBlankPieces(a[1..]);
      assert NonBlankPieces(a + b) == head + NonBlankPieces(a[1..] + b);
    }
  }

  /** The whitespace `a` ends with holds no newline. */
  predicate NoNewlineInTail(a: string) {
    forall i :: 0 <= i < |a| && Blank(a[i..]) ==> a[i] != '\n'
  }

  /** The whitespace `b` starts with holds no newline. */
  predicate NoNewlineInHead(b: string) {
    forall i :: 0 <= i < |b| && Blank(b[..i + 1]) ==> b[i] != '\n'
  }

  lemma NoNewlineInTailSuffix(a: string, k: nat)
    requires k <= |a| && NoNewlineInTail(a)
    ensures NoNewlineInTail(a[k..])
  {
    forall i | 0 <= i < |a[k..]| && Blank(a[k..][i..]) ensures a[k..][i] != '\n' {
      assert a[k..][i..] == a[k + i..];
    }
  }

  /** A separator cannot run past the end of `a` when the whitespace `a` ends
      with has no newline: one at the start of `a + t` lies inside `a`. */
  lemma SeparatorStaysIn(a: string, t: string, m: nat)
    requires a != "" && NoNewlineInTail(a)
    ensures SeparatorOfLength(a + t, m) <==> SeparatorOfLength(a, m)
  {
    if m > |a| && m <= |a + t| && SeparatorOfLength(a + t, m) {
      forall i | 0 <= i < |a| ensures IsSpace(a[i]) {
        assert (a + t)[..m][i] == a[i];
      }
    }
    if 2 <= m <= |a| {
      assert (a + t)[..m] == a[..m];
    }
  }

  lemma SeparatorAtPrefix(a: string, t: string)
    requires a != "" && NoNewlineInTail(a)
    ensures SeparatorAt(a + t) == SeparatorAt(a)
  {
    forall m: nat ensures SeparatorOfLength(a + t, m) <==> SeparatorOfLength(a, m) {
      SeparatorStaysIn(a, t, m);
    }
  }

  /** A separator followed by text whose leading whitespace has no newline is
      matched whole. */
  lemma SeparatorThenText(sep: string, b: string)
    requires SeparatorOfLength(sep, |sep|)
    requires NoNewlineInHead(b)
    ensures SeparatorAt(sep + b) == Some(|sep|)
  {
    assert (sep + b)[..|sep|] == sep;
    assert SeparatorOfLength(sep + b, |sep|);
    var n := SeparatorAt(sep + b).value;
    if n > |sep| {
      forall j | 0 <= j < n - |sep| ensures IsSpace(b[j]) {
        assert (sep + b)[..n][|sep| + j] == b[j];
      }
    }
  }

  /** The split of text that a separator starts: an empty piece, then the
      pieces after the separator. */
  lemma SplitUnfoldSeparator(s: string, n: nat)
    requires SeparatorAt(s) == Some(n)
    ensures SplitParagraphs(s) == [""] + SplitParagraphs(s[n..])
  {
  }

  /** The split of text that no separator starts: its first character joins
      the first piece of the rest. */
  lemma SplitUnfoldChar(s: string)
    requires s != [] && SeparatorAt(s).None?
    ensures var rest := SplitParagraphs(s[1..]);
      SplitParagraphs(s) == [[s[0]] + rest[0]] + rest[1..]
  {
  }

  lemma ConsPieceAppend(c: char, ra: seq<string>, tail: seq<string>)
    requires |ra| > 0
    ensures [[c] + (ra + tail)[0]] + (ra + tail)[1..] == ([[c] + ra[0]] + ra[1..]) + tail
  {
    assert (ra + tail)[1..] == ra[1..] + tail;
  }

  /** One step of the split where no separator starts `a` or `a + t`. */
  lemma SplitStepChar(a: string, t: string, tail: seq<string>)
    requires a != "" && SeparatorAt(a + t).None? && SeparatorAt(a).None?
    requires SplitParagraphs((a + t)[1..]) == SplitParagraphs(a[1..]) + tail
    ensures SplitParagraphs(a + t) == SplitParagraphs(a) + tail
  {
    SplitUnfoldChar(a + t);
    SplitUnfoldChar(a);
    assert (a + t)[0] == a[0];
    ConsPieceAppend(a[0], SplitParagraphs(a[1..]), tail);
  }

  /** Text, a separator and more text, where the whitespace touching the
      separator holds no further newline (so the separator is one whole match),
      split into the pieces of the first text followed by those of the second. */
  lemma {:induction false} SplitAroundSeparator(a: string, sep: string, b: string)
    requires NoNewlineInTail(a)
    requires SeparatorOfLength(sep, |sep|)
    requires NoNewlineInHead(b)
    ensures SplitParagraphs(a + sep + b) == SplitParagraphs(a) + SplitParagraphs(b)
    decreases |a|
  {
    var t := sep + b;
    assert a + sep + b == a + t;
    if a == "" {
      assert a + t == t;
      SeparatorThenText(sep, b);
      assert t[|sep|..] == b;
    } else {
      SeparatorAtPrefix(a, t);
      match SeparatorAt(a)
      case Some(n) =>
        assert (a + t)[n..] == a[n..] + sep + b;
        NoNewlineInTailSuffix(a, n);
        SplitAroundSeparator(a[n..], sep, b);
        SplitUnfoldSeparator(a + t, n);
        SplitUnfoldSeparator(a, n);
      case None =>
        assert (a + t)[1..] == a[1..] + sep + b;
        NoNewlineInTailSuffix(a, 1);
        SplitAroundSeparator(a[1..], sep, b);
        SplitStepChar(a, t, SplitParagraphs(b));
    }
  }

  /** No blank line: between any two newlines of `s` stands a visible
      character. */
  predicate NoBlankLine(s: string) {
    forall i, j :: 0 <= i < j < |s| && s[i] == '\n' && s[j] == '\n' ==> !Blank(s[i..j + 1])
  }

  /** Text without a blank line is one piece. */
  lemma {:induction false} NoBlankLineOnePiece(s: string)
    requires NoBlankLine(s)
    ensures SplitParagraphs(s) == [s]
    decreases |s|
  {
    if s != [] {
      assert SeparatorAt(s).None?;
      assert NoBlankLine(s[1..]) by {
        forall i, j | 0 <= i < j < |s[1..]| && s[1..][i] == '\n' && s[1..][j] == '\n'
          ensures !Blank(s[1..][i..j + 1])
        {
          assert s[1..][i..j + 1] == s[i + 1..j + 2];
        }
      }
      NoBlankLineOnePiece(s[1..]);
      assert [s[0]] + s[1..] == s;
    }
  }

  /** Visible text without a blank line is one paragraph. */
  lemma OneParagraph(s: string)
    requires !Blank(s) && NoBlankLine(s)
    ensures Paragraphs(s) == 1
  {
    NoBlankLineOnePiece(s);
    TrimEmptyIffBlank(s);
  }

  /** The paragraphs on the two sides of a separator add up. Every text is
      pieces without a blank line between separators of this kind (each
      maximal whitespace run with two newlines holds one, from its first
      newline to its last), so with `OneParagraph` this fixes the count. */
  lemma ParagraphsAroundSeparator(a: string, sep: string, b: string)
    requires NoNewlineInTail(a)
    requires SeparatorOfLength(sep, |sep|)
    requires NoNewlineInHead(b)
    ensures Paragraphs(a + sep + b) == Paragraphs(a) + Paragraphs(b)
  {
    SplitAroundSeparator(a, sep, b);
    NonBlankPiecesAppend(SplitParagraphs(a), SplitParagraphs(b));
    assert a + sep + b != "";
  }

  /** Text without a newline has no blank line and no newline at either end. */
  lemma OneLine(s: string)
    requires '\n' !in s
    ensures NoBlankLine(s) && NoNewlineInTail(s) && NoNewlineInHead(s)
  {
  }

  /** Two visible lines around a separator are two paragraphs. */
  lemma TwoLinesTwoParagraphs(a: string, sep: string, b: string)
    requires '\n' !in a && '\n' !in b && !Blank(a) && !Blank(b)
    requires SeparatorOfLength(sep, |sep|)
    ensures Paragraphs(a + sep + b) == 2
  {
    OneLine(a);
    OneLine(b);
    ParagraphsAroundSeparator(a, sep, b);
    OneParagraph(a);
    OneParagraph(b);
  }

  /** "Hi", a whitespace-only line and "Bye" are two paragraphs; so are "a "
      and " b" around an empty line, the spaces staying with the paragraphs. */
  lemma TwoParagraphs(a: string, sep: string, b: string, c: string, d: string, e: string)
    requires a == "Hi" && sep == "\n \n" && b == "Bye"
    requires c == "a " && d == "\n\n" && e == " b"
    ensures Paragraphs(a + sep + b) == 2
    ensures Paragraphs(c + d + e) == 2
  {
    assert sep[..|sep|] == sep && d[..|d|] == d;
    assert !IsSpace(a[0]) && !IsSpace(b[0]) && !IsSpace(c[0]) && !IsSpace(e[1]);
    TwoLinesTwoParagraphs(a, sep, b);
    TwoLinesTwoParagraphs(c, d, e);
  }

  // ---------------------------------------------------------------------------
  // The effect and the reset.

  datatype Stats = Stats(chars: nat, charsNoSpaces: nat, words: nat, lines: nat, paragraphs: nat)

  /** The statistics the effect computes for `text`. */
  function StatsOf(text: string): (r: Stats)
    ensures r.chars == Utf16Length(text)
    ensures r.charsNoSpaces == Utf16Length(RemoveSpaces(text))
    ensures |text| <= r.chars <= 2 * |text|
    ensures r.chars - r.charsNoSpaces == |text| - |RemoveSpaces(text)|
    ensures r.charsNoSpaces <= r.chars
    ensures r.charsNoSpaces == r.chars <==> forall i :: 0 <= i < |text| ==> !IsSpace(text[i])
    ensures r.words == WordStarts(text, true)
    ensures r.words == 0 <==> Blank(text)
    ensures text == "" ==> r.lines == 0
    ensures text != "" ==> r.lines == Count(text, '\n') + 1
    ensures r.paragraphs == Paragraphs(text)
    ensures r.paragraphs == 0 <==> Blank(text)
    ensures !Blank(text) && NoBlankLine(text) ==> r.paragraphs == 1
    ensures r.paragraphs <= r.lines
  {
    assert !Blank(text) && NoBlankLine(text) ==> Paragraphs(text) == 1 by {
      if !Blank(text) && NoBlankLine(text) {
        OneParagraph(text);
      }
    }
    RemoveSpacesMeaning(text);
    RemoveSpacesUtf16(text);
    WordsCountsRuns(text);
    LinesCountsNewlines(text);
    ParagraphsMeaning(text);
    Stats(Utf16Length(text), Utf16Length(RemoveSpaces(text)), Words(text), Lines(text), Paragraphs(text))
  }

  /** `text.length` counts UTF-16 units: an emoji outside the Basic
      Multilingual Plane counts as two characters, and as two without spaces. */
  lemma EmojiCountsTwice(text: string)
    requires text == "\U{1F600} "
    ensures StatsOf(text).chars == 3 && StatsOf(text).charsNoSpaces == 2
  {
    assert text[1..] == " " && IsSpace(text[1]) && !IsSpace(text[0]);
    assert RemoveSpaces(text) == [text[0]] + RemoveSpaces(" ");
  }

  /** `clearText` empties the text, and with it every statistic. */
  lemma ClearedStats()
    ensures StatsOf("") == Stats(0, 0, 0, 0, 0)
  {
  }

  /** Blank text of any length has characters but no words and no paragraphs. */
  lemma BlankStats(text: string)
    requires Blank(text)
    ensures StatsOf(text).chars == |text| && StatsOf(text).charsNoSpaces == 0
    ensures StatsOf(text).words == 0 && StatsOf(text).paragraphs == 0
  {
    RemoveSpacesMeaning(text);
    RemoveSpacesUtf16(text);
  }
}
