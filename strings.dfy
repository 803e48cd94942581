/** The JavaScript string operations the site relies on (`split` on one
    character, `join`, `trim`, `toLowerCase`, `startsWith`, `endsWith`,
    number-to-string), restricted to ASCII whitespace and ASCII letters. */
module Strings {

  /** The ASCII members of the JavaScript `\s` class (and of `trim`'s set). */
  predicate IsSpace(c: char) {
    c == ' ' || c == '\t' || c == '\n' || c == '\U{000B}' || c == '\U{000C}' || c == '\r'
  }

  /** A string made of whitespace only (the empty string included). */
  predicate Blank(s: string) {
    forall i :: 0 <= i < |s| ==> IsSpace(s[i])
  }

  function Count(s: string, c: char): nat {
    if s == [] then 0 else (if s[0] == c then 1 else 0) + Count(s[1..], c)
  }

  lemma {:induction false} CountAppend(a: string, b: string, c: char)
    ensures Count(a + b, c) == Count(a, c) + Count(b, c)
  {
    if a == [] {
      assert a + b == b;
    } else {
      assert (a + b)[1..] == a[1..] + b;
      CountAppend(a[1..], b, c);
    }
  }

  /** `s.split(c)` for a one-character separator: the pieces between the
      occurrences of `c`, so always at least one piece. */
  function Split(s: string, c: char): (r: seq<string>)
    ensures |r| > 0
  {
    if s == [] then [""]
    else
      var rest := Split(s[1..], c);
      if s[0] == c then [""] + rest
      else [[s[0]] + rest[0]] + rest[1..]
  }

  /** `parts.join(c)`. */
  function Join(parts: seq<string>, c: char): string {
    if parts == [] then ""
    else if |parts| == 1 then parts[0]
    else parts[0] + [c] + Join(parts[1..], c)
  }

  /** `parts.filter(Boolean)`: the non-empty pieces, in order. */
  function NonEmpty(parts: seq<string>): (r: seq<string>)
    ensures forall i :: 0 <= i < |r| ==> r[i] != "" && r[i] in parts
    ensures |r| <= |parts|
  {
    if parts == [] then []
    else if parts[0] == "" then NonEmpty(parts[1..])
    else [parts[0]] + NonEmpty(parts[1..])
  }

  /** The text before the first `c` (`s.split(c)[0]`). */
  function Before(s: string, c: char): (r: string)
    ensures c !in r
    ensures r <= s
    ensures |r| == |s| || s[|r|] == c
  {
    if s == [] || s[0] == c then "" else [s[0]] + Before(s[1..], c)
  }

  /** The length of the whitespace run `s` starts with. */
  function LeadingSpaces(s: string): (k: nat)
    ensures k <= |s| && Blank(s[..k])
    ensures k == |s| || !IsSpace(s[k])
  {
    if s != [] && IsSpace(s[0]) then
      var k := LeadingSpaces(s[1..]);
      k + 1
    else 0
  }

  /** Where the whitespace run that `s` ends with begins. */
  function TrailingStart(s: string): (k: nat)
    ensures k <= |s| && Blank(s[k..])
    ensures k == 0 || !IsSpace(s[k - 1])
  {
    if s != [] && IsSpace(s[|s| - 1]) then
      var k := TrailingStart(s[..|s| - 1]);
      assert forall i :: k <= i < |s| - 1 ==> s[i] == s[..|s| - 1][i];
      k
    else |s|
  }

  function TrimStart(s: string): string {
    s[LeadingSpaces(s)..]
  }

  function TrimEnd(s: string): string {
    s[..TrailingStart(s)]
  }

  /** `s.trim()`. */
  function Trim(s: string): string {
    TrimEnd(TrimStart(s))
  }

  function LowerChar(c: char): char {
    if 'A' <= c <= 'Z' then (c as int + 32) as char else c
  }

  /** The UTF-16 code units of one character: two for a character outside the
      Basic Multilingual Plane (a surrogate pair), one otherwise. */
  function Utf16Units(c: char): nat {
    if c as int > 0xFFFF then 2 else 1
  }

  /** `s.length`: the number of UTF-16 code units of `s`. */
  function Utf16Length(s: string): (n: nat)
    ensures |s| <= n <= 2 * |s|
  {
    if s == [] then 0 else Utf16Units(s[0]) + Utf16Length(s[1..])
  }

  lemma {:induction false} Utf16Append(a: string, b: string)
    ensures Utf16Length(a + b) == Utf16Length(a) + Utf16Length(b)
  {
    if a == [] {
      assert a + b == b;
    } else {
      assert (a + b)[1..] == a[1..] + b;
      Utf16Append(a[1..], b);
    }
  }

  /** The code units equal the characters exactly when no character needs a
      surrogate pair. */
  lemma {:induction false} Utf16LengthIsLength(s: string)
    ensures Utf16Length(s) == |s| <==> forall i :: 0 <= i < |s| ==> s[i] as int <= 0xFFFF
  {
    if s != [] {
      Utf16LengthIsLength(s[1..]);
      if forall i :: 0 <= i < |s| ==> s[i] as int <= 0xFFFF {
        assert forall i :: 0 <= i < |s[1..]| ==> s[1..][i] == s[i + 1];
      } else if s[0] as int <= 0xFFFF {
        var i :| 0 <= i < |s| && s[i] as int > 0xFFFF;
        assert s[1..][i - 1] == s[i];
      }
    }
  }

  /** `s.toLowerCase()` on ASCII letters. */
  function Lower(s: string): (r: string)
    ensures |r| == |s|
    ensures forall i :: 0 <= i < |s| ==> r[i] == LowerChar(s[i])
  {
    if s == [] then "" else [LowerChar(s[0])] + Lower(s[1..])
  }

  predicate StartsWith(s: string, prefix: string) {
    prefix <= s
  }

  predicate EndsWith(s: string, suffix: string) {
    |suffix| <= |s| && s[|s| - |suffix|..] == suffix
  }

  function DigitChar(d: nat): char
    requires d < 10
  {
    ('0' as int + d) as char
  }

  /** `String(n)` for a natural number: its decimal digits, no leading zero. */
  function NatToString(n: nat): (r: string)
    ensures |r| > 0
    ensures forall i :: 0 <= i < |r| ==> '0' <= r[i] <= '9'
    decreases n
  {
    if n < 10 then [DigitChar(n)] else NatToString(n / 10) + [DigitChar(n % 10)]
  }

  /** `String(i)` for an integer. */
  function IntToString(i: int): string {
    if i < 0 then "-" + NatToString(-i) else NatToString(i)
  }

  /** The value of a string of decimal digits. */
  function DecimalValue(s: string): nat
    requires forall i :: 0 <= i < |s| ==> '0' <= s[i] <= '9'
  {
    if s == [] then 0 else DecimalValue(s[..|s| - 1]) * 10 + (s[|s| - 1] as int - '0' as int)
  }

  lemma {:induction false} NatToStringRoundTrip(n: nat)
    ensures DecimalValue(NatToString(n)) == n
    decreases n
  {
    if n >= 10 {
      var s := NatToString(n);
      assert s[..|s| - 1] == NatToString(n / 10);
      NatToStringRoundTrip(n / 10);
    }
  }

  lemma {:induction false} SplitJoin(s: string, c: char)
    ensures Join(Split(s, c), c) == s
  {
    if s != [] {
      SplitJoin(s[1..], c);
      var rest := Split(s[1..], c);
      if s[0] == c {
        assert Join([""] + rest, c) == [c] + Join(rest, c);
      } else if |rest| == 1 {
      } else {
        assert ([[s[0]] + rest[0]] + rest[1..])[1..] == rest[1..];
      }
    }
  }

  lemma {:induction false} SplitCount(s: string, c: char)
    ensures |Split(s, c)| == Count(s, c) + 1
  {
    if s != [] {
      SplitCount(s[1..], c);
    }
  }

  /** The pieces of `Split` never contain the separator. */
  lemma {:induction false} SplitPiecesFree(s: string, c: char)
    ensures forall i :: 0 <= i < |Split(s, c)| ==> c !in Split(s, c)[i]
  {
    if s != [] {
      SplitPiecesFree(s[1..], c);
      var rest := Split(s[1..], c);
      if s[0] != c {
        assert forall i :: 1 <= i < |rest| ==> ([[s[0]] + rest[0]] + rest[1..])[i] == rest[i];
      }
    }
  }

  /** `s` holds `c` twice in a row. */
  predicate Doubled(s: string, c: char) {
    exists i :: 0 <= i < |s| - 1 && s[i] == c && s[i + 1] == c
  }

  lemma DoubledCons(s: string, c: char)
    requires s != []
    ensures Doubled(s, c) <==> (|s| >= 2 && s[0] == c && s[1] == c) || Doubled(s[1..], c)
  {
    if Doubled(s[1..], c) {
      var i :| 0 <= i < |s[1..]| - 1 && s[1..][i] == c && s[1..][i + 1] == c;
      assert s[i + 1] == c && s[i + 2] == c;
    }
    if Doubled(s, c) && !(|s| >= 2 && s[0] == c && s[1] == c) {
      var i :| 0 <= i < |s| - 1 && s[i] == c && s[i + 1] == c;
      assert s[1..][i - 1] == c && s[1..][i] == c;
    }
  }

  /** The first piece of a split is empty exactly when `s` is or starts with `c`. */
  lemma FirstPieceEmpty(s: string, c: char)
    ensures Split(s, c)[0] == "" <==> s == "" || s[0] == c
  {
  }

  /** Every piece after the first is non-empty exactly when `s` holds no
      doubled separator and does not end with one. */
  lemma {:induction false} LaterPiecesNonEmpty(s: string, c: char)
    ensures (forall i :: 1 <= i < |Split(s, c)| ==> Split(s, c)[i] != "") <==>
      (s == "" || s[|s| - 1] != c) && !Doubled(s, c)
  {
    if s != [] {
      var t := s[1..];
      var rest := Split(t, c);
      var pieces := Split(s, c);
      LaterPiecesNonEmpty(t, c);
      DoubledCons(s, c);
      FirstPieceEmpty(t, c);
      var restLater := forall i :: 1 <= i < |rest| ==> rest[i] != "";
      var later := forall i :: 1 <= i < |pieces| ==> pieces[i] != "";
      if t != [] {
        assert s[|s| - 1] == t[|t| - 1] && s[1] == t[0];
      }
      if s[0] == c {
        assert pieces == [""] + rest;
        assert later <==> rest[0] != "" && restLater by {
          if later {
            assert pieces[1] == rest[0];
            forall i | 1 <= i < |rest| ensures rest[i] != "" {
              assert pieces[i + 1] == rest[i];
            }
          }
          if rest[0] != "" && restLater {
            forall i | 1 <= i < |pieces| ensures pieces[i] != "" {
              assert pieces[i] == rest[i - 1];
            }
          }
        }
      } else {
        assert pieces == [[s[0]] + rest[0]] + rest[1..];
        assert later <==> restLater by {
          if later {
            forall i | 1 <= i < |rest| ensures rest[i] != "" {
              assert pieces[i] == rest[i];
            }
          }
          if restLater {
            forall i | 1 <= i < |pieces| ensures pieces[i] != "" {
              assert pieces[i] == rest[i];
            }
          }
        }
      }
    }
  }

  /** Every piece of a split is non-empty exactly when `s` is non-empty,
      neither starts nor ends with `c` and holds no doubled `c`. */
  lemma PiecesNonEmpty(s: string, c: char)
    ensures (forall i :: 0 <= i < |Split(s, c)| ==> Split(s, c)[i] != "") <==>
      s != "" && s[0] != c && s[|s| - 1] != c && !Doubled(s, c)
  {
    LaterPiecesNonEmpty(s, c);
    FirstPieceEmpty(s, c);
  }

  /** Joining pieces free of the separator and splitting again gives the pieces back. */
  lemma {:induction false} JoinSplit(parts: seq<string>, c: char)
    requires |parts| > 0
    requires forall i :: 0 <= i < |parts| ==> c !in parts[i]
    ensures Split(Join(parts, c), c) == parts
  {
    if |parts| == 1 {
      SplitFree(parts[0], c);
    } else {
      JoinSplit(parts[1..], c);
      SplitPrefix(parts[0], Join(parts[1..], c), c);
    }
  }

  lemma {:induction false} SplitFree(s: string, c: char)
    requires c !in s
    ensures Split(s, c) == [s]
  {
    if s != [] {
      SplitFree(s[1..], c);
      assert [s[0]] + s[1..] == s;
    }
  }

  /** Splitting `p + [c] + rest` where `p` has no `c` puts `p` first. */
  lemma {:induction false} SplitPrefix(p: string, rest: string, c: char)
    requires c !in p
    ensures Split(p + [c] + rest, c) == [p] + Split(rest, c)
  {
    if p == [] {
      assert p + [c] + rest == [c] + rest;
      assert ([c] + rest)[1..] == rest;
    } else {
      assert (p + [c] + rest)[1..] == p[1..] + [c] + rest;
      SplitPrefix(p[1..], rest, c);
      assert [p[0]] + p[1..] == p;
    }
  }

  /** `s.trim() === ""` exactly when `s` consists of whitespace. */
  lemma TrimEmptyIffBlank(s: string)
    ensures Trim(s) == "" <==> Blank(s)
  {
    var k := LeadingSpaces(s);
    var t := s[k..];
    var m := TrailingStart(t);
    if m == 0 {
      forall i | 0 <= i < |s| ensures IsSpace(s[i]) {
        assert s[i] == s[..k][i];
      }
    } else {
      assert !IsSpace(t[m - 1]);
      assert !IsSpace(s[k + m - 1]);
    }
  }
  /** The first piece of `s.split(c)` is the text before the first `c`. */
  lemma {:induction false} SplitFirstIsBefore(s: string, c: char)
    ensures Split(s, c)[0] == Before(s, c)
  {
    if s != [] && s[0] != c {
      SplitFirstIsBefore(s[1..], c);
    }
  }

  /** The text before the first `c` of `p + [c] + rest`, when `p` has none, is `p`. */
  lemma {:induction false} BeforePrefix(p: string, rest: string, c: char)
    requires c !in p
    ensures Before(p + [c] + rest, c) == p
  {
    if p == [] {
      assert (p + [c] + rest)[0] == c;
    } else {
      assert (p + [c] + rest)[1..] == p[1..] + [c] + rest;
      BeforePrefix(p[1..], rest, c);
      assert [p[0]] + p[1..] == p;
    }
  }

  /** Lowercasing twice is lowercasing once. */
  lemma LowerIdempotent(s: string)
    ensures Lower(Lower(s)) == Lower(s)
  {
  }

  /** `path.split("/").filter(Boolean)`: the non-empty segments of a path. */
  function Segments(path: string): seq<string> {
    NonEmpty(Split(path, '/'))
  }

  lemma {:induction false} NonEmptyAppend(a: seq<string>, b: seq<string>)
    ensures NonEmpty(a + b) == NonEmpty(a) + NonEmpty(b)
  {
    if a == [] {
      assert a + b == b;
    } else {
      assert (a + b)[1..] == a[1..] + b;
      NonEmptyAppend(a[1..], b);
    }
  }

  /** Dropping empty pieces changes nothing when there are none. */
  lemma {:induction false} NonEmptyKeeps(parts: seq<string>)
    requires forall i :: 0 <= i < |parts| ==> parts[i] != ""
    ensures NonEmpty(parts) == parts
  {
    if parts != [] {
      NonEmptyKeeps(parts[1..]);
    }
  }

  /** A path built as "/" followed by joined segments splits back into those segments. */
  lemma SegmentsOfJoin(parts: seq<string>)
    requires |parts| > 0
    requires forall i :: 0 <= i < |parts| ==> parts[i] != "" && '/' !in parts[i]
    ensures Segments("/" + Join(parts, '/')) == parts
  {
    JoinSplit(parts, '/');
    SplitPrefix("", Join(parts, '/'), '/');
    assert "" + ['/'] + Join(parts, '/') == "/" + Join(parts, '/');
    NonEmptyAppend([""], parts);
    NonEmptyKeeps(parts);
  }

  /** Putting "/" and a segment in front of a path adds exactly that segment. */
  lemma SegmentsOfPrefixed(seg: string, path: string)
    requires seg != "" && '/' !in seg
    requires path == "" || path[0] == '/'
    ensures Segments("/" + seg + path) == [seg] + Segments(path)
  {
    SplitPrefix("", seg + path, '/');
    assert "" + ['/'] + (seg + path) == "/" + seg + path;
    if path == "" {
      SplitFree(seg, '/');
      assert seg + path == seg;
      assert Split(path, '/') == [""];
      NonEmptyAppend([""], [seg]);
    } else {
      assert path == [path[0]] + path[1..];
      SplitPrefix(seg, path[1..], '/');
      assert seg + path == seg + ['/'] + path[1..];
      SplitPrefix("", path[1..], '/');
      assert "" + ['/'] + path[1..] == path;
      NonEmptyAppend([""], [seg] + Split(path[1..], '/'));
      NonEmptyAppend([seg], Split(path[1..], '/'));
      NonEmptyAppend([""], Split(path[1..], '/'));
    }
  }
}
