/** src/tools/Image/RemoveBackground.tsx, colour mode: the key colour read
    from the "#rrggbb" text, the pass over the RGBA buffer that makes every
    pixel close enough to that colour transparent, and the type and name of
    the download. The buffer is the canvas's `ImageData.data`, one byte per
    channel, four channels per pixel in the order red, green, blue, alpha. */
module RemoveBackground {

  import opened Wrappers
  import opened Strings

  /** The value of a hexadecimal digit, either case. */
  function HexDigitValue(c: char): (v: Option<nat>)
    ensures v.Some? ==> v.value < 16
  {
    if '0' <= c <= '9' then Some(c as int - '0' as int)
    else if 'a' <= c <= 'f' then Some(c as int - 'a' as int + 10)
    else if 'A' <= c <= 'F' then Some(c as int - 'A' as int + 10)
    else None
  }

  /** The length of the run of hexadecimal digits `s` starts with. */
  function HexRun(s: string): (k: nat)
    ensures k <= |s|
    ensures forall i :: 0 <= i < k ==> HexDigitValue(s[i]).Some?
    ensures k == |s| || HexDigitValue(s[k]).None?
  {
    if s == [] || HexDigitValue(s[0]).None? then 0 else 1 + HexRun(s[1..])
  }

  /** The value of a string of hexadecimal digits. */
  function HexValue(ds: string): nat
    requires forall i :: 0 <= i < |ds| ==> HexDigitValue(ds[i]).Some?
  {
    if ds == [] then 0 else HexValue(ds[..|ds| - 1]) * 16 + HexDigitValue(ds[|ds| - 1]).value
  }

  /** `parseInt(s, 16)`: leading whitespace is skipped, a sign and a "0x"
      prefix are allowed, then the longest run of hexadecimal digits is read;
      with no digit the result is NaN, here None. */
  function ParseHex(s: string): Option<int> {
    var t := s[LeadingSpaces(s)..];
    var negative := |t| > 0 && t[0] == '-';
    var u := if |t| > 0 && (t[0] == '-' || t[0] == '+') then t[1..] else t;
    var v := if |u| >= 2 && u[0] == '0' && (u[1] == 'x' || u[1] == 'X') then u[2..] else u;
    var k := HexRun(v);
    if k == 0 then None
    else
      var magnitude: int := HexValue(v[..k]);
      var value := if negative then -magnitude else magnitude;
      Some(value)
  }

  /** `s.replace("#", "")`: the first '#' removed. */
  function RemoveFirstHash(s: string): string {
    if s == [] then [] else if s[0] == '#' then s[1..] else [s[0]] + RemoveFirstHash(s[1..])
  }

  /** `s.substring(a, b)` for 0 <= a <= b: both ends clamped to the length. */
  function Substring(s: string, a: nat, b: nat): string
    requires a <= b
  {
    var lo := if a < |s| then a else |s|;
    var hi := if b < |s| then b else |s|;
    s[lo..hi]
  }

  /** The key colour: each channel is a parsed number or NaN. */
  datatype Key = Key(r: Option<int>, g: Option<int>, b: Option<int>)

  function KeyOf(colorToRemove: string): Key {
    var hex := RemoveFirstHash(colorToRemove);
    Key(ParseHex(Substring(hex, 0, 2)), ParseHex(Substring(hex, 2, 4)), ParseHex(Substring(hex, 4, 6)))
  }

  lemma HexValueSmall(ds: string)
    requires |ds| <= 2
    requires forall i :: 0 <= i < |ds| ==> HexDigitValue(ds[i]).Some?
    ensures |ds| <= 1 ==> HexValue(ds) <= 15
    ensures HexValue(ds) <= 255
  {
    if |ds| > 0 {
      var front := ds[..|ds| - 1];
      if |ds| == 2 {
        assert front[..0] == [];
      }
    }
  }

  /** A channel read from at most two characters is between -15 and 255. */
  lemma ChannelBounds(s: string)
    requires |s| <= 2 && ParseHex(s).Some?
    ensures -15 <= ParseHex(s).value <= 255
  {
    var t := s[LeadingSpaces(s)..];
    var u := if |t| > 0 && (t[0] == '-' || t[0] == '+') then t[1..] else t;
    var v := if |u| >= 2 && u[0] == '0' && (u[1] == 'x' || u[1] == 'X') then u[2..] else u;
    var k := HexRun(v);
    HexValueSmall(v[..k]);
  }

  /** The lowercase hexadecimal digit of a value below 16. */
  function HexChar(d: nat): char
    requires d < 16
  {
    if d < 10 then ('0' as int + d) as char else ('a' as int + d - 10) as char
  }

  /** A byte as the two digits `<input type="color">` writes for it. */
  function HexByte(n: nat): string
    requires n < 256
  {
    [HexChar(n / 16), HexChar(n % 16)]
  }

  lemma HexCharValue(d: nat)
    requires d < 16
    ensures HexDigitValue(HexChar(d)) == Some(d)
  {
  }

  /** Each byte reads back from its two digits. */
  lemma HexByteValue(n: nat)
    requires n < 256
    ensures ParseHex(HexByte(n)) == Some(n)
  {
    var s := HexByte(n);
    HexCharValue(n / 16);
    HexCharValue(n % 16);
    assert LeadingSpaces(s) == 0;
    assert s[0..] == s;
    assert HexRun(s[1..][1..]) == 0;
    assert HexRun(s) == 2;
    assert s[..2] == s;
    assert s[..1] == [s[0]] && s[..1][..0] == [];
    assert HexValue(s[..1]) == n / 16;
    assert s[..|s| - 1] == s[..1];
    assert HexValue(s) == (n / 16) * 16 + n % 16;
  }

  /** The colour picker's "#rrggbb" gives back the three channels it was
      written from. */
  lemma KeyOfColor(r: nat, g: nat, b: nat)
    requires r < 256 && g < 256 && b < 256
    ensures KeyOf("#" + HexByte(r) + HexByte(g) + HexByte(b)) == Key(Some(r), Some(g), Some(b))
  {
    var hex := HexByte(r) + HexByte(g) + HexByte(b);
    assert ("#" + HexByte(r) + HexByte(g) + HexByte(b))[1..] == hex;
    assert Substring(hex, 0, 2) == HexByte(r);
    assert Substring(hex, 2, 4) == HexByte(g);
    assert Substring(hex, 4, 6) == HexByte(b);
    HexByteValue(r);
    HexByteValue(g);
    HexByteValue(b);
  }

  /** `Math.sqrt(dr² + dg² + db²) <= tolerance`: false when a channel of the
      key is NaN or the tolerance is negative, and otherwise the same test on
      the squares. */
  predicate Matches(r: int, g: int, b: int, key: Key, tolerance: int) {
    key.r.Some? && key.g.Some? && key.b.Some? && tolerance >= 0 &&
    (r - key.r.value) * (r - key.r.value) + (g - key.g.value) * (g - key.g.value)
      + (b - key.b.value) * (b - key.b.value) <= tolerance * tolerance
  }

  /** The buffer after the pass: the alpha byte of every matching pixel is 0,
      every other byte as before. */
  function Keyed(s: seq<int>, key: Key, tolerance: int): (r: seq<int>)
    ensures |r| == |s|
    ensures forall j :: 0 <= j < |s| ==> r[j] == KeyedAt(s, j, key, tolerance)
  {
    seq(|s|, j requires 0 <= j < |s| => KeyedAt(s, j, key, tolerance))
  }

  /** Byte `j` after the pass. */
  function KeyedAt(s: seq<int>, j: nat, key: Key, tolerance: int): int
    requires j < |s|
  {
    if j % 4 == 3 && Matches(s[j - 3], s[j - 2], s[j - 1], key, tolerance) then 0 else s[j]
  }

  /** The bytes of one pixel: a multiple of four starts it, and a whole
      buffer holds it entirely. */
  lemma PixelBytes(i: int, n: int)
    requires 0 <= i < n && i % 4 == 0 && n % 4 == 0
    ensures i + 4 <= n
    ensures (i + 1) % 4 == 1 && (i + 2) % 4 == 2 && (i + 3) % 4 == 3 && (i + 4) % 4 == 0
  {
  }

  lemma ChannelsOfAlpha(j: int)
    requires j >= 3 && j % 4 == 3
    ensures (j - 3) % 4 == 0 && (j - 2) % 4 == 1 && (j - 1) % 4 == 2
  {
  }

  /** `removeColor`'s loop: one pixel per step, the alpha byte written only
      when the pixel matches. */
  method RemoveColor(data: array<int>, key: Key, tolerance: int)
    requires data.Length % 4 == 0
    modifies data
    ensures data[..] == Keyed(old(data[..]), key, tolerance)
  {
    ghost var before := data[..];
    var i := 0;
    while i < data.Length
      invariant 0 <= i <= data.Length && i % 4 == 0
      invariant forall j :: 0 <= j < i ==> data[j] == KeyedAt(before, j, key, tolerance)
      invariant forall j :: i <= j < data.Length ==> data[j] == before[j]
    {
      PixelBytes(i, data.Length);
      var r := data[i];
      var g := data[i + 1];
      var b := data[i + 2];
      if Matches(r, g, b, key, tolerance) {
        data[i + 3] := 0;
      }
      i := i + 4;
    }
    assert data[..] == Keyed(before, key, tolerance);
  }

  /** The pass writes alpha bytes only: red, green and blue stay, an alpha
      becomes 0 for a matching pixel and stays otherwise. */
  lemma KeyedMeaning(s: seq<int>, key: Key, tolerance: int, j: nat)
    requires j < |s|
    ensures j % 4 != 3 ==> Keyed(s, key, tolerance)[j] == s[j]
    ensures j % 4 == 3 && Matches(s[j - 3], s[j - 2], s[j - 1], key, tolerance) ==> Keyed(s, key, tolerance)[j] == 0
    ensures j % 4 == 3 && !Matches(s[j - 3], s[j - 2], s[j - 1], key, tolerance) ==> Keyed(s, key, tolerance)[j] == s[j]
  {
  }

  /** An alpha byte is 0 after the pass exactly when its pixel matches or it
      already was 0. */
  lemma TransparentAfterPass(s: seq<int>, key: Key, tolerance: int, j: nat)
    requires j < |s| && j % 4 == 3
    ensures Keyed(s, key, tolerance)[j] == 0 <==> Matches(s[j - 3], s[j - 2], s[j - 1], key, tolerance) || s[j] == 0
  {
  }

  /** The pass is idempotent: the colours it compares are the ones it keeps. */
  lemma KeyedIdempotent(s: seq<int>, key: Key, tolerance: int)
    ensures Keyed(Keyed(s, key, tolerance), key, tolerance) == Keyed(s, key, tolerance)
  {
    var once := Keyed(s, key, tolerance);
    forall j | 0 <= j < |s| ensures Keyed(once, key, tolerance)[j] == once[j] {
      if j % 4 == 3 {
        ChannelsOfAlpha(j);
        assert once[j - 3] == s[j - 3] && once[j - 2] == s[j - 2] && once[j - 1] == s[j - 1];
      }
    }
  }

  /** A key that does not parse matches no pixel, so the pass leaves the
      buffer as it was. */
  lemma NaNKeyChangesNothing(s: seq<int>, key: Key, tolerance: int)
    requires key.r.None? || key.g.None? || key.b.None?
    ensures Keyed(s, key, tolerance) == s
  {
  }

  /** The key colour itself always matches, whatever the tolerance. */
  lemma KeyColourMatches(key: Key, tolerance: int)
    requires key.r.Some? && key.g.Some? && key.b.Some? && tolerance >= 0
    ensures Matches(key.r.value, key.g.value, key.b.value, key, tolerance)
  {
  }

  /** The type the result is encoded in: PNG over a transparent background,
      JPEG over a colour. */
  function OutputMime(bgColor: string): string {
    if bgColor == "transparent" then "image/png" else "image/jpeg"
  }

  /** The download name `nobg_${file.name.split(".")[0]}.${ext}`. */
  function DownloadName(name: string, bgColor: string): string {
    "nobg_" + Before(name, '.') + "." + (if bgColor == "transparent" then "png" else "jpg")
  }

  /** The extension of the download always names the type of the image. */
  lemma ExtensionMatchesType(name: string, bgColor: string)
    ensures OutputMime(bgColor) == "image/png" ==> EndsWith(DownloadName(name, bgColor), ".png")
    ensures OutputMime(bgColor) == "image/jpeg" ==> EndsWith(DownloadName(name, bgColor), ".jpg")
    ensures OutputMime(bgColor) == "image/png" || OutputMime(bgColor) == "image/jpeg"
  {
  }
}
