/** src/tools/Social/HashtagGenerator.tsx: the base words of the keyword, the
    eight groups of tags built from them, the shuffle and the first fifteen, and
    the copied text. The shuffle (`sort` with a random comparator, which
    reorders the array in place) is a parameter: an arbitrary reordering of the
    generated list, given as the list it produces. */
module HashtagGenerator {

  import opened Strings

  /** `keyword.split(" ").filter(Boolean)`. */
  function BaseWords(keyword: string): seq<string> {
    NonEmpty(Split(keyword, ' '))
  }

  /** The tag `#${w.toLowerCase()}${suffix}`. */
  function Tag(w: string, suffix: string): string {
    "#" + Lower(w) + suffix
  }

  /** `words.map((w) => Tag(w, suffix))`. */
  function Tagged(words: seq<string>, suffix: string): (r: seq<string>)
    ensures |r| == |words|
    ensures forall i :: 0 <= i < |words| ==> r[i] == Tag(words[i], suffix)
  {
    if words == [] then [] else [Tag(words[0], suffix)] + Tagged(words[1..], suffix)
  }

  /** `words.map((w) => tag)`: the tag once per word. */
  function Repeated(words: seq<string>, tag: string): (r: seq<string>)
    ensures |r| == |words|
    ensures forall i :: 0 <= i < |words| ==> r[i] == tag
  {
    if words == [] then [] else [tag] + Repeated(words[1..], tag)
  }

  const Suffixes: seq<string> := ["", "life", "love", "style", "tips"]
  const FixedTags: seq<string> := ["#instadaily", "#explorepage", "#trending"]

  /** The tag group `g` holds for word `w`. */
  function GroupTag(g: nat, w: string): string
    requires g < 8
  {
    if g < 5 then Tag(w, Suffixes[g]) else FixedTags[g - 5]
  }

  /** The eight groups of the generated list, in the order they are spread
      into it. */
  function AllGroups(words: seq<string>): seq<seq<string>> {
    [Tagged(words, ""), Tagged(words, "life"), Tagged(words, "love"), Tagged(words, "style"),
     Tagged(words, "tips"), Repeated(words, "#instadaily"), Repeated(words, "#explorepage"),
     Repeated(words, "#trending")]
  }

  /** Eight groups, one entry per word in each. */
  lemma AllGroupsLengths(words: seq<string>)
    ensures |AllGroups(words)| == 8
    ensures forall j :: 0 <= j < 8 ==> |AllGroups(words)[j]| == |words|
  {
  }

  /** Entry `i` of group `g` is that group's tag for word `i`. */
  lemma AllGroupsAt(words: seq<string>, g: nat, i: nat)
    requires g < 8 && i < |words|
    ensures AllGroups(words)[g][i] == GroupTag(g, words[i])
  {
  }

  /** g * n as repeated addition: where group `g` starts in a list of groups of
      n entries. */
  function Offset(g: nat, n: nat): (r: nat)
    ensures g > 0 ==> r >= n
  {
    if g == 0 then 0 else Offset(g - 1, n) + n
  }

  lemma {:induction false} OffsetIsProduct(g: nat, n: nat)
    ensures Offset(g, n) == g * n
  {
    if g > 0 {
      OffsetIsProduct(g - 1, n);
      assert g * n == (g - 1) * n + n;
    }
  }

  /** The spread `[...gs[0], ...gs[1], ...]`. */
  function Spread(gs: seq<seq<string>>): seq<string> {
    if gs == [] then [] else Spread(gs[..|gs| - 1]) + gs[|gs| - 1]
  }

  /** In a spread of groups of `n` entries each, group `g` starts at
      position g * n. */
  lemma {:induction false} SpreadAt(gs: seq<seq<string>>, n: nat, g: nat, i: nat)
    requires forall j :: 0 <= j < |gs| ==> |gs[j]| == n
    requires g < |gs| && i < n
    ensures |Spread(gs)| == Offset(|gs|, n)
    ensures Offset(g, n) + i < Offset(|gs|, n)
    ensures Spread(gs)[Offset(g, n) + i] == gs[g][i]
    decreases |gs|
  {
    var front := gs[..|gs| - 1];
    SpreadLength(front, n);
    if g < |gs| - 1 {
      SpreadAt(front, n, g, i);
    }
  }

  lemma {:induction false} SpreadLength(gs: seq<seq<string>>, n: nat)
    requires forall j :: 0 <= j < |gs| ==> |gs[j]| == n
    ensures |Spread(gs)| == Offset(|gs|, n)
    decreases |gs|
  {
    if gs != [] {
      SpreadLength(gs[..|gs| - 1], n);
    }
  }

  /** The generated list: the five suffix groups, then the three fixed tags. */
  function Generated(words: seq<string>): (r: seq<string>)
    ensures |r| == 8 * |words|
  {
    AllGroupsLengths(words);
    SpreadLength(AllGroups(words), |words|);
    OffsetIsProduct(8, |words|);
    Spread(AllGroups(words))
  }

  /** The layout of the generated list: entry `i` of group `g` is the tag of
      word `i` for that group, so the suffix groups come first, in the order
      none, life, love, style, tips, then one #instadaily, one #explorepage and
      one #trending per word. */
  lemma GeneratedAt(words: seq<string>, g: nat, i: nat)
    requires g < 8 && i < |words|
    ensures g * |words| + i < 8 * |words|
    ensures Generated(words)[g * |words| + i] == GroupTag(g, words[i])
  {
    AllGroupsLengths(words);
    AllGroupsAt(words, g, i);
    SpreadAt(AllGroups(words), |words|, g, i);
    OffsetIsProduct(g, |words|);
    OffsetIsProduct(8, |words|);
  }

  function Min(a: nat, b: nat): nat {
    if a < b then a else b
  }

  /** Whether `shuffled` is a reordering of `xs`. */
  predicate Reorders(shuffled: seq<string>, xs: seq<string>) {
    multiset(shuffled) == multiset(xs)
  }

  /** The displayed tags: the first fifteen of the shuffled list. They are
      drawn from it without reuse: no tag is shown more often than it occurs. */
  function Picked(shuffled: seq<string>): (r: seq<string>)
    ensures |r| == Min(15, |shuffled|)
    ensures multiset(r) <= multiset(shuffled)
  {
    var k := Min(15, |shuffled|);
    assert shuffled == shuffled[..k] + shuffled[k..];
    shuffled[..k]
  }

  // ---------------------------------------------------------------------------
  // The guard.

  /** Pieces made of no character: joining them leaves only separators. */
  lemma {:induction false} JoinOfEmpties(parts: seq<string>, c: char)
    requires forall i :: 0 <= i < |parts| ==> parts[i] == ""
    ensures forall i :: 0 <= i < |Join(parts, c)| ==> Join(parts, c)[i] == c
  {
    if |parts| > 1 {
      JoinOfEmpties(parts[1..], c);
    }
  }

  lemma {:induction false} NoneKept(parts: seq<string>)
    requires NonEmpty(parts) == []
    ensures forall i :: 0 <= i < |parts| ==> parts[i] == ""
  {
    if parts != [] {
      NoneKept(parts[1..]);
    }
  }

  /** A keyword that passes the guard has at least one base word, so at least
      eight tags are generated; every base word is free of spaces. */
  lemma GuardGivesWords(keyword: string)
    requires Trim(keyword) != ""
    ensures |BaseWords(keyword)| >= 1
    ensures forall i :: 0 <= i < |BaseWords(keyword)| ==>
      BaseWords(keyword)[i] != "" && ' ' !in BaseWords(keyword)[i]
  {
    TrimEmptyIffBlank(keyword);
    SplitPiecesFree(keyword, ' ');
    if BaseWords(keyword) == [] {
      NoneKept(Split(keyword, ' '));
      JoinOfEmpties(Split(keyword, ' '), ' ');
      SplitJoin(keyword, ' ');
      assert Blank(keyword);
    }
  }

  class Generator {
    var keyword: string
    var hashtags: seq<string>
    var copied: bool

    constructor ()
      ensures keyword == "" && hashtags == [] && !copied
    {
      keyword, hashtags, copied := "", [], false;
    }

    /** `generateHashtags`: a blank keyword changes nothing; otherwise the
        generated list, reordered as `shuffled`, gives its first fifteen to the
        display and `copied` is reset. */
    method GenerateHashtags(shuffled: seq<string>)
      requires Trim(keyword) != "" ==> Reorders(shuffled, Generated(BaseWords(keyword)))
      modifies this
      ensures keyword == old(keyword)
      ensures Trim(keyword) == "" ==> hashtags == old(hashtags) && copied == old(copied)
      ensures Trim(keyword) != "" ==> hashtags == Picked(shuffled) && !copied
    {
      if Trim(keyword) == "" {
        return;
      }
      hashtags := shuffled[..Min(15, |shuffled|)];
      copied := false;
    }

    /** `copyToClipboard`: the text written is the tags separated by one space. */
    method CopyToClipboard() returns (text: string)
      modifies this
      ensures text == Join(hashtags, ' ')
      ensures copied && hashtags == old(hashtags) && keyword == old(keyword)
    {
      text := Join(hashtags, ' ');
      copied := true;
    }
  }

  /** A keyword with n base words shows min(15, 8 n) tags, at least eight,
      each shown at most as often as it was generated. */
  lemma ShownTags(keyword: string, shuffled: seq<string>)
    requires Trim(keyword) != ""
    requires Reorders(shuffled, Generated(BaseWords(keyword)))
    ensures |Picked(shuffled)| == Min(15, 8 * |BaseWords(keyword)|) >= 8
    ensures multiset(Picked(shuffled)) <= multiset(Generated(BaseWords(keyword)))
  {
    GuardGivesWords(keyword);
    assert |multiset(shuffled)| == |multiset(Generated(BaseWords(keyword)))|;
  }

  /** Lowercasing keeps a text free of spaces. */
  lemma LowerFree(w: string)
    requires ' ' !in w
    ensures ' ' !in Lower(w)
  {
  }

  lemma DivBelow(k: nat, n: nat)
    requires n > 0 && k < 8 * n
    ensures k / n < 8 && k == (k / n) * n + k % n && k % n < n
  {
  }

  /** Every generated tag is free of spaces when the words are. */
  lemma GeneratedFree(words: seq<string>, k: nat)
    requires forall i :: 0 <= i < |words| ==> ' ' !in words[i]
    requires k < 8 * |words|
    ensures ' ' !in Generated(words)[k]
  {
    var n := |words|;
    DivBelow(k, n);
    var i, g := k % n, k / n;
    GeneratedAt(words, g, i);
    LowerFree(words[i]);
  }

  /** The copied text splits back into the shown tags: no tag holds a space. */
  lemma CopiedTextSplits(keyword: string, shuffled: seq<string>)
    requires Trim(keyword) != ""
    requires Reorders(shuffled, Generated(BaseWords(keyword)))
    ensures Split(Join(Picked(shuffled), ' '), ' ') == Picked(shuffled)
  {
    var words := BaseWords(keyword);
    var g := Generated(words);
    ShownTags(keyword, shuffled);
    GuardGivesWords(keyword);
    var p := Picked(shuffled);
    forall k | 0 <= k < |p| ensures ' ' !in p[k] {
      assert p[k] in multiset(p);
      assert p[k] in multiset(g);
      var m :| 0 <= m < |g| && g[m] == p[k];
      GeneratedFree(words, m);
    }
    JoinSplit(p, ' ');
  }
}
