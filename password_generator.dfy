/** src/tools/Utilities/PasswordGenerator.tsx: the character set chosen by the
    four switches, the password drawn from it one character per random number,
    the strength heuristic and the copy guard. `Math.random` is a parameter: the
    sequence of numbers in [0, 1) it returns. */
module PasswordGenerator {

  const Uppercase: string := "ABCDEFGHIJKLMNOPQRSTUVWXYZ"
  const Lowercase: string := "abcdefghijklmnopqrstuvwxyz"
  const Digits: string := "0123456789"
  const Symbols: string := "!@#$%^&*()_+~`|}{[]:;?><,./-="

  /** The character set: the four groups in their fixed order, each present
      only when its switch is on. */
  function Charset(upper: bool, lower: bool, numbers: bool, symbols: bool): (r: string)
    ensures |r| == (if upper then 26 else 0) + (if lower then 26 else 0) + (if numbers then 10 else 0) + (if symbols then 29 else 0)
    ensures r == "" <==> !upper && !lower && !numbers && !symbols
  {
    (if upper then Uppercase else "") + (if lower then Lowercase else "")
      + (if numbers then Digits else "") + (if symbols then Symbols else "")
  }

  /** `Math.floor(Math.random() * n)`: always an index of the character set. */
  function DrawIndex(r: real, n: nat): (k: nat)
    requires 0.0 <= r < 1.0 && n > 0
    ensures k < n
  {
    assert 0.0 <= r * n as real < n as real;
    (r * n as real).Floor
  }

  predicate Draws(draws: seq<real>) {
    forall i :: 0 <= i < |draws| ==> 0.0 <= draws[i] < 1.0
  }

  /** The password a sequence of random numbers draws from a character set:
      one character per number, each a member of the set. */
  function Drawn(charset: string, draws: seq<real>): (r: string)
    requires charset != "" && Draws(draws)
    ensures |r| == |draws|
    ensures forall i :: 0 <= i < |draws| ==> r[i] == charset[DrawIndex(draws[i], |charset|)]
    ensures forall i :: 0 <= i < |r| ==> r[i] in charset
  {
    if draws == [] then ""
    else Drawn(charset, draws[..|draws| - 1]) + [charset[DrawIndex(draws[|draws| - 1], |charset|)]]
  }

  datatype Strength = Strong | Medium | Weak

  /** The strength heuristic: long with every group is strong, otherwise longer
      than eight is medium, otherwise weak. */
  function StrengthOf(passwordLength: nat, upper: bool, lower: bool, numbers: bool, symbols: bool): (s: Strength)
    ensures s == Strong <==> passwordLength > 12 && upper && lower && numbers && symbols
    ensures s == Medium <==> passwordLength > 8 && !(passwordLength > 12 && upper && lower && numbers && symbols)
    ensures s == Weak <==> passwordLength <= 8
  {
    if passwordLength > 12 && upper && lower && numbers && symbols then Strong
    else if passwordLength > 8 then Medium
    else Weak
  }

  /** The length the counted loop produces: `length` iterations, none when it
      is not positive. */
  function Iterations(length: int): nat {
    if length < 0 then 0 else length
  }

  class Generator {
    var password: string
    var length: int
    var includeUppercase: bool
    var includeLowercase: bool
    var includeNumbers: bool
    var includeSymbols: bool
    var copied: bool

    function CurrentCharset(): string
      reads this
    {
      Charset(includeUppercase, includeLowercase, includeNumbers, includeSymbols)
    }

    /** The initial state, before the first effect runs. */
    constructor ()
      ensures password == "" && length == 16 && !copied
      ensures includeUppercase && includeLowercase && includeNumbers && includeSymbols
    {
      password := "";
      length := 16;
      includeUppercase, includeLowercase, includeNumbers, includeSymbols := true, true, true, true;
      copied := false;
    }

    /** `generatePassword`: an empty character set empties the password and
        leaves `copied` alone; otherwise each of the `length` iterations
        appends the character the next random number picks, and `copied` is
        reset. */
    method GeneratePassword(random: seq<real>)
      requires Draws(random) && |random| >= Iterations(length)
      modifies this
      ensures length == old(length) && CurrentCharset() == old(CurrentCharset())
      ensures includeUppercase == old(includeUppercase) && includeLowercase == old(includeLowercase)
      ensures includeNumbers == old(includeNumbers) && includeSymbols == old(includeSymbols)
      ensures CurrentCharset() == "" ==> password == "" && copied == old(copied)
      ensures CurrentCharset() != "" ==>
        password == Drawn(CurrentCharset(), random[..Iterations(length)]) && !copied
    {
      var charset := BuildCharset();
      if charset == "" {
        password := "";
        return;
      }
      password := DrawPassword(charset, length, random);
      copied := false;
    }

    /** The first half of `generatePassword`: the groups appended in order. */
    method BuildCharset() returns (charset: string)
      ensures charset == CurrentCharset()
    {
      charset := "";
      ghost var before := charset;
      if includeUppercase { charset := charset + Uppercase; }
      AppendStep(before, includeUppercase, Uppercase);
      before := charset;
      if includeLowercase { charset := charset + Lowercase; }
      AppendStep(before, includeLowercase, Lowercase);
      before := charset;
      if includeNumbers { charset := charset + Digits; }
      AppendStep(before, includeNumbers, Digits);
      before := charset;
      if includeSymbols { charset := charset + Symbols; }
      AppendStep(before, includeSymbols, Symbols);
    }

    /** `copyToClipboard`: nothing happens while the password is empty. */
    method CopyToClipboard()
      modifies this
      ensures password == "" ==> copied == old(copied)
      ensures password != "" ==> copied
      ensures password == old(password) && CurrentCharset() == old(CurrentCharset()) && length == old(length)
      ensures includeUppercase == old(includeUppercase) && includeLowercase == old(includeLowercase)
      ensures includeNumbers == old(includeNumbers) && includeSymbols == old(includeSymbols)
    {
      if password == "" {
        return;
      }
      copied := true;
    }

    /** The strength shown for the current password and switches. */
    function Strength(): Strength
      reads this
    {
      StrengthOf(|password|, includeUppercase, includeLowercase, includeNumbers, includeSymbols)
    }
  }

  /** One `if (flag) charset += group` step. */
  lemma AppendStep(before: string, flag: bool, group: string)
    ensures (if flag then before + group else before) == before + (if flag then group else "")
    ensures "" + (if flag then group else "") == (if flag then group else "")
  {
  }

  /** The counted loop of `generatePassword`: one character per iteration,
      picked by the next random number. */
  method DrawPassword(charset: string, length: int, random: seq<real>) returns (newPassword: string)
    requires charset != "" && Draws(random) && |random| >= Iterations(length)
    ensures newPassword == Drawn(charset, random[..Iterations(length)])
  {
    newPassword := "";
    var i := 0;
    var n := |charset|;
    while i < length
      invariant 0 <= i <= Iterations(length)
      invariant newPassword == Drawn(charset, random[..i])
    {
      assert random[..i + 1][..i] == random[..i];
      newPassword := newPassword + [charset[DrawIndex(random[i], n)]];
      i := i + 1;
    }
  }

  /** The set holds exactly the characters of the enabled groups, uppercase
      letters first when they are on. */
  lemma CharsetMembers(upper: bool, lower: bool, numbers: bool, symbols: bool)
    ensures var r := Charset(upper, lower, numbers, symbols);
      forall c :: c in r <==>
        (upper && c in Uppercase) || (lower && c in Lowercase) || (numbers && c in Digits) || (symbols && c in Symbols)
    ensures upper ==> Charset(upper, lower, numbers, symbols)[..26] == Uppercase
  {
  }

  /** With every switch off there is nothing to draw from. */
  lemma AllSwitchesOff()
    ensures Charset(false, false, false, false) == ""
  {
  }

  /** A password drawn with every group on is strong exactly when it is longer
      than 12; the default 16 characters always are. */
  lemma FullCharsetStrength(random: seq<real>, length: nat)
    requires Draws(random) && length <= |random|
    ensures StrengthOf(|Drawn(Charset(true, true, true, true), random[..length])|, true, true, true, true) == Strong
      <==> length > 12
  {
  }

  /** Whatever the random numbers, a drawn password uses characters of the
      enabled groups only. */
  lemma DrawnUsesEnabledGroups(upper: bool, lower: bool, numbers: bool, symbols: bool, random: seq<real>, i: nat)
    requires Charset(upper, lower, numbers, symbols) != "" && Draws(random)
    requires i < |random|
    ensures var c := Drawn(Charset(upper, lower, numbers, symbols), random)[i];
      (upper && c in Uppercase) || (lower && c in Lowercase) || (numbers && c in Digits) || (symbols && c in Symbols)
  {
    CharsetMembers(upper, lower, numbers, symbols);
  }

  /** The smallest random number picks the first character of the set, so with
      uppercase on it is 'A'. */
  lemma ZeroDrawsFirst(upper: bool, lower: bool, numbers: bool, symbols: bool)
    requires upper
    ensures Drawn(Charset(upper, lower, numbers, symbols), [0.0]) == "A"
  {
    var cs := Charset(upper, lower, numbers, symbols);
    CharsetMembers(upper, lower, numbers, symbols);
    assert DrawIndex(0.0, |cs|) == 0;
    assert cs[0] == cs[..26][0] == 'A';
  }
}
