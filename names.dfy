/** Bone names: the vendor-prefix symmetrizer and the spring-bone name filter of vrmauto.py. */
module BoneNames {
  import opened Outcomes

  /** The four name tags `Adj|Bip|Opt|Sec` of the vendor prefix. */
  predicate IsTag(t: string)
  {
    t == "Adj" || t == "Bip" || t == "Opt" || t == "Sec"
  }

  /** `s` matches `^J_(Adj|Bip|Opt|Sec)_`. */
  predicate HasVendorPrefix(s: string)
  {
    6 <= |s| && s[..2] == "J_" && IsTag(s[2..5]) && s[5] == '_'
  }

  /** `s` matches `^J_(Adj|Bip|Opt|Sec)_<side>_`. */
  predicate HasSidePrefix(s: string, side: char)
  {
    HasVendorPrefix(s) && 8 <= |s| && s[6] == side && s[7] == '_'
  }

  /** `re.sub` of `^J_(Adj|Bip|Opt|Sec)_<side>_` by the empty string: the anchor allows one match at most. */
  function SubSide(s: string, side: char): string
  {
    if HasSidePrefix(s, side) then s[8..] else s
  }

  /** `re.sub` of `^J_(Adj|Bip|Opt|Sec)_([CLR]_)?` by the empty string; the optional group is greedy. */
  function SubFull(s: string): string
  {
    if HasSidePrefix(s, 'C') || HasSidePrefix(s, 'L') || HasSidePrefix(s, 'R') then s[8..]
    else if HasVendorPrefix(s) then s[6..]
    else s
  }

  /** The new name `symmetrize_bone_names` gives a bone: the first rule whose substitution changes the name wins. */
  function Symmetrize(name: string): string
  {
    var left := SubSide(name, 'L');
    if left != name then left + "_L"
    else
      var right := SubSide(name, 'R');
      if right != name then right + "_R"
      else
        var a := SubFull(name);
        if a != name then a else name
  }

  lemma PrefixFacts(tag: string, rest: string)
    requires IsTag(tag)
    ensures HasVendorPrefix("J_" + tag + "_" + rest)
    ensures var s := "J_" + tag + "_" + rest; s[6..] == rest
  {
    var s := "J_" + tag + "_" + rest;
    assert s[..2] == "J_";
    assert s[2..5] == tag;
  }

  /** `J_<tag>_L_X` becomes `X_L`. */
  lemma SymmetrizeLeft(tag: string, x: string)
    requires IsTag(tag)
    ensures Symmetrize("J_" + tag + "_L_" + x) == x + "_L"
  {
    var s := "J_" + tag + "_L_" + x;
    PrefixFacts(tag, "L_" + x);
    assert s == "J_" + tag + "_" + ("L_" + x);
    assert s[8..] == x;
  }

  /** `J_<tag>_R_X` becomes `X_R`. */
  lemma SymmetrizeRight(tag: string, x: string)
    requires IsTag(tag)
    ensures Symmetrize("J_" + tag + "_R_" + x) == x + "_R"
  {
    var s := "J_" + tag + "_R_" + x;
    PrefixFacts(tag, "R_" + x);
    assert s == "J_" + tag + "_" + ("R_" + x);
    assert s[8..] == x;
  }

  /** `J_<tag>_C_X` becomes `X`. */
  lemma SymmetrizeCenter(tag: string, x: string)
    requires IsTag(tag)
    ensures Symmetrize("J_" + tag + "_C_" + x) == x
  {
    var s := "J_" + tag + "_C_" + x;
    PrefixFacts(tag, "C_" + x);
    assert s == "J_" + tag + "_" + ("C_" + x);
    assert s[8..] == x;
  }

  /** `J_<tag>_X` becomes `X` when `X` does not itself start with a side marker `C_`, `L_` or `R_`. */
  lemma SymmetrizePlain(tag: string, x: string)
    requires IsTag(tag)
    requires !(2 <= |x| && x[1] == '_' && (x[0] == 'C' || x[0] == 'L' || x[0] == 'R'))
    ensures Symmetrize("J_" + tag + "_" + x) == x
  {
    var s := "J_" + tag + "_" + x;
    PrefixFacts(tag, x);
    if 8 <= |s| {
      assert s[6] == x[0] && s[7] == x[1];
    }
    assert s[6..] == x;
  }

  /** A name is left as it is exactly when it has no vendor prefix; in particular renaming
      already-canonical names is a no-op. */
  lemma SymmetrizeFixedPoints(name: string)
    ensures Symmetrize(name) == name <==> !HasVendorPrefix(name)
  {
    if HasVendorPrefix(name) {
      assert |SubFull(name)| < |name|;
      if HasSidePrefix(name, 'L') {
        assert |SubSide(name, 'L')| < |name|;
      } else if HasSidePrefix(name, 'R') {
        assert |SubSide(name, 'R')| < |name|;
      }
      assert |Symmetrize(name)| < |name|;
    }
  }

  // ---------------------------------------------------------------------------------------
  // Spring-bone names: `^((Hair|Bust)\d+|Skirt(Side|Front|Back)(_end)?_\d+)_(L|R|\d+)$`

  /** `\d` of a `str` pattern: a character of the Unicode category Nd (decimal digit), 64 runs of code points
      as of Unicode 15.0; ASCII `0`-`9` is the first run. */
  predicate IsDigit(c: char)
  {
    var k := c as int;
    || 0x30 <= k <= 0x39 || 0x660 <= k <= 0x669 || 0x6F0 <= k <= 0x6F9 || 0x7C0 <= k <= 0x7C9
    || 0x966 <= k <= 0x96F || 0x9E6 <= k <= 0x9EF || 0xA66 <= k <= 0xA6F || 0xAE6 <= k <= 0xAEF
    || 0xB66 <= k <= 0xB6F || 0xBE6 <= k <= 0xBEF || 0xC66 <= k <= 0xC6F || 0xCE6 <= k <= 0xCEF
    || 0xD66 <= k <= 0xD6F || 0xDE6 <= k <= 0xDEF || 0xE50 <= k <= 0xE59 || 0xED0 <= k <= 0xED9
    || 0xF20 <= k <= 0xF29 || 0x1040 <= k <= 0x1049 || 0x1090 <= k <= 0x1099 || 0x17E0 <= k <= 0x17E9
    || 0x1810 <= k <= 0x1819 || 0x1946 <= k <= 0x194F || 0x19D0 <= k <= 0x19D9 || 0x1A80 <= k <= 0x1A89
    || 0x1A90 <= k <= 0x1A99 || 0x1B50 <= k <= 0x1B59 || 0x1BB0 <= k <= 0x1BB9 || 0x1C40 <= k <= 0x1C49
    || 0x1C50 <= k <= 0x1C59 || 0xA620 <= k <= 0xA629 || 0xA8D0 <= k <= 0xA8D9 || 0xA900 <= k <= 0xA909
    || 0xA9D0 <= k <= 0xA9D9 || 0xA9F0 <= k <= 0xA9F9 || 0xAA50 <= k <= 0xAA59 || 0xABF0 <= k <= 0xABF9
    || 0xFF10 <= k <= 0xFF19 || 0x104A0 <= k <= 0x104A9 || 0x10D30 <= k <= 0x10D39 || 0x11066 <= k <= 0x1106F
    || 0x110F0 <= k <= 0x110F9 || 0x11136 <= k <= 0x1113F || 0x111D0 <= k <= 0x111D9 || 0x112F0 <= k <= 0x112F9
    || 0x11450 <= k <= 0x11459 || 0x114D0 <= k <= 0x114D9 || 0x11650 <= k <= 0x11659 || 0x116C0 <= k <= 0x116C9
    || 0x11730 <= k <= 0x11739 || 0x118E0 <= k <= 0x118E9 || 0x11950 <= k <= 0x11959 || 0x11C50 <= k <= 0x11C59
    || 0x11D50 <= k <= 0x11D59 || 0x11DA0 <= k <= 0x11DA9 || 0x11F50 <= k <= 0x11F59 || 0x16A60 <= k <= 0x16A69
    || 0x16AC0 <= k <= 0x16AC9 || 0x16B50 <= k <= 0x16B59 || 0x1D7CE <= k <= 0x1D7FF || 0x1E140 <= k <= 0x1E149
    || 0x1E2F0 <= k <= 0x1E2F9 || 0x1E4F0 <= k <= 0x1E4F9 || 0x1E950 <= k <= 0x1E959 || 0x1FBF0 <= k <= 0x1FBF9
  }

  /** One or more decimal digits: `\d+`. */
  predicate IsDigits(s: string)
  {
    0 < |s| && forall i :: 0 <= i < |s| ==> IsDigit(s[i])
  }

  datatype Place = Side | Front | Back

  /** The family a spring bone belongs to: `Hair<n>`, `Bust<n>` or `Skirt<place>[_end]_<n>`. */
  datatype Group = Hair | Bust | Skirt(place: Place, isEnd: bool)

  /** The last component: `L`, `R` or a number. */
  datatype Suffix = Left | Right | Number(digits: string)

  datatype SpringName = SpringName(group: Group, number: string, suffix: Suffix)

  predicate WellFormed(n: SpringName)
  {
    IsDigits(n.number) && (n.suffix.Number? ==> IsDigits(n.suffix.digits))
  }

  function PlaceText(p: Place): string
  {
    match p
    case Side => "Side"
    case Front => "Front"
    case Back => "Back"
  }

  function SuffixText(s: Suffix): string
  {
    match s
    case Left => "L"
    case Right => "R"
    case Number(d) => d
  }

  /** The bone name a spring-bone name stands for. */
  function Render(n: SpringName): string
  {
    match n.group
    case Hair => "Hair" + n.number + "_" + SuffixText(n.suffix)
    case Bust => "Bust" + n.number + "_" + SuffixText(n.suffix)
    case Skirt(p, e) =>
      "Skirt" + PlaceText(p) + (if e then "_end" else "") + "_" + n.number + "_" + SuffixText(n.suffix)
  }

  /** The length of the longest all-digit prefix of `s`. */
  function DigitRun(s: string): (k: nat)
    ensures k <= |s|
    ensures forall i :: 0 <= i < k ==> IsDigit(s[i])
    ensures k < |s| ==> !IsDigit(s[k])
  {
    if |s| == 0 || !IsDigit(s[0]) then 0 else 1 + DigitRun(s[1..])
  }

  /** `(L|R|\d+)` followed by the end of the text. */
  function ParseSuffix(s: string): Option<Suffix>
  {
    if s == "L" then Some(Left)
    else if s == "R" then Some(Right)
    else if IsDigits(s) then Some(Number(s))
    else None
  }

  /** `\d+_(L|R|\d+)` covering all of `s`. */
  function ParseNumbered(g: Group, s: string): Option<SpringName>
  {
    var k := DigitRun(s);
    if 0 < k && k < |s| && s[k] == '_' then
      match ParseSuffix(s[k + 1..])
      case Some(x) => Some(SpringName(g, s[..k], x))
      case None => None
    else None
  }

  /** `prefix` is an initial segment of `s`. */
  predicate StartsWith(s: string, prefix: string)
  {
    |prefix| <= |s| && s[..|prefix|] == prefix
  }

  lemma StartsWithConcat(prefix: string, rest: string)
    ensures StartsWith(prefix + rest, prefix)
    ensures (prefix + rest)[|prefix|..] == rest
  {
    assert (prefix + rest)[..|prefix|] == prefix;
  }

  lemma StartsWithSplit(s: string, prefix: string)
    requires StartsWith(s, prefix)
    ensures s == prefix + s[|prefix|..]
  {
  }

  /** Two words that differ in their first letter never start the same text. */
  lemma FirstLetterExcludes(s: string, p: string, q: string)
    requires StartsWith(s, p) && 0 < |p| && 0 < |q| && p[0] != q[0]
    ensures !StartsWith(s, q)
  {
    assert s[0] == p[0];
  }

  function ParsePlace(s: string): Option<(Place, string)>
  {
    if StartsWith(s, "Side") then Some((Side, s[4..]))
    else if StartsWith(s, "Front") then Some((Front, s[5..]))
    else if StartsWith(s, "Back") then Some((Back, s[4..]))
    else None
  }

  /** `(_end)?_\d+_(L|R|\d+)` covering all of `rest`. */
  function ParseSkirtTail(p: Place, rest: string): Option<SpringName>
  {
    if StartsWith(rest, "_end_") then ParseNumbered(Skirt(p, true), rest[5..])
    else if StartsWith(rest, "_") then ParseNumbered(Skirt(p, false), rest[1..])
    else None
  }

  function ParseSkirt(s: string): Option<SpringName>
  {
    match ParsePlace(s)
    case None => None
    case Some((p, rest)) => ParseSkirtTail(p, rest)
  }

  /** The whole pattern without its final `$`. */
  function ParseExact(s: string): Option<SpringName>
  {
    if StartsWith(s, "Hair") then ParseNumbered(Hair, s[4..])
    else if StartsWith(s, "Bust") then ParseNumbered(Bust, s[4..])
    else if StartsWith(s, "Skirt") then ParseSkirt(s[5..])
    else None
  }

  /** `bone_pattern.match(name)`: `$` also matches just before a final newline. */
  function Parse(s: string): Option<SpringName>
  {
    var exact := ParseExact(s);
    if exact.Some? then exact
    else if 0 < |s| && s[|s| - 1] == '\n' then ParseExact(s[..|s| - 1])
    else None
  }

  /** The names `set_spring_bones` configures. */
  predicate IsSpringBoneName(s: string)
  {
    Parse(s).Some?
  }

  lemma {:induction false} DigitRunOfNumber(d: string, rest: string)
    requires IsDigits(d) || d == []
    requires 0 < |rest| && !IsDigit(rest[0])
    ensures DigitRun(d + rest) == |d|
    decreases |d|
  {
    if |d| == 0 {
      assert d + rest == rest;
    } else {
      assert (d + rest)[1..] == d[1..] + rest;
      DigitRunOfNumber(d[1..], rest);
    }
  }

  lemma ParseSuffixText(x: Suffix)
    requires x.Number? ==> IsDigits(x.digits)
    ensures ParseSuffix(SuffixText(x)) == Some(x)
  {
    if x.Number? {
      assert x.digits != "L" by { assert IsDigit(x.digits[0]); }
      assert x.digits != "R" by { assert IsDigit(x.digits[0]); }
    }
  }

  lemma ParseNumberedText(g: Group, n: SpringName)
    requires WellFormed(n) && n.group == g
    ensures ParseNumbered(g, n.number + "_" + SuffixText(n.suffix)) == Some(n)
  {
    var s := n.number + "_" + SuffixText(n.suffix);
    DigitRunOfNumber(n.number, "_" + SuffixText(n.suffix));
    assert s == n.number + ("_" + SuffixText(n.suffix));
    var k := |n.number|;
    assert s[k] == '_';
    assert s[..k] == n.number;
    assert s[k + 1..] == SuffixText(n.suffix);
    ParseSuffixText(n.suffix);
  }

  /** The text after the group word of a rendered name. */
  function NumberedText(n: SpringName): string
  {
    n.number + "_" + SuffixText(n.suffix)
  }

  function SkirtText(n: SpringName): string
    requires n.group.Skirt?
  {
    (if n.group.isEnd then "_end" else "") + "_" + NumberedText(n)
  }

  lemma RenderShape(n: SpringName)
    ensures n.group == Hair ==> Render(n) == "Hair" + NumberedText(n)
    ensures n.group == Bust ==> Render(n) == "Bust" + NumberedText(n)
    ensures n.group.Skirt? ==> Render(n) == "Skirt" + (PlaceText(n.group.place) + SkirtText(n))
  {
  }

  /** Digits outside ASCII count: `Hair` with the Arabic-Indic digit one and the side `L` is a spring bone. */
  lemma ParseArabicIndicDigit()
    ensures Parse("Hair\U{0661}_L") == Some(SpringName(Hair, "\U{0661}", Left))
  {
    var n := SpringName(Hair, "\U{0661}", Left);
    assert WellFormed(n);
    ParseRender(n);
    assert Render(n) == "Hair\U{0661}_L";
  }

  /** Every well-formed spring-bone name is recognised, and parsing gives it back. */
  lemma ParseRender(n: SpringName)
    requires WellFormed(n)
    ensures ParseExact(Render(n)) == Some(n)
    ensures Parse(Render(n)) == Some(n)
  {
    var s := Render(n);
    RenderShape(n);
    ParseNumberedText(n.group, n);
    match n.group
    case Hair =>
      StartsWithConcat("Hair", NumberedText(n));
    case Bust =>
      StartsWithConcat("Bust", NumberedText(n));
      FirstLetterExcludes(s, "Bust", "Hair");
    case Skirt(p, e) =>
      StartsWithConcat("Skirt", PlaceText(p) + SkirtText(n));
      FirstLetterExcludes(s, "Skirt", "Hair");
      FirstLetterExcludes(s, "Skirt", "Bust");
      ParsePlaceText(p, SkirtText(n));
      ParseSkirtTailText(n);
  }

  lemma ParseSkirtTailText(n: SpringName)
    requires WellFormed(n) && n.group.Skirt?
    ensures ParseSkirtTail(n.group.place, SkirtText(n)) == Some(n)
  {
    var tail := NumberedText(n);
    ParseNumberedText(n.group, n);
    if n.group.isEnd {
      assert SkirtText(n) == "_end_" + tail;
      StartsWithConcat("_end_", tail);
    } else {
      assert SkirtText(n) == "_" + tail;
      StartsWithConcat("_", tail);
      assert tail[0] == n.number[0];
      NotEndMarker(tail);
    }
  }

  /** An underscore followed by a digit does not start the `_end_` marker. */
  lemma NotEndMarker(tail: string)
    requires 0 < |tail| && IsDigit(tail[0])
    ensures !StartsWith("_" + tail, "_end_")
  {
    assert ("_" + tail)[1] == tail[0];
  }

  lemma ParsePlaceText(p: Place, rest: string)
    requires 0 < |rest| && rest[0] == '_'
    ensures ParsePlace(PlaceText(p) + rest) == Some((p, rest))
  {
    var s := PlaceText(p) + rest;
    StartsWithConcat(PlaceText(p), rest);
    match p
    case Side =>
    case Front =>
      FirstLetterExcludes(s, "Front", "Side");
    case Back =>
      FirstLetterExcludes(s, "Back", "Side");
      FirstLetterExcludes(s, "Back", "Front");
  }

  lemma {:induction false} ParseNumberedSound(g: Group, s: string)
    requires ParseNumbered(g, s).Some?
    ensures var n := ParseNumbered(g, s).value;
      WellFormed(n) && n.group == g && s == NumberedText(n)
  {
    var k := DigitRun(s);
    var n := ParseNumbered(g, s).value;
    assert n.number == s[..k];
    assert SuffixText(n.suffix) == s[k + 1..];
    assert s == s[..k] + "_" + s[k + 1..];
  }

  lemma ParsePlaceSound(s: string)
    requires ParsePlace(s).Some?
    ensures s == PlaceText(ParsePlace(s).value.0) + ParsePlace(s).value.1
  {
    if StartsWith(s, "Side") {
      StartsWithSplit(s, "Side");
    } else if StartsWith(s, "Front") {
      StartsWithSplit(s, "Front");
    } else {
      StartsWithSplit(s, "Back");
    }
  }

  lemma ParseSkirtTailSound(p: Place, rest: string)
    requires ParseSkirtTail(p, rest).Some?
    ensures var n := ParseSkirtTail(p, rest).value;
      WellFormed(n) && n.group.Skirt? && n.group.place == p && rest == SkirtText(n)
  {
    var n := ParseSkirtTail(p, rest).value;
    if StartsWith(rest, "_end_") {
      ParseNumberedSound(Skirt(p, true), rest[5..]);
      StartsWithSplit(rest, "_end_");
    } else {
      ParseNumberedSound(Skirt(p, false), rest[1..]);
      StartsWithSplit(rest, "_");
    }
    SkirtTextSplit(n);
  }

  /** The skirt tail is its marker followed by the numbered part. */
  lemma SkirtTextSplit(n: SpringName)
    requires n.group.Skirt?
    ensures SkirtText(n) == (if n.group.isEnd then "_end_" else "_") + NumberedText(n)
  {
  }

  lemma ParseSkirtSound(s: string)
    requires ParseSkirt(s).Some?
    ensures var n := ParseSkirt(s).value;
      WellFormed(n) && n.group.Skirt? && s == PlaceText(n.group.place) + SkirtText(n)
  {
    var pr := ParsePlace(s).value;
    ParsePlaceSound(s);
    ParseSkirtTailSound(pr.0, pr.1);
  }

  /** What the recogniser accepts is exactly a rendered name. */
  lemma ParseExactSound(s: string)
    requires ParseExact(s).Some?
    ensures WellFormed(ParseExact(s).value) && Render(ParseExact(s).value) == s
  {
    var n := ParseExact(s).value;
    RenderShape(n);
    if StartsWith(s, "Hair") {
      ParseNumberedSound(Hair, s[4..]);
      StartsWithSplit(s, "Hair");
    } else if StartsWith(s, "Bust") {
      ParseNumberedSound(Bust, s[4..]);
      StartsWithSplit(s, "Bust");
    } else {
      ParseSkirtSound(s[5..]);
      StartsWithSplit(s, "Skirt");
    }
  }

  /** `re.match` with a final `$` accepts a rendered name, optionally followed by one newline, and nothing else. */
  lemma ParseSound(s: string)
    requires IsSpringBoneName(s)
    ensures var n := Parse(s).value;
      WellFormed(n) && (s == Render(n) || s == Render(n) + "\n")
  {
    if ParseExact(s).Some? {
      ParseExactSound(s);
    } else {
      var t := ParseNewlineCase(s);
      ParseExactSound(t);
    }
  }

  /** A name the pattern accepts only through the final-newline rule is a name it accepts exactly, plus a newline. */
  lemma ParseNewlineCase(s: string) returns (t: string)
    requires ParseExact(s).None? && Parse(s).Some?
    ensures s == t + "\n" && Parse(s) == ParseExact(t)
  {
    t := s[..|s| - 1];
  }

  /** A trailing newline after a spring-bone name is accepted too. */
  lemma ParseTrailingNewline(n: SpringName)
    requires WellFormed(n)
    ensures Parse(Render(n) + "\n") == Some(n)
  {
    var s := Render(n) + "\n";
    ExactEndsClean(s);
    ParseRender(n);
    assert s[..|s| - 1] == Render(n);
  }

  /** Whatever the pattern accepts without its final `$` does not end in a newline. */
  lemma ExactEndsClean(s: string)
    ensures ParseExact(s).Some? && 0 < |s| ==> s[|s| - 1] != '\n'
  {
    if ParseExact(s).Some? && 0 < |s| {
      var m := ParseExact(s).value;
      ParseExactSound(s);
      NoNewlineInRender(m);
      assert s[|s| - 1] == Render(m)[|s| - 1];
    }
  }

  lemma NoNewlineInRender(n: SpringName)
    requires WellFormed(n)
    ensures forall i :: 0 <= i < |Render(n)| ==> Render(n)[i] != '\n'
  {
    var t := SuffixText(n.suffix);
    assert forall i :: 0 <= i < |t| ==> t[i] != '\n' by {
      if n.suffix.Number? {
        assert forall i :: 0 <= i < |t| ==> IsDigit(t[i]);
      }
    }
    assert forall i :: 0 <= i < |n.number| ==> n.number[i] != '\n' by {
      assert forall i :: 0 <= i < |n.number| ==> IsDigit(n.number[i]);
    }
  }
}
