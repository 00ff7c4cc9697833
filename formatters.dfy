/** Display formatting for catalog records: word capitalisation, the zero-padded number,
    stat labels, height and weight with one decimal, and the text colour for a type badge. */
module Formatters {
  import opened Wrappers
  import opened JsText

  /** `str.split(sep)`: the pieces of `s` between occurrences of `sep`; always at least one. */
  function Split(s: string, sep: char): (parts: seq<string>)
    ensures |parts| >= 1
    decreases |s|
  {
    if s == [] then [[]]
    else
      var rest := Split(s[1..], sep);
      if s[0] == sep then [[]] + rest else [[s[0]] + rest[0]] + rest[1..]
  }

  /** `parts.join(sep)` for a one-character separator. */
  function Join(parts: seq<string>, sep: char): string
    requires |parts| >= 1
    decreases |parts|
  {
    if |parts| == 1 then parts[0] else parts[0] + [sep] + Join(parts[1..], sep)
  }

  /** Splitting and joining back on the same separator give the string back, and no piece
      holds the separator. */
  lemma {:induction false} SplitJoin(s: string, sep: char)
    ensures Join(Split(s, sep), sep) == s
    ensures forall k :: 0 <= k < |Split(s, sep)| ==> sep !in Split(s, sep)[k]
    decreases |s|
  {
    if s != [] {
      var rest := Split(s[1..], sep);
      SplitJoin(s[1..], sep);
      if s[0] == sep {
        assert ([[]] + rest)[1..] == rest;
      } else {
        assert rest == [rest[0]] + rest[1..];
        JoinHead([s[0]], rest[0], rest[1..], sep);
        assert s == [s[0]] + s[1..];
      }
    }
  }

  /** `word.charAt(0).toUpperCase() + word.slice(1)`. */
  function CapitalizeWord(w: string): string {
    if w == [] then [] else [UpperChar(w[0])] + w[1..]
  }

  function CapitalizeWords(ws: seq<string>): (r: seq<string>)
    ensures |r| == |ws|
  {
    if ws == [] then [] else [CapitalizeWord(ws[0])] + CapitalizeWords(ws[1..])
  }

  /** What `capitalize` writes at position `i` of `s`: a space for each '-', the upper case of
      the first letter of each '-'-separated word, every other character unchanged. */
  function CapitalizedAt(s: string, i: int): char
    requires 0 <= i < |s|
  {
    if s[i] == '-' then ' '
    else if i == 0 || s[i - 1] == '-' then UpperChar(s[i])
    else s[i]
  }

  /** `capitalize(str)`: the empty string for an empty input, otherwise the words between
      hyphens joined by spaces, each with its first letter upper-cased. On ASCII input the
      result has the input's length and differs from it only as `CapitalizedAt` says. */
  function Capitalize(s: string): (r: string)
    ensures s == "" ==> r == ""
    ensures |r| == |s|
    ensures forall i :: 0 <= i < |s| ==> r[i] == CapitalizedAt(s, i)
  {
    if s == "" then ""
    else
      CapitalizeByCharacter(s);
      CapitalizeChars(s, true);
      assert forall i :: 0 <= i < |s| ==> CapCharAt(s, i, true) == CapitalizedAt(s, i);
      Join(CapitalizeWords(Split(s, '-')), ' ')
  }

  /** A character-by-character reading of `capitalize`, `atStart` telling whether the next
      character begins a word. */
  function CapChars(s: string, atStart: bool): string
    decreases |s|
  {
    if s == [] then []
    else
      var c := if s[0] == '-' then ' ' else if atStart then UpperChar(s[0]) else s[0];
      [c] + CapChars(s[1..], s[0] == '-')
  }

  lemma JoinHead(a: string, b: string, rest: seq<string>, sep: char)
    ensures Join([a + b] + rest, sep) == a + Join([b] + rest, sep)
  {
    if rest != [] {
      assert ([a + b] + rest)[1..] == rest;
      assert ([b] + rest)[1..] == rest;
    }
  }

  /** What the induction over `CapitalizeByCharacter` establishes for `s`: the capitalised
      join is the character rewrite starting a word, and the join that leaves the first word
      alone is the rewrite starting inside a word. */
  predicate JoinIsRewrite(s: string) {
    var parts := Split(s, '-');
    && Join(CapitalizeWords(parts), ' ') == CapChars(s, true)
    && Join([parts[0]] + CapitalizeWords(parts[1..]), ' ') == CapChars(s, false)
  }

  /** Splitting on '-', capitalising the words and joining them with spaces is the same as
      rewriting `s` character by character. */
  lemma {:induction false} CapitalizeByCharacter(s: string)
    ensures Join(CapitalizeWords(Split(s, '-')), ' ') == CapChars(s, true)
    ensures JoinIsRewrite(s)
    decreases |s|
  {
    if s != [] {
      CapitalizeByCharacter(s[1..]);
      if s[0] == '-' {
        JoinIsRewriteAtHyphen(s);
      } else {
        JoinIsRewriteInWord(s);
      }
    }
  }

  lemma JoinIsRewriteAtHyphen(s: string)
    requires s != [] && s[0] == '-' && JoinIsRewrite(s[1..])
    ensures JoinIsRewrite(s)
  {
    var rest := Split(s[1..], '-');
    var parts := Split(s, '-');
    var words := CapitalizeWords(rest);
    assert parts == [[]] + rest;
    assert parts[1..] == rest;
    assert CapitalizeWords(parts) == [[]] + words;
    JoinEmptyHead(words, ' ');
  }

  /** An empty first piece contributes only its separator. */
  lemma JoinEmptyHead(words: seq<string>, sep: char)
    requires |words| >= 1
    ensures Join([[]] + words, sep) == [sep] + Join(words, sep)
  {
    assert ([[]] + words)[1..] == words;
  }

  lemma JoinIsRewriteInWord(s: string)
    requires s != [] && s[0] != '-' && JoinIsRewrite(s[1..])
    ensures JoinIsRewrite(s)
  {
    var rest := Split(s[1..], '-');
    var parts := Split(s, '-');
    assert parts == [[s[0]] + rest[0]] + rest[1..];
    assert parts[1..] == rest[1..];
    assert CapitalizeWords(parts) == [[UpperChar(s[0])] + rest[0]] + CapitalizeWords(rest[1..]);
    JoinHead([UpperChar(s[0])], rest[0], CapitalizeWords(rest[1..]), ' ');
    JoinHead([s[0]], rest[0], CapitalizeWords(rest[1..]), ' ');
    assert [rest[0]] + CapitalizeWords(rest[1..]) == [rest[0]] + CapitalizeWords(rest)[1..];
    if |rest| > 1 {
      assert CapitalizeWords(rest[1..]) == CapitalizeWords(rest)[1..];
    }
  }

  /** The character `CapChars(s, atStart)` writes at position `i`. */
  function CapCharAt(s: string, i: int, atStart: bool): char
    requires 0 <= i < |s|
  {
    if s[i] == '-' then ' '
    else if (i == 0 && atStart) || (i > 0 && s[i - 1] == '-') then UpperChar(s[i])
    else s[i]
  }

  lemma {:induction false} CapitalizeChars(s: string, atStart: bool)
    ensures |CapChars(s, atStart)| == |s|
    ensures forall i :: 0 <= i < |s| ==> CapChars(s, atStart)[i] == CapCharAt(s, i, atStart)
    decreases |s|
  {
    if s != [] {
      var t := s[1..];
      CapitalizeChars(t, s[0] == '-');
      forall i | 1 <= i < |s| ensures CapChars(s, atStart)[i] == CapCharAt(s, i, atStart) {
        assert CapChars(s, atStart)[i] == CapChars(t, s[0] == '-')[i - 1];
        assert CapChars(t, s[0] == '-')[i - 1] == CapCharAt(t, i - 1, s[0] == '-');
      }
    }
  }

  /** `String(id).padStart(3, "0")`: at least three characters, the string whole at the end
      and '0' before it. */
  function PadId(digits: string): (p: string)
    ensures |p| == (if |digits| < 3 then 3 else |digits|)
    ensures p[|p| - |digits|..] == digits
    ensures forall i :: 0 <= i < |p| - |digits| ==> p[i] == '0'
  {
    if |digits| >= 3 then digits else Zeros(3 - |digits|) + digits
  }

  /** Padded decimal digits are still decimal digits, and read back as the same number. */
  lemma PadIdSpec(digits: string)
    requires AllDigits(digits)
    ensures AllDigits(PadId(digits)) && ParseDigits(PadId(digits)) == ParseDigits(digits)
  {
    if |digits| < 3 {
      ParseLeadingZeros(3 - |digits|, digits);
    }
  }

  /** `formatPokemonId(id)`: "#" followed by the decimal id left-padded with '0' to at least
      three digits. The digits of the id are kept whole (no truncation past three) and the
      padded digits still read back as the id. */
  function FormatPokemonId(id: nat): (r: string)
    ensures |r| == 1 + (if |NatToString(id)| < 3 then 3 else |NatToString(id)|)
    ensures r[0] == '#'
    ensures r[|r| - |NatToString(id)|..] == NatToString(id)
    ensures AllDigits(r[1..]) && ParseDigits(r[1..]) == id
  {
    var digits := NatToString(id);
    ParseNatToString(id);
    PadIdSpec(digits);
    var p := PadId(digits);
    var r := "#" + p;
    assert |r| == 1 + |p| && r[0] == '#';
    assert r[1..] == p;
    assert r[|r| - |digits|..] == p[|p| - |digits|..];
    r
  }

  /** `value.toFixed(1)` for a value held as an integer number of tenths: the whole part as
      `String` writes it, a '.', and the one decimal; the two read back as the number of tenths. */
  function OneDecimal(tenths: nat): (s: string)
    ensures |s| >= 3 && s[|s| - 2] == '.'
    ensures s[..|s| - 2] == NatToString(tenths / 10) && s[|s| - 1] == DigitChar(tenths % 10)
    ensures AllDigits(s[..|s| - 2]) && IsDigit(s[|s| - 1])
    ensures ParseDigits(s[..|s| - 2]) * 10 + DigitValue(s[|s| - 1]) == tenths
  {
    ParseNatToString(tenths / 10);
    var s := NatToString(tenths / 10) + "." + [DigitChar(tenths % 10)];
    assert s[..|s| - 2] == NatToString(tenths / 10);
    s
  }

  /** `formatHeight`: the height with exactly one decimal, then " m". The whole part is written
      as `String` writes it and, with the single decimal, reads back as the number of tenths
      ("0.7 m" for 7). */
  function FormatHeight(tenths: nat): (r: string)
    ensures |r| >= 5 && r[|r| - 2..] == " m" && r[|r| - 4] == '.'
    ensures r[..|r| - 4] == NatToString(tenths / 10) && r[|r| - 3] == DigitChar(tenths % 10)
    ensures AllDigits(r[..|r| - 4]) && IsDigit(r[|r| - 3])
    ensures ParseDigits(r[..|r| - 4]) * 10 + DigitValue(r[|r| - 3]) == tenths
  {
    var d := OneDecimal(tenths);
    var r := d + " m";
    assert r[..|r| - 4] == d[..|d| - 2];
    r
  }

  /** `formatWeight`: the weight with exactly one decimal, then " kg" ("6.9 kg" for 69). */
  function FormatWeight(tenths: nat): (r: string)
    ensures |r| >= 6 && r[|r| - 3..] == " kg" && r[|r| - 5] == '.'
    ensures r[..|r| - 5] == NatToString(tenths / 10) && r[|r| - 4] == DigitChar(tenths % 10)
    ensures AllDigits(r[..|r| - 5]) && IsDigit(r[|r| - 4])
    ensures ParseDigits(r[..|r| - 5]) * 10 + DigitValue(r[|r| - 4]) == tenths
  {
    var d := OneDecimal(tenths);
    var r := d + " kg";
    assert r[..|r| - 5] == d[..|d| - 2];
    r
  }

  /** The fixed labels of `formatStatName`. */
  const StatLabels: map<string, string> := map[
    "hp" := "HP",
    "attack" := "Attack",
    "defense" := "Defense",
    "special-attack" := "Sp. Atk",
    "special-defense" := "Sp. Def",
    "speed" := "Speed"
  ]

  /** `formatStatName`: one of the six fixed labels for a known stat key, otherwise the key
      capitalised (so of the key's length). */
  function FormatStatName(key: string): (r: string)
    ensures key == "special-attack" ==> r == "Sp. Atk"
    ensures key == "hp" ==> r == "HP"
    ensures key in StatLabels ==> r == StatLabels[key]
    ensures key !in StatLabels ==> r == Capitalize(key) && |r| == |key|
  {
    if key in StatLabels then StatLabels[key] else Capitalize(key)
  }

  const DarkText := "#1F2937"
  const LightText := "#FFFFFF"

  predicate IsHexDigit(c: char) {
    IsDigit(c) || 'a' <= c <= 'f' || 'A' <= c <= 'F'
  }

  function HexValue(c: char): nat
    requires IsHexDigit(c)
  {
    if IsDigit(c) then DigitValue(c)
    else if 'a' <= c <= 'f' then c as int - 'a' as int + 10
    else c as int - 'A' as int + 10
  }

  /** The value of the leading hexadecimal digits of `s` (`None` when there are none). */
  function HexPrefix(s: string): Option<nat>
    decreases |s|
  {
    if s == [] || !IsHexDigit(s[0]) then None
    else
      var k := HexRunLength(s);
      Some(HexOf(s[..k]))
  }

  function HexRunLength(s: string): (k: nat)
    ensures k <= |s| && forall i :: 0 <= i < k ==> IsHexDigit(s[i])
    decreases |s|
  {
    if s == [] || !IsHexDigit(s[0]) then 0 else 1 + HexRunLength(s[1..])
  }

  function HexOf(s: string): nat
    requires forall i :: 0 <= i < |s| ==> IsHexDigit(s[i])
  {
    if s == [] then 0 else HexOf(s[..|s| - 1]) * 16 + HexValue(s[|s| - 1])
  }

  /** `parseInt(w, 16)`: leading white space, an optional sign and an optional "0x" are
      skipped, then the leading hexadecimal digits are read; no digits gives `NaN` (`None`). */
  function ParseHex(w: string): Option<int> {
    var t := TrimStart(w);
    var negative := t != [] && t[0] == '-';
    var u := if t != [] && (t[0] == '-' || t[0] == '+') then t[1..] else t;
    var v := if |u| >= 2 && u[0] == '0' && (u[1] == 'x' || u[1] == 'X') then u[2..] else u;
    match HexPrefix(v)
    case None => None
    case Some(n) =>
      var value: int := if negative then -(n as int) else n;
      Some(value)
  }

  /** A run of hexadecimal digits reads as its value, also behind a "0x" prefix. */
  lemma ParseHexReadsDigits(w: string)
    requires w != [] && forall i :: 0 <= i < |w| ==> IsHexDigit(w[i])
    ensures ParseHex(w) == Some(HexOf(w)) && ParseHex("0x" + w) == Some(HexOf(w))
  {
    HexRunCoversDigits(w);
    assert HexPrefix(w) == Some(HexOf(w)) by {
      assert w[..|w|] == w;
    }
    ParsesUnsigned(w, w);
    PrefixedParsesUnsigned(w);
  }

  lemma PrefixedParsesUnsigned(w: string)
    ensures ParseHex("0x" + w) == HexPrefix(w)
  {
    var x := "0x" + w;
    assert x[2..] == w;
    ParsesUnsigned(x, w);
  }

  /** A string of white space only, the empty one included, reads as `NaN`. */
  lemma {:induction false} ParseHexOfBlank(w: string)
    requires forall i :: 0 <= i < |w| ==> IsJsSpace(w[i])
    ensures TrimStart(w) == [] && ParseHex(w) == None
    decreases |w|
  {
    if w != [] {
      ParseHexOfBlank(w[1..]);
    }
  }

  /** A string with no leading space or sign parses as the hexadecimal prefix of what follows
      an optional "0x". */
  lemma ParsesUnsigned(x: string, v: string)
    requires x != [] && !IsJsSpace(x[0]) && x[0] != '-' && x[0] != '+'
    requires v == if |x| >= 2 && x[0] == '0' && (x[1] == 'x' || x[1] == 'X') then x[2..] else x
    ensures ParseHex(x) == HexPrefix(v)
  {
    assert TrimStart(x) == x;
  }

  lemma {:induction false} HexRunCoversDigits(s: string)
    requires forall i :: 0 <= i < |s| ==> IsHexDigit(s[i])
    ensures HexRunLength(s) == |s|
    decreases |s|
  {
    if s != [] {
      HexRunCoversDigits(s[1..]);
    }
  }

  /** `hex.substr(start, 2)`. */
  function Substr2(s: string, start: nat): string {
    if start >= |s| then [] else if start + 2 >= |s| then s[start..] else s[start..start + 2]
  }

  /** `hexColor.replace("#", "")`: the first '#' removed. */
  function RemoveFirstHash(s: string): string
    decreases |s|
  {
    if s == [] then [] else if s[0] == '#' then s[1..] else [s[0]] + RemoveFirstHash(s[1..])
  }

  /** `getContrastColor(hexColor)`: dark text when the luminance 0.299 r + 0.587 g + 0.114 b of
      the parsed channels exceeds half of 255, light text otherwise (also when a channel is
      `NaN`, since a comparison with `NaN` is false). It only ever returns one of the two. */
  function GetContrastColor(hexColor: string): (r: string)
    ensures r == DarkText || r == LightText
    ensures ParseHex(Substr2(RemoveFirstHash(hexColor), 0)).None? ==> r == LightText
  {
    var hex := RemoveFirstHash(hexColor);
    match (ParseHex(Substr2(hex, 0)), ParseHex(Substr2(hex, 2)), ParseHex(Substr2(hex, 4)))
    case (Some(red), Some(green), Some(blue)) =>
      if 299 * red + 587 * green + 114 * blue > 127500 then DarkText else LightText
    case _ => LightText
  }
}
