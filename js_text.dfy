/** The few JavaScript string built-ins the client relies on, over `seq<char>`:
    `String(n)` for non-negative integers, decimal `parseInt`/`Number`, ASCII
    `toLowerCase`/`toUpperCase`, `String.prototype.trim`, `startsWith` and `includes`. */
module JsText {
  import opened Wrappers

  predicate IsDigit(c: char) {
    '0' <= c <= '9'
  }

  predicate AllDigits(s: string) {
    forall i :: 0 <= i < |s| ==> IsDigit(s[i])
  }

  function DigitChar(d: nat): (c: char)
    requires d < 10
    ensures IsDigit(c)
  {
    ('0' as int + d) as char
  }

  function DigitValue(c: char): (d: nat)
    requires IsDigit(c)
    ensures d < 10 && DigitChar(d) == c
  {
    c as int - '0' as int
  }

  /** `String(n)` for a non-negative integer: its decimal digits, most significant first. */
  function NatToString(n: nat): (s: string)
    ensures |s| >= 1 && AllDigits(s)
    ensures n < 10 <==> |s| == 1
    ensures n > 0 ==> s[0] != '0'
    decreases n
  {
    if n < 10 then [DigitChar(n)] else NatToString(n / 10) + [DigitChar(n % 10)]
  }

  /** The value of a run of decimal digits, as `parseInt(s, 10)` reads it (leading zeros allowed). */
  function ParseDigits(s: string): nat
    requires AllDigits(s)
  {
    if s == [] then 0 else ParseDigits(s[..|s| - 1]) * 10 + DigitValue(s[|s| - 1])
  }

  /** Reading back the decimal form of `n` gives `n`. */
  lemma {:induction false} ParseNatToString(n: nat)
    ensures ParseDigits(NatToString(n)) == n
    decreases n
  {
    if n >= 10 {
      var s := NatToString(n);
      assert s[..|s| - 1] == NatToString(n / 10);
      ParseNatToString(n / 10);
    }
  }

  function Zeros(k: nat): (z: string)
    ensures |z| == k && AllDigits(z)
    ensures forall i :: 0 <= i < k ==> z[i] == '0'
  {
    if k == 0 then [] else ['0'] + Zeros(k - 1)
  }

  /** Leading zeros do not change the value `parseInt` reads. */
  lemma {:induction false} ParseLeadingZeros(k: nat, s: string)
    requires AllDigits(s)
    ensures AllDigits(Zeros(k) + s) && ParseDigits(Zeros(k) + s) == ParseDigits(s)
    decreases |s|, k
  {
    var t := Zeros(k) + s;
    if s == [] {
      assert t == Zeros(k);
      if k > 0 {
        assert t[..|t| - 1] == Zeros(k - 1) + [];
        ParseLeadingZeros(k - 1, []);
      }
    } else {
      assert t[..|t| - 1] == Zeros(k) + s[..|s| - 1];
      ParseLeadingZeros(k, s[..|s| - 1]);
    }
  }

  /** The white space `String.prototype.trim` removes (ECMAScript WhiteSpace and LineTerminator). */
  predicate IsJsSpace(c: char) {
    || c == ' ' || c == '\t' || c == '\n' || c == '\r' || c == '\U{000B}' || c == '\U{000C}'
    || c == '\U{00A0}' || c == '\U{1680}' || ('\U{2000}' <= c <= '\U{200A}')
    || c == '\U{2028}' || c == '\U{2029}' || c == '\U{202F}' || c == '\U{205F}'
    || c == '\U{3000}' || c == '\U{FEFF}'
  }

  function TrimStart(s: string): (r: string)
    ensures |r| <= |s| && r == s[|s| - |r|..]
    ensures r == [] || !IsJsSpace(r[0])
    ensures forall i :: 0 <= i < |s| - |r| ==> IsJsSpace(s[i])
  {
    if s != [] && IsJsSpace(s[0]) then TrimStart(s[1..]) else s
  }

  function TrimEnd(s: string): (r: string)
    ensures |r| <= |s| && r == s[..|r|]
    ensures r == [] || !IsJsSpace(r[|r| - 1])
    ensures forall i :: |r| <= i < |s| ==> IsJsSpace(s[i])
  {
    if s != [] && IsJsSpace(s[|s| - 1]) then TrimEnd(s[..|s| - 1]) else s
  }

  /** `s.trim()`: `s` without its leading and trailing white space. */
  function Trim(s: string): string {
    TrimEnd(TrimStart(s))
  }

  /** The trimmed string is empty exactly when `s` is all white space; otherwise it neither
      starts nor ends with white space, every other character of `s` survives, and a string
      with no white space at either end is its own trimmed form. */
  lemma TrimSpec(s: string)
    ensures Trim(s) == [] <==> forall i :: 0 <= i < |s| ==> IsJsSpace(s[i])
    ensures Trim(s) != [] ==> !IsJsSpace(Trim(s)[0]) && !IsJsSpace(Trim(s)[|Trim(s)| - 1])
    ensures forall c :: c in s && !IsJsSpace(c) ==> c in Trim(s)
    ensures s == [] || (!IsJsSpace(s[0]) && !IsJsSpace(s[|s| - 1])) ==> Trim(s) == s
  {
    forall c | c in s && !IsJsSpace(c)
      ensures c in Trim(s)
    {
      var i :| 0 <= i < |s| && s[i] == c;
      TrimKeepsAt(s, i);
    }
    if s != [] && !IsJsSpace(s[0]) && !IsJsSpace(s[|s| - 1]) {
      assert TrimStart(s) == s;
    }
  }

  /** A character that is not white space keeps its place in the trimmed string, shifted by
      the white space removed in front. */
  lemma TrimKeepsAt(s: string, i: int)
    requires 0 <= i < |s| && !IsJsSpace(s[i])
    ensures var off := |s| - |TrimStart(s)|;
            off <= i < off + |Trim(s)| && Trim(s)[i - off] == s[i]
  {
    var t := TrimStart(s);
    var r := TrimEnd(t);
    var off := |s| - |t|;
    assert off <= i;
    var j := i - off;
    assert t[j] == s[i];
    assert j < |r|;
    assert r[j] == t[j];
  }

  function LowerChar(c: char): char {
    if 'A' <= c <= 'Z' then (c as int + 32) as char else c
  }

  function UpperChar(c: char): char {
    if 'a' <= c <= 'z' then (c as int - 32) as char else c
  }

  /** `s.toLowerCase()` on the ASCII letters; other characters are left as they are. */
  function Lower(s: string): (r: string)
    ensures |r| == |s|
    ensures forall i :: 0 <= i < |s| ==> r[i] == LowerChar(s[i])
  {
    seq(|s|, i requires 0 <= i < |s| => LowerChar(s[i]))
  }

  lemma LowerIdempotent(s: string)
    ensures Lower(Lower(s)) == Lower(s)
  {
  }

  /** `q` occurs in `s` starting at index `i`. */
  predicate OccursAt(s: string, q: string, i: int) {
    0 <= i <= |s| - |q| && s[i..i + |q|] == q
  }

  /** `s.includes(q)`: `q` occurs in `s` at some position. */
  predicate Contains(s: string, q: string)
    decreases |s|
  {
    q <= s || (s != [] && Contains(s[1..], q))
  }

  lemma {:induction false} ContainsAt(s: string, q: string)
    ensures Contains(s, q) <==> exists i :: OccursAt(s, q, i)
    decreases |s|
  {
    if q <= s {
      assert OccursAt(s, q, 0);
    } else if s != [] {
      ContainsAt(s[1..], q);
      if Contains(s[1..], q) {
        var i :| OccursAt(s[1..], q, i);
        assert OccursAt(s, q, i + 1);
      }
      if exists i :: OccursAt(s, q, i) {
        var i :| OccursAt(s, q, i);
        assert OccursAt(s[1..], q, i - 1);
      }
    }
  }

  /** `Number(s)` for the strings a route parameter carries: surrounding white space is
      ignored, a blank string is 0, a run of decimal digits is its value, anything else is
      `NaN` (`None`). */
  function NumberValue(s: string): Option<nat> {
    var t := Trim(s);
    if t == [] then Some(0)
    else if AllDigits(t) then Some(ParseDigits(t))
    else None
  }

  /** `Number` reads a string of digits as its decimal value, and a string holding a character
      that is neither a digit nor white space as `NaN`. */
  lemma NumberValueReads(s: string)
    ensures AllDigits(s) && s != [] ==> NumberValue(s) == Some(ParseDigits(s))
    ensures (exists i :: 0 <= i < |s| && !IsDigit(s[i]) && !IsJsSpace(s[i])) ==> NumberValue(s) == None
  {
    if AllDigits(s) && s != [] {
      DigitsTrimToSelf(s);
    }
    if exists i :: 0 <= i < |s| && !IsDigit(s[i]) && !IsJsSpace(s[i]) {
      var i :| 0 <= i < |s| && !IsDigit(s[i]) && !IsJsSpace(s[i]);
      StrayCharSurvivesTrim(s, i);
    }
  }

  /** A string of digits is its own trimmed form. */
  lemma DigitsTrimToSelf(s: string)
    requires AllDigits(s) && s != []
    ensures Trim(s) == s
  {
    TrimSpec(s);
    assert IsDigit(s[0]) && IsDigit(s[|s| - 1]);
  }

  /** A character that is neither a digit nor white space survives the trim, which is then
      not a string of digits. */
  lemma StrayCharSurvivesTrim(s: string, i: int)
    requires 0 <= i < |s| && !IsDigit(s[i]) && !IsJsSpace(s[i])
    ensures Trim(s) != [] && !AllDigits(Trim(s))
  {
    TrimSpec(s);
    var t := Trim(s);
    assert s[i] in s;
    var j :| 0 <= j < |t| && t[j] == s[i];
    assert !IsDigit(t[j]);
  }
}
