/**
 * The browser's `btoa` and `atob`: the base64 encoding of section 4 of
 * RFC 4648 over binary strings, with the "forgiving-base64 decode" of the
 * WHATWG Infra standard (ASCII whitespace ignored, padding optional).
 */
module Base64 {
  import opened Wrappers
  import opened Bytes

  /** The exception both functions throw on input they refuse. */
  datatype DomException = InvalidCharacterError

  /** A base64 digit value. */
  type Sextet = v: int | 0 <= v < 64

  /** The alphabet character of a digit value. */
  function Letter(v: Sextet): (c: char)
    ensures c != '='
  {
    if v < 26 then ('A' as int + v) as char
    else if v < 52 then ('a' as int + (v - 26)) as char
    else if v < 62 then ('0' as int + (v - 52)) as char
    else if v == 62 then '+'
    else '/'
  }

  /** The digit value of an alphabet character; `None` for anything else, `=` included. */
  function ValueOf(c: char): (r: Option<Sextet>)
    ensures r.Some? ==> Letter(r.value) == c
  {
    if 'A' <= c <= 'Z' then Some(c as int - 'A' as int)
    else if 'a' <= c <= 'z' then Some(c as int - 'a' as int + 26)
    else if '0' <= c <= '9' then Some(c as int - '0' as int + 52)
    else if c == '+' then Some(62)
    else if c == '/' then Some(63)
    else None
  }

  /** Every alphabet letter is read back as its own value. */
  lemma ValueOfLetter(v: Sextet)
    ensures ValueOf(Letter(v)) == Some(v)
  {
  }

  /** The number of digits the encoder emits for `n` bytes, before padding. */
  function DigitCount(n: nat): nat {
    4 * (n / 3) + (if n % 3 == 0 then 0 else n % 3 + 1)
  }

  /** The four digits of a full group of three bytes. */
  function Quad(b0: Byte, b1: Byte, b2: Byte): (r: seq<Sextet>)
    ensures |r| == 4
  {
    [b0 / 4, (b0 % 4) * 16 + b1 / 16, (b1 % 16) * 4 + b2 / 64, b2 % 64]
  }

  /** No encoding has a digit count of 1 modulo 4, the length the decoder refuses. */
  lemma DigitCountMod4(n: nat)
    ensures DigitCount(n) % 4 != 1
  {
    var q := n / 3;
    assert DigitCount(n) == 4 * q + (if n % 3 == 0 then 0 else n % 3 + 1);
  }

  /** The digit values encoding `b`: four per three bytes, two or three for a final partial group. */
  function ToSextets(b: seq<Byte>): (r: seq<Sextet>)
    ensures |r| == DigitCount(|b|)
    decreases |b|
  {
    if |b| == 0 then []
    else if |b| == 1 then Quad(b[0], 0, 0)[..2]
    else if |b| == 2 then Quad(b[0], b[1], 0)[..3]
    else Quad(b[0], b[1], b[2]) + ToSextets(b[3..])
  }

  /** The three bytes a full group of four digits stands for. */
  function Triple(v0: Sextet, v1: Sextet, v2: Sextet, v3: Sextet): (r: seq<Byte>)
    ensures |r| == 3
  {
    var x0 := v0 as int * 4 + v1 as int / 16;
    var x1 := (v1 as int % 16) * 16 + v2 as int / 4;
    var x2 := (v2 as int % 4) * 64 + v3 as int;
    [x0, x1, x2]
  }

  /**
   * The bytes a digit sequence decodes to: three per four digits, one for a
   * final pair and two for a final triple (the leftover low bits are dropped).
   */
  function FromSextets(v: seq<Sextet>): seq<Byte>
    requires |v| % 4 != 1
    decreases |v|
  {
    if |v| == 0 then []
    else if |v| == 2 then Triple(v[0], v[1], 0, 0)[..1]
    else if |v| == 3 then Triple(v[0], v[1], v[2], 0)[..2]
    else Triple(v[0], v[1], v[2], v[3]) + FromSextets(v[4..])
  }

  /** A group of three bytes survives encoding and decoding. */
  lemma TripleOfQuad(b0: Byte, b1: Byte, b2: Byte)
    ensures var q := Quad(b0, b1, b2); Triple(q[0], q[1], q[2], q[3]) == [b0, b1, b2]
  {
    var q := Quad(b0, b1, b2);
    assert q[1] as int / 16 == b0 % 4;
    assert q[1] as int % 16 == b1 / 16;
    assert q[2] as int / 4 == b1 % 16;
    assert q[2] as int % 4 == b2 / 64;
  }

  /** Decoding the digits of any byte sequence yields that byte sequence. */
  lemma {:induction false} FromToSextets(b: seq<Byte>)
    ensures FromSextets(ToSextets(b)) == b
    decreases |b|
  {
    if |b| == 1 {
      TripleOfQuad(b[0], 0, 0);
    } else if |b| == 2 {
      TripleOfQuad(b[0], b[1], 0);
    } else if |b| >= 3 {
      var v := ToSextets(b);
      assert v[..4] == Quad(b[0], b[1], b[2]);
      assert v[4..] == ToSextets(b[3..]);
      TripleOfQuad(b[0], b[1], b[2]);
      FromToSextets(b[3..]);
      assert b == b[..3] + b[3..];
    }
  }

  /** The `=` characters that complete the last group of an encoding of `n` bytes. */
  function Padding(n: nat): string {
    if n % 3 == 1 then "==" else if n % 3 == 2 then "=" else ""
  }

  /** The alphabet characters of a digit sequence. */
  function Letters(v: seq<Sextet>): (s: string)
    ensures |s| == |v|
    ensures forall k | 0 <= k < |s| :: s[k] == Letter(v[k])
  {
    seq(|v|, k requires 0 <= k < |v| => Letter(v[k]))
  }

  /** Digits and padding of an encoding of `n` bytes fill whole groups of four: 4 * ceil(n / 3) characters. */
  lemma PaddedLength(n: nat)
    ensures DigitCount(n) + |Padding(n)| == 4 * ((n + 2) / 3)
  {
    var q, m := n / 3, n % 3;
    assert n == 3 * q + m;
    assert (n + 2) / 3 == q + (if m == 0 then 0 else 1);
  }

  /** The padded base64 text of `b`. */
  function Encode(b: seq<Byte>): (s: string)
    ensures |s| % 4 == 0
    ensures |s| == 4 * ((|b| + 2) / 3)
  {
    PaddedLength(|b|);
    Letters(ToSextets(b)) + Padding(|b|)
  }

  /** `btoa(s)`: refuses a character above U+00FF, otherwise encodes the bytes `s` stands for. */
  function Btoa(s: string): (r: Result<string, DomException>)
    ensures r.Err? <==> !IsBinaryString(s)
    ensures r.Ok? ==> |r.value| == 4 * ((|s| + 2) / 3)
  {
    if IsBinaryString(s) then Ok(Encode(CharCodes(s))) else Err(InvalidCharacterError)
  }

  /** The whitespace the forgiving decoder ignores: TAB, LF, FF, CR and SPACE. */
  predicate IsAsciiWhitespace(c: char) {
    c == '\t' || c == '\n' || c == '\U{000C}' || c == '\r' || c == ' '
  }

  /** `s` with its ASCII whitespace removed, the other characters kept in order. */
  function RemoveWhitespace(s: string): (r: string)
    ensures |r| <= |s|
    ensures forall k | 0 <= k < |r| :: !IsAsciiWhitespace(r[k])
    ensures (forall k | 0 <= k < |s| :: !IsAsciiWhitespace(s[k])) ==> r == s
    ensures forall k | 0 <= k < |s| :: !IsAsciiWhitespace(s[k]) ==> s[k] in r
  {
    if |s| == 0 then []
    else if IsAsciiWhitespace(s[0]) then RemoveWhitespace(s[1..])
    else [s[0]] + RemoveWhitespace(s[1..])
  }

  /** One or two trailing `=` removed from text whose length is a multiple of four. */
  function StripPadding(d: string): (r: string)
    ensures r <= d && |d| - 2 <= |r|
    ensures forall k | |r| <= k < |d| :: d[k] == '='
    ensures |d| % 4 != 0 ==> r == d
    ensures |d| % 4 == 0 && |d| - 2 < |r| && r != [] ==> r[|r| - 1] != '='
  {
    if |d| % 4 != 0 then d
    else if |d| >= 2 && d[|d| - 2..] == "==" then d[..|d| - 2]
    else if |d| >= 1 && d[|d| - 1] == '=' then d[..|d| - 1]
    else d
  }

  /** Every character of `d` belongs to the base64 alphabet. */
  predicate AllLetters(d: string) {
    forall k | 0 <= k < |d| :: ValueOf(d[k]).Some?
  }

  /** The digit values of a string of alphabet letters. */
  function Values(d: string): (v: seq<Sextet>)
    requires AllLetters(d)
    ensures |v| == |d|
    ensures forall k | 0 <= k < |d| :: Letter(v[k]) == d[k]
  {
    seq(|d|, k requires 0 <= k < |d| && AllLetters(d) => ValueOf(d[k]).value)
  }

  /**
   * `atob(s)`: drop ASCII whitespace, strip the padding of a length that is a
   * multiple of four, refuse a length of 1 modulo 4 or a non-alphabet
   * character, and decode the rest to a binary string.
   */
  function Atob(s: string): (r: Result<string, DomException>)
    ensures r.Ok? ==> IsBinaryString(r.value)
    ensures r.Ok? ==> |r.value| <= |s|
  {
    var d := StripPadding(RemoveWhitespace(s));
    if |d| % 4 == 1 || !AllLetters(d) then Err(InvalidCharacterError)
    else
      var bytes := FromSextets(Values(d));
      FromSextetsLength(Values(d));
      Ok(FromCharCodes(bytes))
  }

  /** The decoded length is three quarters of the digit count, rounded down. */
  lemma {:induction false} FromSextetsLength(v: seq<Sextet>)
    requires |v| % 4 != 1
    ensures |FromSextets(v)| == (3 * |v|) / 4
    decreases |v|
  {
    if |v| >= 4 {
      FromSextetsLength(v[4..]);
    }
  }

  /** The letters of the encoder's digits are read back as those digits. */
  lemma ValuesOfLetters(v: seq<Sextet>)
    ensures AllLetters(Letters(v)) && Values(Letters(v)) == v
  {
    var d := Letters(v);
    forall k | 0 <= k < |d|
      ensures ValueOf(d[k]) == Some(v[k])
    {
      ValueOfLetter(v[k]);
    }
  }

  /** Stripping the padding of an encoding leaves exactly its letters. */
  lemma StripPaddingOfEncode(b: seq<Byte>)
    ensures StripPadding(Encode(b)) == Letters(ToSextets(b))
  {
    var l := Letters(ToSextets(b));
    var e := Encode(b);
    assert e == l + Padding(|b|);
    if |b| % 3 == 0 {
      if |l| > 0 {
        assert e[|e| - 1] == l[|l| - 1] != '=';
      }
      assert e == l;
    } else if |b| % 3 == 1 {
      assert e[|e| - 2..] == "==";
      assert e[..|e| - 2] == l;
    } else {
      assert e[|e| - 2] == l[|l| - 1] != '=';
      assert e[|e| - 2..] != "==";
      assert e[..|e| - 1] == l;
    }
  }

  /** An encoding consists of alphabet letters and `=` only, so it contains no comma. */
  lemma EncodeAlphabet(b: seq<Byte>)
    ensures forall k | 0 <= k < |Encode(b)| :: ValueOf(Encode(b)[k]).Some? || Encode(b)[k] == '='
    ensures ',' !in Encode(b)
  {
    var e := Encode(b);
    var v := ToSextets(b);
    var l := Letters(v);
    forall k | 0 <= k < |e| ensures ValueOf(e[k]).Some? || e[k] == '=' {
      if k < |l| {
        assert e[k] == Letter(v[k]);
        ValueOfLetter(v[k]);
      } else {
        assert e[k] == '=';
      }
    }
  }

  /** An encoding contains no whitespace. */
  lemma EncodeHasNoWhitespace(b: seq<Byte>)
    ensures RemoveWhitespace(Encode(b)) == Encode(b)
  {
    var e := Encode(b);
    var l := Letters(ToSextets(b));
    forall k | 0 <= k < |e| ensures !IsAsciiWhitespace(e[k]) {
      if k < |l| { assert e[k] == l[k]; } else { assert e[k] == '='; }
    }
  }

  /** `atob` reads any encoding back as the binary string of the encoded bytes. */
  lemma AtobOfEncode(b: seq<Byte>)
    ensures Atob(Encode(b)) == Ok(FromCharCodes(b))
  {
    var v := ToSextets(b);
    var d := StripPadding(RemoveWhitespace(Encode(b)));
    EncodeHasNoWhitespace(b);
    StripPaddingOfEncode(b);
    assert d == Letters(v);
    DigitCountMod4(|b|);
    ValuesOfLetters(v);
    assert Values(d) == v;
    FromToSextets(b);
  }

  /** Whitespace removal works piecewise: it commutes with concatenation. */
  lemma {:induction false} RemoveWhitespaceAppend(a: string, b: string)
    ensures RemoveWhitespace(a + b) == RemoveWhitespace(a) + RemoveWhitespace(b)
    decreases |a|
  {
    if |a| > 0 {
      assert (a + b)[1..] == a[1..] + b;
      RemoveWhitespaceAppend(a[1..], b);
    } else {
      assert a + b == b;
    }
  }

  /** Text made of whitespace only is removed entirely. */
  lemma {:induction false} RemoveAllWhitespace(w: string)
    requires forall k | 0 <= k < |w| :: IsAsciiWhitespace(w[k])
    ensures RemoveWhitespace(w) == []
    decreases |w|
  {
    if |w| > 0 {
      RemoveAllWhitespace(w[1..]);
    }
  }

  /** `atob` ignores ASCII whitespace inserted anywhere in its input. */
  lemma AtobIgnoresWhitespace(a: string, w: string, b: string)
    requires forall k | 0 <= k < |w| :: IsAsciiWhitespace(w[k])
    ensures Atob(a + w + b) == Atob(a + b)
  {
    RemoveWhitespaceAppend(a + w, b);
    RemoveWhitespaceAppend(a, w);
    RemoveWhitespaceAppend(a, b);
    RemoveAllWhitespace(w);
    assert RemoveWhitespace(a) + [] == RemoveWhitespace(a);
  }

  /** Padding is optional: the bare digits of an encoding decode to the same bytes. */
  lemma AtobOfUnpadded(b: seq<Byte>)
    ensures Atob(Letters(ToSextets(b))) == Ok(FromCharCodes(b))
  {
    var v := ToSextets(b);
    var l := Letters(v);
    forall k | 0 <= k < |l| ensures !IsAsciiWhitespace(l[k]) && l[k] != '=' {
      assert l[k] == Letter(v[k]);
    }
    assert RemoveWhitespace(l) == l;
    if |l| > 0 {
      assert l[|l| - 1] != '=';
      assert l[|l| - 2..] != "==" by { assert l[|l| - 2..][1] == l[|l| - 1]; }
    }
    var d := StripPadding(RemoveWhitespace(l));
    assert d == l;
    DigitCountMod4(|b|);
    ValuesOfLetters(v);
    assert Values(d) == v;
    FromToSextets(b);
  }

  /**
   * When `atob` throws: the text left after removing whitespace has length
   * 1 modulo 4, or some character is neither whitespace, nor `=`, nor a letter
   * of the alphabet.
   */
  lemma AtobRejects(s: string, k: nat)
    requires k < |s|
    ensures |RemoveWhitespace(s)| % 4 == 1 ==> Atob(s).Err?
    ensures !IsAsciiWhitespace(s[k]) && s[k] != '=' && ValueOf(s[k]).None? ==> Atob(s).Err?
  {
    var t := RemoveWhitespace(s);
    var d := StripPadding(t);
    if !IsAsciiWhitespace(s[k]) && s[k] != '=' && ValueOf(s[k]).None? {
      var j :| 0 <= j < |t| && t[j] == s[k];
      assert j < |d| && d[j] == s[k];
      assert !AllLetters(d);
    }
  }

  /** `atob` inverts `btoa` on every binary string. */
  lemma AtobOfBtoa(s: string)
    requires IsBinaryString(s)
    ensures Btoa(s).Ok? && Atob(Btoa(s).value) == Ok(s)
  {
    AtobOfEncode(CharCodes(s));
    FromCharCodesOfCharCodes(s);
  }
}
