/** Splitting a configuration line into whitespace-delimited tokens, as
    `std::istringstream >> std::string` does, and reading a token as an
    unsigned decimal number. */
module Tokenizer {

  /** The characters `std::isspace` accepts in the "C" locale. */
  predicate IsSpace(c: char)
  {
    c == ' ' || c == '\t' || c == '\n' || c == '\r' || c == '\U{0B}' || c == '\U{0C}'
  }

  predicate NoSpace(s: string)
  {
    forall i :: 0 <= i < |s| ==> !IsSpace(s[i])
  }

  predicate AllSpace(s: string)
  {
    forall i :: 0 <= i < |s| ==> IsSpace(s[i])
  }

  /** The input with its leading whitespace removed. */
  function DropSpaces(s: string): string
  {
    if s != [] && IsSpace(s[0]) then DropSpaces(s[1..]) else s
  }

  /** DropSpaces removes a prefix of whitespace, all of it. */
  lemma {:induction false} DropSpacesSplits(s: string)
    ensures |DropSpaces(s)| <= |s| && DropSpaces(s) == s[|s| - |DropSpaces(s)|..]
    ensures AllSpace(s[..|s| - |DropSpaces(s)|])
    ensures DropSpaces(s) == [] || !IsSpace(DropSpaces(s)[0])
  {
    if s != [] && IsSpace(s[0]) {
      DropSpacesSplits(s[1..]);
      var k := |s| - |DropSpaces(s)|;
      assert s[..k] == [s[0]] + s[1..][..k - 1];
    }
  }

  /** Splits the input before its first whitespace character. */
  function TakeToken(s: string): (string, string)
  {
    if s == [] || IsSpace(s[0]) then ([], s)
    else
      var t := TakeToken(s[1..]);
      ([s[0]] + t.0, t.1)
  }

  /** TakeToken cuts the input into a token free of whitespace and a rest
      that is empty or starts with whitespace. */
  lemma {:induction false} TakeTokenSplits(s: string)
    ensures TakeToken(s).0 + TakeToken(s).1 == s
    ensures NoSpace(TakeToken(s).0)
    ensures TakeToken(s).1 == [] || IsSpace(TakeToken(s).1[0])
  {
    if s != [] && !IsSpace(s[0]) {
      TakeTokenSplits(s[1..]);
      var t := TakeToken(s[1..]);
      assert [s[0]] + t.0 + t.1 == [s[0]] + (t.0 + t.1);
    }
  }

  /** One extraction `>> token`: the next token and the unread rest of the input
      (an empty token when only whitespace is left). */
  function NextToken(s: string): (string, string)
  {
    TakeToken(DropSpaces(s))
  }

  /** The first token of a line: the parameter name. */
  function KeyToken(line: string): string
  {
    NextToken(line).0
  }

  /** The second token of a line: the value read after the parameter name. */
  function ValueToken(line: string): string
  {
    NextToken(NextToken(line).1).0
  }

  lemma {:induction false} DropSpacesOf(ws: string, t: string)
    requires AllSpace(ws)
    requires t == [] || !IsSpace(t[0])
    ensures DropSpaces(ws + t) == t
  {
    if ws != [] {
      assert (ws + t)[1..] == ws[1..] + t;
      DropSpacesOf(ws[1..], t);
    }
  }

  lemma {:induction false} TakeTokenOf(tok: string, rest: string)
    requires NoSpace(tok)
    requires rest == [] || IsSpace(rest[0])
    ensures TakeToken(tok + rest) == (tok, rest)
  {
    if tok != [] {
      assert (tok + rest)[1..] == tok[1..] + rest;
      TakeTokenOf(tok[1..], rest);
      assert [tok[0]] + tok[1..] == tok;
    } else {
      assert tok + rest == rest;
    }
  }

  /** A token starts with the first non-whitespace character. */
  lemma TakeTokenStart(s: string)
    requires s != [] && !IsSpace(s[0])
    ensures TakeToken(s).0 != [] && TakeToken(s).0[0] == s[0]
  {
  }

  lemma NextTokenOf(ws: string, tok: string, rest: string)
    requires AllSpace(ws)
    requires NoSpace(tok) && tok != []
    requires rest == [] || IsSpace(rest[0])
    ensures NextToken(ws + tok + rest) == (tok, rest)
  {
    assert ws + tok + rest == ws + (tok + rest);
    DropSpacesOf(ws, tok + rest);
    TakeTokenOf(tok, rest);
  }

  /** A line written as optional indentation, a key, a separator, a value and
      a whitespace-led tail yields that key and that value. */
  lemma TokensOfLine(lead: string, key: string, sep: string, value: string, tail: string)
    requires AllSpace(lead) && AllSpace(sep) && sep != []
    requires NoSpace(key) && key != []
    requires NoSpace(value) && value != []
    requires tail == [] || IsSpace(tail[0])
    ensures KeyToken(lead + key + sep + value + tail) == key
    ensures ValueToken(lead + key + sep + value + tail) == value
  {
    var afterKey := sep + value + tail;
    assert lead + key + sep + value + tail == lead + key + afterKey;
    NextTokenOf(lead, key, afterKey);
    NextTokenOf(sep, value, tail);
  }

  predicate IsDigit(c: char)
  {
    '0' <= c <= '9'
  }

  predicate AllDigits(s: string)
  {
    forall i :: 0 <= i < |s| ==> IsDigit(s[i])
  }

  function DigitValue(c: char): (d: nat)
    requires IsDigit(c)
    ensures d < 10
  {
    (c as int) - ('0' as int)
  }

  function DigitChar(d: nat): (c: char)
    requires d < 10
    ensures IsDigit(c) && DigitValue(c) == d
  {
    (('0' as int) + d) as char
  }

  /** The longest prefix of decimal digits: what a numeric extraction consumes. */
  function LeadingDigits(s: string): (r: string)
    ensures |r| <= |s| && r == s[..|r|]
    ensures AllDigits(r)
    ensures |r| == |s| || !IsDigit(s[|r|])
  {
    if s != [] && IsDigit(s[0]) then [s[0]] + LeadingDigits(s[1..]) else []
  }

  /** The number a string of decimal digits denotes, most significant first. */
  function DigitsValue(d: string): nat
    requires AllDigits(d)
  {
    if d == [] then 0 else DigitsValue(d[..|d| - 1]) * 10 + DigitValue(d[|d| - 1])
  }

  /** The value of a token read into an unsigned field: its leading digits,
      0 when it has none. */
  function ParseUnsigned(token: string): (n: nat)
    ensures (token == [] || !IsDigit(token[0])) ==> n == 0
  {
    DigitsValue(LeadingDigits(token))
  }

  /** What `>> field` leaves in a numeric field. With no token left on the
      line the extraction fails before any conversion and the field keeps its
      current value; otherwise the field receives the token's number. */
  function ExtractNumber(current: int, token: string): (v: int)
    ensures current >= 0 ==> v >= 0
    ensures token != [] ==> v == ParseUnsigned(token)
  {
    if token == [] then current else ParseUnsigned(token)
  }

  /** Decimal rendering of a natural number, without leading zeros. */
  function ShowNat(n: nat): (r: string)
    ensures r != [] && AllDigits(r)
    ensures |r| > 1 ==> r[0] != '0'
  {
    if n < 10 then [DigitChar(n)] else ShowNat(n / 10) + [DigitChar(n % 10)]
  }

  lemma {:induction false} LeadingDigitsOfDigits(s: string)
    requires AllDigits(s)
    ensures LeadingDigits(s) == s
  {
    if s != [] {
      LeadingDigitsOfDigits(s[1..]);
    }
  }

  lemma {:induction false} DigitsValueOfShowNat(n: nat)
    ensures DigitsValue(ShowNat(n)) == n
  {
    if n >= 10 {
      var front := ShowNat(n / 10);
      var s := front + [DigitChar(n % 10)];
      assert s[..|s| - 1] == front;
      DigitsValueOfShowNat(n / 10);
    }
  }

  /** Reading back a rendered number gives that number. */
  lemma ParseShowNat(n: nat)
    ensures ParseUnsigned(ShowNat(n)) == n
  {
    LeadingDigitsOfDigits(ShowNat(n));
    DigitsValueOfShowNat(n);
  }
}
