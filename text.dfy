/**
 * String helpers shared by the Go back-ends and the TypeScript console:
 * whitespace trimming, splitting on one separator character, prefix tests,
 * and the decimal prefix parsers behind JavaScript's parseInt/parseFloat.
 * Whitespace is the ASCII set; Unicode spaces are not modelled.
 */
module Text {
  import opened Wrappers

  predicate IsSpace(c: char) {
    c == ' ' || c == '\t' || c == '\n' || c == '\r' || c == '\U{0B}' || c == '\U{0C}'
  }

  predicate IsDigit(c: char) {
    '0' <= c <= '9'
  }

  /** Removes leading whitespace. */
  function TrimLeft(s: string): string
  {
    if |s| > 0 && IsSpace(s[0]) then TrimLeft(s[1..]) else s
  }

  /** Removes trailing whitespace. */
  function TrimRight(s: string): string
  {
    if |s| > 0 && IsSpace(s[|s| - 1]) then TrimRight(s[..|s| - 1]) else s
  }

  /** TrimLeft drops a run of whitespace from the front and stops at the first other character. */
  lemma {:induction false} TrimLeftFacts(s: string)
    ensures |TrimLeft(s)| <= |s| && TrimLeft(s) == s[|s| - |TrimLeft(s)|..]
    ensures TrimLeft(s) == [] || !IsSpace(TrimLeft(s)[0])
    ensures forall i :: 0 <= i < |s| - |TrimLeft(s)| ==> IsSpace(s[i])
  {
    if |s| > 0 && IsSpace(s[0]) {
      TrimLeftFacts(s[1..]);
    }
  }

  /** TrimRight drops a run of whitespace from the back and stops at the last other character. */
  lemma {:induction false} TrimRightFacts(s: string)
    ensures |TrimRight(s)| <= |s| && TrimRight(s) == s[..|TrimRight(s)|]
    ensures TrimRight(s) == [] || !IsSpace(TrimRight(s)[|TrimRight(s)| - 1])
    ensures forall i :: |TrimRight(s)| <= i < |s| ==> IsSpace(s[i])
  {
    if |s| > 0 && IsSpace(s[|s| - 1]) {
      TrimRightFacts(s[..|s| - 1]);
    }
  }

  /** JavaScript `trim()` and Go `strings.TrimSpace`. */
  function Trim(s: string): (r: string)
  {
    TrimRight(TrimLeft(s))
  }

  /** Trim keeps a contiguous piece of the text, starting after the leading whitespace, with no whitespace at either end. */
  lemma TrimIsInfix(s: string)
    ensures |TrimLeft(s)| <= |s| && |Trim(s)| <= |TrimLeft(s)|
    ensures Trim(s) == s[|s| - |TrimLeft(s)|..|s| - |TrimLeft(s)| + |Trim(s)|]
    ensures Trim(s) == [] || (!IsSpace(Trim(s)[0]) && !IsSpace(Trim(s)[|Trim(s)| - 1]))
  {
    TrimLeftFacts(s);
    TrimRightFacts(TrimLeft(s));
    var l := TrimLeft(s);
    var k := |s| - |l|;
    assert Trim(s) == l[..|Trim(s)|];
    assert Trim(s) == s[k..k + |Trim(s)|];
  }

  /** Trimming text with no surrounding whitespace changes nothing. */
  lemma TrimNoop(s: string)
    requires s == [] || (!IsSpace(s[0]) && !IsSpace(s[|s| - 1]))
    ensures Trim(s) == s
  {
  }

  predicate StartsWith(s: string, prefix: string) {
    |prefix| <= |s| && s[..|prefix|] == prefix
  }

  predicate EndsWith(s: string, suffix: string) {
    |suffix| <= |s| && s[|s| - |suffix|..] == suffix
  }

  /** Go `strings.Split(s, sep)` and JavaScript `s.split(sep)` for a one-character separator. */
  function Split(s: string, sep: char): (r: seq<string>)
    ensures |r| >= 1
    ensures forall i :: 0 <= i < |r| ==> sep !in r[i]
    ensures Join(r, sep) == s
  {
    if s == [] then [""]
    else if s[0] == sep then [""] + Split(s[1..], sep)
    else
      var rest := Split(s[1..], sep);
      [[s[0]] + rest[0]] + rest[1..]
  }

  /** Go `strings.Join(parts, string(sep))`. */
  function Join(parts: seq<string>, sep: char): string
  {
    if |parts| == 0 then ""
    else if |parts| == 1 then parts[0]
    else parts[0] + [sep] + Join(parts[1..], sep)
  }

  /** Splitting undoes joining, for pieces without the separator. */
  lemma {:induction false} SplitJoin(parts: seq<string>, sep: char)
    requires |parts| >= 1
    requires forall i :: 0 <= i < |parts| ==> sep !in parts[i]
    ensures Split(Join(parts, sep), sep) == parts
    decreases |parts|, |parts[0]|
  {
    if |parts| == 1 {
      SplitSingle(parts[0], sep);
    } else if parts[0] == [] {
      var tail := parts[1..];
      assert Join(parts, sep) == [sep] + Join(tail, sep);
      SplitJoin(tail, sep);
      SplitAtSeparator(Join(tail, sep), sep);
      assert parts == [[]] + tail;
    } else {
      var p0 := parts[0];
      var shorter := [p0[1..]] + parts[1..];
      PeelFirstChar(parts, sep);
      SplitJoin(shorter, sep);
      SplitAtOther(p0[0], Join(shorter, sep), sep);
    }
  }

  /**
   * Moving the first character of a non-empty first piece out of the list: the join gains it
   * in front, the pieces stay free of the separator, and putting it back gives the list.
   */
  lemma PeelFirstChar(parts: seq<string>, sep: char)
    requires |parts| >= 2 && parts[0] != []
    requires forall i :: 0 <= i < |parts| ==> sep !in parts[i]
    ensures var p0 := parts[0]; var shorter := [p0[1..]] + parts[1..];
      Join(parts, sep) == [p0[0]] + Join(shorter, sep) &&
      (forall i :: 0 <= i < |shorter| ==> sep !in shorter[i]) &&
      p0[0] != sep &&
      [[p0[0]] + shorter[0]] + shorter[1..] == parts
  {
    var p0 := parts[0];
    var shorter := [p0[1..]] + parts[1..];
    assert Join(shorter, sep) == p0[1..] + [sep] + Join(parts[1..], sep);
    assert p0 == [p0[0]] + p0[1..];
    forall i | 0 <= i < |shorter| ensures sep !in shorter[i] {
      if i > 0 { assert shorter[i] == parts[i]; }
    }
    assert p0[0] in p0;
  }

  /** A leading separator splits off an empty piece. */
  lemma SplitAtSeparator(t: string, sep: char)
    ensures Split([sep] + t, sep) == [""] + Split(t, sep)
  {
    assert ([sep] + t)[1..] == t;
  }

  /** A leading character other than the separator joins the first piece. */
  lemma SplitAtOther(c: char, t: string, sep: char)
    requires c != sep
    ensures Split([c] + t, sep) == [[c] + Split(t, sep)[0]] + Split(t, sep)[1..]
  {
    assert ([c] + t)[1..] == t;
  }

  lemma {:induction false} SplitSingle(s: string, sep: char)
    requires sep !in s
    ensures Split(s, sep) == [s]
  {
    if s != [] {
      assert s[0] in s;
      assert forall c :: c in s[1..] ==> c in s;
      SplitSingle(s[1..], sep);
    }
  }

  /** The first piece of a split is the text up to the first separator. */
  lemma FirstField(head: string, sep: char, rest: string)
    requires sep !in head
    ensures Split(head + [sep] + rest, sep)[0] == head
  {
    var tail := Split(rest, sep);
    assert Join([head] + tail, sep) == head + [sep] + rest;
    SplitJoin([head] + tail, sep);
  }

  /** Length of the longest prefix made of decimal digits. */
  function DigitRun(s: string): (n: nat)
    ensures n <= |s|
    ensures forall i :: 0 <= i < n ==> IsDigit(s[i])
    ensures n == |s| || !IsDigit(s[n])
  {
    if |s| > 0 && IsDigit(s[0]) then 1 + DigitRun(s[1..]) else 0
  }

  function DigitValue(c: char): nat
    requires IsDigit(c)
  {
    (c as int) - ('0' as int)
  }

  function DigitChar(d: nat): (c: char)
    requires d < 10
    ensures IsDigit(c) && DigitValue(c) == d
  {
    (('0' as int) + d) as char
  }

  /** Value of a string of decimal digits, most significant first. */
  function DigitsValue(d: string): nat
    requires forall i :: 0 <= i < |d| ==> IsDigit(d[i])
  {
    if d == [] then 0 else 10 * DigitsValue(d[..|d| - 1]) + DigitValue(d[|d| - 1])
  }

  /** Decimal text of a natural number, without leading zeros. */
  function NatToString(n: nat): (r: string)
    ensures |r| >= 1
    ensures forall i :: 0 <= i < |r| ==> IsDigit(r[i])
    ensures DigitsValue(r) == n
  {
    if n < 10 then [DigitChar(n)]
    else
      var r := NatToString(n / 10) + [DigitChar(n % 10)];
      assert r[..|r| - 1] == NatToString(n / 10);
      r
  }

  /** Go `strconv.Itoa` / `fmt` `%d`: a minus sign, then the digits. */
  function IntToString(i: int): (r: string)
  {
    if i < 0 then "-" + NatToString(-i) else NatToString(i)
  }

  /** Whether the number text starts with a minus sign. */
  predicate Negative(t: string) {
    |t| > 0 && t[0] == '-'
  }

  /** The number text with an optional leading '-' or '+' removed. */
  function Unsigned(t: string): string {
    if |t| > 0 && (t[0] == '-' || t[0] == '+') then t[1..] else t
  }

  /**
   * JavaScript `parseInt(s, 10)`: leading whitespace skipped, an optional sign,
   * then the longest run of digits; no digit at all gives NaN (None).
   */
  function ParseInt(s: string): (r: Option<int>)
  {
    var t := TrimLeft(s);
    var body := Unsigned(t);
    var n := DigitRun(body);
    if n == 0 then None
    else if Negative(t) then Some(0 - DigitsValue(body[..n]))
    else Some(DigitsValue(body[..n]))
  }

  /** parseInt reads back the number IntToString wrote, whatever non-digit text follows. */
  lemma ParseIntToString(i: int, rest: string)
    requires rest == [] || !IsDigit(rest[0])
    ensures ParseInt(IntToString(i) + rest) == Some(i)
  {
    var digits := NatToString(if i < 0 then -i else i);
    var s := IntToString(i) + rest;
    var body := digits + rest;
    SignedText(i, rest);
    DigitRunPrefix(digits, rest);
    assert body[..|digits|] == digits;
  }

  /** The text IntToString writes has no leading space, and its sign is that of the number. */
  lemma SignedText(i: int, rest: string)
    ensures TrimLeft(IntToString(i) + rest) == IntToString(i) + rest
    ensures Negative(IntToString(i) + rest) == (i < 0)
    ensures Unsigned(IntToString(i) + rest) == NatToString(if i < 0 then -i else i) + rest
  {
    var digits := NatToString(if i < 0 then -i else i);
    var s := IntToString(i) + rest;
    assert IsDigit(digits[0]);
    if i < 0 {
      assert s == ['-'] + (digits + rest);
      assert s[0] == '-';
      assert s[1..] == digits + rest;
    } else {
      assert s == digits + rest;
      assert s[0] == digits[0];
    }
    TrimLeftNoop(s);
  }

  lemma TrimLeftNoop(s: string)
    requires |s| > 0 && !IsSpace(s[0])
    ensures TrimLeft(s) == s
  {
  }

  lemma {:induction false} DigitRunPrefix(d: string, rest: string)
    requires forall i :: 0 <= i < |d| ==> IsDigit(d[i])
    requires rest == [] || !IsDigit(rest[0])
    ensures DigitRun(d + rest) == |d|
  {
    if d != [] {
      assert (d + rest)[1..] == d[1..] + rest;
      DigitRunPrefix(d[1..], rest);
    }
  }

  function Pow10(k: nat): (p: nat)
    ensures p >= 1
  {
    if k == 0 then 1 else 10 * Pow10(k - 1)
  }

  /**
   * JavaScript `parseFloat` (and Go's `%f` scan) restricted to plain decimals:
   * leading whitespace, an optional sign, integer digits, and an optional '.'
   * with fraction digits; at least one digit is needed, else NaN (None).
   */
  function ParseDecimal(s: string): (r: Option<real>)
  {
    var t := TrimLeft(s);
    var body := Unsigned(t);
    var n := DigitRun(body);
    var whole := DigitsValue(body[..n]) as real;
    var magnitude: Option<real> :=
      if n < |body| && body[n] == '.' then
        var frac := body[n + 1..];
        var m := DigitRun(frac);
        if n + m == 0 then None
        else Some(whole + DigitsValue(frac[..m]) as real / Pow10(m) as real)
      else if n == 0 then None
      else Some(whole);
    match magnitude
    case None => None
    case Some(v) => if Negative(t) then Some(-v) else Some(v)
  }

  /** A decimal integer text reads back as that integer through parseFloat too. */
  lemma ParseDecimalOfInt(i: int)
    ensures ParseDecimal(IntToString(i)) == Some(i as real)
  {
    var digits := NatToString(if i < 0 then -i else i);
    var s := IntToString(i);
    SignedText(i, "");
    assert s + "" == s;
    DigitRunPrefix(digits, "");
    assert digits + "" == digits;
    assert digits[..|digits|] == digits;
  }

  function ToUpperAscii(c: char): char {
    if 'a' <= c <= 'z' then ((c as int) - 32) as char else c
  }

  function ToLowerAscii(c: char): char {
    if 'A' <= c <= 'Z' then ((c as int) + 32) as char else c
  }

  function ToLower(s: string): (r: string)
    ensures |r| == |s|
    ensures forall i :: 0 <= i < |s| ==> r[i] == ToLowerAscii(s[i])
  {
    if s == [] then [] else [ToLowerAscii(s[0])] + ToLower(s[1..])
  }
}
