/** The text form of the cookie file: lines read through a fixed buffer, tokens, trimmed
    strings and decimal numbers. */
module CookieText {
  import opened Cookies

  // ---------------------------------------------------------------- tokens

  function SkipDelims(s: string, delims: set<char>): (r: string)
    ensures |r| <= |s|
  {
    if s != "" && s[0] in delims then SkipDelims(s[1..], delims) else s
  }

  function TokenEnd(s: string, delims: set<char>): (n: nat)
    ensures n <= |s|
  {
    if s == "" || s[0] in delims then 0 else 1 + TokenEnd(s[1..], delims)
  }

  /** The first `n` tokens that strtok_r cuts off, if there are so many. */
  function Tokens(s: string, delims: set<char>, n: nat): Option<seq<string>>
    decreases n
  {
    if n == 0 then Some([])
    else
      var t := SkipDelims(s, delims);
      if t == "" then None
      else
        var end := TokenEnd(t, delims);
        var more := Tokens(if end < |t| then t[end + 1..] else "", delims, n - 1);
        if more.None? then None else Some([t[..end]] + more.value)
  }

  predicate Token(x: string, delims: set<char>) {
    x != "" && forall i | 0 <= i < |x| :: x[i] !in delims
  }

  /** Fields separated by `sep` and ended by `last`. */
  function Line(fields: seq<string>, sep: char, last: char): string
    requires fields != []
  {
    if |fields| == 1 then fields[0] + [last] else fields[0] + [sep] + Line(fields[1..], sep, last)
  }

  lemma {:induction false} EndOfToken(x: string, c: char, rest: string, delims: set<char>)
    requires (forall i | 0 <= i < |x| :: x[i] !in delims) && c in delims
    ensures TokenEnd(x + [c] + rest, delims) == |x|
    decreases |x|
  {
    var s := x + [c] + rest;
    if x != "" {
      assert s[1..] == x[1..] + [c] + rest;
      EndOfToken(x[1..], c, rest, delims);
    }
  }

  /** The tokens of such a line are its fields. */
  lemma {:induction false} TokensOfLine(fields: seq<string>, sep: char, last: char, delims: set<char>)
    requires fields != [] && sep in delims && last in delims
    requires forall i | 0 <= i < |fields| :: Token(fields[i], delims)
    ensures Tokens(Line(fields, sep, last), delims, |fields|) == Some(fields)
    decreases |fields|
  {
    var x := fields[0];
    if |fields| == 1 {
      EndOfToken(x, last, "", delims);
      var s := x + [last] + "";
      assert Line(fields, sep, last) == s && s[..|x|] == x && s[|x| + 1..] == "";
      assert Tokens("", delims, 0) == Some([]);
      assert fields == [x] + [];
    } else {
      var rest := Line(fields[1..], sep, last);
      EndOfToken(x, sep, rest, delims);
      var s := x + [sep] + rest;
      assert Line(fields, sep, last) == s;
      assert s[..|x|] == x && s[|x| + 1..] == rest;
      TokensOfLine(fields[1..], sep, last, delims);
      assert fields == [x] + fields[1..];
    }
  }

  lemma LeadingDelim(c: char, s: string, delims: set<char>, n: nat)
    requires c in delims && n > 0
    ensures Tokens([c] + s, delims, n) == Tokens(s, delims, n)
  {
    assert ([c] + s)[1..] == s;
  }

  // ---------------------------------------------------------------- trimming

  predicate Space(c: char) { c == ' ' || '\t' <= c <= '\r' }

  function TrimLeft(s: string): (r: string)
    ensures |r| <= |s|
  {
    if s != "" && Space(s[0]) then TrimLeft(s[1..]) else s
  }

  function TrimRight(s: string): (r: string)
    ensures |r| <= |s|
  {
    if s != "" && Space(s[|s| - 1]) then TrimRight(s[..|s| - 1]) else s
  }

  function Trim(s: string): string { TrimRight(TrimLeft(s)) }

  // ---------------------------------------------------------------- numbers

  predicate Digit(c: char) { '0' <= c <= '9' }

  function Digits(n: nat): string {
    (if n < 10 then "" else Digits(n / 10)) + ['0' + (n % 10) as char]
  }

  /** %d and %lld */
  function Print(i: int): string { if i < 0 then "-" + Digits(-i) else Digits(i) }

  function ReadDigits(s: string, acc: nat): nat
    decreases s
  {
    if s == "" || !Digit(s[0]) then acc else ReadDigits(s[1..], 10 * acc + (s[0] - '0') as nat)
  }

  /** atoi and atoll, within their range. */
  function Atoi(s: string): int {
    var t := TrimLeft(s);
    if t != "" && t[0] == '-' then -(ReadDigits(t[1..], 0) as int)
    else if t != "" && t[0] == '+' then ReadDigits(t[1..], 0)
    else ReadDigits(t, 0)
  }

  lemma {:induction false} DigitsAreDigits(n: nat)
    ensures Digits(n) != "" && forall i | 0 <= i < |Digits(n)| :: Digit(Digits(n)[i])
    decreases n
  {
    if n >= 10 { DigitsAreDigits(n / 10); }
  }

  lemma {:induction false} ReadAppend(a: string, b: string, acc: nat)
    requires forall i | 0 <= i < |a| :: Digit(a[i])
    ensures ReadDigits(a + b, acc) == ReadDigits(b, ReadDigits(a, acc))
    decreases a
  {
    if a == "" {
      assert a + b == b;
    } else {
      assert (a + b)[1..] == a[1..] + b;
      ReadAppend(a[1..], b, 10 * acc + (a[0] - '0') as nat);
    }
  }

  lemma {:induction false} ReadDigitsBack(n: nat)
    ensures ReadDigits(Digits(n), 0) == n
    decreases n
  {
    var last := ['0' + (n % 10) as char];
    if n < 10 {
      assert Digits(n) == last;
      OneDigit(n, 0);
    } else {
      ReadDigitsBack(n / 10);
      DigitsAreDigits(n / 10);
      ReadAppend(Digits(n / 10), last, 0);
      OneDigit(n % 10, n / 10);
    }
  }

  lemma OneDigit(d: nat, acc: nat)
    requires d < 10
    ensures ReadDigits(['0' + d as char], acc) == 10 * acc + d
  {
    var s := ['0' + d as char];
    assert s[1..] == "";
    assert ReadDigits(s[1..], 10 * acc + d) == 10 * acc + d;
  }

  /** Numbers are read back as printed. */
  lemma AtoiPrint(i: int)
    ensures Atoi(Print(i)) == i
    ensures Print(i) != "" && forall j | 0 <= j < |Print(i)| :: Digit(Print(i)[j]) || Print(i)[j] == '-'
  {
    var n: nat := if i < 0 then -i else i;
    DigitsAreDigits(n);
    ReadDigitsBack(n);
    if i < 0 { assert Print(i)[1..] == Digits(n); }
  }

  // ---------------------------------------------------------------- lines

  const BUFFER := 8192

  /** How many characters fgets takes: up to a newline, or as many as the buffer holds. */
  function Fgets(text: string, room: nat): (n: nat)
    ensures n <= |text| && n <= room
    ensures text != "" && room > 0 ==> n > 0
  {
    if text == "" || room == 0 then 0
    else if text[0] == '\n' then 1
    else 1 + Fgets(text[1..], room - 1)
  }

  /** A line that fits is read whole. */
  lemma {:induction false} FgetsLine(line: string, rest: string, room: nat)
    requires line != "" && |line| <= room && line[|line| - 1] == '\n'
    requires forall i | 0 <= i < |line| - 1 :: line[i] != '\n'
    ensures Fgets(line + rest, room) == |line|
    decreases |line|
  {
    if |line| > 1 {
      assert (line + rest)[1..] == line[1..] + rest;
      FgetsLine(line[1..], rest, room - 1);
    }
  }
}
