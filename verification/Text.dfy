/**
 Names made of tagged decimal integers, such as "d0_c3_n5", and a tokenizer that takes
 them apart again.
 */
module Text {

  /******* Decimal integers *******/

  function DigitChar(n: nat): (c: char)
    requires n < 10
    ensures '0' <= c <= '9' && c as int - '0' as int == n
  {
    '0' + n as char
  }

  function Dec(n: nat): (r: string)
    ensures |r| >= 1 && forall i :: 0 <= i < |r| ==> ClassOf(r[i]) == Digit
  {
    if n < 10 then [DigitChar(n)] else Dec(n / 10) + [DigitChar(n % 10)]
  }

  /** A signed decimal integer, as the standard library prints it. */
  function Show(n: int): string {
    if n < 0 then "-" + Dec(-n) else Dec(n)
  }

  lemma ShowExamples()
    ensures Show(0) == "0" && Show(7) == "7" && Show(-3) == "-3" && Show(62) == "62" && Show(-105) == "-105"
  {
    assert Dec(62) == Dec(6) + ['2'] && Dec(105) == Dec(10) + ['5'] && Dec(10) == Dec(1) + ['0'];
  }

  /** No leading zero: with the value of the digits this fixes the printed string. */
  lemma {:induction false} NoLeadingZero(n: nat)
    ensures Dec(n)[0] == '0' <==> n == 0
    ensures n == 0 ==> Dec(n) == "0"
  {
    if n >= 10 { NoLeadingZero(n / 10); }
  }

  /** The number that a string of digits denotes. */
  function Value(s: string): nat {
    if s == [] then 0
    else
      var c := s[|s| - 1];
      10 * Value(s[..|s| - 1]) + if '0' <= c <= '9' then c as int - '0' as int else 0
  }

  lemma {:induction false} ValueOfDec(n: nat)
    ensures Value(Dec(n)) == n
  {
    if n < 10 {
      assert Dec(n)[..0] == [];
    } else {
      assert Dec(n)[..|Dec(n)| - 1] == Dec(n / 10);
      ValueOfDec(n / 10);
    }
  }

  /******* Tokens *******/

  datatype Class = Digit | Minus | Letter

  function ClassOf(c: char): Class {
    if '0' <= c <= '9' then Digit else if c == '-' then Minus else Letter
  }

  /** Length of the longest prefix of one class. */
  function Span(s: string, k: Class): (n: nat)
    ensures n <= |s|
  {
    if s == [] || ClassOf(s[0]) != k then 0 else 1 + Span(s[1..], k)
  }

  lemma {:induction false} SpanOf(p: string, rest: string, k: Class)
    requires forall i :: 0 <= i < |p| ==> ClassOf(p[i]) == k
    requires rest == [] || ClassOf(rest[0]) != k
    ensures Span(p + rest, k) == |p|
  {
    if p == [] {
      assert p + rest == rest;
    } else {
      assert (p + rest)[1..] == p[1..] + rest;
      SpanOf(p[1..], rest, k);
    }
  }

  datatype Segment = Segment(tag: string, value: int)

  predicate TagSound(tag: string) {
    tag != [] && forall i :: 0 <= i < |tag| ==> ClassOf(tag[i]) == Letter
  }

  predicate SegmentsSound(segments: seq<Segment>) {
    forall i :: 0 <= i < |segments| ==> TagSound(segments[i].tag)
  }

  function Render(segments: seq<Segment>): string {
    if segments == [] then "" else segments[0].tag + Show(segments[0].value) + Render(segments[1..])
  }

  /** The digits at the head of a string, and how many there are. */
  function ReadDigits(u: string): (nat, nat) {
    var d := Span(u, Digit);
    (Value(u[..d]), d)
  }

  /** The signed number at the head of a string, and its length. */
  function ReadNumber(u: string): (int, nat) {
    if u != [] && u[0] == '-' then
      var (m, d) := ReadDigits(u[1..]);
      (0 - m, 1 + d)
    else ReadDigits(u)
  }

  /** The first segment, and its length. */
  function Head(s: string): (r: (Segment, nat))
    requires s != []
    ensures 1 <= r.1 <= |s|
  {
    var t := Span(s, Letter);
    var (value, length) := ReadNumber(s[t..]);
    (Segment(s[..t], value), t + length)
  }

  /** Letters, an optional minus sign, digits; and so on. */
  function Tokenize(s: string): seq<Segment>
    decreases |s|
  {
    if s == [] then []
    else
      var (segment, length) := Head(s);
      [segment] + Tokenize(s[length..])
  }

  lemma RenderStartsWithLetter(segments: seq<Segment>)
    requires SegmentsSound(segments) && segments != []
    ensures Render(segments) != [] && ClassOf(Render(segments)[0]) == Letter
  {
    assert TagSound(segments[0].tag);
  }

  lemma DigitsReadBack(m: nat, rest: string)
    requires rest == [] || ClassOf(rest[0]) == Letter
    ensures ReadDigits(Dec(m) + rest) == (m, |Dec(m)|)
  {
    ValueOfDec(m);
    SpanOf(Dec(m), rest, Digit);
    assert (Dec(m) + rest)[..|Dec(m)|] == Dec(m);
  }

  lemma NumberReadsBack(n: int, rest: string)
    requires rest == [] || ClassOf(rest[0]) == Letter
    ensures ReadNumber(Show(n) + rest) == (n, |Show(n)|)
    ensures |Show(n)| >= 1 && ClassOf(Show(n)[0]) != Letter
  {
    var digits := Dec(if n < 0 then -n else n);
    DigitsReadBack(if n < 0 then -n else n, rest);
    assert ClassOf(digits[0]) == Digit;
    SignReadsBack(digits, rest);
  }

  lemma SignReadsBack(digits: string, rest: string)
    requires digits != [] && ClassOf(digits[0]) == Digit
    ensures var (m, d) := ReadDigits(digits + rest);
      ReadNumber("-" + digits + rest) == (0 - m, 1 + d) && ReadNumber(digits + rest) == (m, d)
  {
    assert ("-" + digits + rest)[1..] == digits + rest;
  }

  lemma TokenizeUnfold(s: string, segment: Segment, n: nat, rest: string)
    requires s != [] && Head(s) == (segment, n) && s[n..] == rest
    ensures Tokenize(s) == [segment] + Tokenize(rest)
  {
  }

  lemma HeadOf(tag: string, number: string, n: int, rest: string)
    requires TagSound(tag) && number != [] && ClassOf(number[0]) != Letter && ReadNumber(number + rest) == (n, |number|)
    ensures Head(tag + (number + rest)) == (Segment(tag, n), |tag| + |number|)
  {
    SpanOf(tag, number + rest, Letter);
    Cuts(tag, number, rest);
  }

  lemma Cuts(tag: string, number: string, rest: string)
    ensures var s := tag + (number + rest);
      s[|tag|..] == number + rest && s[..|tag|] == tag && s[|tag| + |number|..] == rest
  {
  }

  lemma HeadOfShown(tag: string, n: int, rest: string)
    requires TagSound(tag) && (rest == [] || ClassOf(rest[0]) == Letter)
    ensures var s := tag + Show(n) + rest; var length := |tag| + |Show(n)|;
      s != [] && Head(s) == (Segment(tag, n), length) && s[length..] == rest
  {
    NumberReadsBack(n, rest);
    assert tag + Show(n) + rest == tag + (Show(n) + rest);
    HeadOf(tag, Show(n), n, rest);
    Cuts(tag, Show(n), rest);
  }

  lemma RenderCons(segments: seq<Segment>)
    requires SegmentsSound(segments) && segments != []
    ensures Render(segments) == segments[0].tag + Show(segments[0].value) + Render(segments[1..])
    ensures Render(segments[1..]) == [] || ClassOf(Render(segments[1..])[0]) == Letter
    ensures TagSound(segments[0].tag) && SegmentsSound(segments[1..])
  {
    if segments[1..] != [] { RenderStartsWithLetter(segments[1..]); }
  }

  lemma RenderHead(segments: seq<Segment>) returns (n: nat)
    requires SegmentsSound(segments) && segments != []
    ensures SegmentsSound(segments[1..])
    ensures var s := Render(segments); s != [] && Head(s) == (segments[0], n) && s[n..] == Render(segments[1..])
  {
    RenderCons(segments);
    var first := segments[0];
    HeadOfShown(first.tag, first.value, Render(segments[1..]));
    n := |first.tag| + |Show(first.value)|;
  }

  /** The tokenizer undoes the rendering. */
  lemma {:induction false} TokenizeRender(segments: seq<Segment>)
    requires SegmentsSound(segments)
    ensures Tokenize(Render(segments)) == segments
  {
    if segments != [] {
      var n := RenderHead(segments);
      TokenizeUnfold(Render(segments), segments[0], n, Render(segments[1..]));
      TokenizeRender(segments[1..]);
    }
  }
}
