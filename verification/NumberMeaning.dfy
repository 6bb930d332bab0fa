/** What a reader makes of the text `number` prints: its parts in order, and the number it stands for. */
module NumberMeaning {
  import opened NumberText

  // ----- the parts of the text

  /** A digit of upper-case or lower-case text. */
  predicate IsDigitOf(c: char, large: bool) {
    '0' <= c <= '9' || (if large then 'A' <= c <= 'Z' else 'a' <= c <= 'z')
  }

  /** The digits of `n`, as anybody would write it: they decode to it, and do not start with a zero. */
  predicate Writes(digits: string, n: nat, base: nat, large: bool) {
    digits != "" && Value(digits, base) == n && (|digits| > 1 ==> digits[0] != '0') &&
    forall c :: c in digits ==> IsDigitOf(c, large) && DigitValue(c) < base
  }

  lemma {:induction false} DigitsOf(n: nat, base: nat, large: bool)
    requires 2 <= base <= 36
    ensures forall c :: c in Significant(n, base, large) ==> IsDigitOf(c, large)
  {
    if n != 0 {
      HalfOrLess(n, base);
      DigitsOf(n / base, base, large);
      DigitIs(n % base, large);
    }
  }

  lemma DigitIs(d: nat, large: bool)
    requires d < 36
    ensures IsDigitOf(Digit(d, large), large)
  {
  }

  lemma DigitsWrite(n: nat, base: nat, large: bool)
    requires 2 <= base <= 36
    ensures Writes(Digits(n, base, large), n, base, large)
  {
    hide Significant, Value;
    DigitsValue(n, base, large);
    DigitsOf(n, base, large);
  }

  /** `sign` is what stands for the sign. */
  predicate IsSign(sign: string, num: int, flags: Flags) {
    sign in {"", "-", "+", " "} && (sign == "-" <==> flags.sign && num < 0) &&
    (sign == "+" <==> flags.sign && num >= 0 && flags.plus) &&
    (sign == " " <==> flags.sign && num >= 0 && !flags.plus && flags.space)
  }

  /** `prefix` is what stands for the base. */
  predicate IsPrefix(prefix: string, base: nat, flags: Flags) {
    prefix in {"", "0", "0x", "0X"} && (prefix == "0" <==> flags.special && base == 8) &&
    (prefix == "0x" <==> flags.special && base == 16 && !flags.large) &&
    (prefix == "0X" <==> flags.special && base == 16 && flags.large)
  }

  /** The number that is printed: `num`, its absolute value, or what it is as an `unsigned long`. */
  function Absolute(num: int, signed: bool): nat
    requires -0x8000_0000_0000_0000 <= num
  {
    if num >= 0 then num else if signed then -num else num + 0x1_0000_0000_0000_0000
  }

  /** The text from left to right, `parts` in their places. */
  datatype Parts = Parts(before: nat, sign: string, prefix: string, zeros: nat, digits: string, behind: nat)

  function Text(p: Parts): string {
    Times(' ', p.before) + p.sign + p.prefix + Times('0', p.zeros) + p.digits + Times(' ', p.behind)
  }

  /** Spaces stand on the left unless `left` or `zeropad` is set, and on the right only with `left`;
      there are more zeros than the precision asks for only with `zeropad` and without `left`; the
      width is reached, and not passed without need. */
  predicate LaidOut(p: Parts, size: int, precision: int, left: bool, zeropad: bool) {
    var least := Max(0, precision - |p.digits|);
    (p.before > 0 ==> !left && !zeropad) && (p.behind > 0 ==> left) &&
    p.zeros >= least && (p.zeros > least ==> zeropad && !left) &&
    |Text(p)| == Max(size, |p.sign| + |p.prefix| + least + |p.digits|)
  }

  /** What `number` prints is, from left to right: spaces, the sign, the prefix of the base, zeros, the
      digits, spaces. */
  lemma PrintedLayout(num: int, base: nat, size: int, precision: int, flags: Flags) returns (p: Parts)
    requires 2 <= base <= 36 && IsLong(num, flags)
    ensures Printed(num, base, size, precision, flags) == Text(p)
    ensures IsSign(p.sign, num, flags) && IsPrefix(p.prefix, base, flags)
    ensures Writes(p.digits, Absolute(num, flags.sign), base, flags.large)
    ensures LaidOut(p, size, precision, flags.left, flags.zeropad)
  {
    hide Significant, Value, Digits, Times, Sign, Prefix, Magnitude, Writes, IsSign, IsPrefix, Printed;
    var digits := Digits(Magnitude(num, flags), base, flags.large);
    DigitsWrite(Magnitude(num, flags), base, flags.large);
    SignIs(num, base, flags);
    var pad := Padding(num, base, size, precision, flags);
    p := Placed(Sign(num, flags), Prefix(base, flags), digits, pad, precision - |digits|, flags);
    PrintedPlaced(num, base, size, precision, flags);
    PrintedLength(num, base, size, precision, flags);
  }

  /** The parts with `pad` of padding and `fill` zeros. */
  function Placed(sign: string, prefix: string, digits: string, pad: int, fill: int, flags: Flags): Parts {
    var n, zeros := Max(0, pad), Max(0, fill);
    if flags.left then Parts(0, sign, prefix, zeros, digits, n)
    else if flags.zeropad then Parts(0, sign, prefix, n + zeros, digits, 0)
    else Parts(n, sign, prefix, zeros, digits, 0)
  }

  lemma PrintedPlaced(num: int, base: nat, size: int, precision: int, flags: Flags)
    requires 2 <= base <= 36 && IsLong(num, flags)
    ensures var digits := Digits(Magnitude(num, flags), base, flags.large);
            Printed(num, base, size, precision, flags) ==
              Text(Placed(Sign(num, flags), Prefix(base, flags), digits, Padding(num, base, size, precision, flags),
                          precision - |digits|, flags))
  {
    hide Digits, Times, Sign, Prefix, Magnitude, Padding;
    var pad, digits := Padding(num, base, size, precision, flags), Digits(Magnitude(num, flags), base, flags.large);
    var fill := precision - |digits|;
    SameTimes(pad, Max(0, pad));
    SameTimes(fill, Max(0, fill));
    SameTimes(0, 0);
    TimesSum('0', Max(0, pad), Max(0, fill));
    NoTimes(' ', 0);
  }

  lemma SignIs(num: int, base: nat, flags: Flags)
    requires IsLong(num, flags)
    ensures IsSign(Sign(num, flags), num, flags) && IsPrefix(Prefix(base, flags), base, flags)
    ensures Magnitude(num, flags) == Absolute(num, flags.sign)
  {
  }

  lemma SameTimes(n: int, m: nat)
    requires m == Max(0, n)
    ensures forall c :: Times(c, n) == Times(c, m)
  {
  }

  lemma {:induction false} TimesSum(c: char, a: nat, b: nat)
    ensures Times(c, a) + Times(c, b) == Times(c, a + b)
  {
    if b > 0 {
      TimesSum(c, a, b - 1);
      assert Times(c, a) + (Times(c, b - 1) + [c]) == Times(c, a) + Times(c, b - 1) + [c];
    }
  }

  // ----- reading it back

  function SkipSpaces(text: string): string {
    if text != "" && text[0] == ' ' then SkipSpaces(text[1..]) else text
  }

  function DropSpaces(text: string): string {
    if text != "" && text[|text| - 1] == ' ' then DropSpaces(text[..|text| - 1]) else text
  }

  /** Digits, after an optional `0x` in base 16. */
  function Unsigned(text: string, base: nat): int {
    if base == 16 && |text| >= 2 && text[0] == '0' && text[1] in {'x', 'X'} then Value(text[2..], base)
    else Value(text, base)
  }

  /** The number a text stands for: spaces around it mean nothing, `-` negates, `+` does not. */
  function Reading(text: string, base: nat): int {
    var t := DropSpaces(SkipSpaces(text));
    if t != "" && t[0] == '-' then -Unsigned(t[1..], base)
    else if t != "" && t[0] == '+' then Unsigned(t[1..], base)
    else Unsigned(t, base)
  }

  lemma {:induction false} SpacesSkipped(n: nat, text: string)
    ensures SkipSpaces(Times(' ', n) + text) == SkipSpaces(text)
  {
    if n == 0 {
      assert "" + text == text;
    } else {
      var t := Times(' ', n) + text;
      TimesSum(' ', 1, n - 1);
      assert Times(' ', 1) == [' '];
      assert t[1..] == Times(' ', n - 1) + text;
      SpacesSkipped(n - 1, text);
    }
  }

  lemma {:induction false} SpacesDropped(text: string, n: nat)
    ensures DropSpaces(text + Times(' ', n)) == DropSpaces(text)
  {
    if n == 0 {
      assert text + "" == text;
    } else {
      var t := text + Times(' ', n);
      assert t[..|t| - 1] == text + Times(' ', n - 1);
      SpacesDropped(text, n - 1);
    }
  }

  /** Leading zeros do not count. */
  lemma {:induction false} ZerosCount(n: nat, text: string, base: nat)
    ensures Value(Times('0', n) + text, base) == Value(text, base)
    decreases |text|, n
  {
    var t := Times('0', n) + text;
    if text != "" {
      assert t[..|t| - 1] == Times('0', n) + text[..|text| - 1];
      ZerosCount(n, text[..|text| - 1], base);
    } else if n > 0 {
      assert t == Times('0', n) && t[..n - 1] == Times('0', n - 1) && Times('0', n - 1) + "" == Times('0', n - 1);
      ZerosCount(n - 1, "", base);
    } else {
      assert t == "";
    }
  }

  /** A text that neither starts nor ends with a space is read without the spaces around it. */
  lemma ReadsInside(before: nat, text: string, behind: nat, base: nat)
    requires text != "" && text[0] != ' ' && text[|text| - 1] != ' '
    ensures Reading(Times(' ', before) + text + Times(' ', behind), base) == Reading(text, base)
    ensures DropSpaces(SkipSpaces(text)) == text
  {
    var t := text + Times(' ', behind);
    assert Times(' ', before) + text + Times(' ', behind) == Times(' ', before) + t;
    SpacesSkipped(before, t);
    assert t[0] == text[0];
    SpacesDropped(text, behind);
  }

  /** Prefix, zeros and digits stand for the number of the digits. */
  lemma BodyReads(prefix: string, zeros: nat, digits: string, n: nat, base: nat, large: bool)
    requires 2 <= base <= 36 && Writes(digits, n, base, large)
    requires prefix == "" || (base == 8 && prefix == "0") || (base == 16 && prefix in {"0x", "0X"})
    ensures Unsigned(prefix + Times('0', zeros) + digits, base) == n
  {
    hide Value, IsDigitOf;
    var body := Times('0', zeros) + digits;
    ZerosCount(zeros, digits, base);
    if prefix == "" {
      assert prefix + Times('0', zeros) + digits == body;
      assert forall i :: 0 <= i < |body| ==> body[i] == '0' || body[i] in digits;
    } else if base == 8 {
      assert prefix + Times('0', zeros) + digits == Times('0', 1) + body by { assert Times('0', 1) == "0"; }
      ZerosCount(1, body, base);
    } else {
      assert (prefix + Times('0', zeros) + digits)[2..] == body;
    }
  }

  /** What is printed reads back as the number, in every base and for every width, precision and set of
      flags: signed when the sign is asked for, and otherwise as an `unsigned long`. */
  lemma ReadsBack(num: int, base: nat, size: int, precision: int, flags: Flags)
    requires 2 <= base <= 36 && IsLong(num, flags)
    ensures Reading(Printed(num, base, size, precision, flags), base) ==
      if num >= 0 || flags.sign then num else num + 0x1_0000_0000_0000_0000
  {
    hide Value, Writes, Printed, Unsigned, Times, IsPrefix, Reading;
    var p := PrintedLayout(num, base, size, precision, flags);
    PartsRead(p, Absolute(num, flags.sign), base, flags);
  }

  lemma PartsRead(p: Parts, n: nat, base: nat, flags: Flags)
    requires 2 <= base <= 36 && Writes(p.digits, n, base, flags.large) && IsPrefix(p.prefix, base, flags)
    requires p.sign in {"", "-", "+", " "}
    ensures Reading(Text(p), base) == if p.sign == "-" then -(n as int) else n
  {
    hide Value, Writes, Unsigned, Times, Reading, Text;
    var body := p.prefix + Times('0', p.zeros) + p.digits;
    BodyReads(p.prefix, p.zeros, p.digits, n, base, flags.large);
    BodyEnds(p.prefix, p.zeros, p.digits, n, base, flags.large);
    if p.sign == " " {
      SpaceIsSpace(p, body);
      SignedReads(p.before + 1, "", body, p.behind, base);
      assert "" + body == body;
    } else {
      assert Text(p) == Times(' ', p.before) + (p.sign + body) + Times(' ', p.behind) by { SignInside(p, body); }
      SignedReads(p.before, p.sign, body, p.behind, base);
    }
  }

  lemma SpaceIsSpace(p: Parts, body: string)
    requires p.sign == " " && body == p.prefix + Times('0', p.zeros) + p.digits
    ensures Text(p) == Times(' ', p.before + 1) + body + Times(' ', p.behind)
  {
    hide Times;
    OneMore(p.before);
    assert Text(p) == (Times(' ', p.before) + " ") + body + Times(' ', p.behind);
  }

  lemma SignInside(p: Parts, body: string)
    requires body == p.prefix + Times('0', p.zeros) + p.digits
    ensures Text(p) == Times(' ', p.before) + (p.sign + body) + Times(' ', p.behind)
  {
    hide Times;
  }

  lemma SignedReads(before: nat, sign: string, body: string, behind: nat, base: nat)
    requires sign in {"", "-", "+"} && body != "" && body[0] !in {' ', '-', '+'} && body[|body| - 1] != ' '
    ensures Reading(Times(' ', before) + (sign + body) + Times(' ', behind), base) ==
      if sign == "-" then -Unsigned(body, base) else Unsigned(body, base)
  {
    hide Times, Unsigned, SkipSpaces, DropSpaces;
    var text := sign + body;
    ReadsInside(before, text, behind, base);
    if sign == "" {
      assert text == body;
    } else {
      assert text[1..] == body && text[0] == sign[0];
    }
  }

  lemma OneMore(n: nat)
    ensures Times(' ', n) + " " == Times(' ', n + 1)
  {
  }

  lemma BodyEnds(prefix: string, zeros: nat, digits: string, n: nat, base: nat, large: bool)
    requires Writes(digits, n, base, large) && prefix in {"", "0", "0x", "0X"}
    ensures var body := prefix + Times('0', zeros) + digits;
            body != "" && body[0] !in {' ', '-', '+'} && body[|body| - 1] != ' '
  {
    hide Value;
    var body := prefix + Times('0', zeros) + digits;
    assert body[|body| - 1] == digits[|digits| - 1] && digits[|digits| - 1] in digits && digits[0] in digits;
    if prefix == "" {
      assert body[0] == '0' || body[0] == digits[0];
    } else {
      assert body[0] == prefix[0];
    }
  }
}
