/** `number` and `skip_atoi` of `core/common.c`: integers to text in any base, and decimal text back. */
module NumberText {

  // ----- digits and their value

  const DIGITS: string := "0123456789abcdefghijklmnopqrstuvwxyz"
  const LARGE_DIGITS: string := "0123456789ABCDEFGHIJKLMNOPQRSTUVWXYZ"
  const UNSIGNED_LONG: nat := 0x1_0000_0000_0000_0000
  const LONG_MAX: nat := 0x7FFF_FFFF_FFFF_FFFF

  function Digit(d: nat, large: bool): char
    requires d < 36
  {
    if large then LARGE_DIGITS[d] else DIGITS[d]
  }

  /** The number a digit stands for, in lower or upper case; 36 for any other character. */
  function DigitValue(c: char): nat {
    if '0' <= c <= '9' then c as nat - '0' as nat
    else if 'a' <= c <= 'z' then c as nat - 'a' as nat + 10
    else if 'A' <= c <= 'Z' then c as nat - 'A' as nat + 10
    else 36
  }

  lemma DigitStandsFor(d: nat, large: bool)
    requires d < 36
    ensures DigitValue(Digit(d, large)) == d
    ensures d < 10 ==> '0' <= Digit(d, large) <= '9'
  {
  }

  /** The value of a text in base `base`, most significant digit first. */
  function Value(text: string, base: nat): nat {
    if text == "" then 0 else Value(text[..|text| - 1], base) * base + DigitValue(text[|text| - 1])
  }

  /** The digits of `n`, most significant first; none for 0. */
  function Significant(n: nat, base: nat, large: bool): (text: string)
    requires 2 <= base <= 36
  {
    if n == 0 then "" else Significant(n / base, base, large) + [Digit(n % base, large)]
  }

  /** The digits `number` prints. */
  function Digits(n: nat, base: nat, large: bool): string
    requires 2 <= base <= 36
  {
    if n == 0 then "0" else Significant(n, base, large)
  }

  /** The digits decode to the number they were made from, each is one of the base, and there is no
      leading zero. */
  lemma {:induction false} SignificantValue(n: nat, base: nat, large: bool)
    requires 2 <= base <= 36
    ensures Value(Significant(n, base, large), base) == n
    ensures forall c :: c in Significant(n, base, large) ==> DigitValue(c) < base
    ensures n != 0 ==> Significant(n, base, large) != "" && DigitValue(Significant(n, base, large)[0]) != 0
  {
    hide Digit, DigitValue;
    if n != 0 {
      hide Value;
      HalfOrLess(n, base);
      SignificantValue(n / base, base, large);
      OneDigitMore(Significant(n / base, base, large), n % base, base, large);
      Recompose(n, base);
    }
  }

  lemma OneDigitMore(text: string, d: nat, base: nat, large: bool)
    requires 2 <= base <= 36 && d < base && forall c :: c in text ==> DigitValue(c) < base
    ensures var more := text + [Digit(d, large)];
            Value(more, base) == Value(text, base) * base + d && (forall c :: c in more ==> DigitValue(c) < base) &&
            DigitValue(more[0]) == if text == "" then d else DigitValue(text[0])
  {
    hide Digit, DigitValue, Value;
    DigitStandsFor(d, large);
    ValueOfMore(text, Digit(d, large), base);
  }

  lemma ValueOfMore(text: string, c: char, base: nat)
    ensures Value(text + [c], base) == Value(text, base) * base + DigitValue(c)
  {
    assert (text + [c])[..|text|] == text;
  }

  lemma Recompose(n: nat, base: nat)
    requires base >= 2
    ensures (n / base) * base + n % base == n
    ensures n / base == 0 ==> n % base == n
  {
  }

  lemma DigitsValue(n: nat, base: nat, large: bool)
    requires 2 <= base <= 36
    ensures Value(Digits(n, base, large), base) == n && Digits(n, base, large) != ""
    ensures forall c :: c in Digits(n, base, large) ==> DigitValue(c) < base
    ensures |Digits(n, base, large)| > 1 ==> DigitValue(Digits(n, base, large)[0]) != 0
  {
    SignificantValue(n, base, large);
    if n == 0 {
      assert "0"[..0] == "" && Value("0", base) == Value("", base) * base + 0;
    }
  }

  /** 2 to the power `k`. */
  function Pow2(k: nat): nat { if k == 0 then 1 else 2 * Pow2(k - 1) }

  /** A number below 2^k has at most k digits, whatever the base. */
  lemma {:induction false} FewDigits(n: nat, base: nat, large: bool, k: nat)
    requires 2 <= base <= 36 && n < Pow2(k)
    ensures |Significant(n, base, large)| <= k
  {
    if n != 0 {
      HalfOrLess(n, base);
      FewDigits(n / base, base, large, k - 1);
    }
  }

  lemma HalfOrLess(n: nat, base: nat)
    requires base >= 2
    ensures 0 <= n / base && 2 * (n / base) <= n && 0 <= n % base < base
  {
    var q, r := n / base, n % base;
    assert n == q * base + r;
    AtLeastDouble(q, base);
  }

  lemma AtLeastDouble(q: int, base: nat)
    requires base >= 2
    ensures q >= 0 ==> q * base >= 2 * q
    ensures q < 0 ==> q * base <= -(base as int)
  {
    if q < 0 {
      assert (-q - 1) * base >= 0;
    } else {
      assert q * (base - 2) >= 0;
    }
  }

  lemma UnsignedLongIs()
    ensures Pow2(64) == UNSIGNED_LONG
  {
    assert Pow2(8) == 0x100;
    Double(8);
    Double(16);
    Double(32);
  }

  lemma {:induction false} Double(k: nat)
    ensures Pow2(2 * k) == Pow2(k) * Pow2(k)
  {
    if k != 0 {
      Double(k - 1);
      assert Pow2(2 * k) == 2 * Pow2(2 * k - 1) && Pow2(2 * k - 1) == 2 * Pow2(2 * (k - 1));
      var p := Pow2(k - 1);
      assert Pow2(k) == 2 * p && (2 * p) * (2 * p) == 4 * (p * p);
    }
  }

  // ----- what `number` prints

  datatype Flags = Flags(zeropad: bool, sign: bool, plus: bool, space: bool, left: bool, special: bool, large: bool)

  const NO_FLAGS: Flags := Flags(false, false, false, false, false, false, false)

  function Times(c: char, n: int): (text: string)
    ensures |text| == if n > 0 then n else 0
    ensures forall i :: 0 <= i < |text| ==> text[i] == c
  {
    if n <= 0 then "" else Times(c, n - 1) + [c]
  }

  function Max(a: int, b: int): int { if a > b then a else b }

  /** `num` is a `long`, and it can be negated where its sign is printed. */
  predicate IsLong(num: int, flags: Flags) {
    -(LONG_MAX as int) - 1 <= num <= LONG_MAX && (flags.sign ==> -(LONG_MAX as int) <= num)
  }

  /** `long num` read as the conversion wants it: signed, or as `unsigned long`. */
  function Magnitude(num: int, flags: Flags): nat
    requires IsLong(num, flags)
  {
    if num >= 0 then num else if flags.sign then -num else num + UNSIGNED_LONG
  }

  function Sign(num: int, flags: Flags): (text: string)
    ensures |text| <= 1
  {
    if !flags.sign then "" else if num < 0 then "-" else if flags.plus then "+" else if flags.space then " " else ""
  }

  function Prefix(base: nat, flags: Flags): (text: string)
    ensures |text| <= 2
  {
    if !flags.special then ""
    else if base == 8 then "0"
    else if base == 16 then (if flags.large then "0X" else "0x")
    else ""
  }

  /** The digits, filled up with zeros to the precision. */
  function Body(num: int, base: nat, precision: int, flags: Flags): string
    requires 2 <= base <= 36 && IsLong(num, flags)
  {
    var digits := Digits(Magnitude(num, flags), base, flags.large);
    Times('0', precision - |digits|) + digits
  }

  function Padding(num: int, base: nat, size: int, precision: int, flags: Flags): int
    requires 2 <= base <= 36 && IsLong(num, flags)
  {
    size - |Sign(num, flags)| - |Prefix(base, flags)| - |Body(num, base, precision, flags)|
  }

  /** Sign, prefix and body, padded to `size` with spaces before or behind them or with zeros
      before the body. */
  function Printed(num: int, base: nat, size: int, precision: int, flags: Flags): string
    requires 2 <= base <= 36 && IsLong(num, flags)
  {
    var pad, body := Padding(num, base, size, precision, flags), Body(num, base, precision, flags);
    if flags.left then Sign(num, flags) + Prefix(base, flags) + body + Times(' ', pad)
    else if flags.zeropad then Sign(num, flags) + Prefix(base, flags) + Times('0', pad) + body
    else Times(' ', pad) + Sign(num, flags) + Prefix(base, flags) + body
  }

  /** The output is as long as the width, or as sign, prefix and digits to the precision need. */
  lemma PrintedLength(num: int, base: nat, size: int, precision: int, flags: Flags)
    requires 2 <= base <= 36 && IsLong(num, flags)
    ensures |Printed(num, base, size, precision, flags)| ==
      Max(size, |Sign(num, flags)| + |Prefix(base, flags)| + Max(|Digits(Magnitude(num, flags), base, flags.large)|,
                                                                 precision))
  {
  }

  /** Without flags, width and precision a number is printed as its digits. */
  lemma PlainIsDigits(n: nat)
    requires n <= LONG_MAX
    ensures Printed(n, 10, -1, -1, NO_FLAGS) == Digits(n, 10, false)
  {
    var digits := Digits(n, 10, false);
    assert Body(n, 10, -1, NO_FLAGS) == digits;
    assert Times(' ', Padding(n, 10, -1, -1, NO_FLAGS)) == "";
  }

  // ----- skip_atoi

  predicate IsDigit(c: char) { '0' <= c <= '9' }

  /** The position of the first character from `at` on that is no decimal digit. */
  function AfterDigits(text: string, at: nat): (next: nat)
    requires at <= |text|
    ensures at <= next <= |text| && (next < |text| ==> !IsDigit(text[next]))
    ensures forall i :: at <= i < next ==> IsDigit(text[i])
    decreases |text| - at
  {
    if at < |text| && IsDigit(text[at]) then AfterDigits(text, at + 1) else at
  }

  lemma {:induction false} AfterDigitsIs(text: string, at: nat, next: nat)
    requires at <= next <= |text| && (next < |text| ==> !IsDigit(text[next]))
    requires forall i :: at <= i < next ==> IsDigit(text[i])
    ensures AfterDigits(text, at) == next
    decreases next - at
  {
    if at < next {
      AfterDigitsIs(text, at + 1, next);
    }
  }

  /** Reading back what `number` prints for a number in base 10, up to whatever follows. */
  lemma AtoiInvertsNumber(n: nat, rest: string)
    requires n <= LONG_MAX && rest != "" && !IsDigit(rest[0])
    ensures var text := Printed(n, 10, -1, -1, NO_FLAGS); var next := AfterDigits(text + rest, 0);
            next == |text| && Value((text + rest)[..next], 10) == n
  {
    hide Printed, Digits, Value, AfterDigits, IsDigit;
    var text := Printed(n, 10, -1, -1, NO_FLAGS);
    PlainIsDigits(n);
    DigitsValue(n, 10, false);
    AllDecimal(n);
    AfterDigitsIs(text + rest, 0, |text|);
    assert (text + rest)[..|text|] == text;
  }

  lemma AllDecimal(n: nat)
    ensures forall c :: c in Digits(n, 10, false) ==> IsDigit(c)
  {
    hide Digits;
    DigitsValue(n, 10, false);
  }

  /** The value read fits `int` by the caller's duty. */
  method SkipAtoi(text: string, at: nat) returns (i: nat, next: nat)
    requires at < |text| && !IsDigit(text[|text| - 1])
    requires Value(text[at..AfterDigits(text, at)], 10) < 0x8000_0000
    ensures next == AfterDigits(text, at) < |text| && i == Value(text[at..next], 10)
  {
    i, next := 0, at;
    while IsDigit(text[next])
      invariant at <= next < |text| && AfterDigits(text, next) == AfterDigits(text, at)
      invariant i == Value(text[at..next], 10)
      decreases |text| - next
    {
      assert text[at..next + 1][..next - at] == text[at..next];
      i, next := i * 10 + (text[next] as nat - '0' as nat), next + 1;
    }
  }

  // ----- number, writing into the caller's buffer

  /** `buffer` with `text` written from position `at` on. */
  function Written(buffer: string, at: nat, text: string): (r: string)
    requires at + |text| <= |buffer|
    ensures |r| == |buffer|
  {
    buffer[..at] + text + buffer[at + |text|..]
  }

  lemma WrittenTwice(buffer: string, at: nat, a: string, b: string)
    requires at + |a| + |b| <= |buffer|
    ensures Written(Written(buffer, at, a), at + |a|, b) == Written(buffer, at, a + b)
  {
  }

  /** The buffer `str` is `was` with `out` written from `start` on, and the next character goes to `at`. */
  ghost predicate Holds(str: seq<char>, at: nat, was: string, start: nat, out: string) {
    |was| == |str| && at == start + |out| <= |str| && str == Written(was, start, out)
  }

  lemma HoldsMore(str: string, at: nat, was: string, start: nat, out: string, c: char)
    requires Holds(str, at, was, start, out) && at < |str|
    ensures Holds(str[at := c], at + 1, was, start, out + [c])
  {
  }

  /** `while (size-- > 0) *str++ = c;` */
  method Pad(str: array<char>, at: nat, c: char, size: int, ghost was: string, ghost start: nat, ghost out: string)
    returns (next: nat, left: int)
    requires Holds(str[..], at, was, start, out) && at + |Times(c, size)| <= str.Length
    modifies str
    ensures Holds(str[..], next, was, start, out + Times(c, size)) && next == at + |Times(c, size)|
    ensures left == if size > 0 then -1 else size - 1
  {
    hide Holds;
    next, left := at, size;
    assert out + Times(c, 0) == out;
    while left > 0
      invariant left <= size && (if size > 0 then left >= 0 else left == size)
      invariant next == at + |Times(c, size - left)| && Holds(str[..], next, was, start, out + Times(c, size - left))
    {
      left := left - 1;
      HoldsMore(str[..], next, was, start, out + Times(c, size - left - 1), c);
      assert out + Times(c, size - left - 1) + [c] == out + Times(c, size - left);
      assert str[..][next := c] == str[..next] + [c] + str[next + 1..];
      str[next] := c;
      assert str[..] == str[..next] + [c] + str[next + 1..];
      next := next + 1;
    }
    left := left - 1;
  }

  function Reverse(text: string): (r: string)
    ensures |r| == |text|
  {
    if text == "" then "" else [text[|text| - 1]] + Reverse(text[..|text| - 1])
  }

  /** The loop over `do_div`: the digits, least significant first. */
  method Convert(num: nat, base: nat, large: bool) returns (tmp: array<char>, i: nat)
    requires 2 <= base <= 36 && num < UNSIGNED_LONG
    ensures fresh(tmp) && tmp.Length == 66 && 0 < i <= 64 && Reverse(tmp[..i]) == Digits(num, base, large)
  {
    hide Digit, Significant, Reverse, Pow2, Digits;
    DigitsIs(num, base, large);
    tmp := new char[66](_ => ' ');
    i := 0;
    if num == 0 {
      tmp[0] := '0';
      i := 1;
      assert tmp[..1] == "0";
      ReverseMore("", '0');
      assert "" + ['0'] == "0";
    } else {
      OneMoreDigit(0, base, large);
      ReverseMore("", '0');
      UnsignedLongIs();
      FewDigits(num, base, large, 64);
      var n: nat := num;
      while n != 0
        invariant n <= num && i + |Significant(n, base, large)| <= 64 && (n == num ==> i == 0) && (n != num ==> i > 0)
        invariant Significant(num, base, large) == Significant(n, base, large) + Reverse(tmp[..i])
      {
        HalfOrLess(n, base);
        OneMoreDigit(n, base, large);
        ghost var done := tmp[..i];
        var d := Digit(n % base, large);
        tmp[i] := d;
        ReverseMore(done, d);
        assert tmp[..i + 1] == done + [d];
        i, n := i + 1, n / base;
      }
    }
  }

  lemma DigitsIs(n: nat, base: nat, large: bool)
    requires 2 <= base <= 36
    ensures Digits(n, base, large) == if n == 0 then "0" else Significant(n, base, large)
  {
  }

  lemma OneMoreDigit(n: nat, base: nat, large: bool)
    requires 2 <= base <= 36
    ensures Significant(n, base, large) == if n == 0 then ""
                                           else Significant(n / base, base, large) + [Digit(n % base, large)]
  {
  }

  lemma ReverseMore(text: string, c: char)
    ensures Reverse(text + [c]) == [c] + Reverse(text) && Reverse("") == ""
  {
    assert (text + [c])[..|text|] == text;
  }

  /** `*str++ = c;` */
  method Put(str: array<char>, at: nat, c: char, ghost was: string, ghost start: nat, ghost out: string)
    returns (next: nat)
    requires Holds(str[..], at, was, start, out) && at < str.Length
    modifies str
    ensures next == at + 1 && Holds(str[..], next, was, start, out + [c])
  {
    hide Holds;
    HoldsMore(str[..], at, was, start, out, c);
    ghost var before := str[..];
    str[at] := c;
    assert str[..] == before[at := c];
    next := at + 1;
  }

  /** `while (i-- > 0) *str++ = tmp[i];` */
  method PutReversed(str: array<char>, at: nat, tmp: array<char>, count: nat, ghost was: string, ghost start: nat,
                     ghost out: string)
    returns (next: nat)
    requires str != tmp && count <= tmp.Length && Holds(str[..], at, was, start, out) && at + count <= str.Length
    modifies str
    ensures next == at + count && Holds(str[..], next, was, start, out + Reverse(tmp[..count]))
  {
    hide Holds, Reverse;
    next := at;
    var i: nat := count;
    ghost var more := "";
    assert out + more == out && more + Reverse(tmp[..count]) == Reverse(tmp[..count]);
    while i > 0
      invariant 0 <= i <= count && next == at + |more| && |more| + i == count
      invariant more + Reverse(tmp[..i]) == Reverse(tmp[..count]) && Holds(str[..], next, was, start, out + more)
    {
      assert tmp[..i] == tmp[..i - 1] + [tmp[i - 1]];
      ReverseMore(tmp[..i - 1], tmp[i - 1]);
      i := i - 1;
      next := Put(str, next, tmp[i], was, start, out + more);
      assert out + more + [tmp[i]] == out + (more + [tmp[i]]);
      more := more + [tmp[i]];
    }
    ReverseMore("", ' ');
    assert tmp[..0] == "" && more + "" == more;
  }

  /** What `number` writes, piece by piece: of the three paddings at most one is not empty. */
  function Pieces(sign: string, prefix: string, digits: string, size: int, zeros: int, flags: Flags): string {
    (if flags.zeropad || flags.left then "" else Times(' ', size)) + sign + prefix +
    (if flags.zeropad && !flags.left then Times('0', size) else "") + Times('0', zeros) + digits +
    (if flags.left then Times(' ', size) else "")
  }

  lemma Assemble(num: int, base: nat, size: int, precision: int, flags: Flags)
    requires 2 <= base <= 36 && IsLong(num, flags)
    ensures var digits := Digits(Magnitude(num, flags), base, flags.large);
            Pieces(Sign(num, flags), Prefix(base, flags), digits, Padding(num, base, size, precision, flags),
                   precision - |digits|, flags)
              == Printed(num, base, size, precision, flags)
  {
    hide Digits, Magnitude, Sign, Prefix, Padding;
  }

  /** The padding is the width less what sign, prefix and digits need. */
  lemma PaddingIs(num: int, base: nat, size: int, precision: int, flags: Flags)
    requires 2 <= base <= 36 && IsLong(num, flags)
    ensures Padding(num, base, size, precision, flags) ==
      size - |Sign(num, flags)| - (if !flags.special then 0 else if base == 8 then 1 else if base == 16 then 2 else 0)
        - Max(|Digits(Magnitude(num, flags), base, flags.large)|, precision)
  {
    BodyLength(num, base, precision, flags);
  }

  lemma BodyLength(num: int, base: nat, precision: int, flags: Flags)
    requires 2 <= base <= 36 && IsLong(num, flags)
    ensures |Body(num, base, precision, flags)| == Max(|Digits(Magnitude(num, flags), base, flags.large)|, precision)
  {
  }

  lemma NoTimes(c: char, n: int)
    requires n <= 0
    ensures Times(c, n) == ""
  {
  }

  lemma NothingWritten(buffer: string, at: nat)
    requires at <= |buffer|
    ensures Holds(buffer, at, buffer, at, "")
  {
  }

  /** The sign and the prefix */
  method PutSign(str: array<char>, at: nat, sign: string, base: nat, flags: Flags, ghost was: string, ghost start: nat,
                 ghost out: string)
    returns (next: nat)
    requires |sign| <= 1 && Holds(str[..], at, was, start, out) && at + |sign| + |Prefix(base, flags)| <= str.Length
    modifies str
    ensures Holds(str[..], next, was, start, out + sign + Prefix(base, flags)) &&
            next == at + |sign| + |Prefix(base, flags)|
  {
    hide Holds;
    next := at;
    ghost var o := out;
    if sign != "" {
      next := Put(str, next, sign[0], was, start, o);
      o := o + [sign[0]];
    }
    assert o == out + sign;
    if flags.special {
      if base == 8 {
        next := Put(str, next, '0', was, start, o);
      } else if base == 16 {
        next := Put(str, next, '0', was, start, o);
        next := Put(str, next, Digit(33, flags.large), was, start, o + "0");
        assert o + "0" + [Digit(33, flags.large)] == o + Prefix(base, flags);
      }
    }
    assert Prefix(base, flags) == "" ==> o + Prefix(base, flags) == o;
  }

  /** The writing part of `number`, with `i` digits in `tmp` and `zeros` missing to the precision */
  method WritePieces(str: array<char>, at: nat, sign: string, base: nat, flags: Flags, width: int, zeros: int,
                     tmp: array<char>, i: nat) returns (next: nat)
    requires str != tmp && |sign| <= 1 && i <= tmp.Length
    requires at + |Pieces(sign, Prefix(base, flags), Reverse(tmp[..i]), width, zeros, flags)| <= str.Length
    modifies str
    ensures Holds(str[..], next, old(str[..]), at,
                  Pieces(sign, Prefix(base, flags), Reverse(tmp[..i]), width, zeros, flags))
  {
    hide Times, Holds, Prefix;
    ghost var was, out := str[..], "";
    ghost var digits := Reverse(tmp[..i]);
    NothingWritten(was, at);
    next := at;
    var size := width;
    if !flags.zeropad && !flags.left {
      next, size := Pad(str, next, ' ', size, was, at, out);
      out := Times(' ', width);
      assert "" + out == out;
    }
    next := PutSign(str, next, sign, base, flags, was, at, out);
    out := out + sign + Prefix(base, flags);
    ghost var p2 := if flags.zeropad && !flags.left then Times('0', width) else "";
    if !flags.left {
      if !flags.zeropad {
        NoTimes(' ', size);
      }
      next, size := Pad(str, next, if flags.zeropad then '0' else ' ', size, was, at, out);
    }
    assert p2 == "" ==> out + p2 == out;
    out := out + p2;
    var left: int;
    next, left := Pad(str, next, '0', zeros, was, at, out);
    out := out + Times('0', zeros);
    next := PutReversed(str, next, tmp, i, was, at, out);
    out := out + digits;
    if !flags.left {
      NoTimes(' ', size);
    }
    next, left := Pad(str, next, ' ', size, was, at, out);
  }

  /** `number`: `ok` is false for its NULL result. */
  method Number(str: array<char>, at: nat, num: int, base: int, width: int, digits: int, flags: Flags)
    returns (ok: bool, next: nat)
    requires IsLong(num, flags) && at <= str.Length
    requires 2 <= base <= 36 ==> at + |Printed(num, base, width, digits, flags)| <= str.Length
    modifies str
    ensures ok <==> 2 <= base <= 36
    ensures if ok then Holds(str[..], next, old(str[..]), at, Printed(num, base, width, digits, flags))
            else str[..] == old(str[..])
  {
    hide Digits, Times, Holds, Written, Printed, Padding, Body, Prefix, Magnitude, Pieces;
    if base < 2 || base > 36 {
      return false, at;
    }
    var sign, size, precision := Sign(num, flags), width, digits;
    if sign != "" {
      size := size - 1;
    }
    if flags.special {
      if base == 16 {
        size := size - 2;
      } else if base == 8 {
        size := size - 1;
      }
    }
    MagnitudeFits(num, flags);
    var tmp, i := Convert(Magnitude(num, flags), base, flags.large);
    if i > precision {
      precision := i;
    }
    size := size - precision;
    PaddingIs(num, base, width, digits, flags);
    Assemble(num, base, width, digits, flags);
    SameZeros(precision - i, digits - i);
    PiecesSame(sign, Prefix(base, flags), Digits(Magnitude(num, flags), base, flags.large), size, precision - i,
               digits - i, flags);
    next := WritePieces(str, at, sign, base, flags, size, precision - i, tmp, i);
    ok := true;
  }

  lemma SameZeros(a: int, b: int)
    requires a == b || (a <= 0 && b <= 0)
    ensures Times('0', a) == Times('0', b)
  {
  }

  lemma PiecesSame(sign: string, prefix: string, digits: string, size: int, a: int, b: int, flags: Flags)
    requires Times('0', a) == Times('0', b)
    ensures Pieces(sign, prefix, digits, size, a, flags) == Pieces(sign, prefix, digits, size, b, flags)
  {
  }

  lemma MagnitudeFits(num: int, flags: Flags)
    requires IsLong(num, flags)
    ensures Magnitude(num, flags) < UNSIGNED_LONG
  {
  }
}
