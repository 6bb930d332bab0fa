/** `vsprintf` of `core/common.c`. */
module FormatText {
  import opened NumberText

  const NUL: char := '\0'

  /** A NUL-terminated string. */
  ghost predicate Terminated(fmt: string) {
    fmt != "" && fmt[|fmt| - 1] == NUL && forall i :: 0 <= i < |fmt| - 1 ==> fmt[i] != NUL
  }

  // ----- directives

  datatype Width = NoWidth | FixedWidth(n: nat) | StarWidth
  datatype Precision = NoPrecision | ZeroPrecision | FixedPrecision(n: nat) | StarPrecision

  /** `%`, flags, width, precision, qualifier (NUL for none) and conversion. */
  datatype Directive = Directive(flags: Flags, width: Width, precision: Precision, qualifier: char, conversion: char)

  predicate IsFlag(c: char) { c == '-' || c == '+' || c == ' ' || c == '#' || c == '0' }

  function AddFlag(flags: Flags, c: char): Flags {
    if c == '-' then flags.(left := true)
    else if c == '+' then flags.(plus := true)
    else if c == ' ' then flags.(space := true)
    else if c == '#' then flags.(special := true)
    else if c == '0' then flags.(zeropad := true)
    else flags
  }

  /** The flags from position `at` on, and where they end. */
  function ParseFlags(fmt: string, at: nat, flags: Flags): (r: (Flags, nat))
    requires at <= |fmt|
    ensures at <= r.1 <= |fmt| && (r.1 < |fmt| ==> !IsFlag(fmt[r.1])) && forall i :: at <= i < r.1 ==> IsFlag(fmt[i])
    decreases |fmt| - at
  {
    if at < |fmt| && IsFlag(fmt[at]) then ParseFlags(fmt, at + 1, AddFlag(flags, fmt[at])) else (flags, at)
  }

  function ParseWidth(fmt: string, at: nat): (r: (Width, nat))
    requires at < |fmt| && !IsDigit(fmt[|fmt| - 1]) && fmt[|fmt| - 1] == NUL
    ensures at <= r.1 < |fmt| && forall i :: at <= i < r.1 ==> fmt[i] != NUL
  {
    if IsDigit(fmt[at]) then (FixedWidth(Value(fmt[at..AfterDigits(fmt, at)], 10)), AfterDigits(fmt, at))
    else if fmt[at] == '*' then (StarWidth, at + 1)
    else (NoWidth, at)
  }

  function ParsePrecision(fmt: string, at: nat): (r: (Precision, nat))
    requires at < |fmt| && !IsDigit(fmt[|fmt| - 1]) && fmt[|fmt| - 1] == NUL
    ensures at <= r.1 < |fmt| && forall i :: at <= i < r.1 ==> fmt[i] != NUL
  {
    if fmt[at] != '.' then (NoPrecision, at)
    else if IsDigit(fmt[at + 1]) then
      (FixedPrecision(Value(fmt[at + 1..AfterDigits(fmt, at + 1)], 10)), AfterDigits(fmt, at + 1))
    else if fmt[at + 1] == '*' then (StarPrecision, at + 2)
    else (ZeroPrecision, at + 1)
  }

  function ParseQualifier(fmt: string, at: nat): (r: (char, nat))
    requires at < |fmt| && fmt[|fmt| - 1] == NUL
    ensures at <= r.1 < |fmt| && forall i :: at <= i < r.1 ==> fmt[i] != NUL
  {
    if fmt[at] == 'h' || fmt[at] == 'l' || fmt[at] == 'L' then (fmt[at], at + 1) else (NUL, at)
  }

  /** The directive that starts at the `%` at position `at`, and the position of its conversion,
      which is at most that of the NUL. */
  function Parse(fmt: string, at: nat): (r: (Directive, nat))
    requires at < |fmt| && fmt[at] == '%' && fmt[|fmt| - 1] == NUL
    ensures at < r.1 < |fmt| && forall i :: at <= i < r.1 ==> fmt[i] != NUL
    ensures r.0.conversion == fmt[r.1]
  {
    var (flags, p1) := ParseFlags(fmt, at + 1, NO_FLAGS);
    var (width, p2) := ParseWidth(fmt, p1);
    var (precision, p3) := ParsePrecision(fmt, p2);
    var (qualifier, p4) := ParseQualifier(fmt, p3);
    (Directive(flags, width, precision, qualifier, fmt[p4]), p4)
  }

  // ----- every directive is read as it is written

  function ShowFlags(flags: Flags): string {
    (if flags.left then "-" else "") + (if flags.plus then "+" else "") + (if flags.space then " " else "") +
    (if flags.special then "#" else "") + (if flags.zeropad then "0" else "")
  }

  function ShowWidth(width: Width): string {
    match width
    case NoWidth => ""
    case FixedWidth(n) => Digits(n, 10, false)
    case StarWidth => "*"
  }

  function ShowPrecision(precision: Precision): string {
    match precision
    case NoPrecision => ""
    case ZeroPrecision => "."
    case FixedPrecision(n) => "." + Digits(n, 10, false)
    case StarPrecision => ".*"
  }

  function ShowQualifier(c: char): string { if c == NUL then "" else [c] }

  /** A directive in the usual order. */
  function Show(d: Directive): string {
    "%" + ShowFlags(d.flags) + ShowWidth(d.width) + ShowPrecision(d.precision) + ShowQualifier(d.qualifier) +
    [d.conversion]
  }

  /** No character with a meaning further up stands for the conversion, and a width is positive. */
  predicate Plain(d: Directive) {
    !IsFlag(d.conversion) && !IsDigit(d.conversion) && d.conversion !in {'*', '.', 'h', 'l', 'L'} &&
    d.qualifier in {NUL, 'h', 'l', 'L'} && !d.flags.sign && !d.flags.large && (d.width.FixedWidth? ==> d.width.n > 0)
  }

  function Fold(text: string, flags: Flags): Flags {
    if text == "" then flags else Fold(text[1..], AddFlag(flags, text[0]))
  }

  lemma {:induction false} FoldTwice(a: string, b: string, flags: Flags)
    ensures Fold(a + b, flags) == Fold(b, Fold(a, flags))
  {
    if a == "" {
      assert a + b == b;
    } else {
      assert (a + b)[1..] == a[1..] + b;
      FoldTwice(a[1..], b, AddFlag(flags, a[0]));
    }
  }

  lemma FoldOne(c: char, b: bool, flags: Flags)
    ensures Fold(if b then [c] else "", flags) == if b then AddFlag(flags, c) else flags
  {
    assert b ==> [c][1..] == "";
  }

  lemma FlagsFold(flags: Flags)
    requires !flags.sign && !flags.large
    ensures Fold(ShowFlags(flags), NO_FLAGS) == flags
    ensures forall i :: 0 <= i < |ShowFlags(flags)| ==> IsFlag(ShowFlags(flags)[i])
  {
    hide Fold;
    var a := if flags.left then "-" else "";
    var b := if flags.plus then "+" else "";
    var c := if flags.space then " " else "";
    var d := if flags.special then "#" else "";
    var e := if flags.zeropad then "0" else "";
    var f0 := NO_FLAGS;
    var f1 := f0.(left := flags.left);
    var f2 := f1.(plus := flags.plus);
    var f3 := f2.(space := flags.space);
    var f4 := f3.(special := flags.special);
    FoldOne('-', flags.left, f0);
    FoldOne('+', flags.plus, f1);
    FoldOne(' ', flags.space, f2);
    FoldOne('#', flags.special, f3);
    FoldOne('0', flags.zeropad, f4);
    FoldTwice(a, b, f0);
    FoldTwice(a + b, c, f0);
    FoldTwice(a + b + c, d, f0);
    FoldTwice(a + b + c + d, e, f0);
  }

  lemma {:induction false} FlagsShown(pre: string, a: string, tail: string, flags: Flags)
    requires (forall i :: 0 <= i < |a| ==> IsFlag(a[i])) && tail != "" && !IsFlag(tail[0])
    ensures ParseFlags(pre + a + tail, |pre|, flags) == (Fold(a, flags), |pre| + |a|)
    decreases |a|
  {
    var text := pre + a + tail;
    if a == "" {
      assert text[|pre|] == tail[0];
    } else {
      assert text[|pre|] == a[0] && text == (pre + [a[0]]) + a[1..] + tail;
      FlagsShown(pre + [a[0]], a[1..], tail, AddFlag(flags, a[0]));
    }
  }

  /** The digits of a number between other text are read back. */
  lemma DigitsShown(pre: string, n: nat, tail: string)
    requires tail != "" && !IsDigit(tail[0])
    ensures var text, digits := pre + Digits(n, 10, false) + tail, Digits(n, 10, false);
            digits != "" && IsDigit(digits[0]) && (n > 0 ==> digits[0] != '0') &&
            AfterDigits(text, |pre|) == |pre| + |digits| && Value(text[|pre|..|pre| + |digits|], 10) == n
  {
    hide Value, AfterDigits, Digits, DigitValue, IsDigit;
    var digits := Digits(n, 10, false);
    var text := pre + digits + tail;
    DigitsValue(n, 10, false);
    AllDecimal(n);
    NoLeadingZero(n);
    DigitsThere(pre, digits, tail);
    assert text[|pre|..|pre| + |digits|] == digits;
  }

  lemma DigitsThere(pre: string, digits: string, tail: string)
    requires tail != "" && !IsDigit(tail[0]) && forall c :: c in digits ==> IsDigit(c)
    ensures AfterDigits(pre + digits + tail, |pre|) == |pre| + |digits|
  {
    hide AfterDigits, IsDigit;
    var text := pre + digits + tail;
    assert forall i :: |pre| <= i < |pre| + |digits| ==> text[i] == digits[i - |pre|];
    assert text[|pre| + |digits|] == tail[0];
    AfterDigitsIs(text, |pre|, |pre| + |digits|);
  }

  lemma NoLeadingZero(n: nat)
    ensures Digits(n, 10, false) != "" && (n > 0 ==> Digits(n, 10, false)[0] != '0')
  {
    hide Significant;
    SignificantValue(n, 10, false);
  }

  lemma WidthShown(pre: string, width: Width, tail: string)
    requires tail != "" && !IsDigit(tail[0]) && tail[0] != '*' && tail[|tail| - 1] == NUL
    ensures ParseWidth(pre + ShowWidth(width) + tail, |pre|) == (width, |pre| + |ShowWidth(width)|)
  {
    hide Value, AfterDigits, Digits;
    var text := pre + ShowWidth(width) + tail;
    match width
    case NoWidth => assert text[|pre|] == tail[0];
    case FixedWidth(n) =>
      DigitsShown(pre, n, tail);
      assert text[|pre|] == Digits(n, 10, false)[0];
    case StarWidth => assert text[|pre|] == '*';
  }

  lemma FixedShown(pre: string, n: nat, tail: string)
    requires tail != "" && !IsDigit(tail[0]) && tail[|tail| - 1] == NUL
    ensures var s := "." + Digits(n, 10, false);
            ParsePrecision(pre + s + tail, |pre|) == (FixedPrecision(n), |pre| + |s|)
  {
    hide Value, AfterDigits, Digits;
    var digits := Digits(n, 10, false);
    DigitsShown(pre + ".", n, tail);
    assert pre + ("." + digits) + tail == pre + "." + digits + tail;
    assert (pre + "." + digits + tail)[|pre|] == '.' && (pre + "." + digits + tail)[|pre| + 1] == digits[0];
  }

  lemma PrecisionShown(pre: string, precision: Precision, tail: string)
    requires tail != "" && !IsDigit(tail[0]) && tail[0] != '*' && tail[0] != '.' && tail[|tail| - 1] == NUL
    ensures ParsePrecision(pre + ShowPrecision(precision) + tail, |pre|) ==
              (precision, |pre| + |ShowPrecision(precision)|)
  {
    hide Value, AfterDigits, Digits;
    var text := pre + ShowPrecision(precision) + tail;
    match precision
    case NoPrecision => assert text[|pre|] == tail[0];
    case ZeroPrecision => assert text[|pre|] == '.' && text[|pre| + 1] == tail[0];
    case FixedPrecision(n) => FixedShown(pre, n, tail);
    case StarPrecision => assert text[|pre|] == '.' && text[|pre| + 1] == '*';
  }

  /** A directive written in the usual order is read as what it says, wherever it stands. */
  lemma ParseShow(pre: string, d: Directive, rest: string)
    requires Plain(d) && rest != "" && rest[|rest| - 1] == NUL
    ensures var text := pre + Show(d) + rest;
            text[|pre|] == '%' && text[|text| - 1] == NUL && Parse(text, |pre|) == (d, |pre| + |Show(d)| - 1)
  {
    hide ParseFlags, ParseWidth, ParsePrecision, ShowFlags, ShowWidth, ShowPrecision, Fold, Digits;
    var f, w, p, q := ShowFlags(d.flags), ShowWidth(d.width), ShowPrecision(d.precision), ShowQualifier(d.qualifier);
    var text, end, start := pre + Show(d) + rest, [d.conversion] + rest, pre + "%";
    FlagsFold(d.flags);
    AfterFlags(d, rest);
    FlagsShown(start, f, w + p + q + end, NO_FLAGS);
    WidthShown(start + f, d.width, p + q + end);
    PrecisionShown(start + f + w, d.precision, q + end);
    assert text == start + f + w + p + q + end;
    Regrouped(start, f, w, p, q, end);
    var k := |start + f + w + p|;
    assert text[k] == (q + end)[0] && text[k + |q|] == d.conversion;
  }

  lemma Regrouped(start: string, f: string, w: string, p: string, q: string, end: string)
    ensures var text := start + f + w + p + q + end;
            text == start + f + (w + p + q + end) && text == (start + f) + w + (p + q + end) &&
            text == (start + f + w) + p + (q + end)
  {
  }

  /** What can follow each part of a directive. */
  lemma AfterFlags(d: Directive, rest: string)
    requires Plain(d) && rest != "" && rest[|rest| - 1] == NUL
    ensures var w, p := ShowWidth(d.width), ShowPrecision(d.precision);
            var q, end := ShowQualifier(d.qualifier), [d.conversion] + rest;
            !IsFlag((w + p + q + end)[0]) && !IsDigit((p + q + end)[0]) && (p + q + end)[0] != '*' &&
            !IsDigit((q + end)[0]) && (q + end)[0] != '*' && (q + end)[0] != '.' && end[|end| - 1] == NUL &&
            (p + q + end)[|p + q + end| - 1] == NUL && (q + end)[|q + end| - 1] == NUL
  {
    hide Digits;
    if d.width.FixedWidth? {
      DigitsShown("", d.width.n, " ");
    }
  }

  // ----- what a directive prints

  /** An argument: an `int` or `long`, a string with its NUL, a NULL string, a pointer that is to be
      printed, or one to an `int` or `long` that is to be written. */
  datatype Arg = IntArg(v: int) | StrArg(text: string) | NullArg | PtrArg(address: nat) | OutArg

  const INTS: set<char> := {'c', 'o', 'x', 'X', 'd', 'i', 'u'}

  /** The conversions that take an argument. */
  const TAKING: set<char> := INTS + {'s', 'p', 'n'}

  function One(b: bool): nat { if b then 1 else 0 }

  /** The number of arguments the directive takes. */
  function Takes(d: Directive): nat {
    One(d.width.StarWidth?) + One(d.precision.StarPrecision?) + One(d.conversion in TAKING)
  }

  ghost predicate IsString(arg: Arg) {
    arg.StrArg? && Terminated(arg.text) && |arg.text| < UNSIGNED_LONG
  }

  /** Written widths and precisions are `int`s. */
  ghost predicate Sane(d: Directive) {
    (d.width.FixedWidth? ==> d.width.n < 0x8000_0000) && (d.precision.FixedPrecision? ==> d.precision.n < 0x8000_0000)
  }

  /** The directive can be printed with the arguments that are left: they are there and of its types. */
  ghost predicate Suits(d: Directive, args: seq<Arg>) {
    Takes(d) <= |args| && Sane(d) &&
    (forall i :: 0 <= i < One(d.width.StarWidth?) + One(d.precision.StarPrecision?) ==> args[i].IntArg?) &&
    (d.conversion in INTS ==> args[Takes(d) - 1].IntArg?) &&
    (d.conversion == 's' ==> args[Takes(d) - 1].NullArg? || IsString(args[Takes(d) - 1])) &&
    (d.conversion == 'p' ==> args[Takes(d) - 1].PtrArg? && args[Takes(d) - 1].address < UNSIGNED_LONG) &&
    (d.conversion == 'n' ==> args[Takes(d) - 1].OutArg?) &&
    (d.conversion in {'d', 'i'} && d.qualifier == 'l' ==> args[Takes(d) - 1].v % UNSIGNED_LONG != LONG_MAX + 1)
  }

  /** A pointer without a width is printed in full. */
  function WidthOf(d: Directive, args: seq<Arg>): int
    requires d.width.StarWidth? ==> args != [] && args[0].IntArg?
  {
    match d.width
    case NoWidth => if d.conversion == 'p' then 16 else -1
    case FixedWidth(n) => n
    case StarWidth => if args[0].v < 0 then -args[0].v else args[0].v
  }

  function FlagsOf(d: Directive, args: seq<Arg>): Flags
    requires d.width.StarWidth? ==> args != [] && args[0].IntArg?
  {
    d.flags.(left := d.flags.left || (d.width.StarWidth? && args[0].v < 0),
             zeropad := d.flags.zeropad || (d.width.NoWidth? && d.conversion == 'p'),
             sign := d.conversion == 'd' || d.conversion == 'i', large := d.conversion == 'X')
  }

  function PrecisionOf(d: Directive, args: seq<Arg>): int
    requires d.precision.StarPrecision? ==> One(d.width.StarWidth?) < |args| && args[One(d.width.StarWidth?)].IntArg?
  {
    match d.precision
    case NoPrecision => -1
    case ZeroPrecision => 0
    case FixedPrecision(n) => n
    case StarPrecision => Max(args[One(d.width.StarWidth?)].v, 0)
  }

  /** `v` stored in a type of `range` values. */
  function Stored(v: int, range: nat, signed: bool): int
    requires range > 0
  {
    if signed && v % range >= range / 2 then v % range - range else v % range
  }

  /** The `long` that `number` gets. */
  function Argument(v: int, qualifier: char, signed: bool): int {
    if qualifier == 'l' then Stored(v, UNSIGNED_LONG, true)
    else if qualifier == 'h' then Stored(v, 0x1_0000, signed)
    else Stored(v, 0x1_0000_0000, signed)
  }

  lemma ArgumentIsLong(d: Directive, args: seq<Arg>)
    requires Suits(d, args) && d.conversion in INTS
    ensures IsLong(Argument(args[Takes(d) - 1].v, d.qualifier, FlagsOf(d, args).sign), FlagsOf(d, args))
  {
  }

  function Base(conversion: char): nat {
    if conversion == 'o' then 8 else if conversion == 'x' || conversion == 'X' then 16 else 10
  }

  /** `text` padded with spaces to `width`, on the right when `left`. */
  function Padded(text: string, width: int, left: bool): string {
    if left then text + Times(' ', width - |text|) else Times(' ', width - |text|) + text
  }

  /** At most `precision` characters of a string, all of it when there is no precision. */
  function Cut(arg: Arg, precision: int): string
    requires arg.StrArg? ==> Terminated(arg.text)
  {
    var text := if arg.StrArg? then arg.text[..|arg.text| - 1] else "<NULL>";
    if 0 <= precision < |text| then text[..precision] else text
  }

  /** What `n` stores when `len` characters have been written. */
  function Count(d: Directive, len: nat): int {
    if d.qualifier == 'l' then Stored(len, UNSIGNED_LONG, true) else Stored(len, 0x1_0000_0000, true)
  }

  function Rendered(d: Directive, args: seq<Arg>): string
    requires Suits(d, args)
  {
    var flags, width, precision := FlagsOf(d, args), WidthOf(d, args), PrecisionOf(d, args);
    if d.conversion == 'c' then Padded([Stored(args[Takes(d) - 1].v, 0x100, false) as char], width, flags.left)
    else if d.conversion == 's' then Padded(Cut(args[Takes(d) - 1], precision), width, flags.left)
    else if d.conversion == 'p' then Printed(Stored(args[Takes(d) - 1].address, UNSIGNED_LONG, true), 16, width,
                                             precision, flags)
    else if d.conversion == 'n' then ""
    else if d.conversion == '%' then "%"
    else if d.conversion in INTS then
      ArgumentIsLong(d, args);
      Printed(Argument(args[Takes(d) - 1].v, d.qualifier, flags.sign), Base(d.conversion), width, precision, flags)
    else if d.conversion == NUL then "%"
    else "%" + [d.conversion]
  }

  /** All directives from position `at` on suit the arguments that are left. */
  ghost predicate AllSuit(fmt: string, at: nat, args: seq<Arg>)
    requires at < |fmt| && fmt[|fmt| - 1] == NUL
    decreases |fmt| - at
  {
    if at == |fmt| - 1 then true
    else if fmt[at] != '%' then AllSuit(fmt, at + 1, args)
    else
      var (d, p) := Parse(fmt, at);
      Suits(d, args) && (fmt[p] != NUL ==> AllSuit(fmt, p + 1, args[Takes(d)..]))
  }

  /** The text the format stands for: a directive that the NUL cuts short prints a `%`. */
  ghost function Formatted(fmt: string, at: nat, args: seq<Arg>): string
    requires at < |fmt| && Terminated(fmt) && AllSuit(fmt, at, args)
    decreases |fmt| - at
  {
    if at == |fmt| - 1 then ""
    else if fmt[at] != '%' then [fmt[at]] + Formatted(fmt, at + 1, args)
    else
      var (d, p) := Parse(fmt, at);
      Rendered(d, args) + if fmt[p] == NUL then "" else Formatted(fmt, p + 1, args[Takes(d)..])
  }

  /** What its `n` conversions store, in order, when `len` characters have been written before. */
  ghost function Counts(fmt: string, at: nat, args: seq<Arg>, len: nat): seq<int>
    requires at < |fmt| && Terminated(fmt) && AllSuit(fmt, at, args)
    decreases |fmt| - at
  {
    if at == |fmt| - 1 then []
    else if fmt[at] != '%' then Counts(fmt, at + 1, args, len + 1)
    else
      var (d, p) := Parse(fmt, at);
      (if d.conversion == 'n' then [Count(d, len)] else []) +
      if fmt[p] == NUL then [] else Counts(fmt, p + 1, args[Takes(d)..], len + |Rendered(d, args)|)
  }

  /** A format that is one directive in the usual order prints what the directive says. */
  lemma ShownIsRendered(d: Directive, args: seq<Arg>)
    requires Plain(d) && d.conversion != NUL && Suits(d, args)
    ensures var fmt := Show(d) + [NUL];
            Terminated(fmt) && AllSuit(fmt, 0, args) && Formatted(fmt, 0, args) == Rendered(d, args) &&
            Counts(fmt, 0, args, 0) == if d.conversion == 'n' then [0] else []
  {
    hide Suits, Rendered, Parse, Show;
    var fmt := Show(d) + [NUL];
    SuitsTakes(d, args);
    ParseShow("", d, [NUL]);
    assert "" + Show(d) + [NUL] == fmt;
    ShowStarts(d);
    var p := |Show(d)| - 1;
    assert forall i :: 0 <= i <= p ==> fmt[i] != NUL;
    assert Formatted(fmt, p + 1, args[Takes(d)..]) == "";
    assert Rendered(d, args) + "" == Rendered(d, args);
  }

  lemma ShowStarts(d: Directive)
    ensures Show(d) != "" && (Show(d) + [NUL])[0] == '%' && Show(d)[|Show(d)| - 1] == d.conversion
  {
  }

  // ----- the code

  /** `strnlen` */
  method Strnlen(s: string, count: nat) returns (n: nat)
    requires Terminated(s)
    ensures n == if count < |s| - 1 then count else |s| - 1
  {
    n := 0;
    var left := count;
    while left > 0 && s[n] != NUL
      invariant 0 <= n < |s| && n + left == count
    {
      left := left - 1;
      n := n + 1;
    }
  }

  method ReadWidth(fmt: string, at: nat) returns (width: Width, p: nat)
    requires at < |fmt| && fmt[|fmt| - 1] == NUL &&
             (ParseWidth(fmt, at).0.FixedWidth? ==> ParseWidth(fmt, at).0.n < 0x8000_0000)
    ensures (width, p) == ParseWidth(fmt, at)
  {
    hide Value, AfterDigits;
    if IsDigit(fmt[at]) {
      var n;
      n, p := SkipAtoi(fmt, at);
      width := FixedWidth(n);
    } else if fmt[at] == '*' {
      width, p := StarWidth, at + 1;
    } else {
      width, p := NoWidth, at;
    }
  }

  method ReadPrecision(fmt: string, at: nat) returns (precision: Precision, p: nat)
    requires at < |fmt| && fmt[|fmt| - 1] == NUL
    requires ParsePrecision(fmt, at).0.FixedPrecision? ==> ParsePrecision(fmt, at).0.n < 0x8000_0000
    ensures (precision, p) == ParsePrecision(fmt, at)
  {
    hide Value, AfterDigits;
    precision, p := NoPrecision, at;
    if fmt[p] == '.' {
      p := p + 1;
      precision := ZeroPrecision;
      if IsDigit(fmt[p]) {
        var n;
        n, p := SkipAtoi(fmt, p);
        precision := FixedPrecision(n);
      } else if fmt[p] == '*' {
        p := p + 1;
        precision := StarPrecision;
      }
    }
  }

  /** The directive at `at`, read the way `vsprintf` does. */
  method ReadDirective(fmt: string, at: nat) returns (d: Directive, p: nat)
    requires at < |fmt| && fmt[at] == '%' && fmt[|fmt| - 1] == NUL
    requires Sane(Parse(fmt, at).0)
    ensures (d, p) == Parse(fmt, at)
  {
    hide Value, AfterDigits, ParseWidth, ParsePrecision;
    var flags := NO_FLAGS;
    p := at + 1;
    while IsFlag(fmt[p])
      invariant at < p < |fmt| && ParseFlags(fmt, p, flags) == ParseFlags(fmt, at + 1, NO_FLAGS)
      decreases |fmt| - p
    {
      flags, p := AddFlag(flags, fmt[p]), p + 1;
    }
    var width, precision;
    width, p := ReadWidth(fmt, p);
    precision, p := ReadPrecision(fmt, p);
    var qualifier := NUL;
    if fmt[p] == 'h' || fmt[p] == 'l' || fmt[p] == 'L' {
      qualifier := fmt[p];
      p := p + 1;
    }
    d := Directive(flags, width, precision, qualifier, fmt[p]);
  }

  /** A text and its padding: `while (len < field_width--)` before or after it. */
  method PutPadded(buf: array<char>, at: nat, text: string, width: int, left: bool, ghost was: string, ghost start: nat,
                   ghost out: string)
    returns (next: nat)
    requires Holds(buf[..], at, was, start, out) && at + |Padded(text, width, left)| <= buf.Length
    modifies buf
    ensures next == at + |Padded(text, width, left)| &&
            Holds(buf[..], next, was, start, out + Padded(text, width, left))
  {
    hide Holds, Times;
    next := at;
    var size := width - |text|;
    ghost var o := out;
    if !left {
      next, size := Pad(buf, next, ' ', size, was, start, o);
      o := o + Times(' ', width - |text|);
    }
    next := PutText(buf, next, text, was, start, o);
    o := o + text;
    if !left {
      NoTimes(' ', size);
    }
    next, size := Pad(buf, next, ' ', size, was, start, o);
    assert left ==> out + text + Times(' ', width - |text|) == out + Padded(text, width, left);
    assert !left ==> out + Times(' ', width - |text|) + text + "" == out + Padded(text, width, left);
  }

  method PutText(buf: array<char>, at: nat, text: string, ghost was: string, ghost start: nat, ghost out: string)
    returns (next: nat)
    requires Holds(buf[..], at, was, start, out) && at + |text| <= buf.Length
    modifies buf
    ensures next == at + |text| && Holds(buf[..], next, was, start, out + text)
  {
    hide Holds;
    next := at;
    var i := 0;
    assert out + text[..0] == out;
    while i < |text|
      invariant 0 <= i <= |text| && next == at + i && Holds(buf[..], next, was, start, out + text[..i])
    {
      next := Put(buf, next, text[i], was, start, out + text[..i]);
      assert out + text[..i] + [text[i]] == out + text[..i + 1];
      i := i + 1;
    }
    assert text[..|text|] == text;
  }

  lemma HoldsBoth(buf: string, mid: string, at: nat, next: nat, was: string, start: nat, out: string, more: string)
    requires Holds(mid, at, was, start, out) && Holds(buf, next, mid, at, more)
    ensures Holds(buf, next, was, start, out + more)
  {
    WrittenTwice(was, start, out, more);
  }

  lemma HoldsNext(buf: string, mid: string, at: nat, next: nat, more: string)
    requires Holds(buf, next, mid, at, more)
    ensures next == at + |more|
  {
  }

  /** `number` behind what is written already */
  method PutNumber(buf: array<char>, at: nat, num: int, base: nat, width: int, precision: int, flags: Flags,
                   ghost was: string, ghost out: string) returns (next: nat)
    requires 2 <= base <= 36 && IsLong(num, flags) && Holds(buf[..], at, was, 0, out)
    requires at + |Printed(num, base, width, precision, flags)| <= buf.Length
    modifies buf
    ensures next == at + |Printed(num, base, width, precision, flags)|
    ensures Holds(buf[..], next, was, 0, out + Printed(num, base, width, precision, flags))
  {
    hide Holds, Printed;
    ghost var mid := buf[..];
    AtFits(mid, at, was, out);
    var ok;
    ok, next := Number(buf, at, num, base, width, precision, flags);
    HoldsNext(buf[..], mid, at, next, Printed(num, base, width, precision, flags));
    HoldsBoth(buf[..], mid, at, next, was, 0, out, Printed(num, base, width, precision, flags));
  }

  /** One directive, with the arguments it takes; `stored` is what it writes through an `n`. */
  method PutDirective(buf: array<char>, at: nat, d: Directive, args: seq<Arg>, ghost was: string, ghost out: string)
    returns (next: nat, stored: seq<int>)
    requires Suits(d, args) && Holds(buf[..], at, was, 0, out) && at + |Rendered(d, args)| <= buf.Length
    modifies buf
    ensures next == at + |Rendered(d, args)| && Holds(buf[..], next, was, 0, out + Rendered(d, args))
    ensures stored == if d.conversion == 'n' then [Count(d, at)] else []
  {
    hide Holds, Padded, Printed;
    stored := [];
    var flags, width, precision := FlagsOf(d, args), WidthOf(d, args), PrecisionOf(d, args);
    if d.conversion == 'c' {
      next := PutPadded(buf, at, [Stored(args[Takes(d) - 1].v, 0x100, false) as char], width, flags.left, was, 0, out);
    } else if d.conversion == 's' {
      var text := if args[Takes(d) - 1].StrArg? then args[Takes(d) - 1].text else "<NULL>" + [NUL];
      assert Terminated(text);
      var len := Strnlen(text, if precision < 0 then UNSIGNED_LONG - 1 else precision);
      assert text[..len] == Cut(args[Takes(d) - 1], precision);
      next := PutPadded(buf, at, text[..len], width, flags.left, was, 0, out);
    } else if d.conversion == 'p' {
      next := PutNumber(buf, at, Stored(args[Takes(d) - 1].address, UNSIGNED_LONG, true), 16, width, precision, flags,
                        was, out);
    } else if d.conversion == 'n' {
      next, stored := at, [Count(d, at)];
      assert out + "" == out;
    } else if d.conversion == '%' {
      next := Put(buf, at, '%', was, 0, out);
    } else if d.conversion in INTS {
      ArgumentIsLong(d, args);
      next := PutNumber(buf, at, Argument(args[Takes(d) - 1].v, d.qualifier, flags.sign), Base(d.conversion), width,
                        precision, flags, was, out);
    } else {
      next := Put(buf, at, '%', was, 0, out);
      if d.conversion != NUL {
        next := Put(buf, next, d.conversion, was, 0, out + "%");
        assert out + "%" + [d.conversion] == out + ("%" + [d.conversion]);
      }
    }
  }

  lemma AtFits(buf: string, at: nat, was: string, out: string)
    requires Holds(buf, at, was, 0, out)
    ensures at <= |buf|
  {
  }

  lemma OneCharacter(fmt: string, at: nat, args: seq<Arg>)
    requires at < |fmt| && Terminated(fmt) && AllSuit(fmt, at, args) && fmt[at] != NUL && fmt[at] != '%'
    ensures AllSuit(fmt, at + 1, args) && Formatted(fmt, at, args) == [fmt[at]] + Formatted(fmt, at + 1, args)
    ensures forall len: nat :: Counts(fmt, at, args, len) == Counts(fmt, at + 1, args, len + 1)
  {
  }

  /** Where `vsprintf` goes on behind a directive. */
  function Behind(fmt: string, p: nat): nat
    requires p < |fmt|
  {
    if fmt[p] == NUL then p else p + 1
  }

  lemma OneDirective(fmt: string, at: nat, args: seq<Arg>)
    requires at < |fmt| && Terminated(fmt) && AllSuit(fmt, at, args) && fmt[at] == '%'
    ensures var (d, p) := Parse(fmt, at);
            Suits(d, args) && Takes(d) <= |args| && Sane(d) && Behind(fmt, p) < |fmt| &&
            AllSuit(fmt, Behind(fmt, p), args[Takes(d)..]) &&
            Formatted(fmt, at, args) == Rendered(d, args) + Formatted(fmt, Behind(fmt, p), args[Takes(d)..])
  {
    hide Rendered, Parse, Suits;
    SuitsTakes(Parse(fmt, at).0, args);
  }

  lemma OneCount(fmt: string, at: nat, args: seq<Arg>, len: nat)
    requires at < |fmt| && Terminated(fmt) && AllSuit(fmt, at, args) && fmt[at] == '%'
    ensures var (d, p) := Parse(fmt, at);
            Suits(d, args) && Takes(d) <= |args| && Behind(fmt, p) < |fmt| &&
            AllSuit(fmt, Behind(fmt, p), args[Takes(d)..]) &&
            Counts(fmt, at, args, len) == (if d.conversion == 'n' then [Count(d, len)] else []) +
              Counts(fmt, Behind(fmt, p), args[Takes(d)..], len + |Rendered(d, args)|)
  {
    hide Rendered, Parse, Suits, Count;
    SuitsTakes(Parse(fmt, at).0, args);
  }

  /** `vsprintf`: it ends on every NUL-terminated format, reads no character behind the NUL, and
      writes the text the format stands for, a NUL, and nothing else; `stored` is what it writes
      through the pointers of its `n` conversions, in their order. */
  method Vsprintf(buf: array<char>, fmt: string, args: seq<Arg>) returns (len: nat, stored: seq<int>)
    requires Terminated(fmt) && AllSuit(fmt, 0, args) && |Formatted(fmt, 0, args)| < buf.Length
    modifies buf
    ensures len == |Formatted(fmt, 0, args)| && stored == Counts(fmt, 0, args, 0)
    ensures buf[..] == Written(old(buf[..]), 0, Formatted(fmt, 0, args) + [NUL])
  {
    hide Holds, Rendered, Suits, Parse, Formatted, Counts, Count, AllSuit, Written, Takes;
    ghost var was, out, whole := buf[..], "", Formatted(fmt, 0, args);
    ghost var all := Counts(fmt, 0, args, 0);
    NothingWritten(was, 0);
    len, stored := 0, [];
    var pos, k := 0, 0;
    while fmt[pos] != NUL
      invariant 0 <= pos < |fmt| && 0 <= k <= |args| && AllSuit(fmt, pos, args[k..])
      invariant out + Formatted(fmt, pos, args[k..]) == whole && len == |out|
      invariant stored + Counts(fmt, pos, args[k..], len) == all
      invariant Holds(buf[..], len, was, 0, out)
      decreases |fmt| - pos
    {
      if fmt[pos] != '%' {
        OneCharacter(fmt, pos, args[k..]);
        len := Put(buf, len, fmt[pos], was, 0, out);
        out := out + [fmt[pos]];
        pos := pos + 1;
      } else {
        OneDirective(fmt, pos, args[k..]);
        OneCount(fmt, pos, args[k..], len);
        var d, p := ReadDirective(fmt, pos);
        var more;
        len, more := PutDirective(buf, len, d, args[k..], was, out);
        out, stored := out + Rendered(d, args[k..]), stored + more;
        assert args[k..][Takes(d)..] == args[k + Takes(d)..];
        k := k + Takes(d);
        if fmt[p] == NUL {
          p := p - 1;
        }
        pos := p + 1;
      }
    }
    NothingLeft(fmt, pos, args[k..]);
    assert out == whole by { assert out + "" == out; }
    assert stored == all by { assert stored + [] == stored; }
    len := Put(buf, len, NUL, was, 0, out);
    WrittenThere(buf[..], len, was, out + [NUL]);
    len := len - 1;
  }

  lemma NothingLeft(fmt: string, at: nat, args: seq<Arg>)
    requires at < |fmt| && Terminated(fmt) && AllSuit(fmt, at, args) && fmt[at] == NUL
    ensures Formatted(fmt, at, args) == "" && forall len: nat :: Counts(fmt, at, args, len) == []
  {
  }

  lemma WrittenThere(buf: string, at: nat, was: string, out: string)
    requires Holds(buf, at, was, 0, out)
    ensures |out| <= |was| && buf == Written(was, 0, out)
  {
  }

  lemma SuitsTakes(d: Directive, args: seq<Arg>)
    requires Suits(d, args)
    ensures Takes(d) <= |args| && Sane(d)
  {
  }
}
