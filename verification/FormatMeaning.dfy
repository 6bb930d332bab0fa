/** What a reader finds in the text `vsprintf` writes for one directive. */
module FormatMeaning {
  import opened NumberText
  import opened NumberMeaning
  import opened FormatText

  /** `w` is `v` as a type of `range` values has it. */
  predicate InType(w: int, v: int, range: nat, signed: bool)
    requires range > 0
  {
    w % range == v % range && if signed then -(range as int) <= 2 * w < range else 0 <= w < range
  }

  /** How many values the argument's type has: `short`, `int` or `long`. */
  function Range(qualifier: char): (range: nat)
    ensures range > 0
  {
    if qualifier == 'h' then 0x1_0000 else if qualifier == 'l' then 0x1_0000_0000_0000_0000 else 0x1_0000_0000
  }

  lemma StoredIn(v: int, qualifier: char, signed: bool)
    ensures InType(Stored(v, Range(qualifier), signed), v, Range(qualifier), signed)
  {
  }

  /** How many arguments stand before the one that is converted. */
  function Stars(d: Directive): nat {
    (if d.width.StarWidth? then 1 else 0) + if d.precision.StarPrecision? then 1 else 0
  }

  /** The argument that is converted, of a type of numbers. */
  ghost function Converted(d: Directive, args: seq<Arg>): int
    requires Suits(d, args) && d.conversion in {'c', 'd', 'i', 'u', 'o', 'x', 'X'}
  {
    args[Stars(d)].v
  }

  // ----- numbers

  /** The number that the directive prints, from the last argument it takes. */
  lemma ArgumentMeans(d: Directive, args: seq<Arg>)
    requires Suits(d, args) && d.conversion in {'d', 'i', 'u', 'o', 'x', 'X'}
    ensures var signed := d.conversion == 'd' || d.conversion == 'i';
            var num := Argument(Converted(d, args), d.qualifier, FlagsOf(d, args).sign);
            IsLong(num, FlagsOf(d, args)) && FlagsOf(d, args).sign == signed &&
            InType(if num >= 0 || signed then num else num + 0x1_0000_0000_0000_0000, Converted(d, args),
                   Range(d.qualifier), signed)
  {
    var v := Converted(d, args);
    ArgumentIsLong(d, args);
    hide InType;
    StoredIn(v, d.qualifier, true);
    StoredIn(v, d.qualifier, false);
    UnsignedLong(v);
  }

  lemma UnsignedLong(v: int)
    ensures var w := Stored(v, 0x1_0000_0000_0000_0000, true);
            Stored(v, 0x1_0000_0000_0000_0000, false) == if w >= 0 then w else w + 0x1_0000_0000_0000_0000
  {
  }

  /** The width that is asked for, by the format or by an argument; 0 when none is. */
  ghost predicate AsksWidth(d: Directive, args: seq<Arg>, width: nat)
    requires Suits(d, args)
  {
    match d.width
    case NoWidth => width == 0
    case FixedWidth(n) => width == n
    case StarWidth => width == args[0].v || (args[0].v < 0 && width == -args[0].v)
  }

  /** The text is to stand on the left: the flag says so, or a negative width among the arguments. */
  ghost predicate AsksLeft(d: Directive, args: seq<Arg>)
    requires Suits(d, args)
  {
    d.flags.left || (d.width.StarWidth? && args[0].v < 0)
  }

  /** The precision that is asked for; a negative one among the arguments counts as 0. */
  ghost predicate AsksPrecision(d: Directive, args: seq<Arg>, precision: nat)
    requires Suits(d, args)
  {
    match d.precision
    case NoPrecision => precision == 0
    case ZeroPrecision => precision == 0
    case FixedPrecision(n) => precision == n
    case StarPrecision =>
      var v := args[if d.width.StarWidth? then 1 else 0].v;
      precision == v || (v < 0 && precision == 0)
  }

  /** What the format of this one directive prints is `text`. */
  ghost predicate Prints(d: Directive, args: seq<Arg>, text: string) {
    var fmt := Show(d) + [NUL];
    Terminated(fmt) && AllSuit(fmt, 0, args) && Formatted(fmt, 0, args) == text
  }

  lemma RenderedPrints(d: Directive, args: seq<Arg>)
    requires Plain(d) && d.conversion != NUL && Suits(d, args)
    ensures Prints(d, args, Rendered(d, args))
  {
    hide Show, Plain, Suits, Formatted, AllSuit, Rendered;
    ShownIsRendered(d, args);
  }

  /** The parts are those of the number `w`: decimal for `d`, `i` and `u`, octal for `o`, hexadecimal for
      `x` and `X`, with the sign and prefix the flags ask for. */
  predicate IsNumber(d: Directive, p: Parts, w: int) {
    var base := if d.conversion == 'o' then 8 else if d.conversion in {'x', 'X'} then 16 else 10;
    Reading(Text(p), base) == w && Writes(p.digits, if w < 0 then -w else w, base, d.conversion == 'X') &&
    IsPrefix(p.prefix, base, d.flags.(large := d.conversion == 'X')) &&
    IsSign(p.sign, w, d.flags.(sign := d.conversion in {'d', 'i'}))
  }

  /** A format of one number conversion prints the argument as its type has it, with the sign, prefix
      and padding the flags, width and precision ask for. */
  lemma NumberPrinted(d: Directive, args: seq<Arg>) returns (p: Parts, w: int, width: nat, precision: nat)
    requires Plain(d) && Suits(d, args) && d.conversion in {'d', 'i', 'u', 'o', 'x', 'X'}
    ensures Prints(d, args, Text(p)) && IsNumber(d, p, w)
    ensures InType(w, Converted(d, args), Range(d.qualifier), d.conversion in {'d', 'i'})
    ensures AsksWidth(d, args, width) && AsksPrecision(d, args, precision)
    ensures LaidOut(p, width, precision, AsksLeft(d, args), d.flags.zeropad)
  {
    hide Prints, Rendered, Plain, Text, InType, Argument, IsNumber, LaidOut, AsksWidth, AsksPrecision, AsksLeft,
         Printed, Reading, Writes, IsSign, IsPrefix, FlagsOf;
    RenderedPrints(d, args);
    RenderedIs(d, args);
    ArgumentMeans(d, args);
    var num, base := Argument(Converted(d, args), d.qualifier, d.conversion in {'d', 'i'}), BaseOf(d);
    p := PrintedLayout(num, base, WidthOf(d, args), PrecisionOf(d, args), FlagsOf(d, args));
    w := if num >= 0 || d.conversion in {'d', 'i'} then num else num + 0x1_0000_0000_0000_0000;
    ReadsBack(num, base, WidthOf(d, args), PrecisionOf(d, args), FlagsOf(d, args));
    NumberIs(d, args, p, num, w);
    width, precision := Asked(d, args, p);
  }

  function BaseOf(d: Directive): nat {
    if d.conversion == 'o' then 8 else if d.conversion in {'x', 'X'} then 16 else 10
  }

  lemma RenderedIs(d: Directive, args: seq<Arg>)
    requires Plain(d) && Suits(d, args) && d.conversion in {'d', 'i', 'u', 'o', 'x', 'X'}
    ensures var num := Argument(Converted(d, args), d.qualifier, d.conversion in {'d', 'i'});
            IsLong(num, FlagsOf(d, args)) && FlagsOf(d, args).sign == (d.conversion in {'d', 'i'}) &&
            Rendered(d, args) == Printed(num, BaseOf(d), WidthOf(d, args), PrecisionOf(d, args), FlagsOf(d, args))
  {
    hide Argument, Printed;
    ArgumentIsLong(d, args);
  }

  lemma NumberIs(d: Directive, args: seq<Arg>, p: Parts, num: int, w: int)
    requires Plain(d) && Suits(d, args) && d.conversion in {'d', 'i', 'u', 'o', 'x', 'X'}
    requires IsLong(num, FlagsOf(d, args)) && Reading(Text(p), BaseOf(d)) == w
    requires w == if num >= 0 || d.conversion in {'d', 'i'} then num else num + 0x1_0000_0000_0000_0000
    requires Writes(p.digits, Absolute(num, d.conversion in {'d', 'i'}), BaseOf(d), FlagsOf(d, args).large)
    requires IsSign(p.sign, num, FlagsOf(d, args)) && IsPrefix(p.prefix, BaseOf(d), FlagsOf(d, args))
    ensures IsNumber(d, p, w)
  {
    hide Writes, Reading, Text, Suits;
  }

  /** The width and precision `number` gets are those asked for, or less than nothing. */
  lemma Asked(d: Directive, args: seq<Arg>, p: Parts) returns (width: nat, precision: nat)
    requires Suits(d, args) && d.conversion in {'d', 'i', 'u', 'o', 'x', 'X'}
    requires LaidOut(p, WidthOf(d, args), PrecisionOf(d, args), FlagsOf(d, args).left, FlagsOf(d, args).zeropad)
    ensures AsksWidth(d, args, width) && AsksPrecision(d, args, precision)
    ensures LaidOut(p, width, precision, AsksLeft(d, args), d.flags.zeropad)
  {
    hide Text;
    width, precision := Max(0, WidthOf(d, args)), Max(0, PrecisionOf(d, args));
  }

  // ----- everything else

  /** `text` stands in `out` as padding asks for: behind spaces, or before them when `left`. */
  predicate Stands(out: string, text: string, width: nat, left: bool) {
    |out| == Max(width, |text|) &&
    if left then text <= out && (forall i :: |text| <= i < |out| ==> out[i] == ' ')
    else out[|out| - |text|..] == text && forall i :: 0 <= i < |out| - |text| ==> out[i] == ' '
  }

  lemma PaddedStands(text: string, width: int, left: bool)
    ensures Stands(Padded(text, width, left), text, Max(0, width), left)
  {
    var out := Padded(text, width, left);
    if !left {
      assert out[|out| - |text|..] == text;
    }
  }

  /** `c` prints the character of the argument as an `unsigned char`; neither precision nor `0` count. */
  lemma CharacterPrinted(d: Directive, args: seq<Arg>) returns (c: nat, width: nat)
    requires Plain(d) && Suits(d, args) && d.conversion == 'c'
    ensures c < 0x100 && c % 0x100 == Converted(d, args) % 0x100 && AsksWidth(d, args, width)
    ensures exists out :: Prints(d, args, out) && Stands(out, [c as char], width, AsksLeft(d, args))
  {
    hide Plain, Prints, Padded, Stands;
    RenderedPrints(d, args);
    c, width := Converted(d, args) % 0x100, Max(0, WidthOf(d, args));
    PaddedStands([c as char], WidthOf(d, args), FlagsOf(d, args).left);
  }

  /** `text` is the string without its NUL, or the first `precision` characters of it. */
  predicate IsCut(text: string, arg: Arg, bounded: bool, precision: nat) {
    var whole := if arg.StrArg? then arg.text else "<NULL>" + [NUL];
    text <= whole && NUL !in text && (bounded ==> |text| <= precision) &&
    (|text| == |whole| - 1 || (bounded && |text| == precision < |whole| - 1))
  }

  lemma CutIs(arg: Arg, precision: int)
    requires arg.StrArg? ==> Terminated(arg.text)
    ensures IsCut(Cut(arg, precision), arg, precision >= 0, Max(0, precision))
  {
  }

  /** `s` prints the string up to its NUL, `<NULL>` for a NULL pointer, but no more characters than a
      precision says. */
  lemma StringPrinted(d: Directive, args: seq<Arg>) returns (text: string, width: nat, precision: nat)
    requires Plain(d) && Suits(d, args) && d.conversion == 's'
    ensures AsksWidth(d, args, width) && AsksPrecision(d, args, precision)
    ensures IsCut(text, args[Stars(d)], !d.precision.NoPrecision?, precision)
    ensures exists out :: Prints(d, args, out) && Stands(out, text, width, AsksLeft(d, args))
  {
    hide Plain, Prints, Padded, Stands, Cut, IsCut;
    RenderedPrints(d, args);
    CutIs(args[Stars(d)], PrecisionOf(d, args));
    text, width := Cut(args[Stars(d)], PrecisionOf(d, args)), Max(0, WidthOf(d, args));
    precision := Max(0, PrecisionOf(d, args));
    PaddedStands(text, WidthOf(d, args), FlagsOf(d, args).left);
  }

  /** `p` prints the address in hexadecimal, without a width in 16 digits. */
  lemma PointerPrinted(d: Directive, args: seq<Arg>) returns (p: Parts)
    requires Plain(d) && Suits(d, args) && d.conversion == 'p'
    ensures Prints(d, args, Text(p)) && args[Stars(d)].PtrArg?
    ensures Reading(Text(p), 16) == args[Stars(d)].address && Writes(p.digits, args[Stars(d)].address, 16, false)
    ensures p.sign == "" && (p.prefix == if d.flags.special then "0x" else "")
    ensures d.width.NoWidth? && !d.flags.left ==> p.before == 0 == p.behind && |Text(p)| >= 16
  {
    hide Plain, Prints, Printed, Reading, Writes, Text;
    RenderedPrints(d, args);
    var num := Stored(args[Stars(d)].address, UNSIGNED_LONG, true);
    p := PrintedLayout(num, 16, WidthOf(d, args), PrecisionOf(d, args), FlagsOf(d, args));
    ReadsBack(num, 16, WidthOf(d, args), PrecisionOf(d, args), FlagsOf(d, args));
  }

  /** `%%` prints a `%`, `n` prints nothing, and a character that is no conversion is printed behind the
      `%`. */
  lemma OthersPrinted(d: Directive, args: seq<Arg>)
    requires Plain(d) && Suits(d, args) && d.conversion != NUL
    requires d.conversion !in {'d', 'i', 'u', 'o', 'x', 'X', 'c', 's', 'p'}
    ensures d.conversion == 'n' ==> Prints(d, args, "")
    ensures d.conversion == '%' ==> Prints(d, args, "%")
    ensures d.conversion !in {'n', '%'} ==> Prints(d, args, "%" + [d.conversion])
  {
    hide Plain, Prints, Suits, Padded, Printed, Cut, Argument, FlagsOf, WidthOf, PrecisionOf;
    RenderedPrints(d, args);
  }

  /** What `n` stores is the number of characters written before, as its type has it. */
  lemma CountMeans(d: Directive, len: nat)
    ensures InType(Count(d, len), len, Range(if d.qualifier == 'l' then 'l' else NUL), true)
  {
  }

  // ----- flags

  /** `r` is `flags` with those flags set whose characters occur in `text`. */
  predicate SetBy(r: Flags, flags: Flags, text: string) {
    r == flags.(left := flags.left || '-' in text, plus := flags.plus || '+' in text,
                space := flags.space || ' ' in text, special := flags.special || '#' in text,
                zeropad := flags.zeropad || '0' in text)
  }

  /** A flag is set when its character occurs among those behind the `%`, and only then. */
  lemma {:induction false} FlagsRead(fmt: string, at: nat, flags: Flags)
    requires at <= |fmt|
    ensures var (r, end) := ParseFlags(fmt, at, flags); SetBy(r, flags, fmt[at..end])
    decreases |fmt| - at
  {
    hide SetBy, AddFlag;
    var (r, end) := ParseFlags(fmt, at, flags);
    if at < |fmt| && IsFlag(fmt[at]) {
      FlagsRead(fmt, at + 1, AddFlag(flags, fmt[at]));
      assert fmt[at..end] == [fmt[at]] + fmt[at + 1..end];
      OneFlag(r, flags, fmt[at], fmt[at + 1..end]);
    } else {
      assert fmt[at..end] == "";
      NoFlag(flags);
    }
  }

  lemma OneFlag(r: Flags, flags: Flags, c: char, text: string)
    requires IsFlag(c) && SetBy(r, AddFlag(flags, c), text)
    ensures SetBy(r, flags, [c] + text)
  {
    hide AddFlag;
    AddFlagIs(flags, c);
    InMore(c, text, '-');
    InMore(c, text, '+');
    InMore(c, text, ' ');
    InMore(c, text, '#');
    InMore(c, text, '0');
  }

  lemma AddFlagIs(flags: Flags, c: char)
    ensures AddFlag(flags, c) == flags.(left := flags.left || c == '-', plus := flags.plus || c == '+',
                                        space := flags.space || c == ' ', special := flags.special || c == '#',
                                        zeropad := flags.zeropad || c == '0')
  {
  }

  lemma InMore(c: char, text: string, x: char)
    ensures x in [c] + text <==> x == c || x in text
  {
  }

  lemma NoFlag(flags: Flags)
    ensures SetBy(flags, flags, "")
  {
  }

  /** How directives are spelled. */
  lemma SpelledOut()
    ensures forall c :: Show(Directive(NO_FLAGS, NoWidth, NoPrecision, NUL, c)) == ['%', c]
    ensures forall c :: Show(Directive(NO_FLAGS, StarWidth, StarPrecision, 'l', c)) == ['%', '*', '.', '*', 'l', c]
    ensures forall c :: Show(Directive(NO_FLAGS, NoWidth, ZeroPrecision, 'h', c)) == ['%', '.', 'h', c]
    ensures forall c :: Show(Directive(NO_FLAGS.(left := true, plus := true), NoWidth, NoPrecision, NUL, c)) ==
              ['%', '-', '+', c]
    ensures forall c :: Show(Directive(NO_FLAGS.(plus := true, space := true), NoWidth, NoPrecision, NUL, c)) ==
              ['%', '+', ' ', c]
    ensures forall c ::
      Show(Directive(NO_FLAGS.(special := true, zeropad := true), NoWidth, NoPrecision, NUL, c)) == ['%', '#', '0', c]
    ensures forall c :: Show(Directive(NO_FLAGS, FixedWidth(12), FixedPrecision(3), NUL, c)) == "%12.3" + [c]
  {
    DecimalDigits();
  }

  lemma DecimalDigits()
    ensures Digits(12, 10, false) == "12" && Digits(3, 10, false) == "3"
  {
    assert Significant(0, 10, false) == "" && Significant(1, 10, false) == "1" && Significant(3, 10, false) == "3";
    assert Significant(12, 10, false) == Significant(1, 10, false) + "2";
  }

  /** `%d` and `%i` print an `int` in decimal, `%u` an `unsigned int` in decimal, `%o` in octal, `%x` and
      `%X` in hexadecimal. */
  lemma PlainConversion(c: char, v: int)
    requires c in {'d', 'i', 'u', 'o', 'x', 'X'}
    ensures var fmt, args := ['%', c, NUL], [IntArg(v)];
            Terminated(fmt) && AllSuit(fmt, 0, args) &&
            InType(Reading(Formatted(fmt, 0, args), if c == 'o' then 8 else if c in {'x', 'X'} then 16 else 10), v,
                   0x1_0000_0000, c in {'d', 'i'})
  {
    hide Show, Formatted, AllSuit, Reading, Text, Writes, InType, LaidOut, AsksWidth, AsksPrecision;
    var d := Directive(NO_FLAGS, NoWidth, NoPrecision, NUL, c);
    SpelledOut();
    assert Show(d) + [NUL] == ['%', c, NUL];
    var p, w, width, precision := NumberPrinted(d, [IntArg(v)]);
  }

  // ----- whole formats

  datatype Piece = Literal(text: string) | Conversion(d: Directive)

  /** The format that consists of the pieces. */
  function FormatOf(pieces: seq<Piece>): string {
    if pieces == [] then [NUL]
    else (if pieces[0].Literal? then pieces[0].text else Show(pieces[0].d)) + FormatOf(pieces[1..])
  }

  /** The number of arguments a directive takes. */
  function Eats(d: Directive): nat {
    Stars(d) + if d.conversion in {'c', 'd', 'i', 'u', 'o', 'x', 'X', 's', 'p', 'n'} then 1 else 0
  }

  /** Literals hold neither `%` nor NUL, and each directive finds its arguments behind those of the
      directives before it. */
  ghost predicate Fits(pieces: seq<Piece>, args: seq<Arg>) {
    pieces == [] ||
    if pieces[0].Literal? then '%' !in pieces[0].text && NUL !in pieces[0].text && Fits(pieces[1..], args)
    else
      var d := pieces[0].d;
      Plain(d) && d.conversion != NUL && Suits(d, args) && Eats(d) <= |args| && Fits(pieces[1..], args[Eats(d)..])
  }

  lemma Alone(d: Directive, args: seq<Arg>)
    requires Plain(d) && d.conversion != NUL && Suits(d, args)
    ensures Prints(d, args, Rendered(d, args))
    ensures var fmt := Show(d) + [NUL];
            Terminated(fmt) && AllSuit(fmt, 0, args) && Formatted(fmt, 0, args) == Rendered(d, args) &&
            Eats(d) == Takes(d)
  {
    hide Show, Plain, Suits, Formatted, AllSuit, Rendered;
    ShownIsRendered(d, args);
  }

  /** The literals as they are, and for each directive what it prints alone with its own arguments. */
  ghost function Output(pieces: seq<Piece>, args: seq<Arg>): string
    requires Fits(pieces, args)
  {
    if pieces == [] then ""
    else if pieces[0].Literal? then pieces[0].text + Output(pieces[1..], args)
    else
      var d := pieces[0].d;
      Alone(d, args);
      Formatted(Show(d) + [NUL], 0, args) + Output(pieces[1..], args[Eats(d)..])
  }

  lemma Joined(head: string, rest: string)
    requires NUL !in head && Terminated(rest)
    ensures Terminated(head + rest)
  {
  }

  lemma ShowHasNoNul(d: Directive, args: seq<Arg>)
    requires Plain(d) && d.conversion != NUL && Suits(d, args)
    ensures NUL !in Show(d)
  {
    hide Show, Plain, Suits, Formatted, AllSuit;
    Alone(d, args);
    var fmt := Show(d) + [NUL];
    assert forall i :: 0 <= i < |Show(d)| ==> Show(d)[i] == fmt[i];
  }

  /** What its `n` conversions store when `len` characters stand before: how many stand before each. */
  ghost function Stores(pieces: seq<Piece>, args: seq<Arg>, len: nat): seq<int>
    requires Fits(pieces, args)
  {
    if pieces == [] then []
    else if pieces[0].Literal? then Stores(pieces[1..], args, len + |pieces[0].text|)
    else
      var d := pieces[0].d;
      Alone(d, args);
      (if d.conversion == 'n' then [Count(d, len)] else []) +
      Stores(pieces[1..], args[Eats(d)..], len + |Formatted(Show(d) + [NUL], 0, args)|)
  }

  lemma {:induction false} FormatEnds(pieces: seq<Piece>, args: seq<Arg>)
    requires Fits(pieces, args)
    ensures Terminated(FormatOf(pieces))
  {
    hide Terminated, Show, Plain, Suits;
    if pieces == [] {
      NulAlone();
    } else if pieces[0].Literal? {
      FormatEnds(pieces[1..], args);
      Joined(pieces[0].text, FormatOf(pieces[1..]));
    } else {
      var d := pieces[0].d;
      FormatEnds(pieces[1..], args[Eats(d)..]);
      ShowHasNoNul(d, args);
      Joined(Show(d), FormatOf(pieces[1..]));
    }
  }

  lemma NotEmpty(text: string)
    requires Terminated(text)
    ensures text != "" && text[|text| - 1] == NUL
  {
  }

  lemma NulAlone()
    ensures Terminated([NUL])
  {
  }

  lemma OneCopied(fmt: string, at: nat, args: seq<Arg>, len: nat)
    requires Terminated(fmt) && at < |fmt| - 1 && fmt[at] != '%' && AllSuit(fmt, at + 1, args)
    ensures AllSuit(fmt, at, args) && Formatted(fmt, at, args) == [fmt[at]] + Formatted(fmt, at + 1, args)
    ensures Counts(fmt, at, args, len) == Counts(fmt, at + 1, args, len + 1)
  {
    hide Parse, Suits, Rendered;
  }

  /** A literal is copied. */
  lemma {:induction false} LiteralCopied(fmt: string, at: nat, end: nat, args: seq<Arg>, len: nat)
    requires Terminated(fmt) && at <= end < |fmt| && '%' !in fmt[at..end] && AllSuit(fmt, end, args)
    ensures AllSuit(fmt, at, args) && Formatted(fmt, at, args) == fmt[at..end] + Formatted(fmt, end, args)
    ensures Counts(fmt, at, args, len) == Counts(fmt, end, args, len + (end - at))
    decreases end - at
  {
    hide Formatted, AllSuit, Counts;
    if at < end {
      assert fmt[at..end] == [fmt[at]] + fmt[at + 1..end];
      LiteralCopied(fmt, at + 1, end, args, len + 1);
      OneCopied(fmt, at, args, len);
    }
  }

  /** From position `at` on the format prints `out` and stores `counts`, when `len` characters stand
      before. */
  ghost predicate From(fmt: string, at: nat, args: seq<Arg>, len: nat, out: string, counts: seq<int>) {
    Terminated(fmt) && at < |fmt| && AllSuit(fmt, at, args) &&
    Formatted(fmt, at, args) == out && Counts(fmt, at, args, len) == counts
  }

  lemma LiteralStands(pre: string, text: string, rest: string, args: seq<Arg>, len: nat, out: string, counts: seq<int>)
    requires '%' !in text && From((pre + text) + rest, |pre + text|, args, len + |text|, out, counts)
    ensures From(pre + (text + rest), |pre|, args, len, text + out, counts)
  {
    hide Formatted, AllSuit, Counts, Terminated;
    var fmt, end := pre + (text + rest), |pre| + |text|;
    assert fmt == (pre + text) + rest && fmt[|pre|..end] == text;
    LiteralCopied(fmt, |pre|, end, args, len);
  }

  /** A directive prints wherever it stands what it prints alone. */
  lemma DirectiveStands(pre: string, d: Directive, rest: string, args: seq<Arg>, len: nat, out: string,
                        counts: seq<int>)
    requires Plain(d) && d.conversion != NUL && Suits(d, args) && Terminated(rest) && Eats(d) <= |args|
    requires From((pre + Show(d)) + rest, |pre + Show(d)|, args[Eats(d)..], len + |Rendered(d, args)|, out, counts)
    ensures From(pre + (Show(d) + rest), |pre|, args, len, Rendered(d, args) + out,
                 (if d.conversion == 'n' then [Count(d, len)] else []) + counts)
  {
    hide Plain, Suits, Rendered, Show, Parse, Eats, Takes, Count, Formatted, AllSuit, Counts, Terminated;
    var fmt, p := pre + (Show(d) + rest), |pre| + |Show(d)| - 1;
    assert fmt == (pre + Show(d)) + rest;
    Alone(d, args);
    NotEmpty(rest);
    ParseShow(pre, d, rest);
    ShowStarts(d);
    assert fmt[p] == Show(d)[|Show(d)| - 1];
    SuitsTakes(d, args);
    OneMoreDirective(fmt, |pre|, d, p, args);
    OneMoreCount(fmt, |pre|, d, p, args, len);
  }

  lemma OneMoreDirective(fmt: string, at: nat, d: Directive, p: nat, args: seq<Arg>)
    requires Terminated(fmt) && at < p < |fmt| - 1 && fmt[at] == '%' && Parse(fmt, at) == (d, p) && fmt[p] != NUL
    requires Suits(d, args) && Takes(d) <= |args| && AllSuit(fmt, p + 1, args[Takes(d)..])
    ensures AllSuit(fmt, at, args)
    ensures Formatted(fmt, at, args) == Rendered(d, args) + Formatted(fmt, p + 1, args[Takes(d)..])
  {
    hide Parse, Suits, Rendered, Takes;
  }

  lemma OneMoreCount(fmt: string, at: nat, d: Directive, p: nat, args: seq<Arg>, len: nat)
    requires Terminated(fmt) && at < p < |fmt| - 1 && fmt[at] == '%' && Parse(fmt, at) == (d, p) && fmt[p] != NUL
    requires Suits(d, args) && Takes(d) <= |args| && AllSuit(fmt, p + 1, args[Takes(d)..]) && AllSuit(fmt, at, args)
    ensures Counts(fmt, at, args, len) == (if d.conversion == 'n' then [Count(d, len)] else []) +
                                          Counts(fmt, p + 1, args[Takes(d)..], len + |Rendered(d, args)|)
  {
    hide Parse, Suits, Rendered, Takes, Count;
  }

  /** A format prints its literals as they are, and each directive what it prints alone, from left to
      right, with the arguments handed out in order; each `n` stores how much was written before. */
  lemma {:induction false} FormatsCompose(pre: string, pieces: seq<Piece>, args: seq<Arg>, len: nat)
    requires Fits(pieces, args) && NUL !in pre
    ensures From(pre + FormatOf(pieces), |pre|, args, len, Output(pieces, args), Stores(pieces, args, len))
    decreases |pieces|
  {
    hide Terminated, Show, Plain, Suits, From, Count, Formatted, AllSuit, Rendered;
    FormatEnds(pieces, args);
    if pieces == [] {
      Joined(pre, [NUL]);
      EndsThere(pre, args, len);
    } else if pieces[0].Literal? {
      var text := pieces[0].text;
      FormatsCompose(pre + text, pieces[1..], args, len + |text|);
      LiteralStands(pre, text, FormatOf(pieces[1..]), args, len, Output(pieces[1..], args),
                    Stores(pieces[1..], args, len + |text|));
    } else {
      var d := pieces[0].d;
      Alone(d, args);
      ShowHasNoNul(d, args);
      FormatEnds(pieces[1..], args[Eats(d)..]);
      FormatsCompose(pre + Show(d), pieces[1..], args[Eats(d)..], len + |Rendered(d, args)|);
      DirectiveStands(pre, d, FormatOf(pieces[1..]), args, len, Output(pieces[1..], args[Eats(d)..]),
                      Stores(pieces[1..], args[Eats(d)..], len + |Rendered(d, args)|));
    }
  }

  lemma EndsThere(pre: string, args: seq<Arg>, len: nat)
    requires Terminated(pre + [NUL])
    ensures From(pre + [NUL], |pre|, args, len, "", [])
  {
  }
}
