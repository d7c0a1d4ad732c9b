/**
 * The parts of the C library the readers rely on to turn text into numbers:
 * the character classes of the C locale, the numeric conversions of `sscanf`
 * (`%u`, `%d`, `%lu`, `%llu`, `%lld`), `%Ns` and `%*s`, `strtoull`,
 * `strtok_r` with the delimiters " \t\n", and the truncating copies made by
 * `strncpy` and `snprintf`. Strings are C strings without a NUL inside them.
 */
module LibC {
  import opened Optional

  const TwoTo31: int := 0x8000_0000
  const TwoTo32: int := 0x1_0000_0000
  const TwoTo63: int := 0x8000_0000_0000_0000
  const TwoTo64: int := 0x1_0000_0000_0000_0000

  /** `ULONG_MAX` (= `ULLONG_MAX` on LP64), the value of `(unsigned long)-1`. */
  const ULongMax: int := TwoTo64 - 1

  /** The values of `unsigned long` and `unsigned long long` (both 64 bits). */
  type U64 = x: int | 0 <= x < TwoTo64

  /** The values of `long long` (and of `long`). */
  predicate InLongLongRange(x: int) {
    -TwoTo63 <= x < TwoTo63
  }

  /** The values of `int`. */
  predicate InIntRange(x: int) {
    -TwoTo31 <= x < TwoTo31
  }

  // ---------------------------------------------------------------------------
  // Character classes

  /** `isspace` in the C locale. */
  predicate IsSpace(c: char) {
    c == ' ' || c == '\t' || c == '\n' || c == '\U{0B}' || c == '\U{0C}' || c == '\r'
  }

  predicate NotSpace(c: char) {
    !IsSpace(c)
  }

  predicate IsDigit(c: char) {
    '0' <= c <= '9'
  }

  /** The delimiter set " \t\n" that the network reader hands to `strtok_r`. */
  predicate IsDelim(c: char) {
    c == ' ' || c == '\t' || c == '\n'
  }

  predicate NotDelim(c: char) {
    !IsDelim(c)
  }

  predicate NotColon(c: char) {
    c != ':'
  }

  predicate AllDigits(s: string) {
    forall i :: 0 <= i < |s| ==> IsDigit(s[i])
  }

  // ---------------------------------------------------------------------------
  // Scanning primitives

  /** Length of the longest prefix of `s` whose characters all satisfy `p`. */
  function Span(s: string, p: char -> bool): (n: nat)
    ensures n <= |s|
  {
    if s == [] || !p(s[0]) then 0 else 1 + Span(s[1..], p)
  }

  /** The prefix `Span` measures is the longest one whose characters satisfy `p`. */
  lemma {:induction false} SpanMaximal(s: string, p: char -> bool)
    ensures forall i :: 0 <= i < Span(s, p) ==> p(s[i])
    ensures Span(s, p) == |s| || !p(s[Span(s, p)])
  {
    if s != [] && p(s[0]) {
      SpanMaximal(s[1..], p);
      assert forall i :: 1 <= i < Span(s, p) ==> s[i] == s[1..][i - 1];
    }
  }

  /** Span of a run that satisfies `p`, ended by a character that does not. */
  lemma {:induction false} SpanOfRun(run: string, rest: string, p: char -> bool)
    requires forall i :: 0 <= i < |run| ==> p(run[i])
    requires rest == [] || !p(rest[0])
    ensures Span(run + rest, p) == |run|
    decreases |run|
  {
    if run != [] {
      assert (run + rest)[1..] == run[1..] + rest;
      SpanOfRun(run[1..], rest, p);
    } else {
      assert run + rest == rest;
    }
  }

  /** What is left of `s` once leading white space is skipped. */
  function SkipSpace(s: string): (r: string)
    ensures |r| <= |s|
  {
    s[Span(s, IsSpace)..]
  }

  function DigitValue(c: char): nat
    requires IsDigit(c)
  {
    (c as int) - ('0' as int)
  }

  function Pow10(n: nat): (r: nat)
    ensures r > 0
  {
    if n == 0 then 1 else 10 * Pow10(n - 1)
  }

  /** The number a run of decimal digits denotes. */
  function DecimalValue(d: string): nat
    requires AllDigits(d)
  {
    if d == [] then 0 else DigitValue(d[0]) * Pow10(|d| - 1) + DecimalValue(d[1..])
  }

  /**
   * Reading digits from the left as `strtoul` does: each digit multiplies
   * the value so far by ten and adds its own; the first non-digit stops.
   */
  function ReadDigits(u: string, acc: nat): (r: (nat, string))
    ensures |r.1| <= |u|
  {
    if u != [] && IsDigit(u[0]) then ReadDigits(u[1..], 10 * acc + DigitValue(u[0])) else (acc, u)
  }

  /** Reading a run of digits from the left yields the number they denote. */
  lemma {:induction false} ReadDigitsValue(d: string, rest: string, acc: nat)
    requires AllDigits(d)
    requires rest == [] || !IsDigit(rest[0])
    ensures ReadDigits(d + rest, acc) == (acc * Pow10(|d|) + DecimalValue(d), rest)
    decreases |d|
  {
    if d == [] {
      assert d + rest == rest;
    } else {
      var u := d + rest;
      assert u[0] == d[0] && IsDigit(u[0]);
      assert u[1..] == d[1..] + rest;
      var acc' := 10 * acc + DigitValue(d[0]);
      assert ReadDigits(u, acc) == ReadDigits(d[1..] + rest, acc');
      ReadDigitsValue(d[1..], rest, acc');
      var p := Pow10(|d| - 1);
      assert Pow10(|d|) == 10 * p;
      ShiftDigit(acc, DigitValue(d[0]), p);
    }
  }

  lemma ShiftDigit(acc: nat, digit: nat, p: nat)
    ensures (10 * acc + digit) * p == acc * (10 * p) + digit * p
  {
  }

  /** A decimal number as the C library reads it: the sign written and the magnitude of the digits. */
  datatype Number = Number(negative: bool, magnitude: nat)

  /**
   * One numeric conversion of `sscanf`, or the parsing part of `strtoull`:
   * skip white space, accept one optional sign, then at least one digit; the
   * conversion consumes all digits that follow and yields the number with the
   * input left after it. `None` is a matching failure.
   */
  function ScanNumber(s: string): (r: Option<(Number, string)>)
    ensures r.Some? ==> |r.value.1| < |s|
  {
    var t := SkipSpace(s);
    var signed := t != [] && (t[0] == '-' || t[0] == '+');
    var u := if signed then t[1..] else t;
    if u == [] || !IsDigit(u[0]) then None
    else
      var (value, rest) := ReadDigits(u, 0);
      Some((Number(t[0] == '-', value), rest))
  }

  /**
   * The `unsigned long` that `strtoul`/`strtoull` (and so `%lu`, `%llu`)
   * produce: a magnitude too large saturates at ULONG_MAX, a minus sign
   * negates modulo 2^64.
   */
  function ToUnsignedLong(n: Number): (r: U64)
    ensures !n.negative && n.magnitude < TwoTo64 ==> r == n.magnitude
    ensures n.magnitude >= TwoTo64 ==> r == ULongMax
    ensures n.negative && 0 < n.magnitude < TwoTo64 ==> r + n.magnitude == TwoTo64
  {
    if n.magnitude >= TwoTo64 then ULongMax
    else if n.negative && n.magnitude > 0 then TwoTo64 - n.magnitude
    else n.magnitude
  }

  /**
   * The `long long` that `strtoll` (and so `%lld`, and `%d` before its store)
   * produce: the signed value clamped to [LLONG_MIN, LLONG_MAX].
   */
  function ToLongLong(n: Number): (r: int)
    ensures InLongLongRange(r)
    ensures InLongLongRange(if n.negative then -(n.magnitude as int) else n.magnitude) ==>
              r == (if n.negative then -(n.magnitude as int) else n.magnitude)
  {
    if n.negative then (if n.magnitude > TwoTo63 then -TwoTo63 else -(n.magnitude as int))
    else if n.magnitude >= TwoTo63 then TwoTo63 - 1
    else n.magnitude
  }

  /** Conversion of a `long` to `int` (the store `%d` makes): modulo 2^32. */
  function WrapInt(x: int): (r: int)
    ensures InIntRange(r)
    ensures InIntRange(x) ==> r == x
    ensures (r - x) % TwoTo32 == 0
  {
    (x + TwoTo31) % TwoTo32 - TwoTo31
  }

  /** Conversion of an `unsigned long long` to `long long`: modulo 2^64. */
  function AsLongLong(x: U64): (r: int)
    ensures InLongLongRange(r)
    ensures r >= 0 <==> x < TwoTo63
    ensures r >= 0 ==> r == x
    ensures r < 0 ==> r + TwoTo64 == x
  {
    if x < TwoTo63 then x else x - TwoTo64
  }

  /** `strtoull(token, NULL, 10)`: 0 when no digits can be read. */
  function Strtoull(token: string): (r: U64)
    ensures ScanNumber(token).None? ==> r == 0
  {
    match ScanNumber(token)
    case None => 0
    case Some((n, _)) => ToUnsignedLong(n)
  }

  /**
   * A `%Ns` conversion of `sscanf` with `width` = N: skip white space, then
   * read at most `width` non-space characters, at least one.
   */
  function ScanWord(s: string, width: nat): (r: Option<(string, string)>)
    ensures r.Some? ==> 0 < |r.value.0| <= width && |r.value.1| < |s|
  {
    var t := SkipSpace(s);
    var n := Span(t, NotSpace);
    var k := if n < width then n else width;
    if k == 0 then None else Some((t[..k], t[k..]))
  }

  /** The copy `strncpy` or `snprintf` leaves in a buffer of `cap + 1` bytes. */
  function Truncate(s: string, cap: nat): (r: string)
    ensures |r| <= cap
    ensures r <= s
    ensures |s| <= cap ==> r == s
  {
    if |s| <= cap then s else s[..cap]
  }

  /**
   * The tokens that successive `strtok_r` calls return for `s` with the
   * delimiters " \t\n": the maximal non-empty runs of non-delimiters.
   */
  function Tokens(s: string): (ts: seq<string>)
    ensures forall k :: 0 <= k < |ts| ==> IsToken(ts[k])
    decreases |s|
  {
    if s == [] then []
    else if IsDelim(s[0]) then Tokens(s[1..])
    else
      var n := Span(s, NotDelim);
      SpanMaximal(s, NotDelim);
      [s[..n]] + Tokens(s[n..])
  }

  // ---------------------------------------------------------------------------
  // sscanf

  /** One directive of a `sscanf` format string. */
  datatype Directive =
    | Blank                 // white space: skips any white space, possibly none
    | Literal(text: string) // ordinary characters: must appear next in the input
    | Integer               // %u, %d, %lu, %llu, %lld: a number, assigned
    | Chars(width: nat)     // %Ns: a word of at most N characters, assigned
    | SkipChars             // %*s: a word, read and not assigned

  /** A value a conversion assigns. */
  datatype Item = Numeral(number: Number) | Word(text: string)

  /** How many directives of the format assign a value: `%*s` and the non-conversions do not. */
  function Assignments(format: seq<Directive>): (n: nat)
    ensures n <= |format|
  {
    if format == [] then 0
    else (if format[0].Integer? || format[0].Chars? then 1 else 0) + Assignments(format[1..])
  }

  /**
   * The items `sscanf(s, format)` assigns, in order: directives run from the
   * left and the first one that fails ends the scan. Its return value is the
   * length of this sequence (an input failure before the first conversion,
   * where `sscanf` returns EOF, gives the empty sequence: every caller here
   * treats EOF like 0).
   */
  function Scanf(s: string, format: seq<Directive>): (items: seq<Item>)
    ensures |items| <= |format|
    decreases |format|
  {
    if format == [] then []
    else match format[0]
      case Blank => Scanf(SkipSpace(s), format[1..])
      case Literal(text) =>
        if text <= s then Scanf(s[|text|..], format[1..]) else []
      case Integer =>
        (match ScanNumber(s)
         case None => []
         case Some((n, rest)) => [Numeral(n)] + Scanf(rest, format[1..]))
      case Chars(width) =>
        (match ScanWord(s, width)
         case None => []
         case Some((w, rest)) => [Word(w)] + Scanf(rest, format[1..]))
      case SkipChars =>
        (match ScanWord(s, |s|)
         case None => []
         case Some((_, rest)) => Scanf(rest, format[1..]))
  }

  /** `sscanf` assigns at most one item per `%u`/`%d`/`%Ns` conversion; `%*s` and the rest assign none. */
  lemma {:induction false} ScanfAssigns(s: string, format: seq<Directive>)
    ensures |Scanf(s, format)| <= Assignments(format)
    decreases |format|
  {
    if format != [] {
      match format[0]
      case Blank => ScanfAssigns(SkipSpace(s), format[1..]);
      case Literal(text) =>
        if text <= s {
          ScanfAssigns(s[|text|..], format[1..]);
        }
      case Integer =>
        if ScanNumber(s).Some? {
          ScanfAssigns(ScanNumber(s).value.1, format[1..]);
        }
      case Chars(width) =>
        if ScanWord(s, width).Some? {
          ScanfAssigns(ScanWord(s, width).value.1, format[1..]);
        }
      case SkipChars =>
        if ScanWord(s, |s|).Some? {
          ScanfAssigns(ScanWord(s, |s|).value.1, format[1..]);
        }
    }
  }

  /** The `unsigned long` (`%lu`, `%llu`) an item holds; a word never stands where these formats convert a number. */
  function UnsignedItem(item: Item): U64 {
    match item
    case Numeral(n) => ToUnsignedLong(n)
    case Word(_) => 0
  }

  /** Every word among the items has at most `width` characters. */
  predicate WordsWithin(items: seq<Item>, width: nat) {
    forall i :: 0 <= i < |items| && items[i].Word? ==> |items[i].text| <= width
  }

  lemma WordsWithinCons(item: Item, items: seq<Item>, width: nat)
    requires item.Word? ==> |item.text| <= width
    requires WordsWithin(items, width)
    ensures WordsWithin([item] + items, width)
  {
    assert forall i :: 1 <= i < |items| + 1 ==> ([item] + items)[i] == items[i - 1];
  }

  /** No word a `%Ns` conversion assigns is longer than N. */
  lemma {:induction false} ScanfWordWidth(s: string, format: seq<Directive>, width: nat)
    requires forall k :: 0 <= k < |format| && format[k].Chars? ==> format[k].width <= width
    ensures WordsWithin(Scanf(s, format), width)
    decreases |format|
  {
    if format != [] {
      match format[0]
      case Blank => ScanfWordWidth(SkipSpace(s), format[1..], width);
      case Literal(text) =>
        if text <= s {
          ScanfWordWidth(s[|text|..], format[1..], width);
        }
      case Integer =>
        if ScanNumber(s).Some? {
          var (n, rest) := ScanNumber(s).value;
          ScanfWordWidth(rest, format[1..], width);
          WordsWithinCons(Numeral(n), Scanf(rest, format[1..]), width);
        }
      case Chars(w) =>
        if ScanWord(s, w).Some? {
          var (word, rest) := ScanWord(s, w).value;
          ScanfWordWidth(rest, format[1..], width);
          WordsWithinCons(Word(word), Scanf(rest, format[1..]), width);
        }
      case SkipChars =>
        if ScanWord(s, |s|).Some? {
          ScanfWordWidth(ScanWord(s, |s|).value.1, format[1..], width);
        }
    }
  }

  /** The `long long` (`%lld`) a numeric item holds; a word never stands where these formats convert a number. */
  function SignedItem(item: Item): (r: int)
    ensures InLongLongRange(r)
  {
    match item
    case Numeral(n) => ToLongLong(n)
    case Word(_) => 0
  }

  // ---------------------------------------------------------------------------
  // Lemmas for reading known text

  predicate AllSpace(s: string) {
    forall i :: 0 <= i < |s| ==> IsSpace(s[i])
  }

  predicate IsToken(t: string) {
    t != [] && forall i :: 0 <= i < |t| ==> NotDelim(t[i])
  }

  /** Skipping white space stops at the first character that is not white space. */
  lemma SkipLead(lead: string, s: string)
    requires AllSpace(lead)
    requires s == [] || !IsSpace(s[0])
    ensures SkipSpace(lead + s) == s
  {
    SpanOfRun(lead, s, IsSpace);
    assert (lead + s)[|lead|..] == s;
  }

  /** Skipping white space twice skips no more than once. */
  lemma SkipSpaceIdempotent(s: string)
    ensures SkipSpace(SkipSpace(s)) == SkipSpace(s)
  {
    var t := SkipSpace(s);
    SpanMaximal(s, IsSpace);
    if t != [] {
      assert t[0] == s[Span(s, IsSpace)];
    }
    SkipLead([], t);
    assert [] + t == t;
  }

  /** A token followed by a delimiter (or the end) is the first token returned. */
  lemma TokensCons(t: string, rest: string)
    requires IsToken(t)
    requires rest == [] || IsDelim(rest[0])
    ensures Tokens(t + rest) == [t] + Tokens(rest)
  {
    var s := t + rest;
    SpanOfRun(t, rest, NotDelim);
    assert s[..|t|] == t && s[|t|..] == rest;
  }

  /** A line written as its tokens, each preceded by one space. */
  function Spaced(ts: seq<string>): string {
    if ts == [] then [] else " " + ts[0] + Spaced(ts[1..])
  }

  lemma SpacedCons(t: string, ts: seq<string>)
    ensures Spaced([t] + ts) == " " + t + Spaced(ts)
    ensures Spaced(ts) == [] || Spaced(ts)[0] == ' '
  {
    assert ([t] + ts)[1..] == ts;
  }

  /** `strtok_r` recovers the tokens of a line written with single spaces. */
  lemma {:induction false} TokensSpaced(ts: seq<string>)
    requires forall k :: 0 <= k < |ts| ==> IsToken(ts[k])
    ensures Tokens(Spaced(ts)) == ts
    decreases |ts|
  {
    if ts != [] {
      var rest := Spaced(ts[1..]);
      SpacedCons(ts[0], ts[1..]);
      assert ts == [ts[0]] + ts[1..];
      assert " " + ts[0] + rest == " " + (ts[0] + rest);
      assert Tokens(" " + (ts[0] + rest)) == Tokens(ts[0] + rest);
      TokensCons(ts[0], rest);
      TokensSpaced(ts[1..]);
    }
  }

  /** A run of digits after white space, ended by a non-digit or the end. */
  lemma ScanDigits(lead: string, d: string, rest: string)
    requires AllSpace(lead)
    requires d != [] && AllDigits(d)
    requires rest == [] || !IsDigit(rest[0])
    ensures ScanNumber(lead + d + rest) == Some((Number(false, DecimalValue(d)), rest))
  {
    var t := d + rest;
    assert lead + d + rest == lead + t;
    SkipLead(lead, t);
    ReadDigitsValue(d, rest, 0);
  }

  /** A decimal token gives its value, or ULONG_MAX when that does not fit in 64 bits. */
  lemma StrtoullDecimal(d: string)
    requires d != [] && AllDigits(d)
    ensures Strtoull(d) == if DecimalValue(d) < TwoTo64 then DecimalValue(d) else ULongMax
  {
    assert [] + d + [] == d;
    ScanDigits([], d, []);
  }

  /** A word of at most `width` non-space characters after white space. */
  lemma ScanWordRun(lead: string, w: string, rest: string, width: nat)
    requires AllSpace(lead)
    requires w != [] && |w| <= width
    requires forall i :: 0 <= i < |w| ==> NotSpace(w[i])
    requires rest == [] || IsSpace(rest[0])
    ensures ScanWord(lead + w + rest, width) == Some((w, rest))
  {
    var t := w + rest;
    assert lead + w + rest == lead + t;
    SkipLead(lead, t);
    SpanOfRun(w, rest, NotSpace);
    assert t[..|w|] == w && t[|w|..] == rest;
  }

  /** `Spaced(ts)` from its `k`-th token on. */
  lemma SpacedAt(ts: seq<string>, k: nat)
    requires k < |ts|
    ensures Spaced(ts[k..]) == " " + (ts[k] + Spaced(ts[k + 1..]))
    ensures Spaced(ts[k + 1..]) == [] || Spaced(ts[k + 1..])[0] == ' '
  {
    assert ts[k..] == [ts[k]] + ts[k + 1..];
    SpacedCons(ts[k], ts[k + 1..]);
  }

  /*
   * Running a format from its `k`-th directive over known text: one lemma
   * per kind of directive.
   */

  /** A white-space directive skips the white space of the input. */
  lemma ScanfBlank(lead: string, s: string, format: seq<Directive>, k: nat)
    requires AllSpace(lead)
    requires s == [] || !IsSpace(s[0])
    requires k < |format| && format[k] == Blank
    ensures Scanf(lead + s, format[k..]) == Scanf(s, format[k + 1..])
  {
    SkipLead(lead, s);
    assert format[k..][1..] == format[k + 1..];
  }

  lemma ScanfLiteral(text: string, s: string, format: seq<Directive>, k: nat)
    requires k < |format| && format[k] == Literal(text)
    ensures Scanf(text + s, format[k..]) == Scanf(s, format[k + 1..])
  {
    assert text <= text + s && (text + s)[|text|..] == s;
    assert format[k..][1..] == format[k + 1..];
  }

  /** A numeric conversion skips leading white space itself. */
  lemma ScanfLeadInteger(lead: string, d: string, rest: string, format: seq<Directive>, k: nat)
    requires AllSpace(lead)
    requires d != [] && AllDigits(d)
    requires rest == [] || !IsDigit(rest[0])
    requires k < |format| && format[k] == Integer
    ensures Scanf(lead + d + rest, format[k..])
         == [Numeral(Number(false, DecimalValue(d)))] + Scanf(rest, format[k + 1..])
  {
    ScanDigits(lead, d, rest);
    assert format[k..][1..] == format[k + 1..];
  }

  lemma ScanfInteger(d: string, rest: string, format: seq<Directive>, k: nat)
    requires d != [] && AllDigits(d)
    requires rest == [] || !IsDigit(rest[0])
    requires k < |format| && format[k] == Integer
    ensures Scanf(d + rest, format[k..]) == [Numeral(Number(false, DecimalValue(d)))] + Scanf(rest, format[k + 1..])
  {
    ScanfLeadInteger([], d, rest, format, k);
    assert [] + d + rest == d + rest;
  }

  lemma ScanfChars(w: string, rest: string, width: nat, format: seq<Directive>, k: nat)
    requires w != [] && |w| <= width
    requires forall i :: 0 <= i < |w| ==> NotSpace(w[i])
    requires rest == [] || IsSpace(rest[0])
    requires k < |format| && format[k] == Chars(width)
    ensures Scanf(w + rest, format[k..]) == [Word(w)] + Scanf(rest, format[k + 1..])
  {
    ScanWordRun([], w, rest, width);
    assert [] + w + rest == w + rest;
    assert format[k..][1..] == format[k + 1..];
  }

  lemma ScanfSkipChars(w: string, rest: string, format: seq<Directive>, k: nat)
    requires w != []
    requires forall i :: 0 <= i < |w| ==> NotSpace(w[i])
    requires rest == [] || IsSpace(rest[0])
    requires k < |format| && format[k] == SkipChars
    ensures Scanf(w + rest, format[k..]) == Scanf(rest, format[k + 1..])
  {
    ScanWordRun([], w, rest, |w + rest|);
    assert [] + w + rest == w + rest;
    assert format[k..][1..] == format[k + 1..];
  }

  /** Conversions skip leading white space, so a white-space directive before one changes nothing. */
  lemma {:induction false} ScanfBlankBeforeInteger(s: string, format: seq<Directive>)
    requires |format| >= 2 && format[0] == Blank && format[1] == Integer
    ensures Scanf(s, format) == Scanf(s, format[1..])
  {
    var t := SkipSpace(s);
    SpanMaximal(s, IsSpace);
    var n := Span(s, IsSpace);
    if n < |s| {
      assert t[0] == s[n];
    }
    SkipLead([], t);
    assert [] + t == t;
  }

  // ---------------------------------------------------------------------------
  // Formats whose conversions are separated by single spaces

  /** The conversions of such a format. */
  datatype Conversion = Decimal | Text(width: nat) | SkipText

  function DirectiveOf(c: Conversion): Directive {
    match c
    case Decimal => Integer
    case Text(width) => Chars(width)
    case SkipText => SkipChars
  }

  /** The format " c0 c1 ...": each conversion after a white-space directive. */
  function Spread(cs: seq<Conversion>): (format: seq<Directive>)
    ensures |format| == 2 * |cs|
  {
    if cs == [] then [] else [Blank, DirectiveOf(cs[0])] + Spread(cs[1..])
  }

  /** A field of a line: non-empty, without white space. */
  predicate IsField(f: string) {
    f != [] && forall i :: 0 <= i < |f| ==> NotSpace(f[i])
  }

  /** A field of decimal digits. */
  predicate IsDecimalField(f: string) {
    f != [] && AllDigits(f)
  }

  lemma DecimalIsField(f: string)
    requires IsDecimalField(f)
    ensures IsField(f)
  {
    forall i | 0 <= i < |f|
      ensures NotSpace(f[i])
    {
      assert IsDigit(f[i]);
    }
  }

  /** Whether a field of text is what conversion `c` reads in full. */
  predicate FieldFits(f: string, c: Conversion) {
    IsField(f)
    && match c
       case Decimal => AllDigits(f)
       case Text(width) => |f| <= width
       case SkipText => true
  }

  /** What conversion `c` assigns when it reads the field `f` in full. */
  function Assigned(f: string, c: Conversion): seq<Item>
    requires FieldFits(f, c)
  {
    match c
    case Decimal => [Numeral(Number(false, DecimalValue(f)))]
    case Text(_) => [Word(f)]
    case SkipText => []
  }

  /** What the conversions assign, field by field, up to the first field that does not fit. */
  function AssignedAll(fields: seq<string>, cs: seq<Conversion>): seq<Item>
  {
    if cs == [] || fields == [] || !FieldFits(fields[0], cs[0]) then []
    else Assigned(fields[0], cs[0]) + AssignedAll(fields[1..], cs[1..])
  }

  /** The first field of such a line against the first conversion of such a format. */
  lemma ScanfSpacedStep(fields: seq<string>, cs: seq<Conversion>)
    requires cs != [] && fields != []
    requires FieldFits(fields[0], cs[0])
    ensures Scanf(Spaced(fields), Spread(cs)) == Assigned(fields[0], cs[0]) + Scanf(Spaced(fields[1..]), Spread(cs[1..]))
  {
    var format := Spread(cs);
    var rest := Spaced(fields[1..]);
    var f := fields[0];
    assert Spaced(fields) == " " + (f + rest) by {
      SpacedAt(fields, 0);
      assert fields[0..] == fields;
    }
    assert rest == [] || rest[0] == ' ' by {
      SpacedAt(fields, 0);
    }
    assert Scanf(" " + (f + rest), format) == Scanf(f + rest, format[1..]) by {
      assert (f + rest)[0] == f[0] && NotSpace(f[0]);
      ScanfBlank(" ", f + rest, format, 0);
      assert format[0..] == format;
    }
    assert format[1] == DirectiveOf(cs[0]) && format[2..] == Spread(cs[1..]);
    SpacedStepConversion(f, rest, cs[0], format);
  }

  lemma SpacedStepConversion(f: string, rest: string, c: Conversion, format: seq<Directive>)
    requires FieldFits(f, c)
    requires rest == [] || rest[0] == ' '
    requires |format| >= 2 && format[1] == DirectiveOf(c)
    ensures Scanf(f + rest, format[1..]) == Assigned(f, c) + Scanf(rest, format[2..])
  {
    match c {
      case Decimal =>
        assert Scanf(f + rest, format[1..]) == [Numeral(Number(false, DecimalValue(f)))] + Scanf(rest, format[2..]) by {
          assert rest == [] || !IsDigit(rest[0]);
          ScanfInteger(f, rest, format, 1);
        }
      case Text(width) =>
        assert Scanf(f + rest, format[1..]) == [Word(f)] + Scanf(rest, format[2..]) by {
          assert rest == [] || IsSpace(rest[0]);
          ScanfChars(f, rest, width, format, 1);
        }
      case SkipText =>
        assert Scanf(f + rest, format[1..]) == Scanf(rest, format[2..]) by {
          assert rest == [] || IsSpace(rest[0]);
          ScanfSkipChars(f, rest, format, 1);
        }
    }
  }

  /**
   * On a line written as fields separated by single spaces, a format of
   * space-separated conversions that fit the fields reads each field in full.
   */
  lemma {:induction false} ScanfSpaced(fields: seq<string>, cs: seq<Conversion>)
    requires |cs| <= |fields|
    requires forall i :: 0 <= i < |cs| ==> FieldFits(fields[i], cs[i])
    ensures Scanf(Spaced(fields), Spread(cs)) == AssignedAll(fields, cs)
    decreases |cs|
  {
    if cs != [] {
      assert FieldFits(fields[0], cs[0]);
      ScanfSpacedStep(fields, cs);
      ScanfSpaced(fields[1..], cs[1..]);
    }
  }
}
