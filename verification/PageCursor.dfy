/** The text form of a page cursor: microseconds and a hyphenated uuid around an underscore. */
module PageCursor {
  import opened Prelude

  const MAX_I64: int := 0x7fff_ffff_ffff_ffff
  const MIN_I64: int := -0x8000_0000_0000_0000
  const UUID_COUNT: nat := 0x1_0000_0000_0000_0000_0000_0000_0000_0000

  type Micros = m: int | MIN_I64 <= m <= MAX_I64
  type Uuid = u: int | 0 <= u < UUID_COUNT

  datatype Cursor = Cursor(ts: Micros, id: Uuid)

  // ---- Digits ----

  function DigitChar(d: nat): char
    requires d < 16
  {
    "0123456789abcdef"[d]
  }

  /** Upper and lower case are read alike. */
  function DigitValue(c: char): Option<nat> {
    if '0' <= c <= '9' then Some(c as int - '0' as int)
    else if 'a' <= c <= 'f' then Some(c as int - 'a' as int + 10)
    else if 'A' <= c <= 'F' then Some(c as int - 'A' as int + 10)
    else None
  }

  lemma DigitRoundTrip(d: nat)
    requires d < 16
    ensures DigitValue(DigitChar(d)) == Some(d)
  {
  }

  /** The value of a string of digits, read left to right. */
  function ParseDigits(s: string, base: nat): Option<nat> {
    if s == [] then Some(0)
    else
      var front := ParseDigits(s[..|s| - 1], base);
      var last := DigitValue(s[|s| - 1]);
      if front.None? || last.None? || last.value >= base then None else Some(front.value * base + last.value)
  }

  predicate AllDigits(s: string, base: nat) {
    forall i | 0 <= i < |s| :: DigitValue(s[i]).Some? && DigitValue(s[i]).value < base
  }

  function ShowDecimal(n: nat): string {
    if n < 10 then [DigitChar(n)] else ShowDecimal(n / 10) + [DigitChar(n % 10)]
  }

  /** One more digit on the right. */
  lemma OneMoreDigit(s: string, d: nat, base: nat)
    requires d < base <= 16 && AllDigits(s, base) && ParseDigits(s, base).Some?
    ensures AllDigits(s + [DigitChar(d)], base)
    ensures ParseDigits(s + [DigitChar(d)], base) == Some(ParseDigits(s, base).value * base + d)
  {
    DigitRoundTrip(d);
    assert (s + [DigitChar(d)])[..|s|] == s;
  }

  lemma {:induction false} DecimalRoundTrip(n: nat)
    ensures ParseDigits(ShowDecimal(n), 10) == Some(n) && ShowDecimal(n) != [] && AllDigits(ShowDecimal(n), 10)
  {
    if n < 10 {
      OneMoreDigit("", n, 10);
      assert "" + [DigitChar(n)] == [DigitChar(n)];
    } else {
      DecimalRoundTrip(n / 10);
      OneMoreDigit(ShowDecimal(n / 10), n % 10, 10);
    }
  }

  function ShowHex(n: nat, width: nat): string {
    if width == 0 then "" else ShowHex(n / 16, width - 1) + [DigitChar(n % 16)]
  }

  function Power16(width: nat): nat {
    if width == 0 then 1 else 16 * Power16(width - 1)
  }

  lemma {:induction false} HexRoundTrip(n: nat, width: nat)
    requires n < Power16(width)
    ensures |ShowHex(n, width)| == width && AllDigits(ShowHex(n, width), 16)
    ensures ParseDigits(ShowHex(n, width), 16) == Some(n)
  {
    if width > 0 {
      HexRoundTrip(n / 16, width - 1);
      OneMoreDigit(ShowHex(n / 16, width - 1), n % 16, 16);
    }
  }

  // ---- Signed microseconds ----

  function ShowMicros(m: Micros): string {
    var n: int := m;
    if n < 0 then "-" + ShowDecimal(-n) else ShowDecimal(n)
  }

  /** `str::parse::<i64>`: an optional sign, then at least one digit, within 64 bits. */
  function ParseMicros(s: string): Option<Micros> {
    var signed := s != [] && (s[0] == '-' || s[0] == '+');
    var digits := if signed then s[1..] else s;
    var v := ParseDigits(digits, 10);
    if digits == [] || v.None? then None
    else
      var n: int := v.value;
      var m := if signed && s[0] == '-' then -n else n;
      if MIN_I64 <= m <= MAX_I64 then Some(m) else None
  }

  lemma NoSeparators(s: string)
    requires s != [] && AllDigits(s, 10)
    ensures s[0] != '-' && s[0] != '+' && '_' !in s
  {
    assert DigitValue('-').None? && DigitValue('+').None? && DigitValue('_').None?;
  }

  lemma PositiveRoundTrip(digits: string, m: Micros)
    requires digits != [] && AllDigits(digits, 10)
    requires ParseDigits(digits, 10).Some? && m as int == ParseDigits(digits, 10).value
    ensures ParseMicros(digits) == Some(m)
  {
    NoSeparators(digits);
  }

  lemma NegativeRoundTrip(digits: string, m: Micros)
    requires digits != [] && ParseDigits(digits, 10).Some? && m as int == 0 - ParseDigits(digits, 10).value
    ensures ParseMicros("-" + digits) == Some(m)
  {
    var s := "-" + digits;
    assert s[0] == '-' && s[1..] == digits;
  }

  lemma MicrosRoundTrip(m: Micros)
    ensures ParseMicros(ShowMicros(m)) == Some(m) && '_' !in ShowMicros(m)
  {
    var k: int := m;
    var n := if k < 0 then -k else k;
    DecimalRoundTrip(n);
    NoSeparators(ShowDecimal(n));
    if k < 0 {
      NegativeRoundTrip(ShowDecimal(n), m);
    } else {
      PositiveRoundTrip(ShowDecimal(n), m);
    }
  }

  // ---- Hyphenated uuids ----

  function Hyphenate(h: string): string
    requires |h| == 32
  {
    h[..8] + "-" + h[8..12] + "-" + h[12..16] + "-" + h[16..20] + "-" + h[20..]
  }

  function ShowUuid(u: Uuid): string
    ensures |ShowUuid(u)| == 36
  {
    SixteenBytes();
    HexRoundTrip(u, 32);
    Hyphenate(ShowHex(u, 32))
  }

  lemma SixteenBytes()
    ensures Power16(32) == UUID_COUNT
  {
    assert Power16(8) == 0x1_0000_0000;
    assert Power16(16) == 0x1_0000_0000_0000_0000;
    assert Power16(24) == 0x1_0000_0000_0000_0000_0000_0000;
  }

  function ParseSimple(s: string): Option<Uuid>
    requires |s| == 32
  {
    var v := ParseDigits(s, 16);
    if v.Some? && v.value < UUID_COUNT then Some(v.value) else None
  }

  function ParseHyphenated(s: string): Option<Uuid>
    requires |s| == 36
  {
    if s[8] == '-' && s[13] == '-' && s[18] == '-' && s[23] == '-'
    then ParseSimple(s[..8] + s[9..13] + s[14..18] + s[19..23] + s[24..])
    else None
  }

  /** `Uuid::from_str`: simple, hyphenated, braced and urn forms. */
  function ParseUuid(s: string): Option<Uuid> {
    if |s| == 32 then ParseSimple(s)
    else if |s| == 36 then ParseHyphenated(s)
    else if |s| == 38 && s[0] == '{' && s[37] == '}' then ParseHyphenated(s[1..37])
    else if |s| == 45 && s[..9] == "urn:uuid:" then ParseHyphenated(s[9..])
    else None
  }

  /** Cutting at the hyphens gives the five groups back. */
  lemma GroupsOf(a: string, b: string, c: string, d: string, e: string)
    requires |a| == 8 && |b| == |c| == |d| == 4 && |e| == 12
    ensures var s := a + "-" + b + "-" + c + "-" + d + "-" + e;
      && s[8] == s[13] == s[18] == s[23] == '-'
      && s[..8] == a && s[9..13] == b && s[14..18] == c && s[19..23] == d && s[24..] == e
  {
  }

  lemma GroupsTogether(h: string)
    requires |h| == 32
    ensures h[..8] + h[8..12] + h[12..16] + h[16..20] + h[20..] == h
  {
  }

  lemma UuidRoundTrip(u: Uuid)
    ensures ParseUuid(ShowUuid(u)) == Some(u)
  {
    SixteenBytes();
    HexRoundTrip(u, 32);
    var h := ShowHex(u, 32);
    GroupsOf(h[..8], h[8..12], h[12..16], h[16..20], h[20..]);
    GroupsTogether(h);
    assert ParseHyphenated(Hyphenate(h)) == ParseSimple(h);
  }

  // ---- Cursors ----

  function Encode(c: Cursor): string {
    ShowMicros(c.ts) + "_" + ShowUuid(c.id)
  }

  /** `split_once('_')` cuts at the first underscore. */
  function Decode(token: string): Option<Cursor> {
    var cut := IndexOf(token, '_');
    if cut.None? then None
    else
      var ts, id := ParseMicros(token[..cut.value]), ParseUuid(token[cut.value + 1..]);
      if ts.None? || id.None? then None else Some(Cursor(ts.value, id.value))
  }

  lemma CursorRoundTrip(c: Cursor)
    ensures Decode(Encode(c)) == Some(c)
  {
    var left, right, token := ShowMicros(c.ts), ShowUuid(c.id), Encode(c);
    MicrosRoundTrip(c.ts);
    UuidRoundTrip(c.id);
    var cut := IndexOf(token, '_').value;
    assert token[|left|] == '_';
    assert '_' !in token[..cut] && forall i | 0 <= i < |left| :: token[i] == left[i];
    assert cut <= |left|;
    assert token[..cut] == left && token[cut + 1..] == right;
  }

  /** The digits are written most significant first. */
  lemma DecimalLaw(n: nat, d: nat)
    requires d < 10
    ensures ShowDecimal(d) == [('0' as int + d) as char]
    ensures n > 0 ==> ShowDecimal(10 * n + d) == ShowDecimal(n) + ShowDecimal(d)
  {
    if n > 0 {
      assert (10 * n + d) / 10 == n && (10 * n + d) % 10 == d;
    }
  }

  lemma HexLaw(n: nat, d: nat, width: nat)
    requires d < 16
    ensures ShowHex(n, 0) == ""
    ensures ShowHex(16 * n + d, width + 1) == ShowHex(n, width) + [DigitChar(d)]
    ensures DigitChar(d) == if d < 10 then ('0' as int + d) as char else ('a' as int + d - 10) as char
  {
    assert (16 * n + d) / 16 == n && (16 * n + d) % 16 == d;
  }

  predicate LowerHex(c: char) {
    '0' <= c <= '9' || 'a' <= c <= 'f'
  }

  lemma {:induction false} HexIsLower(n: nat, width: nat)
    ensures |ShowHex(n, width)| == width && forall i | 0 <= i < width :: LowerHex(ShowHex(n, width)[i])
  {
    if width > 0 {
      HexIsLower(n / 16, width - 1);
    }
  }

  /** A uuid is written as 32 lower-case digits in groups of 8, 4, 4, 4 and 12. */
  lemma UuidShape(u: Uuid, i: nat)
    requires i < 36
    ensures var s := ShowUuid(u); |s| == 36 && if i in {8, 13, 18, 23} then s[i] == '-' else LowerHex(s[i])
  {
    SixteenBytes();
    HexIsLower(u, 32);
    var h := ShowHex(u, 32);
    GroupsOf(h[..8], h[8..12], h[12..16], h[16..20], h[20..]);
    var s := ShowUuid(u);
    if i < 8 {
      assert s[i] == s[..8][i] == h[i];
    } else if 8 < i < 13 {
      assert s[i] == s[9..13][i - 9] == h[i - 1];
    } else if 13 < i < 18 {
      assert s[i] == s[14..18][i - 14] == h[i - 2];
    } else if 18 < i < 23 {
      assert s[i] == s[19..23][i - 19] == h[i - 3];
    } else if i > 23 {
      assert s[i] == s[24..][i - 24] == h[i - 4];
    }
  }

  /** A cursor's text is the microseconds, one underscore and the uuid. */
  lemma CursorShape(c: Cursor)
    ensures var text, micros := Encode(c), ShowMicros(c.ts);
      && |text| == |micros| + 37 && text[..|micros|] == micros && text[|micros|] == '_'
      && text[|micros| + 1..] == ShowUuid(c.id)
  {
  }

  // ---- What decodes ----

  lemma {:induction false} ParsesIffDigits(s: string, base: nat)
    ensures ParseDigits(s, base).Some? <==> AllDigits(s, base)
  {
    if s != [] {
      ParsesIffDigits(s[..|s| - 1], base);
      assert s == s[..|s| - 1] + [s[|s| - 1]];
    }
  }

  /** Digits in either case count alike, and nothing else is a digit. */
  lemma DigitLaw(c: char)
    ensures DigitValue(c).Some? <==> '0' <= c <= '9' || 'a' <= c <= 'f' || 'A' <= c <= 'F'
    ensures forall d: nat | d < 10 :: DigitValue(('0' as int + d) as char) == Some(d)
    ensures forall d: nat | 10 <= d < 16 ::
      DigitValue(('a' as int + d - 10) as char) == Some(d) && DigitValue(('A' as int + d - 10) as char) == Some(d)
  {
  }

  /** Microseconds are an optional sign and at least one decimal digit, within 64 bits. */
  lemma MicrosLaw(digits: string)
    ensures ParseMicros("-" + digits).Some? <==>
      digits != [] && ParseDigits(digits, 10).Some? && 0 - ParseDigits(digits, 10).value >= MIN_I64
    ensures ParseMicros("+" + digits).Some? <==>
      digits != [] && ParseDigits(digits, 10).Some? && ParseDigits(digits, 10).value <= MAX_I64
    ensures ParseMicros("+" + digits).Some? ==> ParseMicros("+" + digits).value as int == ParseDigits(digits, 10).value
    ensures digits != [] && digits[0] != '-' && digits[0] != '+' ==> ParseMicros(digits) == ParseMicros("+" + digits)
    ensures ParseMicros("") == None
    ensures ParseDigits(digits, 10).Some? <==> AllDigits(digits, 10)
  {
    ParsesIffDigits(digits, 10);
    assert ("-" + digits)[1..] == digits && ("+" + digits)[1..] == digits;
  }

  /** The simple, braced and urn forms of a uuid are read as the hyphenated one is, and no text of
      another length is read at all. */
  lemma UuidForms(u: Uuid, s: string)
    ensures ParseUuid(ShowHex(u, 32)) == Some(u)
    ensures ParseUuid("{" + ShowUuid(u) + "}") == Some(u)
    ensures ParseUuid("urn:uuid:" + ShowUuid(u)) == Some(u)
    ensures |s| !in {32, 36, 38, 45} ==> ParseUuid(s) == None
  {
    UuidRoundTrip(u);
    SixteenBytes();
    HexRoundTrip(u, 32);
    var braced, urn := "{" + ShowUuid(u) + "}", "urn:uuid:" + ShowUuid(u);
    assert |braced| == 38 && braced[1..37] == ShowUuid(u);
    assert |urn| == 45 && urn[..9] == "urn:uuid:" && urn[9..] == ShowUuid(u);
  }

  /** A token decodes exactly when what precedes its first underscore is microseconds and what follows
      is a uuid. */
  lemma DecodeLaw(left: string, right: string)
    requires '_' !in left
    ensures var r := Decode(left + "_" + right);
      && (r.Some? <==> ParseMicros(left).Some? && ParseUuid(right).Some?)
      && (r.Some? ==> r.value == Cursor(ParseMicros(left).value, ParseUuid(right).value))
    ensures Decode(left) == None
  {
    FirstUnderscore(left, right);
    var token := left + "_" + right;
    assert token[..|left|] == left && token[|left| + 1..] == right;
  }

  lemma FirstUnderscore(left: string, right: string)
    requires '_' !in left
    ensures IndexOf(left + "_" + right, '_') == Some(|left|)
  {
    var token := left + "_" + right;
    var cut := IndexOf(token, '_').value;
    assert token[|left|] == '_';
    assert '_' !in token[..cut] && forall i | 0 <= i < |left| :: token[i] == left[i];
    assert cut <= |left|;
  }
}
