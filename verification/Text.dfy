/** Text checks shared by the queue messages, the chain tables and the registry.
    A `string` is the sequence of characters of a valid UTF-8 text. */
module Text {

  datatype Option<+T> = None | Some(value: T)

  const NUL: char := '\0'

  /** The white space that strings.TrimSpace removes. */
  predicate IsSpace(c: char) {
    var n := c as int;
    || 9 <= n <= 13 || n == 0x20 || n == 0x85 || n == 0xA0 || n == 0x1680
    || 0x2000 <= n <= 0x200a || n == 0x2028 || n == 0x2029 || n == 0x202f || n == 0x205f || n == 0x3000
  }

  predicate Blank(s: string) {
    forall i | 0 <= i < |s| :: IsSpace(s[i])
  }

  predicate Trimmed(s: string) {
    |s| > 0 ==> !IsSpace(s[0]) && !IsSpace(s[|s| - 1])
  }

  predicate IsControl(c: char) {
    c as int < 0x20 || c as int == 0x7f
  }

  predicate NoControl(s: string) {
    forall i | 0 <= i < |s| :: !IsControl(s[i])
  }

  predicate ValidOpaqueText(s: string, limit: nat) {
    !Blank(s) && Trimmed(s) && |s| <= limit && NoControl(s)
  }

  /** An opaque text that can also stand inside a NATS subject. */
  predicate ValidIdentityText(s: string, limit: nat) {
    ValidOpaqueText(s, limit) && '*' !in s && '>' !in s && '.' !in s
  }

  predicate ValidEvidenceText(s: string, limit: nat) {
    |s| <= limit && NoControl(s)
  }

  predicate IsHex(c: char) {
    '0' <= c <= '9' || 'a' <= c <= 'f' || 'A' <= c <= 'F'
  }

  predicate ValidFingerprint(s: string) {
    |s| == 64 && forall i | 0 <= i < |s| :: IsHex(s[i])
  }

  function Lower(c: char): char {
    if 'A' <= c <= 'Z' then (c as int + 32) as char else c
  }

  predicate IsDashPosition(i: int) {
    i == 8 || i == 13 || i == 18 || i == 23
  }

  /** The first 36 characters are the dashed hexadecimal form, and not the nil UUID. */
  predicate DashedUUID(s: string)
    requires |s| >= 36
  {
    && (forall i | 0 <= i < 36 :: if IsDashPosition(i) then s[i] == '-' else IsHex(s[i]))
    && (exists i | 0 <= i < 36 :: !IsDashPosition(i) && s[i] != '0')
  }

  /** The forms uuid.Parse accepts: plain, URN, braced and undashed. */
  predicate IsUUID(s: string) {
    match |s|
    case 36 => DashedUUID(s)
    case 45 =>
      (forall i | 0 <= i < 9 :: Lower(s[i]) == "urn:uuid:"[i]) && DashedUUID(s[9..])
    case 38 => s[0] as int < 0x80 && s[37] as int < 0x80 && DashedUUID(s[1..])
    case 32 => (forall i | 0 <= i < 32 :: IsHex(s[i])) && (exists i | 0 <= i < 32 :: s[i] != '0')
    case _ => false
  }

  /** The nil UUID is no identity, dashed or undashed. */
  lemma NilIsNoUUID(s: string)
    requires (|s| == 36 || |s| == 32) && forall i | 0 <= i < |s| :: s[i] == '0' || s[i] == '-'
    ensures !IsUUID(s)
  {
  }

  function Truncate(s: string, limit: nat): string {
    if |s| <= limit then s else s[..limit]
  }

  /** A nullable column value: NULL for the empty text, cut to the column otherwise. */
  function NullString(s: string, limit: nat): Option<string> {
    if s == "" then None else Some(Truncate(s, limit))
  }

  /** The text a NULL column reads as. */
  function OrEmpty(s: Option<string>): string {
    if s.Some? then s.value else ""
  }

  predicate HasPrefix(s: string, prefix: string) {
    prefix <= s
  }

  function Digit(d: int): char
    requires 0 <= d < 10
  {
    ('0' as int + d) as char
  }

  function DecimalNat(n: nat): (s: string)
    ensures |s| > 0 && forall i | 0 <= i < |s| :: '0' <= s[i] <= '9'
  {
    if n < 10 then [Digit(n)] else DecimalNat(n / 10) + [Digit(n % 10)]
  }

  /** strconv.FormatInt(n, 10). */
  function Decimal(n: int): string {
    if n < 0 then ['-'] + DecimalNat(-n) else DecimalNat(n)
  }

  /** Reads a run of decimal digits. */
  function ParseNat(s: string): nat
    requires forall i | 0 <= i < |s| :: '0' <= s[i] <= '9'
  {
    if s == "" then 0 else ParseNat(s[..|s| - 1]) * 10 + (s[|s| - 1] as int - '0' as int)
  }

  lemma {:induction false} ParseInvertsDecimalNat(n: nat)
    ensures ParseNat(DecimalNat(n)) == n
  {
    if n >= 10 {
      ParseInvertsDecimalNat(n / 10);
      var s := DecimalNat(n);
      assert s[..|s| - 1] == DecimalNat(n / 10);
      assert s[|s| - 1] == Digit(n % 10);
    } else {
      assert DecimalNat(n)[..0] == "";
    }
  }

  lemma DecimalSign(n: int)
    ensures |Decimal(n)| > 0 && (Decimal(n)[0] == '-' <==> n < 0)
  {
  }

  lemma DecimalIsInjective(m: int, n: int)
    requires Decimal(m) == Decimal(n)
    ensures m == n
  {
    hide DecimalNat, ParseNat;
    DecimalSign(m);
    DecimalSign(n);
    if m < 0 {
      assert Decimal(m)[1..] == DecimalNat(-m) && Decimal(n)[1..] == DecimalNat(-n);
      ParseInvertsDecimalNat(-m);
      ParseInvertsDecimalNat(-n);
    } else {
      ParseInvertsDecimalNat(m);
      ParseInvertsDecimalNat(n);
    }
  }

  /** Two texts joined by a separator that the left parts do not hold split in one way only. */
  lemma JoinSplitsOnce(a: string, b: string, c: string, d: string, sep: char)
    requires sep !in a && sep !in c
    requires a + [sep] + b == c + [sep] + d
    ensures a == c && b == d
  {
    var left, right := a + [sep] + b, c + [sep] + d;
    assert forall i | 0 <= i < |a| :: left[i] == a[i] && a[i] in a;
    assert forall i | 0 <= i < |c| :: right[i] == c[i] && c[i] in c;
    assert left[|a|] == sep && right[|c|] == sep;
    assert |a| == |c|;
    assert left[..|a|] == a && right[..|c|] == c;
    assert left[|a| + 1..] == b && right[|c| + 1..] == d;
  }

  lemma SeparatorIsNotInRight(a: string, b: string, c: string, d: string, sep: char)
    requires sep !in d && a + [sep] + b == c + [sep] + d
    ensures |a| <= |c|
  {
    var right := c + [sep] + d;
    assert (a + [sep] + b)[|a|] == sep;
    assert forall j | 0 <= j < |d| :: right[|c| + 1 + j] == d[j] && d[j] in d;
  }

  /** Two texts joined by a separator that the right parts do not hold split in one way only. */
  lemma SplitsAtLast(a: string, b: string, c: string, d: string, sep: char)
    requires sep !in b && sep !in d && a + [sep] + b == c + [sep] + d
    ensures a == c && b == d
  {
    SeparatorIsNotInRight(a, b, c, d, sep);
    SeparatorIsNotInRight(c, d, a, b, sep);
    var left, right := a + [sep] + b, c + [sep] + d;
    assert left[..|a|] == a && right[..|c|] == c;
    assert left[|a| + 1..] == b && right[|c| + 1..] == d;
  }
}
