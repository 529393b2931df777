/** Numbers and registers as plan text, and back (src/instrumentation_plan.cpp). */
module PlanText {
  import opened Sequences

  const TEXT_MAX: nat := 1024
  const UINT32_MAX: nat := 0xffff_ffff
  const UINT64_MAX: nat := 0xffff_ffff_ffff_ffff

  /** A string the plan accepts: not empty, not too long, no NUL. */
  predicate IsText(s: string) {
    0 < |s| <= TEXT_MAX && '\0' !in s
  }

  // ------------------------------------------------------------ digits

  predicate IsDigit(c: char, base: nat) {
    ('0' <= c <= '9' && c as int - '0' as int < base) || ('a' <= c <= 'f' && c as int - 'a' as int + 10 < base)
  }

  function DigitValue(c: char): nat
    requires IsDigit(c, 16)
  {
    if c <= '9' then c as int - '0' as int else c as int - 'a' as int + 10
  }

  function DigitChar(d: nat): (c: char)
    requires d < 16
    ensures IsDigit(c, 16) && DigitValue(c) == d
  {
    if d < 10 then ('0' as int + d) as char else ('a' as int + d - 10) as char
  }

  predicate AllDigits(s: string, base: nat) {
    forall i :: 0 <= i < |s| ==> IsDigit(s[i], base)
  }

  /** The shortest numeral, as the standard library prints it. */
  function Show(n: nat, base: nat): string
    requires 2 <= base <= 16
    decreases n
  {
    if n < base then [DigitChar(n)] else Show(n / base, base) + [DigitChar(n % base)]
  }

  function Value(s: string, base: nat): nat
    requires base <= 16 && AllDigits(s, base)
  {
    if s == "" then 0 else Value(s[..|s| - 1], base) * base + DigitValue(s[|s| - 1])
  }

  lemma DigitInBase(d: nat, base: nat)
    requires d < base <= 16
    ensures IsDigit(DigitChar(d), base)
  {
  }

  lemma ValueSnoc(s: string, d: nat, base: nat)
    requires d < base <= 16 && AllDigits(s, base)
    ensures AllDigits(s + [DigitChar(d)], base) && Value(s + [DigitChar(d)], base) == Value(s, base) * base + d
  {
    DigitInBase(d, base);
    assert (s + [DigitChar(d)])[..|s|] == s;
  }

  lemma Divided(n: nat, base: nat)
    requires base > 0
    ensures n == n / base * base + n % base && n % base < base
  {
  }

  lemma {:induction false} ValueOfShow(n: nat, base: nat)
    requires 2 <= base <= 16
    ensures AllDigits(Show(n, base), base) && Show(n, base) != "" && Value(Show(n, base), base) == n
    decreases n
  {
    hide IsDigit, DigitChar, DigitValue, Value, AllDigits;
    if n < base {
      ValueOfDigit(n, base);
    } else {
      Divided(n, base);
      ValueOfShow(n / base, base);
      ValueSnoc(Show(n / base, base), n % base, base);
    }
  }

  lemma ValueOfDigit(d: nat, base: nat)
    requires d < base <= 16
    ensures AllDigits([DigitChar(d)], base) && Value([DigitChar(d)], base) == d
  {
    DigitInBase(d, base);
    assert Value([DigitChar(d)][..0], base) == 0;
  }

  function Power(base: nat, e: nat): nat {
    if e == 0 then 1 else base * Power(base, e - 1)
  }

  /** A number below base^width has at most `width` digits. */
  lemma {:induction false} ShowLength(n: nat, base: nat, width: nat)
    requires 2 <= base <= 16 && width > 0 && n < Power(base, width)
    ensures |Show(n, base)| <= width
    decreases n
  {
    hide Power;
    if n >= base {
      QuotientPower(n, base, width);
      ShowLength(n / base, base, width - 1);
    }
  }

  lemma QuotientPower(n: nat, base: nat, width: nat)
    requires 2 <= base <= n && width > 0 && n < Power(base, width)
    ensures width > 1 && n / base < Power(base, width - 1)
  {
    Quotient(n, base, Power(base, width - 1));
  }

  lemma Quotient(n: nat, base: nat, p: nat)
    requires 0 < base <= n < base * p
    ensures n / base < p && p > 1
  {
  }

  // ------------------------------------------------------------ PCs

  function HexPc(v: nat): string {
    "0x" + Show(v, 16)
  }

  /** None where the program refuses the text. */
  function ReadPc(s: string): Option<nat> {
    if !IsText(s) || |s| < 3 || |s| > 18 || s[..2] != "0x" || !AllDigits(s[2..], 16) then None
    else if Value(s[2..], 16) > UINT64_MAX then None
    else Some(Value(s[2..], 16))
  }

  lemma NoNul(s: string, base: nat)
    requires base <= 16 && AllDigits(s, base)
    ensures '\0' !in s
  {
    forall c | c in s ensures c != '\0' {
      var i :| 0 <= i < |s| && s[i] == c;
      assert IsDigit(s[i], base);
    }
  }

  /** Every 64-bit PC survives being written and read. */
  lemma PcRoundTrip(v: nat)
    requires v <= UINT64_MAX
    ensures ReadPc(HexPc(v)) == Some(v)
  {
    ValueOfShow(v, 16);
    assert Power(16, 16) == UINT64_MAX + 1 by {
      assert Power(16, 4) == 0x1_0000;
      assert Power(16, 8) == 0x1_0000_0000;
      assert Power(16, 12) == 0x1_0000_0000_0000;
    }
    ShowLength(v, 16, 16);
    NoNul(Show(v, 16), 16);
    assert HexPc(v)[..2] == "0x" && HexPc(v)[2..] == Show(v, 16);
  }

  /** What is read was written, up to leading zeros: reading again the canonical text gives the same PC. */
  lemma {:induction false} ReadPcIsCanonical(s: string)
    requires ReadPc(s).Some?
    ensures ReadPc(HexPc(ReadPc(s).value)) == ReadPc(s)
  {
    PcRoundTrip(ReadPc(s).value);
  }

  // ------------------------------------------------------------ registers

  datatype Bank = R | UR | P | UP

  datatype Register = Register(bank: Bank, index: nat)

  function Prefix(b: Bank): string {
    match b
    case R => "R"
    case UR => "UR"
    case P => "P"
    case UP => "UP"
  }

  function Name(r: Register): string {
    Prefix(r.bank) + Show(r.index, 10)
  }

  function BankOf(s: string): Option<Bank>
    requires s != ""
  {
    if |s| >= 2 && s[..2] == "UR" then Some(UR)
    else if |s| >= 2 && s[..2] == "UP" then Some(UP)
    else if s[0] == 'R' then Some(R)
    else if s[0] == 'P' then Some(P)
    else None
  }

  function ReadRegister(s: string): Option<Register> {
    if !IsText(s) || BankOf(s).None? then None
    else
      var digits := s[|Prefix(BankOf(s).value)|..];
      if digits == "" || !AllDigits(digits, 10) || Value(digits, 10) > UINT32_MAX then None
      else Some(Register(BankOf(s).value, Value(digits, 10)))
  }

  predicate RegisterOk(r: Register) { r.index <= UINT32_MAX }

  lemma BankOfName(r: Register)
    ensures Name(r) != "" && BankOf(Name(r)) == Some(r.bank)
  {
    ValueOfShow(r.index, 10);
    var digits := Show(r.index, 10);
    assert Name(r) == Prefix(r.bank) + digits;
    assert IsDigit(digits[0], 10);
    if r.bank.UR? || r.bank.UP? {
      assert Name(r)[..2] == Prefix(r.bank);
    } else {
      assert Name(r)[0] == Prefix(r.bank)[0];
      assert Name(r)[..2][0] == Name(r)[0];
    }
  }

  /** Every register survives being written and read. */
  lemma {:induction false} RegisterRoundTrip(r: Register)
    requires RegisterOk(r)
    ensures ReadRegister(Name(r)) == Some(r)
  {
    ValueOfShow(r.index, 10);
    BankOfName(r);
    NoNul(Show(r.index, 10), 10);
    assert Power(10, 10) == 100_0000_0000 by {
      assert Power(10, 5) == 10_0000;
    }
    ShowLength(r.index, 10, 10);
    assert Name(r)[|Prefix(r.bank)|..] == Show(r.index, 10);
  }

  lemma {:induction false} NamesDistinct(a: Register, b: Register)
    requires Name(a) == Name(b)
    ensures a == b
  {
    BankOfName(a);
    BankOfName(b);
    assert Name(a)[|Prefix(a.bank)|..] == Show(a.index, 10) && Name(b)[|Prefix(b.bank)|..] == Show(b.index, 10);
    ValueOfShow(a.index, 10);
    ValueOfShow(b.index, 10);
  }

  lemma ReadRegisterOk(s: string)
    ensures ReadRegister(s).Some? ==> RegisterOk(ReadRegister(s).value)
  {
  }
}
