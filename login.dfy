/**
  The login page: the CPF (Brazilian taxpayer number) mask applied on every
  keystroke, the CPF check-digit validation, and the accept/reject decision
  of the login form.
 */
module Login {
  import opened Text
  import opened Wrappers

  // ---------------------------------------------------------------------
  // Validation
  // ---------------------------------------------------------------------

  /** `parseInt` of a one-character digit string. */
  function DigitValue(c: char): (v: int)
    ensures IsDigit(c) ==> 0 <= v <= 9
  {
    c as int - '0' as int
  }

  /**
    The weighted sum of the first `n` digits, the digit at 1-based position
    `i` weighted by `top - i`: weights 10..2 for the first check digit
    (`top` = 11) and 11..2 for the second (`top` = 12).
   */
  function WeightedSum(ds: string, n: nat, top: int): (sum: int)
    requires n <= |ds|
    ensures AllDigits(ds) && n < top ==> sum >= 0
  {
    if n == 0 then 0 else WeightedSum(ds, n - 1, top) + DigitValue(ds[n - 1]) * (top - n)
  }

  /** The check digit for a weighted sum: `(sum * 10) % 11`, with 10 (or 11) read as 0. */
  function CheckDigit(sum: int): (d: int)
    requires sum >= 0
    ensures 0 <= d <= 9
  {
    var remainder := (sum * 10) % 11;
    if remainder == 10 || remainder == 11 then 0 else remainder
  }

  /** All characters equal the first: the regular expression `^(\d)\1{10}$` on 11 digits. */
  predicate AllSame(ds: string) {
    forall i :: 0 <= i < |ds| ==> ds[i] == ds[0]
  }

  /** Eleven digits, not all the same, both check digits right. */
  predicate ValidCpfDigits(ds: string) {
    && AllDigits(ds)
    && |ds| == 11
    && !AllSame(ds)
    && CheckDigit(WeightedSum(ds, 9, 11)) == DigitValue(ds[9])
    && CheckDigit(WeightedSum(ds, 10, 12)) == DigitValue(ds[10])
  }

  /** A CPF as typed (with or without punctuation) is valid when its digits are. */
  predicate ValidCpf(cpf: string) {
    ValidCpfDigits(Digits(cpf))
  }

  /** `validateCPF`: the two accumulation loops, proved to decide ValidCpf. */
  method ValidateCpf(cpf: string) returns (ok: bool)
    ensures ok == ValidCpf(cpf)
    ensures |Digits(cpf)| != 11 ==> !ok
    ensures AllSame(Digits(cpf)) ==> !ok
  {
    var numbers := Digits(cpf);
    if |numbers| != 11 {
      return false;
    }
    if AllSame(numbers) {
      return false;
    }

    var sum := 0;
    for i := 1 to 10
      invariant sum == WeightedSum(numbers, i - 1, 11)
    {
      sum := sum + DigitValue(numbers[i - 1]) * (11 - i);
    }
    var remainder := (sum * 10) % 11;
    if remainder == 10 || remainder == 11 {
      remainder := 0;
    }
    if remainder != DigitValue(numbers[9]) {
      return false;
    }

    sum := 0;
    for i := 1 to 11
      invariant sum == WeightedSum(numbers, i - 1, 12)
    {
      sum := sum + DigitValue(numbers[i - 1]) * (12 - i);
    }
    remainder := (sum * 10) % 11;
    if remainder == 10 || remainder == 11 {
      remainder := 0;
    }
    if remainder != DigitValue(numbers[10]) {
      return false;
    }
    return true;
  }

  /**
    The check digit agrees with the rule as it is usually published:
    0 when `sum % 11 < 2`, otherwise `11 - sum % 11`.
   */
  lemma CheckDigitStandardRule(sum: int)
    requires sum >= 0
    ensures CheckDigit(sum) == if sum % 11 < 2 then 0 else 11 - sum % 11
  {
    var q, r := sum / 11, sum % 11;
    assert sum == 11 * q + r;
    if r == 0 {
      assert sum * 10 == 11 * (10 * q);
    } else {
      // 10 * r == 11 * (r - 1) + (11 - r), and 11 - r is a remainder
      assert sum * 10 == 11 * (10 * q + r - 1) + (11 - r);
      assert (sum * 10) % 11 == 11 - r;
    }
  }

  /** Validation looks only at the digits: punctuation never matters. */
  lemma ValidCpfDependsOnDigits(s: string)
    ensures ValidCpf(s) == ValidCpf(Digits(s))
  {
    DigitsIdempotent(s);
  }

  /** The sum of the weights `top - 1, top - 2, ..., top - n`. */
  function Weights(n: nat, top: int): int {
    if n == 0 then 0 else Weights(n - 1, top) + (top - n)
  }

  /** On a run of one digit the weighted sum is that digit times the sum of the weights. */
  lemma {:induction false} RepdigitSum(s: string, d: char, n: nat, top: int)
    requires n <= |s| && forall i :: 0 <= i < |s| ==> s[i] == d
    ensures WeightedSum(s, n, top) == DigitValue(d) * Weights(n, top)
  {
    if n > 0 {
      RepdigitSum(s, d, n - 1, top);
      var v := DigitValue(d);
      assert v * Weights(n - 1, top) + v * (top - n) == v * (Weights(n - 1, top) + (top - n));
    }
  }

  /**
    The ten repeated-digit numbers pass both check-digit tests (540 and 650
    are both 1 modulo 11), so it is the repeated-digit test alone that
    rejects them.
   */
  lemma RepdigitsInvalid(d: char)
    requires IsDigit(d)
    ensures var s := seq(11, _ => d);
            && CheckDigit(WeightedSum(s, 9, 11)) == DigitValue(d)
            && CheckDigit(WeightedSum(s, 10, 12)) == DigitValue(d)
            && !ValidCpf(s)
  {
    var s := seq(11, _ => d);
    var v := DigitValue(d);
    DigitsOfAllDigits(s);
    RepdigitSum(s, d, 9, 11);
    RepdigitSum(s, d, 10, 12);
    assert Weights(9, 11) == 54 && Weights(10, 12) == 65;
    assert (v * 54) * 10 == 11 * (49 * v) + v;
    assert (v * 65) * 10 == 11 * (59 * v) + v;
  }

  // ---------------------------------------------------------------------
  // Formatting
  // ---------------------------------------------------------------------

  /** Four consecutive digits start at `i`: where `(\d{3})(\d)` matches. */
  predicate RunAt(s: string, i: int) {
    0 <= i && i + 4 <= |s| && IsDigit(s[i]) && IsDigit(s[i + 1]) && IsDigit(s[i + 2]) && IsDigit(s[i + 3])
  }

  /** The leftmost match of `(\d{3})(\d)` at or after `from`, as a regular-expression search finds it. */
  function FirstRun(s: string, from: nat): (r: Option<nat>)
    decreases |s| - from
    ensures r.Some? ==> from <= r.value && RunAt(s, r.value)
    ensures r.Some? ==> forall j :: from <= j < r.value ==> !RunAt(s, j)
    ensures r.None? ==> forall j :: from <= j ==> !RunAt(s, j)
  {
    if from + 4 > |s| then None
    else if RunAt(s, from) then Some(from)
    else FirstRun(s, from + 1)
  }

  /**
    `s.replace(/(\d{3})(\d)/, "$1" + sep + "$2")`, and equally
    `(\d{3})(\d{1,2})` with `"$1-$2"`: both groups are put back, so the only
    change is `sep` after the first three digits of the leftmost match.
   */
  function InsertAtFirstRun(s: string, sep: char): string {
    match FirstRun(s, 0)
    case None => s
    case Some(i) => s[..i + 3] + [sep] + s[i + 3..]
  }

  /** One replacement inserts a non-digit only: the digits are unchanged. */
  lemma InsertAtFirstRunDigits(s: string, sep: char)
    requires !IsDigit(sep)
    ensures Digits(InsertAtFirstRun(s, sep)) == Digits(s)
  {
    if i :| FirstRun(s, 0) == Some(i) {
      DigitsSeparated(s[..i + 3], sep, s[i + 3..]);
      assert s == s[..i + 3] + s[i + 3..];
      DigitsAppend(s[..i + 3], s[i + 3..]);
    }
  }

  /** `formatCPF`. */
  function FormatCpf(value: string): string {
    var numbers := Digits(value);
    if |numbers| <= 11 then
      InsertAtFirstRun(InsertAtFirstRun(InsertAtFirstRun(numbers, '.'), '.'), '-')
    else
      value
  }

  /** The mask `DDD.DDD.DDD-DD`, each separator present only once a digit follows it. */
  function CpfMask(n: string): string
    requires |n| <= 11
  {
    if |n| <= 3 then n
    else if |n| <= 6 then n[..3] + "." + n[3..]
    else if |n| <= 9 then n[..3] + "." + n[3..6] + "." + n[6..]
    else n[..3] + "." + n[3..6] + "." + n[6..9] + "-" + n[9..]
  }

  /** Cutting a concatenation inside its second part. */
  lemma SplitAfter(x: string, y: string, j: int)
    requires 0 <= j <= |y|
    ensures (x + y)[..|x| + j] == x + y[..j]
    ensures (x + y)[|x| + j..] == y[j..]
  {
  }

  lemma FirstRunIs(s: string, i: nat)
    requires RunAt(s, i)
    requires forall j :: 0 <= j < i ==> !RunAt(s, j)
    ensures FirstRun(s, 0) == Some(i)
  {
  }

  lemma NoRun(s: string)
    requires forall j :: 0 <= j ==> !RunAt(s, j)
    ensures FirstRun(s, 0) == None
  {
  }

  /** The three replacements produce the mask, whatever the number of digits up to 11. */
  lemma FormatCpfIsMask(value: string)
    requires |Digits(value)| <= 11
    ensures FormatCpf(value) == CpfMask(Digits(value))
  {
    var n := Digits(value);
    if |n| <= 3 {
      NoRun(n);
    } else {
      var s1 := n[..3] + "." + n[3..];
      FirstInsertion(n);
      if |n| <= 6 {
        NoRun(s1);
      } else {
        var s2 := n[..3] + "." + n[3..6] + "." + n[6..];
        SecondInsertion(n);
        if |n| <= 9 {
          NoRun(s2);
        } else {
          ThirdInsertion(n);
        }
      }
    }
  }

  /** On 4 or more digits the first replacement puts a dot after the third. */
  lemma FirstInsertion(n: string)
    requires AllDigits(n) && 4 <= |n| <= 11
    ensures InsertAtFirstRun(n, '.') == n[..3] + "." + n[3..]
    ensures |n| <= 6 ==> forall j :: 0 <= j ==> !RunAt(n[..3] + "." + n[3..], j)
  {
    FirstRunIs(n, 0);
  }

  /** On 7 or more digits the second replacement puts a dot after the sixth. */
  lemma SecondInsertion(n: string)
    requires AllDigits(n) && 7 <= |n| <= 11
    ensures InsertAtFirstRun(n[..3] + "." + n[3..], '.') == n[..3] + "." + n[3..6] + "." + n[6..]
    ensures |n| <= 9 ==> forall j :: 0 <= j ==> !RunAt(n[..3] + "." + n[3..6] + "." + n[6..], j)
  {
    var head := n[..3] + ".";
    var s1 := head + n[3..];
    FirstRunIs(s1, 4);
    SplitAfter(head, n[3..], 3);
    assert n[3..][..3] == n[3..6] && n[3..][3..] == n[6..];
    assert s1[..7] + "." + s1[7..] == n[..3] + "." + n[3..6] + "." + n[6..];
  }

  /** On 10 or 11 digits the third replacement puts a dash after the ninth. */
  lemma ThirdInsertion(n: string)
    requires AllDigits(n) && 10 <= |n| <= 11
    ensures InsertAtFirstRun(n[..3] + "." + n[3..6] + "." + n[6..], '-') == CpfMask(n)
  {
    var head := n[..3] + "." + n[3..6] + ".";
    var s2 := head + n[6..];
    FirstRunIs(s2, 8);
    SplitAfter(head, n[6..], 3);
    assert n[6..][..3] == n[6..9] && n[6..][3..] == n[9..];
    assert s2[..11] + "-" + s2[11..] == CpfMask(n);
  }

  /** The mask adds separators only: its digits are the input's. */
  lemma CpfMaskDigits(n: string)
    requires AllDigits(n) && |n| <= 11
    ensures Digits(CpfMask(n)) == n
  {
    DigitsOfAllDigits(n);
    if 3 < |n| <= 6 {
      assert n == n[..3] + n[3..];
      DigitsSeparated(n[..3], '.', n[3..]);
      DigitsAppend(n[..3], n[3..]);
    } else if 6 < |n| <= 9 {
      assert n == n[..3] + n[3..6] + n[6..];
      DigitsSeparated(n[..3], '.', n[3..6]);
      DigitsSeparated(n[..3] + "." + n[3..6], '.', n[6..]);
      DigitsAppend(n[..3], n[3..6]);
      DigitsAppend(n[..3] + n[3..6], n[6..]);
    } else if 9 < |n| {
      assert n == n[..3] + n[3..6] + n[6..9] + n[9..];
      DigitsSeparated(n[..3], '.', n[3..6]);
      DigitsSeparated(n[..3] + "." + n[3..6], '.', n[6..9]);
      DigitsSeparated(n[..3] + "." + n[3..6] + "." + n[6..9], '-', n[9..]);
      DigitsAppend(n[..3], n[3..6]);
      DigitsAppend(n[..3] + n[3..6], n[6..9]);
      DigitsAppend(n[..3] + n[3..6] + n[6..9], n[9..]);
    }
  }

  /** Formatting a CPF of at most 11 digits keeps exactly its digits, in order. */
  lemma FormatCpfKeepsDigits(value: string)
    requires |Digits(value)| <= 11
    ensures Digits(FormatCpf(value)) == Digits(value)
  {
    FormatCpfIsMask(value);
    CpfMaskDigits(Digits(value));
  }

  /**
    Re-applying the mask on the next keystroke changes nothing; past 11
    digits the raw input is returned as it is.
   */
  lemma FormatCpfIdempotent(value: string)
    ensures |Digits(value)| > 11 ==> FormatCpf(value) == value
    ensures FormatCpf(FormatCpf(value)) == FormatCpf(value)
  {
    if |Digits(value)| <= 11 {
      FormatCpfKeepsDigits(value);
    }
  }

  /** A formatted CPF validates exactly as the digits typed. */
  lemma FormattedCpfValidatesAlike(value: string)
    ensures ValidCpf(FormatCpf(value)) == ValidCpf(value)
  {
    if |Digits(value)| <= 11 {
      FormatCpfKeepsDigits(value);
    }
  }

  // The mask as the user types the example number: 9, 10 and 11 digits.

  lemma FormatNineDigits()
    ensures FormatCpf("123456789") == "123.456.789"
  {
    var n := "123456789";
    assert n[..3] == "123" && n[3..6] == "456" && n[6..] == "789";
    assert CpfMask(n) == "123" + "." + "456" + "." + "789" == "123.456.789";
    FormatCpfExample(n, "123.456.789");
  }

  lemma FormatTenDigits()
    ensures FormatCpf("1234567890") == "123.456.789-0"
  {
    var n := "1234567890";
    assert n[..3] == "123" && n[3..6] == "456" && n[6..9] == "789" && n[9..] == "0";
    assert CpfMask(n) == "123" + "." + "456" + "." + "789" + "-" + "0" == "123.456.789-0";
    FormatCpfExample(n, "123.456.789-0");
  }

  lemma FormatElevenDigits()
    ensures FormatCpf("12345678909") == "123.456.789-09"
  {
    var n := "12345678909";
    assert n[..3] == "123" && n[3..6] == "456" && n[6..9] == "789" && n[9..] == "09";
    assert CpfMask(n) == "123" + "." + "456" + "." + "789" + "-" + "09" == "123.456.789-09";
    FormatCpfExample(n, "123.456.789-09");
  }

  lemma FormatCpfExample(n: string, masked: string)
    requires AllDigits(n) && |n| <= 11 && CpfMask(n) == masked
    ensures FormatCpf(n) == masked
  {
    DigitsOfAllDigits(n);
    FormatCpfIsMask(n);
  }

  /** The demonstration number shown on the login page is valid. */
  lemma DemoCpfValid()
    ensures ValidCpf("123.456.789-09")
  {
    var ds := "12345678909";
    DemoDigitsValid(ds);
    DigitsOfAllDigits(ds);
    FormattedCpfValidatesAlike(ds);
    FormatElevenDigits();
  }

  lemma DemoDigitsValid(ds: string)
    requires ds == "12345678909"
    ensures ValidCpfDigits(ds)
  {
    assert AllDigits(ds);
    assert ds[1] != ds[0];
    FirstCheckSum(ds);
    SecondCheckSum(ds);
    assert CheckDigit(210) == 0 && CheckDigit(255) == 9;
  }

  lemma MaskedValid(ds: string)
    requires ValidCpfDigits(ds)
    ensures ValidCpf(CpfMask(ds))
  {
    CpfMaskDigits(ds);
  }

  /** Changing the demonstration number's last digit to 0 makes it invalid. */
  lemma DemoCpfWrongDigit()
    ensures !ValidCpf("12345678900")
  {
    var bad := "12345678900";
    assert AllDigits(bad);
    SecondCheckSum(bad);
    assert CheckDigit(255) == 9;
    assert !ValidCpfDigits(bad);
    DigitsOfAllDigits(bad);
  }

  lemma FirstCheckSum(ds: string)
    requires |ds| == 11 && ds[..9] == "123456789"
    ensures WeightedSum(ds, 9, 11) == 210
  {
    assert ds[0] == '1' && ds[1] == '2' && ds[2] == '3' && ds[3] == '4' && ds[4] == '5';
    assert ds[5] == '6' && ds[6] == '7' && ds[7] == '8' && ds[8] == '9';
    assert WeightedSum(ds, 1, 11) == 10;
    assert WeightedSum(ds, 2, 11) == 28;
    assert WeightedSum(ds, 3, 11) == 52;
    assert WeightedSum(ds, 4, 11) == 80;
    assert WeightedSum(ds, 5, 11) == 110;
    assert WeightedSum(ds, 6, 11) == 140;
    assert WeightedSum(ds, 7, 11) == 168;
    assert WeightedSum(ds, 8, 11) == 192;
  }

  lemma SecondCheckSum(ds: string)
    requires |ds| == 11 && ds[..10] == "1234567890"
    ensures WeightedSum(ds, 10, 12) == 255
  {
    assert ds[0] == '1' && ds[1] == '2' && ds[2] == '3' && ds[3] == '4' && ds[4] == '5';
    assert ds[5] == '6' && ds[6] == '7' && ds[7] == '8' && ds[8] == '9' && ds[9] == '0';
    assert WeightedSum(ds, 1, 12) == 11;
    assert WeightedSum(ds, 2, 12) == 31;
    assert WeightedSum(ds, 3, 12) == 58;
    assert WeightedSum(ds, 4, 12) == 90;
    assert WeightedSum(ds, 5, 12) == 125;
    assert WeightedSum(ds, 6, 12) == 161;
    assert WeightedSum(ds, 7, 12) == 196;
    assert WeightedSum(ds, 8, 12) == 228;
    assert WeightedSum(ds, 9, 12) == 255;
  }

  // ---------------------------------------------------------------------
  // Login decision
  // ---------------------------------------------------------------------

  datatype LoginOutcome = InvalidCpf | ShortPassword | Accepted

  /**
    The decision of `handleLogin`: the CPF is checked first, then the
    password length; only both passing lets the login proceed.
   */
  method HandleLogin(cpf: string, password: string) returns (outcome: LoginOutcome)
    ensures outcome == Accepted <==> ValidCpf(cpf) && |password| >= 6
    ensures outcome == InvalidCpf <==> !ValidCpf(cpf)
    ensures outcome == ShortPassword <==> ValidCpf(cpf) && |password| < 6
  {
    var ok := ValidateCpf(cpf);
    if !ok {
      return InvalidCpf;
    }
    if |password| < 6 {
      return ShortPassword;
    }
    return Accepted;
  }
}
