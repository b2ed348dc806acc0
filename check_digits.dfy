/**
 * Check-digit validation of Brazilian taxpayer numbers (CPF, 11 digits, and
 * CNPJ, 14 digits), as done by isValidCpf and isValidCnpj in
 * src/utils/validation.ts.
 *
 * The specification side uses the weight tables and the modulo-11 rule as
 * published for these numbers. The methods follow the source's loops (the
 * CPF "times ten" remainder rule, the CNPJ weight counter that wraps from 2
 * back to 9). Their postconditions tie each method to that specification.
 */
module CheckDigits {
  import opened Text

  /** Weights for the first and second CPF check digits. */
  const CpfWeights1: seq<nat> := [10, 9, 8, 7, 6, 5, 4, 3, 2]
  const CpfWeights2: seq<nat> := [11, 10, 9, 8, 7, 6, 5, 4, 3, 2]

  /** Weights for the first and second CNPJ check digits. */
  const CnpjWeights1: seq<nat> := [5, 4, 3, 2, 9, 8, 7, 6, 5, 4, 3, 2]
  const CnpjWeights2: seq<nat> := [6, 5, 4, 3, 2, 9, 8, 7, 6, 5, 4, 3, 2]

  /** The pattern /^(\d)\1+$/: at least two digits, all equal. */
  predicate RepeatedDigit(s: string) {
    |s| >= 2 && AllDigits(s) && forall i :: 0 <= i < |s| ==> s[i] == s[0]
  }

  /** The sum of each digit times the weight in the same position. */
  function Weighted(d: string, w: seq<nat>): nat
    requires AllDigits(d) && |w| == |d|
  {
    WeightedFrom(d, w, 0)
  }

  /** The weighted sum of the positions from i on. */
  function WeightedFrom(d: string, w: seq<nat>, i: nat): nat
    requires AllDigits(d) && |w| == |d| && i <= |d|
    decreases |d| - i
  {
    if i == |d| then 0 else DigitValue(d[i]) * w[i] + WeightedFrom(d, w, i + 1)
  }

  /**
   * The modulo-11 check digit of a weighted sum: 0 when the remainder is
   * below 2, otherwise the digit that brings the sum up to a multiple of 11.
   */
  function Mod11Digit(sum: nat): (r: nat)
    ensures r <= 9
    ensures r == 0 <==> sum % 11 < 2
    ensures r != 0 ==> (sum + r) % 11 == 0
  {
    if sum % 11 < 2 then 0 else 11 - sum % 11
  }

  /** Both check digits of n agree with the weighted sums of the digits before them. */
  predicate ChecksumsMatch(n: string, w1: seq<nat>, w2: seq<nat>)
    requires AllDigits(n) && |n| == |w1| + 2 && |w2| == |w1| + 1
  {
    Mod11Digit(Weighted(n[..|w1|], w1)) == DigitValue(n[|w1|])
    && Mod11Digit(Weighted(n[..|w2|], w2)) == DigitValue(n[|w2|])
  }

  /** A CPF is valid when its digits number 11, are not all equal and carry matching check digits. */
  predicate ValidCpf(s: string) {
    var n := OnlyDigits(s);
    |n| == 11 && !RepeatedDigit(n) && ChecksumsMatch(n, CpfWeights1, CpfWeights2)
  }

  /** A CNPJ is valid when its digits number 14, are not all equal and carry matching check digits. */
  predicate ValidCnpj(s: string) {
    var n := OnlyDigits(s);
    |n| == 14 && !RepeatedDigit(n) && ChecksumsMatch(n, CnpjWeights1, CnpjWeights2)
  }

  /** The CPF code's remainder rule: ten times the sum modulo 11, with 10 and 11 read as 0. */
  function CpfRemainder(sum: nat): (digit: nat)
    ensures digit == Mod11Digit(sum)
  {
    var q, m := sum / 11, sum % 11;
    assert sum * 10 == 11 * (10 * q) + 10 * m;
    assert (sum * 10) % 11 == (10 * m) % 11;
    var r := (sum * 10) % 11;
    if r == 10 || r == 11 then 0 else r
  }

  /** A weighted sum splits off its last position. */
  lemma {:induction false} WeightedFromSnoc(d: string, w: seq<nat>, k: nat, i: nat)
    requires AllDigits(d) && |w| == |d| && i <= k < |d|
    ensures WeightedFrom(d[..k + 1], w[..k + 1], i) == WeightedFrom(d[..k], w[..k], i) + DigitValue(d[k]) * w[k]
    decreases k - i
  {
    if i < k {
      WeightedFromSnoc(d, w, k, i + 1);
    }
  }

  /** One more position of a weighted sum. */
  lemma WeightedSnoc(d: string, w: seq<nat>, k: nat)
    requires AllDigits(d) && |w| == |d| && k < |d|
    ensures Weighted(d[..k + 1], w[..k + 1]) == Weighted(d[..k], w[..k]) + DigitValue(d[k]) * w[k]
  {
    WeightedFromSnoc(d, w, k, 0);
  }

  /** The weight the CPF loop uses at position k when it sums the first count digits. */
  function CpfWeight(count: nat, k: nat): nat
    requires k < count
  {
    count + 1 - k
  }

  /** The CPF loop's weights, 11 - i and 12 - i for the i-th digit, are the CPF weight tables. */
  lemma CpfWeightsFromLoop()
    ensures forall k :: 0 <= k < 9 ==> CpfWeights1[k] == CpfWeight(9, k)
    ensures forall k :: 0 <= k < 10 ==> CpfWeights2[k] == CpfWeight(10, k)
  {
  }

  /** The sum the CPF loop builds over the first count digits. */
  method CpfSum(numbers: string, count: nat, w: seq<nat>) returns (sum: nat)
    requires AllDigits(numbers) && |numbers| == count && |w| == count
    requires forall k :: 0 <= k < count ==> w[k] == CpfWeight(count, k)
    ensures sum == Weighted(numbers, w)
  {
    sum := 0;
    for i := 1 to count + 1
      invariant sum == Weighted(numbers[..i - 1], w[..i - 1])
    {
      WeightedSnoc(numbers, w, i - 1);
      sum := sum + DigitValue(numbers[i - 1]) * (count + 2 - i);
    }
    assert numbers[..count] == numbers && w[..count] == w;
  }

  /** isValidCpf, src/utils/validation.ts. */
  method IsValidCpf(cpf: string) returns (ok: bool)
    ensures ok == ValidCpf(cpf)
  {
    var n := OnlyDigits(cpf);
    if |n| != 11 {
      return false;
    }
    if RepeatedDigit(n) {
      return false;
    }
    CpfWeightsFromLoop();
    var sum := CpfSum(n[..9], 9, CpfWeights1);
    var remainder := CpfRemainder(sum);
    if remainder != DigitValue(n[9]) {
      return false;
    }
    sum := CpfSum(n[..10], 10, CpfWeights2);
    remainder := CpfRemainder(sum);
    if remainder != DigitValue(n[10]) {
      return false;
    }
    return true;
  }

  /** The weight the CNPJ loop uses at position k of a prefix of the given size. */
  function CnpjWeight(size: nat, k: nat): nat
    requires 9 <= size && k < size
  {
    if k <= size - 9 then size - 7 - k else size + 1 - k
  }

  /** The loop's counter, started at size - 7 and wrapped from below 2 to 9, walks the CNPJ weight tables. */
  lemma CnpjWeightsFromCounter()
    ensures forall k :: 0 <= k < 12 ==> CnpjWeights1[k] == CnpjWeight(12, k)
    ensures forall k :: 0 <= k < 13 ==> CnpjWeights2[k] == CnpjWeight(13, k)
    ensures CnpjWeight(12, 0) == 12 - 7 && CnpjWeight(13, 0) == 13 - 7
    ensures forall size: nat, k: nat :: 9 <= size && k + 1 < size ==>
      CnpjWeight(size, k + 1) == (if CnpjWeight(size, k) - 1 < 2 then 9 else CnpjWeight(size, k) - 1)
  {
  }

  /** The sum the CNPJ loop builds over the first size digits. */
  method CnpjSum(numbers: string, size: nat, w: seq<nat>) returns (sum: nat)
    requires AllDigits(numbers) && |numbers| == size && |w| == size && 9 <= size
    requires forall k :: 0 <= k < size ==> w[k] == CnpjWeight(size, k)
    ensures sum == Weighted(numbers, w)
  {
    CnpjWeightsFromCounter();
    sum := 0;
    var pos: int := size - 7;
    var i := size;
    while i >= 1
      invariant 0 <= i <= size
      invariant sum == Weighted(numbers[..size - i], w[..size - i])
      invariant i >= 1 ==> pos == w[size - i]
    {
      WeightedSnoc(numbers, w, size - i);
      sum := sum + DigitValue(numbers[size - i]) * pos;
      pos := pos - 1;
      if pos < 2 {
        pos := 9;
      }
      i := i - 1;
    }
    assert numbers[..size] == numbers && w[..size] == w;
  }

  /** isValidCnpj, src/utils/validation.ts. */
  method IsValidCnpj(cnpj: string) returns (ok: bool)
    ensures ok == ValidCnpj(cnpj)
  {
    var n := OnlyDigits(cnpj);
    if |n| != 14 {
      return false;
    }
    if RepeatedDigit(n) {
      return false;
    }
    CnpjWeightsFromCounter();
    var size := |n| - 2;
    var sum := CnpjSum(n[..size], size, CnpjWeights1);
    var result := if sum % 11 < 2 then 0 else 11 - sum % 11;
    if result != DigitValue(n[size]) {
      return false;
    }
    size := size + 1;
    sum := CnpjSum(n[..size], size, CnpjWeights2);
    result := if sum % 11 < 2 then 0 else 11 - sum % 11;
    if result != DigitValue(n[13]) {
      return false;
    }
    return true;
  }
}

module CheckDigitProperties {
  import opened Text
  import opened CheckDigits

  /** Punctuation does not matter: validity depends on the digits alone. */
  lemma ValidityDependsOnDigitsOnly(s: string)
    ensures ValidCpf(s) == ValidCpf(OnlyDigits(s))
    ensures ValidCnpj(s) == ValidCnpj(OnlyDigits(s))
  {
    OnlyDigitsOfDigits(OnlyDigits(s));
  }

  function Repeat(c: char, n: nat): (r: string)
    ensures |r| == n && forall i :: 0 <= i < n ==> r[i] == c
  {
    seq(n, _ => c)
  }

  function Total(w: seq<nat>): nat {
    TotalFrom(w, 0)
  }

  function TotalFrom(w: seq<nat>, i: nat): nat
    requires i <= |w|
    decreases |w| - i
  {
    if i == |w| then 0 else w[i] + TotalFrom(w, i + 1)
  }

  /** With one digit repeated, the weighted sum is that digit times the sum of the weights. */
  lemma {:induction false} WeightedOfRepeat(c: char, w: seq<nat>, i: nat)
    requires IsDigit(c) && i <= |w|
    ensures WeightedFrom(Repeat(c, |w|), w, i) == DigitValue(c) * TotalFrom(w, i)
    decreases |w| - i
  {
    if i < |w| {
      WeightedOfRepeat(c, w, i + 1);
    }
  }

  lemma RepeatPrefix(c: char, n: nat, k: nat)
    requires k <= n
    ensures Repeat(c, n)[..k] == Repeat(c, k)
  {
  }

  /** The check digits of a repeated digit, in terms of the weight totals. */
  lemma ChecksumsOfRepeat(c: char, w1: seq<nat>, w2: seq<nat>)
    requires IsDigit(c) && |w2| == |w1| + 1
    ensures ChecksumsMatch(Repeat(c, |w1| + 2), w1, w2) <==>
      Mod11Digit(DigitValue(c) * Total(w1)) == DigitValue(c) && Mod11Digit(DigitValue(c) * Total(w2)) == DigitValue(c)
  {
    var n := Repeat(c, |w1| + 2);
    RepeatPrefix(c, |w1| + 2, |w1|);
    RepeatPrefix(c, |w1| + 2, |w2|);
    WeightedOfRepeat(c, w1, 0);
    WeightedOfRepeat(c, w2, 0);
  }

  /** 54 and 65 are both -1 modulo 11, so each digit is its own check digit for these totals. */
  lemma SelfCheckingCpfTotals(v: nat)
    requires v <= 9
    ensures Mod11Digit(54 * v) == v && Mod11Digit(65 * v) == v
  {
    if v == 0 {} else if v == 1 {} else if v == 2 {} else if v == 3 {} else if v == 4 {}
    else if v == 5 {} else if v == 6 {} else if v == 7 {} else if v == 8 {} else {}
  }

  /** 58 is 3 modulo 11: only 0 is its own check digit for that total. */
  lemma SelfCheckingCnpjTotal(v: nat)
    requires v <= 9
    ensures Mod11Digit(58 * v) == v <==> v == 0
  {
    if v == 0 {} else if v == 1 {} else if v == 2 {} else if v == 3 {} else if v == 4 {}
    else if v == 5 {} else if v == 6 {} else if v == 7 {} else if v == 8 {} else {}
  }

  /**
   * Every CPF made of one repeated digit carries matching check digits, so
   * only the repeated-digit test keeps "111.111.111-11" and its like out.
   */
  lemma RepeatedDigitCpfPassesChecksums(c: char)
    requires IsDigit(c)
    ensures ChecksumsMatch(Repeat(c, 11), CpfWeights1, CpfWeights2)
    ensures !ValidCpf(Repeat(c, 11))
  {
    ChecksumsOfRepeat(c, CpfWeights1, CpfWeights2);
    assert Total(CpfWeights1) == 54 && Total(CpfWeights2) == 65;
    SelfCheckingCpfTotals(DigitValue(c));
    OnlyDigitsOfDigits(Repeat(c, 11));
  }

  /** Of the CNPJs made of one repeated digit, exactly the all-zero one carries matching check digits. */
  lemma RepeatedDigitCnpjChecksums(c: char)
    requires IsDigit(c)
    ensures ChecksumsMatch(Repeat(c, 14), CnpjWeights1, CnpjWeights2) <==> c == '0'
    ensures !ValidCnpj(Repeat(c, 14))
  {
    ChecksumsOfRepeat(c, CnpjWeights1, CnpjWeights2);
    assert Total(CnpjWeights1) == 58 && Total(CnpjWeights2) == 64;
    SelfCheckingCnpjTotal(DigitValue(c));
    assert DigitValue(c) == 0 <==> c == '0';
    OnlyDigitsOfDigits(Repeat(c, 14));
  }

  lemma SampleCpfSum1() ensures Weighted("529982247", CpfWeights1) == 295 {}
  lemma SampleCpfSum2() ensures Weighted("5299822472", CpfWeights2) == 347 {}
  lemma SampleCnpjSum1() ensures Weighted("112223330001", CnpjWeights1) == 102 {}
  lemma SampleCnpjSum2() ensures Weighted("1122233300018", CnpjWeights2) == 120 {}

  /** A CPF with correct check digits has matching checksums; with its last digit changed it has not. */
  lemma KnownCpfChecksums()
    ensures ChecksumsMatch("52998224725", CpfWeights1, CpfWeights2)
    ensures !ChecksumsMatch("52998224726", CpfWeights1, CpfWeights2)
  {
    var good, bad := "52998224725", "52998224726";
    assert good[..9] == "529982247" && good[..10] == "5299822472" && bad[..9] == good[..9] && bad[..10] == good[..10];
    SampleCpfSum1();
    SampleCpfSum2();
    assert Mod11Digit(295) == 2 && Mod11Digit(347) == 5;
    assert good[9] == '2' && good[10] == '5' && bad[10] == '6';
  }

  /** A CNPJ with correct check digits has matching checksums; with its last digit changed it has not. */
  lemma KnownCnpjChecksums()
    ensures ChecksumsMatch("11222333000181", CnpjWeights1, CnpjWeights2)
    ensures !ChecksumsMatch("11222333000182", CnpjWeights1, CnpjWeights2)
  {
    var good, bad := "11222333000181", "11222333000182";
    assert good[..12] == "112223330001" && good[..13] == "1122233300018" && bad[..12] == good[..12] && bad[..13] == good[..13];
    SampleCnpjSum1();
    SampleCnpjSum2();
    assert Mod11Digit(102) == 8 && Mod11Digit(120) == 1;
    assert good[12] == '8' && good[13] == '1' && bad[13] == '2';
  }

  /** A CPF with correct check digits is accepted. */
  lemma KnownCpfAccepted()
    ensures ValidCpf("52998224725")
  {
    KnownCpfChecksums();
    var good := "52998224725";
    OnlyDigitsOfDigits(good);
    assert good[0] != good[1];
  }

  /** A CNPJ with correct check digits is accepted. */
  lemma KnownCnpjAccepted()
    ensures ValidCnpj("11222333000181")
  {
    KnownCnpjChecksums();
    var good := "11222333000181";
    OnlyDigitsOfDigits(good);
    assert good[0] != good[2];
  }
}
