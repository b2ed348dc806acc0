/**
 * The display mask for CPF and CNPJ numbers, formatCpfCnpj in
 * src/utils/validation.ts.
 *
 * The code keeps only the digits. It then applies a chain of regular-expression
 * replacements, each without the global flag, so each rewrites only the leftmost
 * match. Every step is modelled here as that leftmost-match search. The lemmas
 * show what the chain produces for each number of digits.
 */
module DocumentMask {
  import opened Wrappers
  import opened Text
  import opened CheckDigits
  import CheckDigitProperties

  /** s[i..i + len] exists and is made of digits. */
  predicate DigitsAt(s: string, i: nat, len: nat) {
    i + len <= |s| && forall j :: i <= j < i + len ==> IsDigit(s[j])
  }

  /** The patterns searched for by the unanchored replacements. */
  datatype Pattern =
    | Run(len: nat)      // `\d` repeated len times
    | DotRun(len: nat)   // `\.` followed by len digits
    | Tail               // three digits, then one or two digits, then the end of input

  predicate MatchesAt(s: string, pat: Pattern, p: nat) {
    match pat
    case Run(len) => DigitsAt(s, p, len)
    case DotRun(len) => p < |s| && s[p] == '.' && DigitsAt(s, p + 1, len)
    case Tail => p <= |s| && 4 <= |s| - p <= 5 && DigitsAt(s, p, |s| - p)
  }

  /** The leftmost position from i on where the pattern matches. */
  function FindMatch(s: string, pat: Pattern, i: nat): (r: Option<nat>)
    ensures r.Some? ==> i <= r.value <= |s| && MatchesAt(s, pat, r.value)
    ensures r.Some? ==> forall j :: i <= j < r.value ==> !MatchesAt(s, pat, j)
    ensures r.None? ==> forall j :: i <= j <= |s| ==> !MatchesAt(s, pat, j)
    decreases |s| - i
  {
    if i > |s| then None
    else if MatchesAt(s, pat, i) then Some(i)
    else FindMatch(s, pat, i + 1)
  }

  /** A separator inserted anywhere drops out again when the non-digits are removed. */
  lemma {:induction false} SeparatorDropsOut(s: string, i: nat, sep: char)
    requires i <= |s|
    ensures !IsDigit(sep) ==> OnlyDigits(s[..i] + [sep] + s[i..]) == OnlyDigits(s)
  {
    if !IsDigit(sep) {
      var a, b := s[..i], s[i..];
      calc {
        OnlyDigits(a + [sep] + b);
        { OnlyDigitsConcat(a + [sep], b); }
        OnlyDigits(a + [sep]) + OnlyDigits(b);
        { OnlyDigitsConcat(a, [sep]); OnlyDigitsOfNonDigit(sep); }
        OnlyDigits(a) + OnlyDigits(b);
        { OnlyDigitsConcat(a, b); }
        OnlyDigits(a + b);
        { assert a + b == s; }
        OnlyDigits(s);
      }
    }
  }

  /**
   * `.replace(/(\d{k})(\d)/, '$1' + sep + '$2')`: the input changes exactly
   * when it holds a run of k + 1 digits, and only by one inserted separator.
   */
  function InsertAfterRun(s: string, k: nat, sep: char): (r: string)
    ensures var run := Run(k + 1); r == s <==> forall p :: 0 <= p <= |s| ==> !MatchesAt(s, run, p)
    ensures !IsDigit(sep) ==> OnlyDigits(r) == OnlyDigits(s)
  {
    match FindMatch(s, Run(k + 1), 0)
    case None => s
    case Some(p) =>
      SeparatorDropsOut(s, p + k, sep);
      s[..p + k] + [sep] + s[p + k..]
  }

  /**
   * `.replace(/(\d{3})(\d{1,2})$/, '$1-$2')`: the input changes exactly when
   * it ends in four or five digits, and only by one inserted hyphen.
   */
  function HyphenInTail(s: string): (r: string)
    ensures r == s <==> forall p :: 0 <= p <= |s| ==> !MatchesAt(s, Tail, p)
    ensures OnlyDigits(r) == OnlyDigits(s)
  {
    match FindMatch(s, Tail, 0)
    case None => s
    case Some(p) =>
      SeparatorDropsOut(s, p + 3, '-');
      s[..p + 3] + "-" + s[p + 3..]
  }

  /**
   * `.replace(/^(\d{2})(\d)/, '$1.$2')`: the input changes exactly when it
   * starts with three digits, and only by one inserted dot.
   */
  function DotAfterFirstTwo(s: string): (r: string)
    ensures r == s <==> !DigitsAt(s, 0, 3)
    ensures OnlyDigits(r) == OnlyDigits(s)
  {
    if DigitsAt(s, 0, 3) then
      SeparatorDropsOut(s, 2, '.');
      s[..2] + "." + s[2..]
    else s
  }

  /**
   * `.replace(/^(\d{2})\.(\d{3})(\d)/, '$1.$2.$3')`: the input changes
   * exactly when it starts with two digits, a dot and four digits, and only
   * by one inserted dot.
   */
  function DotAfterFirstFive(s: string): (r: string)
    ensures r == s <==> !(DigitsAt(s, 0, 2) && 2 < |s| && s[2] == '.' && DigitsAt(s, 3, 4))
    ensures OnlyDigits(r) == OnlyDigits(s)
  {
    if DigitsAt(s, 0, 2) && 2 < |s| && s[2] == '.' && DigitsAt(s, 3, 4) then
      SeparatorDropsOut(s, 6, '.');
      s[..6] + "." + s[6..]
    else s
  }

  /**
   * `.replace(/\.(\d{3})(\d)/, '.$1/$2')`: the input changes exactly when a
   * dot is followed by four digits, and only by one inserted slash.
   */
  function SlashAfterDotRun(s: string): (r: string)
    ensures r == s <==> forall p :: 0 <= p <= |s| ==> !MatchesAt(s, DotRun(4), p)
    ensures OnlyDigits(r) == OnlyDigits(s)
  {
    match FindMatch(s, DotRun(4), 0)
    case None => s
    case Some(p) =>
      SeparatorDropsOut(s, p + 4, '/');
      s[..p + 4] + "/" + s[p + 4..]
  }

  /** formatCpfCnpj, src/utils/validation.ts: the CPF layout up to eleven digits, the CNPJ layout beyond. */
  function FormatCpfCnpj(value: string): (r: string)
    ensures value == "" ==> r == ""
    ensures value != "" && |OnlyDigits(value)| <= 11 ==> r == CpfMask(OnlyDigits(value))
    ensures value != "" && |OnlyDigits(value)| >= 12 ==> r == CnpjMask(OnlyDigits(value))
  {
    if value == "" then ""
    else
      var n := OnlyDigits(value);
      if |n| <= 11 then
        CpfChain(n);
        HyphenInTail(InsertAfterRun(InsertAfterRun(n, 3, '.'), 3, '.'))
      else
        CnpjChain(n);
        InsertAfterRun(SlashAfterDotRun(DotAfterFirstFive(DotAfterFirstTwo(n))), 4, '-')
  }

  /** The CPF layout 000.000.000-00, cut short when fewer digits are typed. */
  function CpfMask(n: string): string
    requires |n| <= 11
  {
    if |n| <= 3 then n
    else if |n| <= 6 then n[..3] + "." + n[3..]
    else if |n| <= 9 then n[..3] + "." + n[3..6] + "." + n[6..]
    else n[..3] + "." + n[3..6] + "." + n[6..9] + "-" + n[9..]
  }

  /** The CNPJ layout 00.000.000/0000-00; digits past the fourteenth stay in the last group. */
  function CnpjMask(n: string): string
    requires |n| >= 12
  {
    var head := n[..2] + "." + n[2..5] + "." + n[5..8] + "/" + n[8..12];
    if |n| == 12 then head else head + "-" + n[12..]
  }

  /** No run of len digits lies inside a. */
  ghost predicate NoRun(a: string, len: nat) {
    forall p :: 0 <= p && p + len <= |a| ==> !DigitsAt(a, p, len)
  }

  /** On digits alone, the first run of k + 1 digits starts at 0. */
  lemma InsertAfterRunOnDigits(n: string, k: nat, sep: char)
    requires AllDigits(n)
    ensures InsertAfterRun(n, k, sep) == if |n| >= k + 1 then n[..k] + [sep] + n[k..] else n
  {
    if |n| >= k + 1 {
      assert MatchesAt(n, Run(k + 1), 0);
    }
  }

  /** Past a non-digit separator, the first run of k + 1 digits is the one that starts just after it. */
  lemma InsertAfterRunPastBreak(a: string, sep: char, b: string, k: nat, c: char)
    requires AllDigits(b) && !IsDigit(sep) && NoRun(a, k + 1)
    ensures InsertAfterRun(a + [sep] + b, k, c)
      == if |b| >= k + 1 then a + [sep] + b[..k] + [c] + b[k..] else a + [sep] + b
  {
    var s := a + [sep] + b;
    var m := |a| + 1;
    var run := Run(k + 1);
    forall j | 0 <= j < m
      ensures !MatchesAt(s, run, j)
    {
      if j + k + 1 <= |a| {
        assert !DigitsAt(a, j, k + 1);
        var i :| j <= i < j + k + 1 && !IsDigit(a[i]);
        assert s[i] == a[i];
      } else {
        assert s[|a|] == sep;
      }
    }
    if |b| >= k + 1 {
      assert forall i :: m <= i < m + k + 1 ==> s[i] == b[i - m];
      assert MatchesAt(s, run, m);
      assert FindMatch(s, run, 0) == Some(m);
      assert s[..m + k] == a + [sep] + b[..k];
      assert s[m + k..] == b[k..];
    } else {
      forall j | m <= j <= |s|
        ensures !MatchesAt(s, run, j)
      {
      }
    }
  }

  /** Past a non-digit separator followed by at most five digits, the tail match is all of those digits. */
  lemma HyphenInTailPastBreak(a: string, sep: char, b: string)
    requires AllDigits(b) && !IsDigit(sep) && |b| <= 5
    ensures HyphenInTail(a + [sep] + b)
      == if 4 <= |b| then a + [sep] + b[..3] + "-" + b[3..] else a + [sep] + b
  {
    var s := a + [sep] + b;
    var m := |a| + 1;
    forall j | 0 <= j < m
      ensures !MatchesAt(s, Tail, j)
    {
      assert s[|a|] == sep;
    }
    if 4 <= |b| {
      assert forall i :: m <= i < |s| ==> s[i] == b[i - m];
      assert MatchesAt(s, Tail, m);
      assert FindMatch(s, Tail, 0) == Some(m);
      assert s[..m + 3] == a + [sep] + b[..3];
      assert s[m + 3..] == b[3..];
    } else {
      forall j | m <= j <= |s|
        ensures !MatchesAt(s, Tail, j)
      {
      }
    }
  }

  /** Fewer than four characters leave no room for the tail match. */
  lemma HyphenInTailShort(s: string)
    requires |s| < 4
    ensures HyphenInTail(s) == s
  {
    forall j | 0 <= j <= |s|
      ensures !MatchesAt(s, Tail, j)
    {
    }
  }

  /** The CPF branch of the chain produces the CPF layout. */
  lemma CpfChain(n: string)
    requires AllDigits(n) && |n| <= 11
    ensures HyphenInTail(InsertAfterRun(InsertAfterRun(n, 3, '.'), 3, '.')) == CpfMask(n)
  {
    InsertAfterRunOnDigits(n, 3, '.');
    if |n| <= 3 {
      HyphenInTailShort(n);
    } else {
      var a, b := n[..3], n[3..];
      InsertAfterRunPastBreak(a, '.', b, 3, '.');
      if |n| <= 6 {
        HyphenInTailPastBreak(a, '.', b);
      } else {
        var a2, b2 := a + "." + b[..3], b[3..];
        assert a + ['.'] + b[..3] + ['.'] + b[3..] == a2 + ['.'] + b2;
        HyphenInTailPastBreak(a2, '.', b2);
        assert b[..3] == n[3..6] && b2 == n[6..];
        if |n| >= 10 {
          assert b2[..3] == n[6..9] && b2[3..] == n[9..];
        }
      }
    }
  }

  /** The CNPJ branch of the chain produces the CNPJ layout. */
  lemma CnpjChain(n: string)
    requires AllDigits(n) && |n| >= 12
    ensures InsertAfterRun(SlashAfterDotRun(DotAfterFirstFive(DotAfterFirstTwo(n))), 4, '-') == CnpjMask(n)
  {
    var s1 := n[..2] + "." + n[2..];
    assert DotAfterFirstTwo(n) == s1;
    var s2 := n[..2] + "." + n[2..5] + "." + n[5..];
    assert s1[..6] == n[..2] + "." + n[2..5] && s1[6..] == n[5..];
    assert DotAfterFirstFive(s1) == s2;
    var a := n[..2] + "." + n[2..5] + "." + n[5..8];
    var s3 := a + "/" + n[8..];
    assert s2[2] == '.' && s2[6] == '.';
    forall j | 0 <= j < 6
      ensures !MatchesAt(s2, DotRun(4), j)
    {
      if j == 2 {
        assert !IsDigit(s2[6]);
      } else {
        assert IsDigit(s2[j]);
      }
    }
    assert MatchesAt(s2, DotRun(4), 6) by {
      assert forall i :: 7 <= i < 11 ==> s2[i] == n[i - 2];
    }
    assert FindMatch(s2, DotRun(4), 0) == Some(6);
    assert s2[..10] == a && s2[10..] == n[8..];
    assert SlashAfterDotRun(s2) == s3;
    assert NoRun(a, 5) by {
      forall p | 0 <= p && p + 5 <= |a|
        ensures !DigitsAt(a, p, 5)
      {
        if p <= 2 {
          assert !IsDigit(a[2]);
        } else {
          assert !IsDigit(a[6]);
        }
      }
    }
    InsertAfterRunPastBreak(a, '/', n[8..], 4, '-');
    assert n[8..][..4] == n[8..12] && n[8..][4..] == n[12..];
  }

  /** A separator between digits drops out when the non-digits are removed. */
  lemma DigitsAcrossBreak(a: string, c: char, b: string)
    requires AllDigits(a) && !IsDigit(c)
    ensures OnlyDigits(a + [c] + b) == a + OnlyDigits(b)
  {
    calc {
      OnlyDigits(a + [c] + b);
      { OnlyDigitsConcat(a + [c], b); }
      OnlyDigits(a + [c]) + OnlyDigits(b);
      { OnlyDigitsConcat(a, [c]); OnlyDigitsOfNonDigit(c); }
      OnlyDigits(a) + OnlyDigits(b);
      { OnlyDigitsOfDigits(a); }
      a + OnlyDigits(b);
    }
  }

  /** Two groups of digits around a separator. */
  lemma DigitsOfTwoGroups(n: string, i: nat, c: char)
    requires AllDigits(n) && i <= |n| && !IsDigit(c)
    ensures OnlyDigits(n[..i] + [c] + n[i..]) == n
  {
    DigitsAcrossBreak(n[..i], c, n[i..]);
    OnlyDigitsOfDigits(n[i..]);
    assert n[..i] + n[i..] == n;
  }

  /** Three groups of digits around two separators. */
  lemma DigitsOfThreeGroups(n: string, i: nat, j: nat, c: char, d: char)
    requires AllDigits(n) && i <= j <= |n| && !IsDigit(c) && !IsDigit(d)
    ensures OnlyDigits(n[..i] + [c] + n[i..j] + [d] + n[j..]) == n
  {
    var rest := n[i..];
    assert n[..i] + [c] + n[i..j] + [d] + n[j..] == n[..i] + [c] + (rest[..j - i] + [d] + rest[j - i..]);
    DigitsAcrossBreak(n[..i], c, rest[..j - i] + [d] + rest[j - i..]);
    DigitsOfTwoGroups(rest, j - i, d);
    assert n[..i] + rest == n;
  }

  /** Four groups of digits around three separators. */
  lemma DigitsOfFourGroups(n: string, i: nat, j: nat, k: nat, c: char, d: char, e: char)
    requires AllDigits(n) && i <= j <= k <= |n| && !IsDigit(c) && !IsDigit(d) && !IsDigit(e)
    ensures OnlyDigits(n[..i] + [c] + n[i..j] + [d] + n[j..k] + [e] + n[k..]) == n
  {
    var rest := n[i..];
    assert n[..i] + [c] + n[i..j] + [d] + n[j..k] + [e] + n[k..]
      == n[..i] + [c] + (rest[..j - i] + [d] + rest[j - i..k - i] + [e] + rest[k - i..]);
    DigitsAcrossBreak(n[..i], c, rest[..j - i] + [d] + rest[j - i..k - i] + [e] + rest[k - i..]);
    DigitsOfThreeGroups(rest, j - i, k - i, d, e);
    assert n[..i] + rest == n;
  }

  /** Five groups of digits around four separators. */
  lemma DigitsOfFiveGroups(n: string, i: nat, j: nat, k: nat, l: nat, c: char, d: char, e: char, f: char)
    requires AllDigits(n) && i <= j <= k <= l <= |n| && !IsDigit(c) && !IsDigit(d) && !IsDigit(e) && !IsDigit(f)
    ensures OnlyDigits(n[..i] + [c] + n[i..j] + [d] + n[j..k] + [e] + n[k..l] + [f] + n[l..]) == n
  {
    var rest := n[i..];
    assert n[..i] + [c] + n[i..j] + [d] + n[j..k] + [e] + n[k..l] + [f] + n[l..]
      == n[..i] + [c] + (rest[..j - i] + [d] + rest[j - i..k - i] + [e] + rest[k - i..l - i] + [f] + rest[l - i..]);
    DigitsAcrossBreak(n[..i], c, rest[..j - i] + [d] + rest[j - i..k - i] + [e] + rest[k - i..l - i] + [f] + rest[l - i..]);
    DigitsOfFourGroups(rest, j - i, k - i, l - i, d, e, f);
    assert n[..i] + rest == n;
  }

  /** Both layouts only insert separators: removing the non-digits gives back the digits. */
  lemma MasksKeepDigits(n: string)
    requires AllDigits(n)
    ensures |n| <= 11 ==> OnlyDigits(CpfMask(n)) == n
    ensures |n| >= 12 ==> OnlyDigits(CnpjMask(n)) == n
  {
    if |n| <= 3 {
      OnlyDigitsOfDigits(n);
    } else if |n| <= 6 {
      DigitsOfTwoGroups(n, 3, '.');
    } else if |n| <= 9 {
      DigitsOfThreeGroups(n, 3, 6, '.', '.');
    } else if |n| <= 11 {
      DigitsOfFourGroups(n, 3, 6, 9, '.', '.', '-');
    } else if |n| == 12 {
      DigitsOfFourGroups(n, 2, 5, 8, '.', '.', '/');
      assert n[8..] == n[8..12];
    } else {
      DigitsOfFiveGroups(n, 2, 5, 8, 12, '.', '.', '/', '-');
    }
  }

  /** Formatting keeps the digit sequence of its input. */
  lemma FormatKeepsDigits(value: string)
    ensures OnlyDigits(FormatCpfCnpj(value)) == OnlyDigits(value)
  {
    if value != "" {
      MasksKeepDigits(OnlyDigits(value));
    }
  }

  /** A formatted number is valid exactly when the unformatted one is. */
  lemma FormatKeepsValidity(value: string)
    ensures ValidCpf(FormatCpfCnpj(value)) == ValidCpf(value)
    ensures ValidCnpj(FormatCpfCnpj(value)) == ValidCnpj(value)
  {
    FormatKeepsDigits(value);
    CheckDigitProperties.ValidityDependsOnDigitsOnly(value);
    CheckDigitProperties.ValidityDependsOnDigitsOnly(FormatCpfCnpj(value));
  }

  /** Eleven digits take the full CPF layout and fourteen the full CNPJ layout. */
  lemma FullLayouts(value: string)
    ensures var n := OnlyDigits(value);
      |n| == 11 ==> FormatCpfCnpj(value) == n[..3] + "." + n[3..6] + "." + n[6..9] + "-" + n[9..]
    ensures var n := OnlyDigits(value);
      |n| == 14 ==> FormatCpfCnpj(value) == n[..2] + "." + n[2..5] + "." + n[5..8] + "/" + n[8..12] + "-" + n[12..]
  {
  }
}
