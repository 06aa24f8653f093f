/** The amount field filter both trading widgets apply on every edit
    (components/ui/swap-widget.tsx and components/ui/stake-widget.tsx): an edit is kept only
    when the whole text matches `^\d*(\.\d*)?$`. */
module AmountInput {
  import opened Common

  predicate IsDigit(c: char) {
    '0' <= c <= '9'
  }

  predicate AllDigits(s: string) {
    forall i :: 0 <= i < |s| ==> IsDigit(s[i])
  }

  /** The scan: the digits before the first dot, then, if there is a dot, only digits
      after it. */
  predicate FirstDotSplit(s: string) {
    match IndexOfFrom(s, '.', 0)
    case None => AllDigits(s)
    case Some(k) => AllDigits(s[..k]) && AllDigits(s[k + 1..])
  }

  /** The pattern read literally: a run of digits, optionally followed by a dot and another
      run of digits, with nothing else. */
  ghost predicate MatchesPattern(s: string) {
    AllDigits(s) || exists k :: 0 <= k < |s| && s[k] == '.' && AllDigits(s[..k]) && AllDigits(s[k + 1..])
  }

  /** The informal reading: only digits and dots, and at most one dot. */
  ghost predicate DigitsWithAtMostOneDot(s: string) {
    && (forall i :: 0 <= i < |s| ==> IsDigit(s[i]) || s[i] == '.')
    && (forall i, j :: 0 <= i < j < |s| && s[i] == '.' ==> s[j] != '.')
  }

  lemma FirstDotSplitIsPattern(s: string)
    ensures FirstDotSplit(s) <==> MatchesPattern(s)
  {
    match IndexOfFrom(s, '.', 0)
    case None =>
    case Some(k) =>
      assert !IsDigit(s[k]);
      if MatchesPattern(s) {
        var m :| 0 <= m < |s| && s[m] == '.' && AllDigits(s[..m]) && AllDigits(s[m + 1..]);
      }
  }

  lemma FirstDotSplitIsOneDot(s: string)
    ensures FirstDotSplit(s) <==> DigitsWithAtMostOneDot(s)
  {
    match IndexOfFrom(s, '.', 0)
    case None =>
    case Some(k) =>
      if FirstDotSplit(s) {
        forall i | 0 <= i < |s|
          ensures IsDigit(s[i]) || s[i] == '.'
        {
          if i < k { assert s[..k][i] == s[i]; }
          else if i > k { assert s[k + 1..][i - k - 1] == s[i]; }
        }
        forall i, j | 0 <= i < j < |s| && s[i] == '.'
          ensures s[j] != '.'
        {
          assert i >= k;
          assert s[k + 1..][j - k - 1] == s[j];
        }
      }
      if DigitsWithAtMostOneDot(s) {
        forall i | 0 <= i < k ensures IsDigit(s[..k][i]) {
          assert s[..k][i] == s[i];
        }
        var rest := s[k + 1..];
        forall i | 0 <= i < |rest| ensures IsDigit(rest[i]) {
          assert rest[i] == s[k + 1 + i];
        }
      }
  }

  /** `/^\d*(\.\d*)?$/.test(s)`, decided by the scan: it accepts exactly the texts the
      pattern matches, which are the texts of digits and dots with at most one dot. */
  predicate IsAmountText(s: string): (r: bool)
    ensures r <==> MatchesPattern(s)
    ensures r <==> DigitsWithAtMostOneDot(s)
  {
    FirstDotSplitIsPattern(s);
    FirstDotSplitIsOneDot(s);
    FirstDotSplit(s)
  }

  /** Whole and fractional amounts, a bare dot, a trailing dot and the empty text pass;
      a second dot, a sign or a letter do not. */
  lemma AmountTextExamples()
    ensures IsAmountText("") && IsAmountText("12.5") && IsAmountText(".") && IsAmountText("5.")
    ensures !IsAmountText("1.2.3") && !IsAmountText("-1") && !IsAmountText("1e5")
  {
    assert !AllDigits("-1") by { assert !IsDigit("-1"[0]); }
    assert !AllDigits("1e5") by { assert !IsDigit("1e5"[1]); }
    assert IndexOfFrom("1.2.3", '.', 0) == Some(1);
    assert !AllDigits("1.2.3"[2..]) by { assert "1.2.3"[2..][1] == '.'; }
  }
}
