/** The PostGIS version test of `parse_postgis_ver`: the regular expression
 *  `POSTGIS="(\d+)\.` matched at the start of the value (Python's `re.match`),
 *  then `int(group(1)) >= 3`, with `False` when there is no match.
 *  Digits are the ASCII digits '0'..'9'.
 */
module VersionParse {
  import opened Wrappers

  /** The literal the pattern requires at position 0 of the value. */
  const Marker: string := "POSTGIS=\""

  predicate IsDigit(c: char) {
    '0' <= c <= '9'
  }

  predicate AllDigits(s: string) {
    forall i :: 0 <= i < |s| ==> IsDigit(s[i])
  }

  /** Python's `int()` of a string of decimal digits: most significant digit
   *  first, leading zeros allowed. */
  function DigitsValue(ds: string): nat
    requires AllDigits(ds)
  {
    if ds == [] then 0
    else 10 * DigitsValue(ds[..|ds| - 1]) + (ds[|ds| - 1] as int - '0' as int)
  }

  /** The language of the pattern: `s` begins with `POSTGIS="`, then `k > 0`
   *  digits, then a dot. This says nothing about how a matcher chooses `k`. */
  ghost predicate MatchesWithRun(s: string, k: nat) {
    |Marker| + k < |s|
    && s[..|Marker|] == Marker
    && 0 < k
    && AllDigits(s[|Marker|..|Marker| + k])
    && s[|Marker| + k] == '.'
  }

  /** The length of the maximal run of digits that starts at position `i`. */
  function DigitRun(s: string, i: nat): (n: nat)
    requires i <= |s|
    ensures i + n <= |s|
    ensures forall j :: i <= j < i + n ==> IsDigit(s[j])
    ensures i + n == |s| || !IsDigit(s[i + n])
    decreases |s| - i
  {
    if i < |s| && IsDigit(s[i]) then 1 + DigitRun(s, i + 1) else 0
  }

  /** Whatever run length makes the pattern match is the maximal digit run
   *  after the marker; so the pattern matches in at most one way. */
  lemma MatchIsMaximalRun(s: string)
    ensures forall k :: MatchesWithRun(s, k) ==> |Marker| <= |s| && DigitRun(s, |Marker|) == k
  {
    forall k | MatchesWithRun(s, k)
      ensures |Marker| <= |s| && DigitRun(s, |Marker|) == k
    {
      var run := s[|Marker|..|Marker| + k];
      assert forall j :: |Marker| <= j < |Marker| + k ==> IsDigit(s[j]) by {
        assert forall j :: |Marker| <= j < |Marker| + k ==> s[j] == run[j - |Marker|];
      }
    }
  }

  lemma MatchIsUnique(s: string, k1: nat, k2: nat)
    requires MatchesWithRun(s, k1) && MatchesWithRun(s, k2)
    ensures k1 == k2
  {
    MatchIsMaximalRun(s);
  }

  /** Group 1 of `re.match(r'POSTGIS="(\d+)\.', s)`, or None when the match
   *  fails. The greedy `\d+` takes the maximal run of digits. */
  function MajorDigits(s: string): Option<string> {
    if |Marker| <= |s| && s[..|Marker|] == Marker then
      var n := DigitRun(s, |Marker|);
      if 0 < n && |Marker| + n < |s| && s[|Marker| + n] == '.' then Some(s[|Marker|..|Marker| + n]) else None
    else None
  }

  /** The group is present exactly when the pattern matches, and it is then
   *  the one digit run with which the pattern matches. */
  lemma MajorDigitsSpec(s: string)
    ensures var g := MajorDigits(s);
      (g.Some? ==> MatchesWithRun(s, |g.value|) && g.value == s[|Marker|..|Marker| + |g.value|])
      && (forall k :: MatchesWithRun(s, k) ==> g == Some(s[|Marker|..|Marker| + k]))
  {
    MatchIsMaximalRun(s);
    var g := MajorDigits(s);
    if g.Some? {
      var n := |g.value|;
      assert n == DigitRun(s, |Marker|);
      assert forall j :: 0 <= j < n ==> g.value[j] == s[|Marker| + j];
    }
  }

  /** The value of `is_postgis_v3` that `parse_postgis_ver` stores. */
  function IsPostgisV3(s: string): bool {
    match MajorDigits(s)
    case Some(ds) => MajorDigitsSpec(s); DigitsValue(ds) >= 3
    case None => false
  }

  /** The flag is true exactly when the pattern matches and its digit run is
   *  at least 3. */
  lemma IsPostgisV3Spec(s: string)
    ensures IsPostgisV3(s) <==> exists k :: MatchesWithRun(s, k) && DigitsValue(s[|Marker|..|Marker| + k]) >= 3
  {
    MajorDigitsSpec(s);
  }

  /** The comparison is numeric: a run of two or more digits whose first is
   *  not '0' is at least 10, whatever that first digit. */
  lemma {:induction false} LongRunIsAtLeastTen(ds: string)
    requires AllDigits(ds) && 2 <= |ds| && ds[0] != '0'
    ensures DigitsValue(ds) >= 10
  {
    var init := ds[..|ds| - 1];
    assert AllDigits(init);
    if |ds| == 2 {
      assert init == [ds[0]];
      assert DigitsValue(init) == ds[0] as int - '0' as int;
    } else {
      assert init[0] == ds[0];
      LongRunIsAtLeastTen(init);
    }
  }

  /** A major version of two or more digits without a leading zero passes the
   *  test: `POSTGIS="12.` counts as version 3 or later. */
  lemma MultiDigitMajorIsV3(s: string, k: nat)
    requires MatchesWithRun(s, k) && 2 <= k && s[|Marker|] != '0'
    ensures IsPostgisV3(s)
  {
    var run := s[|Marker|..|Marker| + k];
    assert run[0] == s[|Marker|];
    LongRunIsAtLeastTen(run);
    IsPostgisV3Spec(s);
  }

  /** A leading zero does not change the integer value, as with `int("012")`. */
  lemma {:induction false} LeadingZeroIgnored(ds: string)
    requires AllDigits(ds)
    ensures AllDigits("0" + ds) && DigitsValue("0" + ds) == DigitsValue(ds)
  {
    var z := "0" + ds;
    assert AllDigits(z) by {
      assert forall i :: 1 <= i < |z| ==> z[i] == ds[i - 1];
    }
    if ds != [] {
      var init := ds[..|ds| - 1];
      assert AllDigits(init);
      assert z[..|z| - 1] == "0" + init;
      LeadingZeroIgnored(init);
    }
  }

  /** A one-digit major version passes exactly when that digit is 3 to 9. */
  lemma SingleDigitMajor(s: string)
    requires MatchesWithRun(s, 1)
    ensures IsPostgisV3(s) <==> '3' <= s[|Marker|]
  {
    var run := s[|Marker|..|Marker| + 1];
    assert run[..0] == [];
    assert DigitsValue(run) == s[|Marker|] as int - '0' as int;
    assert MajorDigits(s) == Some(run);
  }

  /** Release strings that pass the test. */
  lemma ExamplesV3()
    ensures IsPostgisV3("POSTGIS=\"3.1.0\"")
    ensures IsPostgisV3("POSTGIS=\"12.0\"")
  {
    var a := "POSTGIS=\"3.1.0\"";
    assert MatchesWithRun(a, 1);
    SingleDigitMajor(a);
    var c := "POSTGIS=\"12.0\"";
    assert MatchesWithRun(c, 2);
    MultiDigitMajorIsV3(c, 2);
  }

  /** An older major version fails the test. */
  lemma ExampleV2()
    ensures !IsPostgisV3("POSTGIS=\"2.5.0\"")
  {
    var b := "POSTGIS=\"2.5.0\"";
    assert MatchesWithRun(b, 1);
    SingleDigitMajor(b);
  }

  /** Values the pattern does not match: not at the start, no dot after the
   *  digits, no marker at all. */
  lemma ExamplesNoMatch()
    ensures !IsPostgisV3("xPOSTGIS=\"3.0\"")
    ensures !IsPostgisV3("POSTGIS=\"3\"")
    ensures !IsPostgisV3("unknown")
  {
    var d := "xPOSTGIS=\"3.0\"";
    assert d[..9] != Marker by { assert d[0] != Marker[0]; }
    var e := "POSTGIS=\"3\"";
    assert DigitRun(e, 9) == 1;
  }
}
