/** Task durations as the aggregator reads them: free text such as
    "2 weeks" or "10 days" turned into a number of days. */
module DurationText {
  import opened Wrappers
  import opened Text
  import opened Values

  /** The end of the run of digits that starts at `a`. */
  function RunEnd(s: string, a: nat): (b: nat)
    requires a <= |s|
    ensures a <= b <= |s| && AllDigits(s[a..b]) && (b == |s| || !IsDigit(s[b]))
    decreases |s| - a
  {
    if a < |s| && IsDigit(s[a]) then
      var b := RunEnd(s, a + 1);
      assert s[a..b] == [s[a]] + s[a + 1..b];
      b
    else a
  }

  /** The first run of decimal digits of `s`, `re.findall(r'\d+', s)[0]`,
      as its bounds. */
  function FirstNumber(s: string): (r: Option<(nat, nat)>)
    ensures r.None? <==> forall k :: 0 <= k < |s| ==> !IsDigit(s[k])
    ensures r.Some? ==> var (a, b) := r.value;
      a < b <= |s| && AllDigits(s[a..b]) && (b == |s| || !IsDigit(s[b])) &&
      forall k :: 0 <= k < a ==> !IsDigit(s[k])
  {
    if s == [] then None
    else if IsDigit(s[0]) then Some((0, RunEnd(s, 0)))
    else match FirstNumber(s[1..])
         case None => None
         case Some((a, b)) =>
           assert s[a + 1..b + 1] == s[1..][a..b];
           Some((a + 1, b + 1))
  }

  /** `parse_duration` on a string: the first number, in weeks when the
      text mentions "week", in months of 30 days when it mentions "month",
      and otherwise in days but at least one; 5 days when there is no
      number. */
  function ParseDurationText(text: string): (days: nat)
    ensures days == 0 ==> Contains(Lower(text), "week") || Contains(Lower(text), "month")
  {
    var low := Lower(text);
    match FirstNumber(low)
    case None => 5
    case Some((a, b)) =>
      var n := DigitsValue(low[a..b]);
      if Contains(low, "week") then n * 7
      else if Contains(low, "month") then n * 30
      else if n < 1 then 1 else n
  }

  /** `parse_duration` on any value: an empty or missing duration is 5 days;
      anything else is read through `str()`. */
  function ParseDuration(v: Value): (days: nat)
    ensures v.Str? ==> days == ParseDurationText(v.s)
    ensures days == 0 ==> Truthy(v)
  {
    if !Truthy(v) then 5 else ParseDurationText(Display(v))
  }

  /** Text without a digit always lasts the 5-day default. */
  lemma DurationWithoutNumber(text: string)
    requires forall k :: 0 <= k < |text| ==> !IsDigit(text[k])
    ensures ParseDurationText(text) == 5
  {
    assert forall k :: 0 <= k < |Lower(text)| ==> !IsDigit(Lower(text)[k]) by {
      forall k | 0 <= k < |Lower(text)| ensures !IsDigit(Lower(text)[k]) {
        assert Lower(text)[k] == LowerChar(text[k]);
      }
    }
  }

  /** A numeral followed by a unit without digits: the numeral is the
      number that counts. */
  lemma {:induction false} FirstNumberOfNumeral(n: nat, unit: string)
    requires |unit| > 0 && !IsDigit(unit[0])
    ensures FirstNumber(NatToString(n) + unit) == Some((0, |NatToString(n)|))
  {
    var ds := NatToString(n);
    var s := ds + unit;
    var r := FirstNumber(s);
    assert forall k :: 0 <= k < |ds| ==> IsDigit(s[k]);
    assert !IsDigit(s[|ds|]);
    assert r.Some?;
    var (a, b) := r.value;
    assert a == 0;
    assert forall j :: 0 <= j < b ==> IsDigit(s[j]) by {
      forall j | 0 <= j < b ensures IsDigit(s[j]) { assert s[a..b][j] == s[j]; }
    }
  }

  /** A pattern that starts with a non-digit is found after a numeral
      exactly when it is found in the text after it. */
  lemma {:induction false} ContainsAfterNumeral(ds: string, rest: string, pat: string)
    requires AllDigits(ds) && |pat| > 0 && !IsDigit(pat[0])
    ensures Contains(ds + rest, pat) <==> Contains(rest, pat)
  {
    var s := ds + rest;
    assert s[|ds|..] == rest;
    if Contains(s, pat) {
      var k := FindFrom(s, pat, 0).value;
      assert s[k..k + |pat|] == pat;
      assert s[k] == pat[0];
      assert k >= |ds|;
      var j := k - |ds|;
      assert rest[j..j + |pat|] == s[k..k + |pat|] by {
        assert s[|ds|..][j..j + |pat|] == s[k..k + |pat|];
      }
      assert OccursAt(rest, pat, j);
    }
    if Contains(rest, pat) {
      var j := FindFrom(rest, pat, 0).value;
      assert rest[j..j + |pat|] == pat;
      assert s[j + |ds|..j + |ds| + |pat|] == rest[j..j + |pat|] by {
        assert s[|ds|..][j..j + |pat|] == s[j + |ds|..j + |ds| + |pat|];
      }
      assert OccursAt(s, pat, j + |ds|);
    }
  }

  /** "2 weeks" is 14 days, "3 months" 90, "4 days" 4 and "0 days" 1: a
      numeral followed by a lower-case unit without digits is read in the
      unit it names. */
  lemma {:induction false} DurationOfNumeral(n: nat, unit: string)
    requires |unit| > 0 && Lower(unit) == unit && forall k :: 0 <= k < |unit| ==> !IsDigit(unit[k])
    ensures ParseDurationText(NatToString(n) + unit) ==
      if Contains(unit, "week") then n * 7
      else if Contains(unit, "month") then n * 30
      else if n == 0 then 1 else n
  {
    var ds := NatToString(n);
    var s := ds + unit;
    assert Lower(s) == s by {
      forall k | 0 <= k < |s| ensures Lower(s)[k] == s[k] {
        if k >= |ds| { assert s[k] == unit[k - |ds|] && Lower(unit)[k - |ds|] == LowerChar(unit[k - |ds|]); }
      }
    }
    FirstNumberOfNumeral(n, unit);
    assert s[0..|ds|] == ds;
    NatToStringRoundTrip(n);
    ContainsAfterNumeral(ds, unit, "week");
    ContainsAfterNumeral(ds, unit, "month");
  }

  /** A unit of lower-case letters and spaces is its own lower case and
      holds no digit. */
  lemma PlainUnit(unit: string)
    requires forall k :: 0 <= k < |unit| ==> unit[k] == ' ' || 'a' <= unit[k] <= 'z'
    ensures Lower(unit) == unit && forall k :: 0 <= k < |unit| ==> !IsDigit(unit[k])
  {
    assert forall k :: 0 <= k < |unit| ==> Lower(unit)[k] == unit[k];
  }

  lemma DurationInWeeks()
    ensures ParseDurationText("2 weeks") == 14
  {
    var text := "2 weeks";
    var unit := text[1..];
    assert unit == " weeks";
    assert OccursAt(unit, "week", 1);
    PlainUnit(unit);
    SingleDigit(2);
    assert [DigitChar(2)] == [text[0]];
    assert text == [text[0]] + unit;
    DurationOfNumeral(2, unit);
  }

  lemma DurationInMonths()
    ensures ParseDurationText("3 months") == 90
  {
    var text := "3 months";
    var unit := text[1..];
    assert unit == " months";
    assert OccursAt(unit, "month", 1);
    AbsentFirstChar(unit, "week");
    PlainUnit(unit);
    SingleDigit(3);
    assert [DigitChar(3)] == [text[0]];
    assert text == [text[0]] + unit;
    DurationOfNumeral(3, unit);
  }

  lemma DurationInDays()
    ensures ParseDurationText("4 days") == 4
  {
    var text := "4 days";
    var unit := text[1..];
    assert unit == " days";
    AbsentFirstChar(unit, "week");
    AbsentFirstChar(unit, "month");
    PlainUnit(unit);
    SingleDigit(4);
    assert [DigitChar(4)] == [text[0]];
    assert text == [text[0]] + unit;
    DurationOfNumeral(4, unit);
  }

  /** A zero-day duration still lasts one day. */
  lemma DurationAtLeastOneDay()
    ensures ParseDurationText("0 days") == 1
  {
    var text := "0 days";
    var unit := text[1..];
    assert unit == " days";
    AbsentFirstChar(unit, "week");
    AbsentFirstChar(unit, "month");
    PlainUnit(unit);
    SingleDigit(0);
    assert [DigitChar(0)] == [text[0]];
    assert text == [text[0]] + unit;
    DurationOfNumeral(0, unit);
  }

  /** A task without a duration lasts 5 days, the default text. */
  lemma DefaultDuration()
    ensures ParseDurationText("5 days") == 5
    ensures NatToString(5) + " days" == "5 days"
  {
    var text := "5 days";
    var unit := text[1..];
    assert unit == " days";
    AbsentFirstChar(unit, "week");
    AbsentFirstChar(unit, "month");
    PlainUnit(unit);
    SingleDigit(5);
    assert [DigitChar(5)] == [text[0]];
    assert text == [text[0]] + unit;
    DurationOfNumeral(5, unit);
  }
}
