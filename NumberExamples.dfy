/** Worked examples of the number rewrite of event_clustering.py. Each fact
    about a particular text is its own small lemma. */
module NumberExamples {
  import opened Common
  import opened NumberRegex

  // ---------------------------------------------------------------------------
  // "Sales rose 12,345 units" becomes "Sales rose 12345 units".
  // ---------------------------------------------------------------------------

  lemma SalesRuns()
    ensures DigitRun("Sales rose 12,345 units", 11) == 2
  {
    var t := "Sales rose 12,345 units";
    assert t[11] == '1' && t[12] == '2' && t[13] == ',';
    DigitRunExact(t, 11, 2);
  }

  lemma SalesSecondRun()
    ensures DigitRun("Sales rose 12,345 units", 14) == 3
  {
    var t := "Sales rose 12,345 units";
    assert t[14] == '3' && t[15] == '4' && t[16] == '5' && t[17] == ' ';
    DigitRunExact(t, 14, 3);
  }

  lemma SalesStart()
    ensures StartsGroupedNumber("Sales rose 12,345 units", 11)
    ensures MatchEnd("Sales rose 12,345 units", 11) == 17
  {
    var t := "Sales rose 12,345 units";
    SalesRuns();
    SalesSecondRun();
    assert t[13] == ',' && t[14] == '3' && t[17] == ' ' && t[18] == 'u';
    assert GroupFollows(t, 13) && !GroupFollows(t, 17);
  }

  /** The leftmost match is "12,345", at 11 to 17. */
  lemma SalesSearch()
    ensures SearchFrom("Sales rose 12,345 units", 0) == Some((11, 17))
  {
    var t := "Sales rose 12,345 units";
    assert forall j :: 0 <= j < 11 ==> !IsDigit(t[j]);
    NoDigitsNoStart(t, 0, 11);
    SalesStart();
    LeftmostStart(t, 11);
  }

  lemma SalesNoSpaces()
    ensures ReplaceAll("12,345", " ", "") == "12,345"
  {
    ReplaceAllAbsent("12,345", " ", "");
  }

  lemma SalesNoCommas()
    ensures ReplaceAll("12,345", ",", "") == "12345"
  {
    var t := "12,345";
    assert OccursAt(t, ",", 2);
    assert t[..2] == "12" && t[3..] == "345";
    ReplaceAllOnce(t, ",", "", 2);
  }

  lemma SalesStrip()
    ensures StripSeparators("12,345") == "12345"
  {
    SalesNoSpaces();
    SalesNoCommas();
  }

  lemma SalesSlices()
    ensures var t := "Sales rose 12,345 units";
            t[..11] == "Sales rose " && t[11..17] == "12,345" && t[17..] == " units" && t[11] !in t[17..]
  {
  }

  lemma SalesConcat()
    ensures "Sales rose " + "12345" + " units" == "Sales rose 12345 units"
  {
  }

  /** The thousands separator is dropped and nothing else changes. */
  lemma SalesNormalized()
    ensures Normalize("Sales rose 12,345 units") == "Sales rose 12345 units"
  {
    SalesSearch();
    SalesSlices();
    NormalizeSingle("Sales rose 12,345 units", 11, 17);
    SalesStrip();
    SalesConcat();
  }

  // ---------------------------------------------------------------------------
  // "only 42 units" is unchanged: a separator must be followed by a digit.
  // ---------------------------------------------------------------------------

  lemma OnlyRuns()
    ensures DigitRun("only 42 units", 5) == 2 && DigitRun("only 42 units", 6) == 1
    ensures !GroupFollows("only 42 units", 7)
  {
    var t := "only 42 units";
    assert t[5] == '4' && t[6] == '2' && t[7] == ' ' && t[8] == 'u';
    DigitRunExact(t, 5, 2);
    DigitRunExact(t, 6, 1);
  }

  lemma OnlyNoStart()
    ensures forall i :: 0 <= i < |"only 42 units"| ==> !StartsGroupedNumber("only 42 units", i)
  {
    var t := "only 42 units";
    assert forall j :: 0 <= j < 5 ==> !IsDigit(t[j]);
    NoDigitsNoStart(t, 0, 5);
    assert forall j :: 7 <= j < 13 ==> !IsDigit(t[j]);
    NoDigitsNoStart(t, 7, 13);
    OnlyRuns();
  }

  lemma OnlyUnchanged()
    ensures Normalize("only 42 units") == "only 42 units"
  {
    OnlyNoStart();
  }

  // ---------------------------------------------------------------------------
  // In "in 2020 15" the match starts inside the four-digit run: "020 15".
  // ---------------------------------------------------------------------------

  lemma YearRuns()
    ensures DigitRun("in 2020 15", 3) == 4 && DigitRun("in 2020 15", 4) == 3
    ensures DigitRun("in 2020 15", 8) == 2
  {
    var t := "in 2020 15";
    assert t[3] == '2' && t[4] == '0' && t[5] == '2' && t[6] == '0' && t[7] == ' ';
    DigitRunExact(t, 3, 4);
    DigitRunExact(t, 4, 3);
    assert t[8] == '1' && t[9] == '5' && |t| == 10;
    DigitsAtIff(t, 8, 2);
  }

  lemma YearStart()
    ensures !StartsGroupedNumber("in 2020 15", 3)
    ensures StartsGroupedNumber("in 2020 15", 4)
    ensures MatchEnd("in 2020 15", 4) == 10
  {
    var t := "in 2020 15";
    YearRuns();
    assert t[7] == ' ' && t[8] == '1';
    assert GroupFollows(t, 7) && !GroupFollows(t, 10);
  }

  /** The leftmost match is "020 15", at 4 to 10. */
  lemma YearSearch()
    ensures SearchFrom("in 2020 15", 0) == Some((4, 10))
  {
    var t := "in 2020 15";
    assert forall j :: 0 <= j < 3 ==> !IsDigit(t[j]);
    NoDigitsNoStart(t, 0, 3);
    YearStart();
    LeftmostStart(t, 4);
  }

  lemma YearNoSpaces()
    ensures ReplaceAll("020 15", " ", "") == "02015"
  {
    var t := "020 15";
    assert OccursAt(t, " ", 3);
    assert t[..3] == "020" && t[4..] == "15";
    ReplaceAllOnce(t, " ", "", 3);
  }

  lemma YearNoCommas()
    ensures ReplaceAll("02015", ",", "") == "02015"
  {
    ReplaceAllAbsent("02015", ",", "");
  }

  lemma YearStrip()
    ensures StripSeparators("020 15") == "02015"
  {
    YearNoSpaces();
    YearNoCommas();
  }

  lemma YearSlices()
    ensures var t := "in 2020 15";
            t[..4] == "in 2" && t[4..10] == "020 15" && t[10..] == "" && t[4] !in t[10..]
  {
  }

  /** The rewrite joins the year to the following number. */
  lemma YearNormalized()
    ensures Normalize("in 2020 15") == "in 202015"
  {
    YearSearch();
    YearSlices();
    NormalizeSingle("in 2020 15", 4, 10);
    YearStrip();
    YearConcat();
  }

  lemma YearConcat()
    ensures "in 2" + "02015" + "" == "in 202015"
  {
  }

  // ---------------------------------------------------------------------------
  // The rewrite is not idempotent: only the leftmost number is rewritten, so
  // "1,2 x 3,4" needs two passes to lose both commas.
  // ---------------------------------------------------------------------------

  lemma FirstPassStart()
    ensures StartsGroupedNumber("1,2 x 3,4", 0)
    ensures MatchEnd("1,2 x 3,4", 0) == 3
  {
    var t := "1,2 x 3,4";
    assert t[0] == '1' && t[1] == ',' && t[2] == '2' && t[3] == ' ' && t[4] == 'x';
    DigitRunExact(t, 0, 1);
    DigitRunExact(t, 2, 1);
    assert GroupFollows(t, 1) && !GroupFollows(t, 3);
  }

  lemma FirstPassNoSpaces()
    ensures ReplaceAll("1,2", " ", "") == "1,2"
  {
    ReplaceAllAbsent("1,2", " ", "");
  }

  lemma FirstPassNoCommas()
    ensures ReplaceAll("1,2", ",", "") == "12"
  {
    var t := "1,2";
    assert OccursAt(t, ",", 1);
    assert t[..1] == "1" && t[2..] == "2";
    ReplaceAllOnce(t, ",", "", 1);
  }

  lemma FirstPassStrip()
    ensures StripSeparators("1,2") == "12"
  {
    FirstPassNoSpaces();
    FirstPassNoCommas();
  }

  lemma FirstPassSlices()
    ensures var t := "1,2 x 3,4";
            t[..0] == "" && t[0..3] == "1,2" && t[3..] == " x 3,4" && t[0] !in t[3..]
  {
  }

  lemma FirstPassConcat()
    ensures "" + "12" + " x 3,4" == "12 x 3,4"
  {
  }

  /** The first pass rewrites only the leftmost number. */
  lemma FirstPass()
    ensures Normalize("1,2 x 3,4") == "12 x 3,4"
  {
    FirstPassStart();
    LeftmostStart("1,2 x 3,4", 0);
    FirstPassSlices();
    NormalizeSingle("1,2 x 3,4", 0, 3);
    FirstPassStrip();
    FirstPassConcat();
  }

  lemma SecondPassRuns()
    ensures DigitRun("12 x 3,4", 0) == 2 && DigitRun("12 x 3,4", 1) == 1
    ensures !GroupFollows("12 x 3,4", 2)
  {
    var t := "12 x 3,4";
    assert t[0] == '1' && t[1] == '2' && t[2] == ' ' && t[3] == 'x';
    DigitRunExact(t, 0, 2);
    DigitRunExact(t, 1, 1);
  }

  lemma SecondPassStart()
    ensures forall i :: 0 <= i < 5 ==> !StartsGroupedNumber("12 x 3,4", i)
    ensures StartsGroupedNumber("12 x 3,4", 5)
    ensures MatchEnd("12 x 3,4", 5) == 8
  {
    var t := "12 x 3,4";
    SecondPassRuns();
    assert forall j :: 2 <= j < 5 ==> !IsDigit(t[j]);
    NoDigitsNoStart(t, 2, 5);
    assert t[5] == '3' && t[6] == ',' && t[7] == '4' && |t| == 8;
    DigitRunExact(t, 5, 1);
    DigitsAtIff(t, 7, 1);
    assert GroupFollows(t, 6) && !GroupFollows(t, 8);
  }

  lemma SecondPassNoSpaces()
    ensures ReplaceAll("3,4", " ", "") == "3,4"
  {
    ReplaceAllAbsent("3,4", " ", "");
  }

  lemma SecondPassNoCommas()
    ensures ReplaceAll("3,4", ",", "") == "34"
  {
    var t := "3,4";
    assert OccursAt(t, ",", 1);
    assert t[..1] == "3" && t[2..] == "4";
    ReplaceAllOnce(t, ",", "", 1);
  }

  lemma SecondPassStrip()
    ensures StripSeparators("3,4") == "34"
  {
    SecondPassNoSpaces();
    SecondPassNoCommas();
  }

  lemma SecondPassSlices()
    ensures var t := "12 x 3,4";
            t[..5] == "12 x " && t[5..8] == "3,4" && t[8..] == "" && t[5] !in t[8..]
  {
  }

  lemma SecondPassConcat()
    ensures "12 x " + "34" + "" == "12 x 34"
  {
  }

  /** The second pass rewrites the number the first pass left behind. */
  lemma SecondPass()
    ensures Normalize("12 x 3,4") == "12 x 34"
  {
    SecondPassStart();
    LeftmostStart("12 x 3,4", 5);
    SecondPassSlices();
    NormalizeSingle("12 x 3,4", 5, 8);
    SecondPassStrip();
    SecondPassConcat();
  }

  /** Rewriting twice differs from rewriting once. */
  lemma NormalizeNotIdempotent()
    ensures Normalize(Normalize("1,2 x 3,4")) != Normalize("1,2 x 3,4")
  {
    FirstPass();
    SecondPass();
    assert |"12 x 34"| != |"12 x 3,4"|;
  }

  // ---------------------------------------------------------------------------
  // In "1,2 x 1,234" the second number contains the matched text "1,2", so
  // str.replace strips its first comma in the same pass: "12 x 1234".
  // ---------------------------------------------------------------------------

  lemma ContainedStart()
    ensures StartsGroupedNumber("1,2 x 1,234", 0)
    ensures MatchEnd("1,2 x 1,234", 0) == 3
  {
    var t := "1,2 x 1,234";
    assert t[0] == '1' && t[1] == ',' && t[2] == '2' && t[3] == ' ' && t[4] == 'x';
    DigitRunExact(t, 0, 1);
    DigitRunExact(t, 2, 1);
    assert GroupFollows(t, 1) && !GroupFollows(t, 3);
  }

  /** The leftmost match is "1,2", at 0 to 3. */
  lemma ContainedSearch()
    ensures SearchFrom("1,2 x 1,234", 0) == Some((0, 3))
  {
    ContainedStart();
    LeftmostStart("1,2 x 1,234", 0);
  }

  /** After the match, "1,2" occurs once more, inside "1,234". */
  lemma ContainedTail()
    ensures ReplaceAll(" x 1,234", "1,2", "12") == " x 1234"
  {
    var u := " x 1,234";
    assert OccursAt(u, "1,2", 3);
    assert u[..3] == " x " && u[6..] == "34";
    forall i | 0 <= i < 3
      ensures !OccursAt(u, "1,2", i)
    {
      assert u[i] != '1';
      assert i + 3 <= |u| ==> u[i..i + 3][0] == u[i];
    }
    ReplaceAllFirstOccurrence(u, "1,2", "12", 3);
    ReplaceAllAbsent("34", "1,2", "12");
  }

  lemma ContainedSlices()
    ensures var t := "1,2 x 1,234";
            t[..0] == "" && t[0..3] == "1,2" && t[3..] == " x 1,234"
  {
  }

  /** Every occurrence of the matched text is rewritten, including the one
      inside a later, longer number. */
  lemma ContainedNormalized()
    ensures Normalize("1,2 x 1,234") == "12 x 1234"
  {
    var t := "1,2 x 1,234";
    assert Normalize(t) == t[..0] + StripSeparators(t[0..3]) + ReplaceAll(t[3..], t[0..3], StripSeparators(t[0..3])) by {
      ContainedSearch();
      NormalizeRewritesLeftmostMatch(t);
    }
    ContainedSlices();
    FirstPassStrip();
    ContainedTail();
    ContainedConcat();
  }

  lemma ContainedConcat()
    ensures "" + "12" + " x 1234" == "12 x 1234"
  {
  }
}
