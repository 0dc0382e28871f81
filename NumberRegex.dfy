/** The per-article number rewrite of event_clustering.py: `re.search` with the
    pattern `\d{1,3}([' ',',']\d{1,3})+`, separators stripped from the matched
    text, and `str.replace` of every occurrence of that text.

    The matcher follows the backtracking order of Python's `re` engine (MatchAt);
    MatchAtCharacterized proves it equal to a direct description of where a
    match starts and how far it extends. `\d` is the ASCII digits only. */
module NumberRegex {
  import opened Common

  /** `\d`, restricted to ASCII digits. */
  predicate IsDigit(c: char) {
    '0' <= c <= '9'
  }

  /** The character class `[' ',',']`: apostrophe, space and comma. */
  predicate IsSeparator(c: char) {
    c == '\'' || c == ' ' || c == ','
  }

  /** The m characters from i exist and are all digits. */
  predicate DigitsAt(t: string, i: nat, m: nat) {
    i + m <= |t| && forall j :: i <= j < i + m ==> IsDigit(t[j])
  }

  function Min(a: nat, b: nat): nat {
    if a <= b then a else b
  }

  // ---------------------------------------------------------------------------
  // The matcher, in the order Python's backtracking engine tries alternatives.
  // ---------------------------------------------------------------------------

  /** One iteration `[' ',',']\d{1,3}` of the group at p, with m digits tried
      first and fewer on failure. What follows an iteration (more iterations,
      else the end of the pattern) always succeeds, so the first digit count
      that fits decides the iteration. Yields the end of the whole match. */
  function GroupAt(t: string, p: nat, m: nat): (r: Option<nat>)
    ensures r.Some? ==> p + 2 <= r.value <= |t|
    decreases |t| - p, m
  {
    if m == 0 then None
    else if p < |t| && IsSeparator(t[p]) && DigitsAt(t, p + 1, m) then Some(MoreGroups(t, p + 1 + m))
    else GroupAt(t, p, m - 1)
  }

  /** The greedy `+` after an iteration that ended at q: another iteration if
      one matches at q, otherwise the match ends at q. */
  function MoreGroups(t: string, q: nat): (e: nat)
    ensures q <= e
    ensures q <= |t| ==> e <= |t|
    decreases |t| - q, 4
  {
    match GroupAt(t, q, 3)
    case Some(e) => e
    case None => q
  }

  /** `\d{1,3}` at s with m digits tried first (greedy, then backtracking to
      fewer), each followed by the first iteration of the group. */
  function LeadAt(t: string, s: nat, m: nat): (r: Option<nat>)
    ensures r.Some? ==> s + 3 <= r.value <= |t|
    decreases m
  {
    if m == 0 then None
    else if DigitsAt(t, s, m) then
      match GroupAt(t, s + m, 3)
      case Some(e) => Some(e)
      case None => LeadAt(t, s, m - 1)
    else LeadAt(t, s, m - 1)
  }

  /** The end of the match of the whole pattern that starts at s, if any. */
  function MatchAt(t: string, s: nat): (r: Option<nat>)
    ensures r.Some? ==> s + 3 <= r.value <= |t|
  {
    LeadAt(t, s, 3)
  }

  // ---------------------------------------------------------------------------
  // A direct description of the match.
  // ---------------------------------------------------------------------------

  /** The length of the run of digits that starts at i. */
  function DigitRun(t: string, i: nat): (n: nat)
    requires i <= |t|
    ensures DigitsAt(t, i, n)
    ensures i + n < |t| ==> !IsDigit(t[i + n])
    decreases |t| - i
  {
    if i < |t| && IsDigit(t[i]) then 1 + DigitRun(t, i + 1) else 0
  }

  /** A separator at p followed by a digit. */
  predicate GroupFollows(t: string, p: nat) {
    p + 1 < |t| && IsSeparator(t[p]) && IsDigit(t[p + 1])
  }

  /** A match starts at s exactly when the digit run from s has one to three
      digits and is followed by a separator and a digit. */
  predicate StartsGroupedNumber(t: string, s: nat) {
    s < |t| && 1 <= DigitRun(t, s) <= 3 && GroupFollows(t, s + DigitRun(t, s))
  }

  /** Extends from p over as many separator-plus-one-to-three-digit groups as
      follow, each group taking up to three digits. */
  function GreedyEnd(t: string, p: nat): (e: nat)
    requires p <= |t|
    ensures p <= e <= |t|
    ensures GroupFollows(t, p) ==> p + 2 <= e
    decreases |t| - p
  {
    if GroupFollows(t, p) then GreedyEnd(t, p + 1 + Min(3, DigitRun(t, p + 1))) else p
  }

  /** Where the match that starts at s ends. */
  function MatchEnd(t: string, s: nat): (e: nat)
    requires StartsGroupedNumber(t, s)
    ensures s + 3 <= e <= |t|
  {
    GreedyEnd(t, s + DigitRun(t, s))
  }

  lemma DigitsAtIff(t: string, i: nat, m: nat)
    requires i <= |t|
    ensures DigitsAt(t, i, m) <==> m <= DigitRun(t, i)
  {
  }

  /** One iteration of the group matches exactly when a separator and a digit
      follow, and then takes as many digits as are there, up to m. */
  lemma {:induction false} GroupAtCharacterized(t: string, p: nat, m: nat)
    requires p <= |t|
    ensures GroupAt(t, p, m)
         == if m >= 1 && GroupFollows(t, p) then Some(MoreGroups(t, p + 1 + Min(m, DigitRun(t, p + 1)))) else None
    decreases m
  {
    if m > 0 {
      if p < |t| && IsSeparator(t[p]) && p + 1 <= |t| {
        DigitsAtIff(t, p + 1, m);
      }
      if !(p < |t| && IsSeparator(t[p]) && DigitsAt(t, p + 1, m)) {
        GroupAtCharacterized(t, p, m - 1);
        if p + 1 < |t| && IsSeparator(t[p]) && IsDigit(t[p + 1]) && m > 1 {
          DigitsAtIff(t, p + 1, m);
        }
      }
    }
  }

  /** The greedy repetition in backtracking order is the greedy extension. */
  lemma {:induction false} MoreGroupsIsGreedy(t: string, q: nat)
    requires q <= |t|
    ensures MoreGroups(t, q) == GreedyEnd(t, q)
    decreases |t| - q
  {
    GroupAtCharacterized(t, q, 3);
    if GroupFollows(t, q) {
      MoreGroupsIsGreedy(t, q + 1 + Min(3, DigitRun(t, q + 1)));
    }
  }

  /** Backtracking over the leading digit count: only the whole digit run can
      be followed by a separator, so only it can succeed. */
  lemma {:induction false} LeadAtCharacterized(t: string, s: nat, m: nat)
    requires s <= |t|
    ensures LeadAt(t, s, m)
         == if 1 <= DigitRun(t, s) <= m then GroupAt(t, s + DigitRun(t, s), 3) else None
    decreases m
  {
    if m > 0 {
      var d := DigitRun(t, s);
      DigitsAtIff(t, s, m);
      LeadAtCharacterized(t, s, m - 1);
      if m < d {
        GroupAtCharacterized(t, s + m, 3);
      }
    }
  }

  /** The backtracking matcher agrees with the direct description: a match
      starts at s exactly when StartsGroupedNumber holds, and ends at MatchEnd. */
  lemma MatchAtCharacterized(t: string, s: nat)
    requires s <= |t|
    ensures MatchAt(t, s) == if StartsGroupedNumber(t, s) then Some(MatchEnd(t, s)) else None
  {
    if StartsGroupedNumber(t, s) {
      MatchAtStarts(t, s);
    } else {
      MatchAtFails(t, s);
    }
  }

  lemma MatchAtStarts(t: string, s: nat)
    requires StartsGroupedNumber(t, s)
    ensures MatchAt(t, s) == Some(MatchEnd(t, s))
  {
    var d := DigitRun(t, s);
    MatchAtIsGroup(t, s);
    GroupAtFollows(t, s + d);
  }

  lemma MatchAtIsGroup(t: string, s: nat)
    requires s <= |t| && 1 <= DigitRun(t, s) <= 3
    ensures MatchAt(t, s) == GroupAt(t, s + DigitRun(t, s), 3)
  {
    LeadAtCharacterized(t, s, 3);
  }

  /** A separator and a digit at p start the greedy extension. */
  lemma GroupAtFollows(t: string, p: nat)
    requires p <= |t| && GroupFollows(t, p)
    ensures GroupAt(t, p, 3) == Some(GreedyEnd(t, p))
  {
    var q := p + 1 + Min(3, DigitRun(t, p + 1));
    GroupAtCharacterized(t, p, 3);
    MoreGroupsIsGreedy(t, q);
    GreedyEndStep(t, p);
  }

  lemma GreedyEndStep(t: string, p: nat)
    requires p <= |t| && GroupFollows(t, p)
    ensures GreedyEnd(t, p) == GreedyEnd(t, p + 1 + Min(3, DigitRun(t, p + 1)))
  {
  }

  lemma MatchAtFails(t: string, s: nat)
    requires s <= |t| && !StartsGroupedNumber(t, s)
    ensures MatchAt(t, s) == None
  {
    LeadAtCharacterized(t, s, 3);
    var d := DigitRun(t, s);
    if 1 <= d <= 3 {
      GroupAtCharacterized(t, s + d, 3);
    }
  }

  /** `re.search` from position s: the match with the leftmost start, as
      (start, end); None when no position from s on starts a match. */
  function SearchFrom(t: string, s: nat): (r: Option<(nat, nat)>)
    ensures r.None? <==> forall i :: s <= i < |t| ==> !StartsGroupedNumber(t, i)
    ensures r.Some? ==> s <= r.value.0 && StartsGroupedNumber(t, r.value.0)
                        && r.value.1 == MatchEnd(t, r.value.0)
                        && forall i :: s <= i < r.value.0 ==> !StartsGroupedNumber(t, i)
    decreases |t| + 1 - s
  {
    if s > |t| then None
    else
      var m := MatchAt(t, s);
      MatchAtCharacterized(t, s);
      if m.Some? then Some((s, m.value)) else SearchFrom(t, s + 1)
  }

  // ---------------------------------------------------------------------------
  // str.replace and the rewrite.
  // ---------------------------------------------------------------------------

  /** Python's `t.replace(pat, rep)` for a non-empty pat: every non-overlapping
      occurrence, found scanning left to right, is replaced. */
  function ReplaceAll(t: string, pat: string, rep: string): (r: string)
    requires pat != []
    ensures |rep| <= |pat| ==> |r| <= |t|
    decreases |t|
  {
    if |t| < |pat| then t
    else if t[..|pat|] == pat then rep + ReplaceAll(t[|pat|..], pat, rep)
    else [t[0]] + ReplaceAll(t[1..], pat, rep)
  }

  /** pat occurs in t at i. */
  predicate OccursAt(t: string, pat: string, i: nat) {
    i + |pat| <= |t| && t[i..i + |pat|] == pat
  }

  /** Text in which pat does not occur is left unchanged. */
  lemma {:induction false} ReplaceAllWithoutOccurrence(t: string, pat: string, rep: string)
    requires pat != []
    requires forall i :: 0 <= i <= |t| ==> !OccursAt(t, pat, i)
    ensures ReplaceAll(t, pat, rep) == t
    decreases |t|
  {
    if |t| >= |pat| {
      assert !OccursAt(t, pat, 0);
      assert t[..|pat|] != pat;
      forall i | 0 <= i <= |t[1..]| ensures !OccursAt(t[1..], pat, i) {
        assert !OccursAt(t, pat, i + 1);
        if i + |pat| <= |t[1..]| {
          assert t[1..][i..i + |pat|] == t[i + 1..i + 1 + |pat|];
        }
      }
      ReplaceAllWithoutOccurrence(t[1..], pat, rep);
    }
  }

  /** Text before the first occurrence is kept, the first occurrence becomes
      rep, and the scan resumes right after it. */
  lemma {:induction false} ReplaceAllFirstOccurrence(t: string, pat: string, rep: string, s: nat)
    requires pat != []
    requires OccursAt(t, pat, s)
    requires forall i :: 0 <= i < s ==> !OccursAt(t, pat, i)
    ensures ReplaceAll(t, pat, rep) == t[..s] + rep + ReplaceAll(t[s + |pat|..], pat, rep)
    decreases s
  {
    if s == 0 {
      assert t[..|pat|] == pat && t[..s] == [];
      assert ReplaceAll(t, pat, rep) == rep + ReplaceAll(t[|pat|..], pat, rep);
    } else {
      var tail := t[1..];
      var rest := ReplaceAll(t[s + |pat|..], pat, rep);
      assert ReplaceAll(tail, pat, rep) == tail[..s - 1] + rep + rest by {
        ShiftOccurrences(t, pat, s);
        ReplaceAllFirstOccurrence(tail, pat, rep, s - 1);
        assert tail[s - 1 + |pat|..] == t[s + |pat|..];
      }
      assert ReplaceAll(t, pat, rep) == [t[0]] + ReplaceAll(tail, pat, rep) by {
        assert !OccursAt(t, pat, 0);
        ReplaceAllSkips(t, pat, rep);
      }
      ConsPrefix(t, s, rep, rest);
    }
  }

  /** Where pat does not occur at the front, the first character is kept. */
  lemma ReplaceAllSkips(t: string, pat: string, rep: string)
    requires pat != [] && |pat| <= |t| && !OccursAt(t, pat, 0)
    ensures ReplaceAll(t, pat, rep) == [t[0]] + ReplaceAll(t[1..], pat, rep)
  {
    assert t[..|pat|] != pat;
  }

  /** Occurrences in t[1..] are those in t, one position earlier. */
  lemma ShiftOccurrences(t: string, pat: string, s: nat)
    requires 0 < s && OccursAt(t, pat, s)
    requires forall i :: 0 <= i < s ==> !OccursAt(t, pat, i)
    ensures OccursAt(t[1..], pat, s - 1)
    ensures forall i :: 0 <= i < s - 1 ==> !OccursAt(t[1..], pat, i)
  {
    assert t[1..][s - 1..s - 1 + |pat|] == t[s..s + |pat|];
    forall i | 0 <= i < s - 1 ensures !OccursAt(t[1..], pat, i) {
      assert !OccursAt(t, pat, i + 1);
      assert t[1..][i..i + |pat|] == t[i + 1..i + 1 + |pat|];
    }
  }

  lemma ConsPrefix(t: string, s: nat, rep: string, rest: string)
    requires 0 < s <= |t|
    ensures [t[0]] + (t[1..][..s - 1] + rep + rest) == t[..s] + rep + rest
  {
    assert [t[0]] + t[1..][..s - 1] == t[..s];
  }

  /** The text with every c left out and the other characters kept, in order. */
  function Without(t: string, c: char): (r: string)
    ensures forall x :: x in r <==> x in t && x != c
    ensures multiset(r) == multiset(t)[c := 0]
    ensures |r| <= |t|
    decreases |t|
  {
    if t == [] then []
    else
      assert t == [t[0]] + t[1..];
      (if t[0] == c then [] else [t[0]]) + Without(t[1..], c)
  }

  /** Replacing one character by nothing is leaving it out. */
  lemma {:induction false} RemoveCharacter(t: string, c: char)
    ensures ReplaceAll(t, [c], []) == Without(t, c)
    decreases |t|
  {
    if |t| >= 1 {
      RemoveCharacter(t[1..], c);
      assert t[..1] == [t[0]];
    }
  }

  /** `newNumber`: the matched text with its spaces, then its commas, left out;
      every other character (digits, apostrophes) stays, in order. */
  function StripSeparators(number: string): (r: string)
    ensures r == Without(Without(number, ' '), ',')
    ensures ' ' !in r && ',' !in r
    ensures multiset(r) == multiset(number)[' ' := 0][',' := 0]
    ensures |r| <= |number|
  {
    var noSpaces := ReplaceAll(number, " ", "");
    RemoveCharacter(number, ' ');
    RemoveCharacter(noSpaces, ',');
    ReplaceAll(noSpaces, ",", "")
  }

  /** The rewrite of one article's content: if the pattern matches, every
      occurrence of the leftmost match's text is replaced by that text with its
      spaces and commas removed; otherwise the content is returned as it is. */
  function Normalize(content: string): (r: string)
    ensures (forall i :: 0 <= i < |content| ==> !StartsGroupedNumber(content, i)) ==> r == content
    ensures |r| <= |content|
  {
    match SearchFrom(content, 0)
    case None => content
    case Some((s, e)) =>
      var number := content[s..e];
      ReplaceAll(content, number, StripSeparators(number))
  }

  /** A run of exactly d digits: d digits, then a non-digit. */
  lemma DigitRunExact(t: string, i: nat, d: nat)
    requires DigitsAt(t, i, d) && i + d < |t| && !IsDigit(t[i + d])
    ensures DigitRun(t, i) == d
  {
    DigitsAtIff(t, i, d);
    DigitsAtIff(t, i, d + 1);
  }

  /** Whether a match starts at s depends only on the digit run there and the
      two characters after it, so a copy of those characters starts one too. */
  lemma StartCopied(t: string, s: nat, i: nat)
    requires StartsGroupedNumber(t, s)
    requires i + DigitRun(t, s) + 2 <= |t|
    requires t[i..i + DigitRun(t, s) + 2] == t[s..s + DigitRun(t, s) + 2]
    ensures StartsGroupedNumber(t, i)
  {
    var d := DigitRun(t, s);
    var copy := t[s..s + d + 2];
    forall j | i <= j < i + d + 2
      ensures t[j] == copy[j - i]
    {
      assert t[i..i + d + 2][j - i] == t[j];
    }
    assert DigitsAt(t, i, d);
    DigitRunExact(t, i, d);
  }

  /** The text of the leftmost match does not occur earlier in the content:
      any earlier occurrence would itself start a match. */
  lemma NoEarlierOccurrence(t: string, s: nat)
    requires StartsGroupedNumber(t, s)
    requires forall i :: 0 <= i < s ==> !StartsGroupedNumber(t, i)
    ensures forall i :: 0 <= i < s ==> !OccursAt(t, t[s..MatchEnd(t, s)], i)
  {
    var number := t[s..MatchEnd(t, s)];
    forall i | 0 <= i < s && OccursAt(t, number, i)
      ensures false
    {
      OccurrenceStarts(t, s, i);
    }
  }

  /** Wherever the text of a match occurs, a match starts. */
  lemma OccurrenceStarts(t: string, s: nat, i: nat)
    requires StartsGroupedNumber(t, s)
    requires OccursAt(t, t[s..MatchEnd(t, s)], i)
    ensures StartsGroupedNumber(t, i)
  {
    var e := MatchEnd(t, s);
    var k := DigitRun(t, s) + 2;
    OccurrencePrefix(t, s, e, i, k);
    StartCopied(t, s, i);
  }

  /** The first k characters of an occurrence of t[s..e] repeat t[s..s + k]. */
  lemma OccurrencePrefix(t: string, s: nat, e: nat, i: nat, k: nat)
    requires s <= e <= |t| && k <= e - s
    requires OccursAt(t, t[s..e], i)
    ensures i + k <= |t| && t[i..i + k] == t[s..s + k]
  {
    var number := t[s..e];
    var copy, original := t[i..i + k], t[s..s + k];
    assert t[i..i + |number|] == number;
    forall j | 0 <= j < k
      ensures copy[j] == original[j]
    {
      assert copy[j] == t[i..i + |number|][j];
      assert number[j] == t[s + j];
    }
  }

  /** Rewriting every occurrence of the leftmost match's text keeps what
      precedes the match and resumes the scan right after it. */
  lemma RewriteFromLeftmost(t: string, s: nat, e: nat, rep: string)
    requires StartsGroupedNumber(t, s) && e == MatchEnd(t, s)
    requires forall i :: 0 <= i < s ==> !StartsGroupedNumber(t, i)
    ensures ReplaceAll(t, t[s..e], rep) == t[..s] + rep + ReplaceAll(t[e..], t[s..e], rep)
  {
    var number := t[s..e];
    NoEarlierOccurrence(t, s);
    assert OccursAt(t, number, s);
    ReplaceAllFirstOccurrence(t, number, rep, s);
    assert s + |number| == e;
  }

  /** What the rewrite does to text that has a match: the content before the
      match is untouched, the match itself loses its spaces and commas, and
      every later occurrence of the same text is rewritten the same way. */
  lemma NormalizeRewritesLeftmostMatch(t: string)
    requires SearchFrom(t, 0).Some?
    ensures var (s, e) := SearchFrom(t, 0).value;
            Normalize(t) == t[..s] + StripSeparators(t[s..e]) + ReplaceAll(t[e..], t[s..e], StripSeparators(t[s..e]))
  {
    var m := SearchFrom(t, 0).value;
    NormalizeFound(t);
    RewriteFromLeftmost(t, m.0, m.1, StripSeparators(t[m.0..m.1]));
  }

  /** With a match, the rewrite replaces the matched text by its stripped form. */
  lemma NormalizeFound(t: string)
    requires SearchFrom(t, 0).Some?
    ensures var m := SearchFrom(t, 0).value;
            m.0 <= m.1 <= |t| && t[m.0..m.1] != []
            && Normalize(t) == ReplaceAll(t, t[m.0..m.1], StripSeparators(t[m.0..m.1]))
  {
  }

  /** Text in which pat's first character never appears is left unchanged. */
  lemma {:induction false} ReplaceAllAbsent(t: string, pat: string, rep: string)
    requires pat != [] && pat[0] !in t
    ensures ReplaceAll(t, pat, rep) == t
    decreases |t|
  {
    if |t| >= |pat| {
      assert t[..|pat|][0] == t[0];
      assert t[1..] <= t[1..] && forall c :: c in t[1..] ==> c in t;
      ReplaceAllAbsent(t[1..], pat, rep);
      assert [t[0]] + t[1..] == t;
    }
  }

  /** A single occurrence, with pat's first character appearing neither before
      nor after it, is the only thing rewritten. */
  lemma ReplaceAllOnce(t: string, pat: string, rep: string, s: nat)
    requires pat != [] && OccursAt(t, pat, s)
    requires forall i :: 0 <= i < s ==> t[i] != pat[0]
    requires pat[0] !in t[s + |pat|..]
    ensures ReplaceAll(t, pat, rep) == t[..s] + rep + t[s + |pat|..]
  {
    forall i | 0 <= i < s
      ensures !OccursAt(t, pat, i)
    {
      assert i + |pat| <= |t| ==> t[i..i + |pat|][0] == t[i];
    }
    ReplaceAllFirstOccurrence(t, pat, rep, s);
    ReplaceAllAbsent(t[s + |pat|..], pat, rep);
  }

  /** No match starts at a character that is not a digit. */
  lemma NoDigitsNoStart(t: string, a: nat, k: nat)
    requires a <= k <= |t| && forall j :: a <= j < k ==> !IsDigit(t[j])
    ensures forall i :: a <= i < k ==> !StartsGroupedNumber(t, i)
  {
    forall i | a <= i < k
      ensures !StartsGroupedNumber(t, i)
    {
      assert DigitRun(t, i) == 0;
    }
  }

  /** The search finds the leftmost position that starts a match. */
  lemma LeftmostStart(t: string, s: nat)
    requires StartsGroupedNumber(t, s)
    requires forall i :: 0 <= i < s ==> !StartsGroupedNumber(t, i)
    ensures SearchFrom(t, 0) == Some((s, MatchEnd(t, s)))
  {
  }

  /** When the first character of the matched text does not recur after the
      match, the rewrite touches only the match itself. */
  lemma NormalizeSingle(t: string, s: nat, e: nat)
    requires SearchFrom(t, 0) == Some((s, e))
    requires t[s] !in t[e..]
    ensures Normalize(t) == t[..s] + StripSeparators(t[s..e]) + t[e..]
  {
    NormalizeRewritesLeftmostMatch(t);
    assert t[s..e][0] == t[s];
    ReplaceAllAbsent(t[e..], t[s..e], StripSeparators(t[s..e]));
  }
}
