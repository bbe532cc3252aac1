/** `durationToDate` of utils/duration.js: a token lifetime such as "15m" or "7d" turned into
    an expiry instant. Instants are integer milliseconds since the epoch, and the current
    time is a parameter. */
module Duration {
  import opened Common

  const OneSecond: nat := 1000
  const OneMinute: nat := 60 * OneSecond
  const OneHour: nat := 60 * OneMinute
  const OneDay: nat := 24 * OneHour

  /** The `units` table: milliseconds per lower-case unit letter, `None` for other keys. */
  function UnitTable(u: char): (r: Option<nat>)
    ensures r.Some? <==> u == 's' || u == 'm' || u == 'h' || u == 'd'
    ensures r.Some? ==> r.value > 0
  {
    if u == 's' then Some(OneSecond)
    else if u == 'm' then Some(OneMinute)
    else if u == 'h' then Some(OneHour)
    else if u == 'd' then Some(OneDay)
    else None
  }

  /** The class `[smhd]` under the `i` flag (the flag folds ASCII letters only). */
  predicate IsUnitChar(c: char) {
    c == 's' || c == 'm' || c == 'h' || c == 'd' || c == 'S' || c == 'M' || c == 'H' || c == 'D'
  }

  /** `units[unit.toLowerCase()] || ONE_SECOND`. */
  function Multiplier(unit: char): (ms: nat)
    ensures IsUnitChar(unit) ==> UnitTable(LowerChar(unit)) == Some(ms)
    ensures ms > 0
  {
    match UnitTable(LowerChar(unit))
    case Some(m) => if m != 0 then m else OneSecond
    case None => OneSecond
  }

  /** `/(\d+)([smhd])/i` matches starting at `i`: some digits then a unit letter. */
  ghost predicate RegexMatchesAt(s: string, i: int) {
    0 <= i < |s| && exists j | i < j < |s| :: AllDigits(s[i..j]) && IsUnitChar(s[j])
  }

  /** The first position at or after `i` that is not a digit. */
  function RunEnd(s: string, i: nat): (k: nat)
    requires i <= |s|
    ensures i <= k <= |s| && AllDigits(s[i..k])
    ensures k < |s| ==> !IsDigit(s[k])
    decreases |s| - i
  {
    if i < |s| && IsDigit(s[i]) then
      var k := RunEnd(s, i + 1);
      assert s[i..k] == [s[i]] + s[i + 1..k];
      k
    else i
  }

  /** The greedy `\d+` at `i` followed by a unit letter. */
  predicate GreedyMatchAt(s: string, i: nat)
    requires i < |s|
  {
    IsDigit(s[i]) && RunEnd(s, i) < |s| && IsUnitChar(s[RunEnd(s, i)])
  }

  /** The greedy attempt succeeds exactly where the regex matches, and the digit run a
      match captures is always the whole run: a unit letter is not a digit. */
  lemma GreedyMatchIff(s: string, i: nat)
    requires i < |s|
    ensures GreedyMatchAt(s, i) <==> RegexMatchesAt(s, i)
    ensures forall j | i < j < |s| && AllDigits(s[i..j]) && IsUnitChar(s[j]) :: j == RunEnd(s, i)
  {
    var k := RunEnd(s, i);
    forall j | i < j < |s| && AllDigits(s[i..j]) && IsUnitChar(s[j]) ensures j == k {
      if j < k {
      } else if j > k {
      }
    }
    if GreedyMatchAt(s, i) {
      assert i < k;
      assert AllDigits(s[i..k]) && IsUnitChar(s[k]);
    }
  }

  /** The leftmost match start at or after `from`, as `String.prototype.match` searches. */
  function FirstMatch(s: string, from: nat): (r: Option<nat>)
    requires from <= |s|
    ensures r.Some? ==> from <= r.value < |s| && RegexMatchesAt(s, r.value) && GreedyMatchAt(s, r.value)
    ensures r.Some? ==> forall k | from <= k < r.value :: !RegexMatchesAt(s, k)
    ensures r.None? ==> forall k | from <= k < |s| :: !RegexMatchesAt(s, k)
    decreases |s| - from
  {
    if from == |s| then None
    else
      GreedyMatchIff(s, from);
      if GreedyMatchAt(s, from) then Some(from) else FirstMatch(s, from + 1)
  }

  /** `duration.match(...)` succeeded with digits `s[i..j]` and unit `s[j]`, and no match
      starts earlier. */
  ghost predicate LeftmostMatch(s: string, i: int, j: int) {
    0 <= i < j < |s| && AllDigits(s[i..j]) && IsUnitChar(s[j]) &&
    forall k | 0 <= k < i :: !RegexMatchesAt(s, k)
  }

  /** `Date.now() + value * multiplier`, the instant of the returned `Date`. */
  function Expiry(now: int, value: nat, multiplier: nat): int {
    now + value * multiplier
  }

  /** `durationToDate(input)` evaluated at instant `now`. */
  function DurationToDate(input: string, now: int): (r: Result<int>)
    ensures r.Err? <==> forall i | 0 <= i < |input| :: !RegexMatchesAt(input, i)
    ensures r.Err? ==> r.message == "Invalid duration format"
    ensures r.Ok? ==> exists i, j ::
      LeftmostMatch(input, i, j) && r.value == Expiry(now, DigitsValue(input[i..j]), Multiplier(input[j]))
  {
    match FirstMatch(input, 0)
    case None => Err("Invalid duration format")
    case Some(i) =>
      var j := RunEnd(input, i);
      assert LeftmostMatch(input, i, j);
      Ok(Expiry(now, DigitsValue(input[i..j]), Multiplier(input[j])))
  }

  /** A successful parse never moves the instant backwards. */
  lemma DurationForward(input: string, now: int)
    requires DurationToDate(input, now).Ok?
    ensures DurationToDate(input, now).value >= now
  {
    var i := FirstMatch(input, 0).value;
    var j := RunEnd(input, i);
    ProductNonNegative(DigitsValue(input[i..j]), Multiplier(input[j]));
  }

  lemma ProductNonNegative(a: nat, b: nat)
    ensures a * b >= 0
  {
  }

  lemma {:induction false} FirstMatchLower(s: string, from: nat)
    requires from <= |s|
    ensures FirstMatch(Lower(s), from) == FirstMatch(s, from)
    ensures FirstMatch(s, from).Some? ==> RunEnd(Lower(s), FirstMatch(s, from).value) == RunEnd(s, FirstMatch(s, from).value)
    decreases |s| - from
  {
    if from < |s| {
      RunEndLower(s, from);
      FirstMatchLower(s, from + 1);
    }
  }

  lemma {:induction false} RunEndLower(s: string, i: nat)
    requires i <= |s|
    ensures RunEnd(Lower(s), i) == RunEnd(s, i)
    ensures RunEnd(s, i) < |s| ==> (IsUnitChar(Lower(s)[RunEnd(s, i)]) <==> IsUnitChar(s[RunEnd(s, i)]))
    ensures i < |s| ==> (IsDigit(Lower(s)[i]) <==> IsDigit(s[i]))
    decreases |s| - i
  {
    if i < |s| && IsDigit(s[i]) {
      RunEndLower(s, i + 1);
    }
  }

  /** Lower-casing leaves a run of digits unchanged. */
  lemma LowerDigits(s: string, i: nat, j: nat)
    requires i <= j <= |s| && AllDigits(s[i..j])
    ensures Lower(s)[i..j] == s[i..j]
  {
    forall k | i <= k < j ensures Lower(s)[k] == s[k] {
      assert s[i..j][k - i] == s[k];
    }
  }

  /** The `i` flag and the `toLowerCase` of the unit make the parse case-insensitive. */
  lemma DurationCaseInsensitive(input: string, now: int)
    ensures DurationToDate(Lower(input), now) == DurationToDate(input, now)
  {
    FirstMatchLower(input, 0);
    var m := FirstMatch(input, 0);
    if m.Some? {
      var i := m.value;
      var j := RunEnd(input, i);
      LowerDigits(input, i, j);
      var l := Lower(input);
      assert l[j] == LowerChar(input[j]);
      assert Multiplier(l[j]) == Multiplier(input[j]);
      assert DurationToDate(l, now) == Ok(Expiry(now, DigitsValue(l[i..j]), Multiplier(l[j])));
    }
  }

  lemma DurationExampleMinutes(now: int)
    ensures DurationToDate("15m", now) == Ok(now + 15 * OneMinute)
  {
    var s := "15m";
    assert RunEnd(s, 2) == 2;
    assert RunEnd(s, 1) == 2;
    assert RunEnd(s, 0) == 2;
    assert FirstMatch(s, 0) == Some(0);
    assert s[0..2] == "15";
    assert "15"[..1] == "1";
    assert DigitsValue("1") == 1;
    assert DigitsValue("15") == 15;
    assert Multiplier(s[2]) == OneMinute;
    assert DurationToDate(s, now) == Ok(Expiry(now, DigitsValue(s[0..2]), Multiplier(s[2])));
  }

  lemma DurationExampleUpperCase(now: int)
    ensures DurationToDate("7D", now) == Ok(now + 7 * OneDay)
  {
    var s := "7D";
    assert RunEnd(s, 1) == 1;
    assert RunEnd(s, 0) == 1;
    assert FirstMatch(s, 0) == Some(0);
    assert s[0..1] == "7";
    assert "7"[..0] == "";
    assert DigitsValue("7") == 7;
    assert Multiplier(s[1]) == OneDay;
    assert DurationToDate(s, now) == Ok(Expiry(now, DigitsValue(s[0..1]), Multiplier(s[1])));
  }

  /** The first digit run not followed by a unit letter is skipped. */
  lemma DurationExampleSkips(now: int)
    ensures DurationToDate("x1y2h", now) == Ok(now + 2 * OneHour)
  {
    var s := "x1y2h";
    assert RunEnd(s, 1) == 2;
    assert RunEnd(s, 3) == 4;
    assert RunEnd(s, 0) == 0;
    assert FirstMatch(s, 3) == Some(3);
    assert FirstMatch(s, 2) == Some(3);
    assert FirstMatch(s, 1) == Some(3);
    assert FirstMatch(s, 0) == Some(3);
    assert s[3..4] == "2";
    assert "2"[..0] == "";
    assert DigitsValue("2") == 2;
    assert Multiplier(s[4]) == OneHour;
    assert DurationToDate(s, now) == Ok(Expiry(now, DigitsValue(s[3..4]), Multiplier(s[4])));
  }

  lemma DurationExampleNoUnit(now: int)
    ensures DurationToDate("30", now) == Err("Invalid duration format")
  {
    var t := "30";
    assert RunEnd(t, 1) == 2;
    assert RunEnd(t, 0) == 2;
    assert FirstMatch(t, 2) == None;
    assert FirstMatch(t, 1) == None;
    assert FirstMatch(t, 0) == None;
  }
}
