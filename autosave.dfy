/**
 * The auto-save indicator: how long ago the last save was, in the coarsest
 * whole unit that fits, and the line of text shown for each save status.
 * Times are milliseconds; the clock is the `now` parameter.
 */
module AutoSave {
  import opened Common
  import opened Text

  datatype Status = Saving | Saved | Idle

  const JustNow := "just now"
  const MinutesSuffix := "m ago"
  const HoursSuffix := "h ago"

  /** `Math.floor((now - lastSaved) / 1000)`: whole seconds elapsed, rounded down. */
  function Elapsed(now: int, lastSaved: int): (r: int)
    ensures r * 1000 <= now - lastSaved < r * 1000 + 1000
  {
    (now - lastSaved) / 1000
  }

  /** The text for `seconds` elapsed: under a minute (or negative), whole minutes, or whole hours. */
  function TimeAgo(seconds: int): (r: string)
    ensures seconds < 60 <==> r == JustNow
  {
    if seconds < 60 then JustNow
    else
      var r := if seconds < 3600 then NatToString(seconds / 60) + MinutesSuffix
               else NatToString(seconds / 3600) + HoursSuffix;
      assert r[|r| - 1] == 'o' != JustNow[|JustNow| - 1];
      r
  }

  /** `updateTimeAgo`: without a save time the text stays as it is. */
  function UpdateTimeAgo(current: string, lastSaved: Option<int>, now: int): (r: string)
    ensures lastSaved.None? ==> r == current
    ensures lastSaved.Some? ==> r == TimeAgo(Elapsed(now, lastSaved.value))
  {
    if lastSaved.None? then current else TimeAgo(Elapsed(now, lastSaved.value))
  }

  /** Which status a shown text belongs to: the reading a user makes of the indicator. */
  function StatusShown(shown: string): Status
  {
    if |shown| >= 6 && shown[..6] == "Saved " then Saved
    else if shown == "Saving..." then Saving
    else Idle
  }

  /** The indicator's text for each status: it reads back as that status, and a saved one as its time text. */
  function Label(status: Status, timeAgo: string): (r: string)
    ensures StatusShown(r) == status
    ensures status == Saved ==> |r| >= 6 && r[6..] == timeAgo
    ensures status == Saving ==> r == "Saving..."
    ensures status == Idle ==> r == "Auto-save enabled"
  {
    match status
    case Saving =>
      assert "Saving..."[..6][3] != "Saved "[3];
      "Saving..."
    case Saved =>
      assert ("Saved " + timeAgo)[..6] == "Saved ";
      "Saved " + timeAgo
    case Idle =>
      assert "Auto-save enabled"[..6][0] != "Saved "[0];
      "Auto-save enabled"
  }

  // ------------------------------------------------------------ properties

  /**
   * A text in minutes reads back as a count of whole minutes from one to
   * fifty-nine, the one that contains the elapsed time, with no leading zero.
   */
  lemma MinutesReadBack(seconds: int)
    requires 60 <= seconds < 3600
    ensures var r := TimeAgo(seconds);
      && |r| > |MinutesSuffix| && r[|r| - |MinutesSuffix|..] == MinutesSuffix
      && AllDigits(r[..|r| - |MinutesSuffix|]) && r[0] != '0'
      && var m := DigitsValue(r[..|r| - |MinutesSuffix|]);
         1 <= m < 60 && m * 60 <= seconds < m * 60 + 60
  {
    var d := NatToString(seconds / 60);
    var r := TimeAgo(seconds);
    assert r == d + MinutesSuffix;
    assert r[..|r| - |MinutesSuffix|] == d;
    assert r[|r| - |MinutesSuffix|..] == MinutesSuffix;
    NatToStringRoundTrip(seconds / 60);
  }

  /** A text in hours reads back as the count of whole hours elapsed, at least one, with no leading zero. */
  lemma HoursReadBack(seconds: int)
    requires seconds >= 3600
    ensures var r := TimeAgo(seconds);
      && |r| > |HoursSuffix| && r[|r| - |HoursSuffix|..] == HoursSuffix
      && AllDigits(r[..|r| - |HoursSuffix|]) && r[0] != '0'
      && var h := DigitsValue(r[..|r| - |HoursSuffix|]);
         1 <= h && h * 3600 <= seconds < h * 3600 + 3600
  {
    var d := NatToString(seconds / 3600);
    var r := TimeAgo(seconds);
    assert r == d + HoursSuffix;
    assert r[..|r| - |HoursSuffix|] == d;
    assert r[|r| - |HoursSuffix|..] == HoursSuffix;
    NatToStringRoundTrip(seconds / 3600);
  }

  /** A time in minutes never shows the same text as one in hours: the suffix tells them apart. */
  lemma UnitsAreDistinguishable(s: int, t: int)
    requires 60 <= s < 3600 && t >= 3600
    ensures TimeAgo(s) != TimeAgo(t)
  {
    MinutesReadBack(s);
    HoursReadBack(t);
    var a := TimeAgo(s);
    var b := TimeAgo(t);
    assert a[|a| - |MinutesSuffix|] == 'm';
    assert b[|b| - |HoursSuffix|] == 'h';
  }

  /** Two statuses never show the same text, and two saved texts differ when their times do. */
  lemma LabelIdentifiesStatus(s1: Status, t1: string, s2: Status, t2: string)
    requires Label(s1, t1) == Label(s2, t2)
    ensures s1 == s2
    ensures s1 == Saved ==> t1 == t2
  {
  }
}
