/**
 * The text helpers of the workout detail screen (`src/pages/workouts/WorkoutDetailScreen.js`):
 * the duration label and the video id derived from an exercise's media path.
 */
module WorkoutDetailScreen {
  import opened Optional
  import opened Strings

  const ZERO_DURATION := "0m 00s"

  /** `${mins}m ${secs.padStart(2, '0')}s`: minutes unpadded, seconds two digits. */
  function DurationText(seconds: nat): string {
    NatToString(seconds / 60) + "m " + Pad2(seconds % 60) + "s"
  }

  /** `formatDuration`: a missing or zero duration is falsy and short-cuts to "0m 00s". */
  function FormatDuration(seconds: Option<nat>): string {
    if seconds.None? || seconds.value == 0 then ZERO_DURATION
    else DurationText(seconds.value)
  }

  /** The early return gives what the general formula gives for 0. */
  lemma EarlyReturnAgrees(seconds: Option<nat>)
    ensures FormatDuration(seconds) == DurationText(seconds.GetOr(0))
  {
    assert NatToString(0) == "0";
    assert Pad2(0) == "00";
  }

  /** There is no hour field: an hour reads as sixty minutes. */
  lemma OneHour()
    ensures FormatDuration(Some(3600)) == "60m 00s"
  {
    assert NatToString(6) == "6";
    assert NatToString(60) == "60";
    assert Pad2(0) == "00";
  }

  /**
   * The label reads back as the duration: it ends in "s", the two digits before that are the
   * seconds (below 60), and the digits before "m " are the minutes without leading zeros.
   */
  lemma DurationReadsBack(seconds: nat)
    ensures var r := DurationText(seconds); var n := |r|;
      n >= 6 && r[n - 1] == 's' && r[n - 5..n - 3] == "m " &&
      AllDigits(r[..n - 5]) && AllDigits(r[n - 3..n - 1]) &&
      (n - 5 > 1 ==> r[0] != '0') &&
      DigitsValue(r[n - 3..n - 1]) < 60 &&
      DigitsValue(r[..n - 5]) * 60 + DigitsValue(r[n - 3..n - 1]) == seconds
  {
    NatToStringDigits(seconds / 60);
    NoLeadingZero(seconds / 60);
    Pad2Digits(seconds % 60);
    SplitLabel(NatToString(seconds / 60), Pad2(seconds % 60));
  }

  /** `n.toString()` starts with '0' only when it is "0". */
  lemma {:induction false} NoLeadingZero(n: nat)
    ensures |NatToString(n)| > 1 ==> NatToString(n)[0] != '0'
    decreases n
  {
    if n >= 10 {
      NoLeadingZero(n / 10);
      NatToStringDigits(n / 10);
      if n / 10 < 10 {
        assert NatToString(n / 10) == [DigitChar(n / 10)];
      }
    }
  }

  lemma SplitLabel(a: string, b: string)
    requires |b| == 2
    ensures var r := a + "m " + b + "s"; var n := |r|;
      n == |a| + 5 && r[n - 1] == 's' && r[n - 5..n - 3] == "m " &&
      r[..n - 5] == a && r[n - 3..n - 1] == b
  {
    var r := a + "m " + b + "s";
    assert r[..|a|] == a;
    assert r[|a|..|a| + 2] == "m ";
    assert r[|a| + 2..|a| + 4] == b;
  }

  // ---------------------------------------------------------------------------
  // mediaId

  const MEDIA_PREFIX := "/mp4s/"
  const MEDIA_SUFFIX := ".mp4"
  const DEFAULT_MEDIA_ID := "default"

  /** `mediaPath.replace('/mp4s/', '').replace('.mp4', '')`: first occurrences only. */
  function StripMediaPath(path: string): string {
    ReplaceFirst(ReplaceFirst(path, MEDIA_PREFIX, ""), MEDIA_SUFFIX, "")
  }

  /** The id of an exercise's video; a missing or empty path is falsy and gives "default". */
  function MediaId(mediaPath: Option<string>): string {
    if mediaPath.None? || mediaPath.value == "" then DEFAULT_MEDIA_ID
    else StripMediaPath(mediaPath.value)
  }

  lemma MissingPathIsDefault()
    ensures MediaId(None) == DEFAULT_MEDIA_ID && MediaId(Some("")) == DEFAULT_MEDIA_ID
  {
  }

  /** Stripping a prefix and a pattern that cannot overlap itself undoes wrapping. */
  lemma StripWrapped(pre: string, id: string, suf: string)
    requires Unbordered(suf)
    requires forall k :: 0 <= k && k + |suf| <= |id| ==> !OccursAt(id, suf, k)
    ensures ReplaceFirst(ReplaceFirst(pre + id + suf, pre, ""), suf, "") == id
  {
    assert pre + id + suf == pre + (id + suf);
    ReplacePrefix(pre, id + suf, "");
    assert "" + (id + suf) == id + suf;
    FirstOccurrenceAtEnd(id, suf);
    ReplaceAtEnd(id, suf, "");
    assert id + "" == id;
  }

  lemma SuffixUnbordered()
    ensures Unbordered(MEDIA_SUFFIX)
  {
    var s := MEDIA_SUFFIX;
    assert s[0] == '.' && s[1] == 'm' && s[2] == 'p' && s[3] == '4';
    forall b | 0 < b < |s|
      ensures s[..b] != s[|s| - b..]
    {
      assert s[..b][0] == '.' && s[|s| - b..][0] == s[|s| - b];
    }
  }

  /**
   * The path the catalog stores, `/mp4s/<id>.mp4`, gives back `id` whenever `id` does not
   * itself contain ".mp4".
   */
  lemma MediaIdOfStoredPath(id: string)
    requires forall k :: 0 <= k && k + |MEDIA_SUFFIX| <= |id| ==> !OccursAt(id, MEDIA_SUFFIX, k)
    ensures MediaId(Some(MEDIA_PREFIX + id + MEDIA_SUFFIX)) == id
  {
    SuffixUnbordered();
    StripWrapped(MEDIA_PREFIX, id, MEDIA_SUFFIX);
  }
}
