/**
 * The text the player controls show (src/actors/player-controls.ts): the title label,
 * before word wrapping, and the remaining-time label.
 */
module DisplayText {
  import opened Wrappers
  import TimeFormat

  /** Printable ASCII, the range 0x20-0x7E that the title keeps. */
  predicate Printable(c: char) {
    ' ' <= c <= '~'
  }

  /** `replace(/[^\x20-\x7E]/g, "")`: drops every character outside printable ASCII. */
  function StripUnprintable(s: string): (r: string)
    ensures |r| <= |s|
    ensures forall i :: 0 <= i < |r| ==> Printable(r[i])
    ensures (forall i :: 0 <= i < |s| ==> Printable(s[i])) ==> r == s
  {
    if |s| == 0 then ""
    else if Printable(s[0]) then [s[0]] + StripUnprintable(s[1..])
    else StripUnprintable(s[1..])
  }

  /** Stripping works character by character: the result for a concatenation is the concatenation of the results. */
  lemma {:induction false} StripAppend(a: string, b: string)
    ensures StripUnprintable(a + b) == StripUnprintable(a) + StripUnprintable(b)
  {
    if |a| == 0 {
      assert a + b == b;
    } else {
      assert (a + b)[0] == a[0];
      assert (a + b)[1..] == a[1..] + b;
      StripAppend(a[1..], b);
    }
  }

  /** One character is kept exactly when it is printable. */
  lemma StripOne(c: char)
    ensures StripUnprintable([c]) == if Printable(c) then [c] else []
  {
    assert [c][1..] == [];
  }

  const TitleLimit := 55

  /**
   * The title text before word wrap: the printable characters, cut to 55, with "..."
   * appended exactly when the original title is longer than 55.
   */
  function TitleDisplay(title: string): (r: string)
    ensures |r| <= TitleLimit + 3
    ensures |title| <= TitleLimit ==> r == StripUnprintable(title)
    ensures |title| > TitleLimit ==> |r| >= 3 && r[|r| - 3..] == "..."
    ensures |title| > TitleLimit ==>
              var kept := StripUnprintable(title);
              r[..|r| - 3] == kept[..if |kept| <= TitleLimit then |kept| else TitleLimit]
    ensures (forall i :: 0 <= i < |title| ==> Printable(title[i])) ==>
              r == if |title| > TitleLimit then title[..TitleLimit] + "..." else title
  {
    var kept := StripUnprintable(title);
    var cut := if |kept| <= TitleLimit then kept else kept[..TitleLimit];
    cut + (if |title| > TitleLimit then "..." else "")
  }

  /**
   * The remaining-time label for a remaining time of `remainingMs` ms (`None` is NaN).
   * The source prints `secondsToString(val)` when `val > -1` s and "00:00:00" otherwise;
   * for -1 < val < 0 secondsToString floors every field to -1 and pads it as "0-1".
   */
  function RemainingLabel(remainingMs: Option<int>): (r: string)
    ensures remainingMs.None? || remainingMs.value <= -1000 ==> r == "00:00:00"
    ensures remainingMs.Some? && 0 <= remainingMs.value ==>
              r == TimeFormat.SecondsToString(remainingMs.value / 1000)
    ensures remainingMs.Some? && -1000 < remainingMs.value < 0 ==> r == "0-1:0-1:0-1"
  {
    if remainingMs.None? || remainingMs.value <= -1000 then "00:00:00"
    else if remainingMs.value >= 0 then TimeFormat.SecondsToString(remainingMs.value / 1000)
    else "0-1:0-1:0-1"
  }

  /** Under a day, the label reads back as the whole seconds remaining. */
  lemma RemainingLabelReadsBack(remainingMs: int)
    requires 0 <= remainingMs < 86400000
    ensures TimeFormat.HmsToSeconds(RemainingLabel(Some(remainingMs))) == Some(remainingMs / 1000)
  {
    var seconds := remainingMs / 1000;
    assert RemainingLabel(Some(remainingMs)) == TimeFormat.SecondsToString(seconds);
    TimeFormat.RoundTrip(seconds);
  }
}
