/**
 * mineru/utils/user_display.py: the user-friendly progress displayer. It stamps each
 * message with the elapsed time as zero-padded minutes and seconds. The model returns the
 * text each call writes to standard output ("" when nothing is written) and takes the
 * elapsed time as whole seconds, `int(time.monotonic() - start_time)`.
 */
module UserDisplay {
  import opened Wrappers
  import opened Text

  datatype ProgressDisplayer = ProgressDisplayer(enabled: bool, startTime: Option<real>)

  /** `ProgressDisplayer(enabled)`: the clock is read only when the displayer is enabled. */
  function NewDisplayer(enabled: bool, now: real): (d: ProgressDisplayer)
    ensures d.enabled == enabled
    ensures d.startTime.Some? <==> enabled
    ensures d.startTime.Some? ==> d.startTime.value == now
  {
    ProgressDisplayer(enabled, if enabled then Some(now) else None)
  }

  /** `divmod(elapsed, 60)`. */
  function DivMod60(elapsed: nat): (r: (nat, nat))
    ensures r.0 * 60 + r.1 == elapsed && r.1 < 60
  {
    (elapsed / 60, elapsed % 60)
  }

  lemma {:induction false} NatToStringLength(n: nat)
    ensures n < 10 <==> |NatToString(n)| == 1
    ensures n >= 100 <==> |NatToString(n)| >= 3
  {
    if n >= 10 {
      NatToStringLength(n / 10);
    }
  }

  /** `f"{n:02d}"`: at least two digits, zero-filled on the left, never truncated. */
  function Pad2(n: nat): (s: string)
    ensures AllDigits(s) && ParseNat(s) == n
    ensures |s| >= 2
    ensures |s| == 2 <==> n < 100
    ensures |s| > 2 ==> s[0] != '0'
  {
    ParseNatToString(n);
    NatToStringLength(n);
    ParseNatLeadingZero(NatToString(n));
    if n < 10 then "0" + NatToString(n) else NatToString(n)
  }

  /** The `MM:SS` part of a timestamp. Minutes are not capped at 99. */
  function Clock(elapsed: nat): string {
    var (minutes, seconds) := DivMod60(elapsed);
    Pad2(minutes) + ":" + Pad2(seconds)
  }

  /** Five characters up to 99:59; at 100 minutes and beyond the minutes field widens. */
  lemma ClockWidth(elapsed: nat)
    ensures |Clock(elapsed)| == 5 <==> elapsed < 6000
    ensures elapsed >= 6000 ==> |Clock(elapsed)| >= 6
  {
  }

  /** `lead + "[<tag> MM:SS] " + message`, one printed line without its newline. */
  function StampedLine(lead: string, tag: string, elapsed: nat, message: string): string {
    lead + tag + Clock(elapsed) + "] " + message
  }

  /** The number of leading decimal digits. */
  function DigitRun(s: string): (k: nat)
    ensures k <= |s| && AllDigits(s[..k])
    ensures k < |s| ==> !IsDigit(s[k])
  {
    if s == [] || !IsDigit(s[0]) then 0
    else
      var k := 1 + DigitRun(s[1..]);
      assert s[..k] == [s[0]] + s[1..][..k - 1];
      k
  }

  /** Reads back the elapsed seconds and the message from `MM:SS] message`. */
  function DecodeClockTail(rest: string): Option<(nat, string)> {
    var k := DigitRun(rest);
    if 2 <= k && k + 5 <= |rest| && rest[k] == ':' && IsDigit(rest[k + 1]) && IsDigit(rest[k + 2])
       && rest[k + 3] == ']' && rest[k + 4] == ' '
    then Some((ParseNat(rest[..k]) * 60 + 10 * DigitValue(rest[k + 1]) + DigitValue(rest[k + 2]), rest[k + 5..]))
    else None
  }

  /** Reads back the elapsed seconds and the message of a stamped line. */
  function DecodeStamped(lead: string, tag: string, line: string): Option<(nat, string)> {
    if !StartsWith(line, lead + tag) then None
    else DecodeClockTail(line[|lead + tag|..])
  }

  lemma {:induction false} DigitRunOfDigitsThenOther(p: string, r: string)
    requires AllDigits(p) && r != [] && !IsDigit(r[0])
    ensures DigitRun(p + r) == |p|
  {
    if p != [] {
      assert (p + r)[1..] == p[1..] + r;
      DigitRunOfDigitsThenOther(p[1..], r);
    }
  }

  lemma TwoDigitValue(s: string)
    requires |s| == 2 && AllDigits(s)
    ensures ParseNat(s) == 10 * DigitValue(s[0]) + DigitValue(s[1])
  {
    assert s[..|s| - 1] == [s[0]];
    assert [s[0]][..0] == [];
    assert ParseNat([s[0]]) == DigitValue(s[0]);
  }

  lemma ClockTailRoundTrip(elapsed: nat, message: string)
    ensures DecodeClockTail(Clock(elapsed) + "] " + message) == Some((elapsed, message))
  {
    var (minutes, seconds) := DivMod60(elapsed);
    var mm, ss := Pad2(minutes), Pad2(seconds);
    var rest := mm + ":" + ss + "] " + message;
    assert Clock(elapsed) + "] " + message == rest;
    assert rest == mm + (":" + ss + "] " + message);
    DigitRunOfDigitsThenOther(mm, ":" + ss + "] " + message);
    var k := |mm|;
    assert rest[..k] == mm;
    assert rest[k + 1] == ss[0] && rest[k + 2] == ss[1];
    TwoDigitValue(ss);
    assert rest[k + 5..] == message;
  }

  /** A stamped line gives back exactly the elapsed seconds and the message it was made from. */
  lemma StampedLineRoundTrip(lead: string, tag: string, elapsed: nat, message: string)
    ensures DecodeStamped(lead, tag, StampedLine(lead, tag, elapsed, message)) == Some((elapsed, message))
  {
    var rest := Clock(elapsed) + "] " + message;
    var line := StampedLine(lead, tag, elapsed, message);
    assert line == (lead + tag) + rest;
    assert line[|lead + tag|..] == rest;
    ClockTailRoundTrip(elapsed, message);
  }

  const ShowLabel: string := "[已用时 "
  const SuccessLabel: string := "[总用时 "
  const MajorLead: string := "\n\U{1F680} "
  const MinorLead: string := "   "
  const SuccessLead: string := "\U{1F389} "
  const Banner: string := "\U{2705}\U{2705}\U{2705}"

  /** `show(message, is_major_step)`: one line, preceded by a blank line for a major step. */
  function Show(d: ProgressDisplayer, message: string, isMajor: bool, elapsed: nat): (out: string)
    ensures out == "" <==> !d.enabled
  {
    if !d.enabled then ""
    else StampedLine(if isMajor then MajorLead else MinorLead, ShowLabel, elapsed, message) + "\n"
  }

  /** Reads back whether a `show` output was a major step, its elapsed seconds and its message. */
  function DecodeShow(out: string): Option<(bool, nat, string)> {
    if out == [] || out[|out| - 1] != '\n' then None
    else
      var line := out[..|out| - 1];
      match DecodeStamped(MajorLead, ShowLabel, line)
      case Some((e, m)) => Some((true, e, m))
      case None =>
        match DecodeStamped(MinorLead, ShowLabel, line)
        case Some((e, m)) => Some((false, e, m))
        case None => None
  }

  /** Whatever an enabled displayer shows can be read back: step kind, elapsed time, message. */
  lemma ShowRoundTrip(d: ProgressDisplayer, message: string, isMajor: bool, elapsed: nat)
    requires d.enabled
    ensures DecodeShow(Show(d, message, isMajor, elapsed)) == Some((isMajor, elapsed, message))
  {
    var lead := if isMajor then MajorLead else MinorLead;
    var line := StampedLine(lead, ShowLabel, elapsed, message);
    assert (line + "\n")[..|line + "\n"| - 1] == line;
    StampedLineRoundTrip(lead, ShowLabel, elapsed, message);
    if !isMajor {
      assert line[0] == ' ';
      assert !StartsWith(line, MajorLead + ShowLabel);
    }
  }

  /** `success(message)`: a banner line, the stamped message, a banner line and a blank line. */
  function Success(d: ProgressDisplayer, message: string, elapsed: nat): (out: string)
    ensures out == "" <==> !d.enabled
  {
    if !d.enabled then ""
    else "\n" + Banner + "\n" + StampedLine(SuccessLead, SuccessLabel, elapsed, message) + "\n" + Banner + "\n" + "\n"
  }

  /** The middle line of an enabled `success` output reads back as the total time and the message. */
  lemma SuccessRoundTrip(d: ProgressDisplayer, message: string, elapsed: nat)
    requires d.enabled
    ensures var out := Success(d, message, elapsed);
            && |out| >= 2 * |Banner| + 5
            && out[..|Banner| + 2] == "\n" + Banner + "\n"
            && out[|out| - |Banner| - 3..] == "\n" + Banner + "\n\n"
            && DecodeStamped(SuccessLead, SuccessLabel, out[|Banner| + 2..|out| - |Banner| - 3])
               == Some((elapsed, message))
  {
    var line := StampedLine(SuccessLead, SuccessLabel, elapsed, message);
    var head, tail := "\n" + Banner + "\n", "\n" + Banner + "\n\n";
    var out := Success(d, message, elapsed);
    assert out == head + line + tail;
    assert out[..|head|] == head;
    assert out[|out| - |tail|..] == tail;
    assert out[|head|..|out| - |tail|] == line;
    StampedLineRoundTrip(SuccessLead, SuccessLabel, elapsed, message);
  }
}
