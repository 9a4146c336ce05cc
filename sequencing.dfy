/**
 * The command plans of oscilloscope_control.py: which SCPI commands each operation writes,
 * in which order, and what is raised when a write fails or an argument is refused. A plan is
 * a list of steps; `Run` plays a plan against a session whose writes may fail and yields the
 * commands that went out together with the first failure, if any.
 */
module Sequencing {
  import opened Outcomes
  import opened Vendors

  /** Write `command` (raising `onFailure` if the write fails), or raise `error` before writing. */
  datatype Step = Send(command: string, onFailure: Error) | Refuse(error: Error)

  /**
   * A seconds-per-division setting: its value, and the text Python's f-string renders it as.
   * Rendering a float is not modelled; the text travels with the value.
   */
  datatype Timebase = Timebase(secondsPerDivision: real, text: string)

  /** AUTOSCALE_DEFAULT_ENABLED. */
  const AutoscaleDefaultEnabled: bool := false
  /** TIMEBASE_SECONDS_PER_DIVISION, rendered as Python renders 0.001. */
  const DefaultTimebase: Timebase := Timebase(0.001, "0.001")

  const HeaderOff: string := ":SYSTem:HEADer OFF"
  const DisplayFetch: string := ":DISPlay:DATA? PNG, COLOR"
  const ScreenDump: string := ":SCDP"

  /** The outcome of running a plan: the whole write log afterwards, and the first failure. */
  datatype Ran = Ran(written: seq<string>, failure: Option<Error>)

  /** A plan played against a session whose write at log position j fails iff j is in `failing`. */
  function Run(steps: seq<Step>, failing: set<nat>, written: seq<string>): (r: Ran)
    ensures |written| <= |r.written| && r.written[..|written|] == written
    decreases |steps|
  {
    if steps == [] then Ran(written, None)
    else match steps[0]
      case Refuse(e) => Ran(written, Some(e))
      case Send(c, e) =>
        if |written| in failing then Ran(written + [c], Some(e))
        else Run(steps[1..], failing, written + [c])
  }

  /** The commands a plan writes when no write fails: those before its first refusal. */
  function Issued(steps: seq<Step>): seq<string> {
    if steps == [] then []
    else match steps[0]
      case Refuse(_) => []
      case Send(c, _) => [c] + Issued(steps[1..])
  }

  /** The error a plan raises when no write fails. */
  function Refusal(steps: seq<Step>): Option<Error> {
    if steps == [] then None
    else match steps[0]
      case Refuse(e) => Some(e)
      case Send(_, _) => Refusal(steps[1..])
  }

  /** No write at log positions from .. from + n - 1 fails. */
  predicate Clean(failing: set<nat>, from: nat, n: nat) {
    forall j :: from <= j < from + n ==> j !in failing
  }

  /** With no failing write, running a plan writes exactly its issued commands and raises its refusal. */
  lemma {:induction false} RunClean(steps: seq<Step>, failing: set<nat>, written: seq<string>)
    requires Clean(failing, |written|, |Issued(steps)|)
    ensures Run(steps, failing, written) == Ran(written + Issued(steps), Refusal(steps))
    decreases |steps|
  {
    if steps != [] && steps[0].Send? {
      RunClean(steps[1..], failing, written + [steps[0].command]);
      assert written + [steps[0].command] + Issued(steps[1..]) == written + Issued(steps);
    }
  }

  /**
   * Whatever the failures, what goes out is a prefix of the issued commands, and a run that
   * raises nothing wrote all of them and met no refusal.
   */
  lemma {:induction false} RunWritesPrefix(steps: seq<Step>, failing: set<nat>, written: seq<string>)
    ensures var r := Run(steps, failing, written);
      && |r.written| <= |written| + |Issued(steps)|
      && r.written == written + Issued(steps)[..|r.written| - |written|]
      && (r.failure.None? ==> r.written == written + Issued(steps) && Refusal(steps).None?)
    decreases |steps|
  {
    if steps != [] && steps[0].Send? {
      var c := steps[0].command;
      if |written| !in failing {
        RunWritesPrefix(steps[1..], failing, written + [c]);
        var r := Run(steps, failing, written);
        assert Issued(steps) == [c] + Issued(steps[1..]);
        assert Issued(steps)[..|r.written| - |written|]
            == [c] + Issued(steps[1..])[..|r.written| - |written + [c]|];
      } else {
        assert Issued(steps)[..1] == [c];
      }
    }
  }

  /** Running two plans one after the other is running their concatenation. */
  lemma {:induction false} RunAppend(a: seq<Step>, b: seq<Step>, failing: set<nat>, written: seq<string>)
    ensures Run(a + b, failing, written)
         == (var r := Run(a, failing, written); if r.failure.Some? then r else Run(b, failing, r.written))
    decreases |a|
  {
    if a == [] {
      assert a + b == b;
    } else {
      assert (a + b)[0] == a[0];
      assert (a + b)[1..] == a[1..] + b;
      match a[0]
      case Refuse(_) =>
      case Send(c, _) =>
        if |written| !in failing {
          RunAppend(a[1..], b, failing, written + [c]);
        }
    }
  }

  /** Issued commands and refusal of a concatenation. */
  lemma {:induction false} IssuedAppend(a: seq<Step>, b: seq<Step>)
    ensures Issued(a + b) == if Refusal(a).Some? then Issued(a) else Issued(a) + Issued(b)
    ensures Refusal(a + b) == if Refusal(a).Some? then Refusal(a) else Refusal(b)
    decreases |a|
  {
    if a == [] {
      assert a + b == b;
    } else {
      assert (a + b)[0] == a[0];
      assert (a + b)[1..] == a[1..] + b;
      IssuedAppend(a[1..], b);
    }
  }

  /** The result an operation returns once its plan has run. */
  function Outcome(failure: Option<Error>): (r: Result<()>)
    ensures r.Ok? <==> failure.None?
    ensures failure.Some? ==> r.error == failure.value
  {
    match failure
    case None => Ok(())
    case Some(e) => Err(e)
  }

  /** _set_autoscale_state: the enable or disable command of the vendor's row, or nothing. */
  function AutoscaleSteps(enabled: bool, v: Vendor): seq<Step> {
    var row := CommandsFor(v);
    if enabled then [Send(row.autoscaleEnable, AutoscaleFailed(true, row.autoscaleEnable))]
    else match row.autoscaleDisable
      case None => []
      case Some(d) => [Send(d, AutoscaleFailed(false, d))]
  }

  /** The timebase command: the vendor's scale command, a space, the rendered value. */
  function TimebaseCommand(tb: Timebase, v: Vendor): string {
    CommandsFor(v).timebaseScale + " " + tb.text
  }

  /** _set_timebase_scale: refuse a value that is not positive, otherwise write one command. */
  function TimebaseSteps(tb: Timebase, v: Vendor): seq<Step> {
    if tb.secondsPerDivision <= 0.0 then [Refuse(InvalidTimebase)]
    else [Send(TimebaseCommand(tb, v), WriteFailed(TimebaseCommand(tb, v)))]
  }

  /** The write part of open_scope: header suppression, for Keysight only. */
  function OpenSteps(v: Vendor): seq<Step> {
    if v == Keysight then [Send(HeaderOff, WriteFailed(HeaderOff))] else []
  }

  /** The screenshot request: Siglent's screen dump, everyone else's PNG display fetch. */
  function FetchCommand(v: Vendor): string {
    if v == Siglent then ScreenDump else DisplayFetch
  }

  /** The extension of the written file: Siglent's dump is a BMP, the display fetch a PNG. */
  function Extension(v: Vendor): string {
    if v == Siglent then "bmp" else "png"
  }

  /** The name capture_screenshot_display writes the image under. */
  function ScreenshotName(stamp: string, v: Vendor): string {
    "scope_screenshot_" + stamp + "." + Extension(v)
  }

  /** The settings part of capture_screenshot_display, before the fetch. */
  function SettingsSteps(v: Vendor, autoscale: bool, timebase: Option<Timebase>): seq<Step> {
    if autoscale then
      AutoscaleSteps(true, v) + (if timebase.Some? then TimebaseSteps(timebase.value, v) else [])
    else
      (if v != Siglent then AutoscaleSteps(false, v) else [])
      + TimebaseSteps(timebase.GetOr(DefaultTimebase), v)
  }

  /** Everything capture_screenshot_display writes between open_scope and the read. */
  function CaptureSteps(v: Vendor, autoscale: bool, timebase: Option<Timebase>): seq<Step> {
    SettingsSteps(v, autoscale, timebase) + [Send(FetchCommand(v), WriteFailed(FetchCommand(v)))]
  }

  /** Header suppression is written for Keysight and for no other vendor. */
  lemma HeaderOnlyForKeysight(v: Vendor)
    ensures Issued(OpenSteps(v)) == (if v == Keysight then [":SYSTem:HEADer OFF"] else [])
    ensures Refusal(OpenSteps(v)).None?
  {
  }

  /**
   * Disabling autoscale writes nothing when the vendor has no disable command, otherwise
   * exactly that command; enabling writes exactly the enable command. Unknown vendors use
   * Keysight's row.
   */
  lemma AutoscaleWrites(enabled: bool, v: Vendor)
    ensures Refusal(AutoscaleSteps(enabled, v)).None?
    ensures enabled ==> Issued(AutoscaleSteps(enabled, v)) == [CommandsFor(v).autoscaleEnable]
    ensures !enabled && v == Siglent ==> AutoscaleSteps(enabled, v) == []
    ensures !enabled && v != Siglent ==> Issued(AutoscaleSteps(enabled, v)) == [":AUToscale:STATE OFF"]
    ensures AutoscaleSteps(enabled, Unknown) == AutoscaleSteps(enabled, Keysight)
  {
  }

  /** A non-positive timebase is refused before anything is written; otherwise one command goes out. */
  lemma TimebaseWrites(tb: Timebase, v: Vendor, failing: set<nat>, written: seq<string>)
    ensures tb.secondsPerDivision <= 0.0 ==> Run(TimebaseSteps(tb, v), failing, written) == Ran(written, Some(InvalidTimebase))
    ensures tb.secondsPerDivision > 0.0 ==>
              Run(TimebaseSteps(tb, v), failing, written).written == written + [CommandsFor(v).timebaseScale + " " + tb.text]
    ensures TimebaseSteps(tb, Unknown) == TimebaseSteps(tb, Keysight)
  {
  }

  /** Skipping the disable write for Siglent changes nothing: Siglent's row has no disable command. */
  lemma SiglentSkipIsRedundant(v: Vendor)
    ensures (if v != Siglent then AutoscaleSteps(false, v) else []) == AutoscaleSteps(false, v)
  {
  }

  /** Unknown vendors are driven exactly like Keysight once the session is open. */
  lemma UnknownCapturesLikeKeysight(autoscale: bool, timebase: Option<Timebase>)
    ensures CaptureSteps(Unknown, autoscale, timebase) == CaptureSteps(Keysight, autoscale, timebase)
  {
  }

  /**
   * The command sequence of a capture with autoscale on, when no write fails: the enable
   * command, the timebase command only when a timebase was given, then the fetch; a refused
   * timebase stops the sequence before the fetch.
   */
  lemma CaptureCommandsAutoscaleOn(v: Vendor, timebase: Option<Timebase>)
    ensures var steps := CaptureSteps(v, true, timebase);
      var fetch := if v == Siglent then ":SCDP" else ":DISPlay:DATA? PNG, COLOR";
      && (timebase.None? ==>
            Issued(steps) == [CommandsFor(v).autoscaleEnable, fetch] && Refusal(steps).None?)
      && (timebase.Some? && timebase.value.secondsPerDivision > 0.0 ==>
            Issued(steps) == [CommandsFor(v).autoscaleEnable, TimebaseCommand(timebase.value, v), fetch]
            && Refusal(steps).None?)
      && (timebase.Some? && timebase.value.secondsPerDivision <= 0.0 ==>
            Issued(steps) == [CommandsFor(v).autoscaleEnable] && Refusal(steps) == Some(InvalidTimebase))
  {
    var tail := if timebase.Some? then TimebaseSteps(timebase.value, v) else [];
    IssuedAppend(SettingsSteps(v, true, timebase), [Send(FetchCommand(v), WriteFailed(FetchCommand(v)))]);
    IssuedAppend(AutoscaleSteps(true, v), tail);
  }

  /**
   * The command sequence of a capture with autoscale off, when no write fails: the disable
   * command (never for Siglent), the timebase command with the given or the default value,
   * then the fetch; a refused timebase stops the sequence before the fetch.
   */
  lemma CaptureCommandsAutoscaleOff(v: Vendor, timebase: Option<Timebase>)
    ensures var steps := CaptureSteps(v, false, timebase);
      var fetch := if v == Siglent then ":SCDP" else ":DISPlay:DATA? PNG, COLOR";
      var disable: seq<string> := if v == Siglent then [] else [":AUToscale:STATE OFF"];
      var tb := timebase.GetOr(DefaultTimebase);
      && (tb.secondsPerDivision > 0.0 ==>
            Issued(steps) == disable + [TimebaseCommand(tb, v), fetch] && Refusal(steps).None?)
      && (tb.secondsPerDivision <= 0.0 ==>
            Issued(steps) == disable && Refusal(steps) == Some(InvalidTimebase))
  {
    var tb := timebase.GetOr(DefaultTimebase);
    IssuedAppend(SettingsSteps(v, false, timebase), [Send(FetchCommand(v), WriteFailed(FetchCommand(v)))]);
    IssuedAppend(AutoscaleSteps(false, v), TimebaseSteps(tb, v));
  }

  /** Without an explicit choice, a capture disables autoscale and applies the 0.001 s/div default. */
  lemma DefaultCapture(v: Vendor)
    ensures Issued(CaptureSteps(v, AutoscaleDefaultEnabled, None))
         == (if v == Siglent then [] else [":AUToscale:STATE OFF"])
            + [CommandsFor(v).timebaseScale + " 0.001", FetchCommand(v)]
    ensures Refusal(CaptureSteps(v, AutoscaleDefaultEnabled, None)).None?
  {
    CaptureCommandsAutoscaleOff(v, None);
    assert TimebaseCommand(DefaultTimebase, v) == CommandsFor(v).timebaseScale + " 0.001";
  }

  /**
   * The name is unique per time stamp: two captures write the same file name exactly when
   * their stamps are equal and their extensions agree.
   */
  lemma ScreenshotNameDistinct(a: string, v: Vendor, b: string, u: Vendor)
    ensures ScreenshotName(a, v) == ScreenshotName(b, u) <==> a == b && Extension(v) == Extension(u)
  {
    var prefix := "scope_screenshot_";
    var x, y := ScreenshotName(a, v), ScreenshotName(b, u);
    if x == y {
      assert |Extension(v)| == |Extension(u)| == 3;
      assert |a| == |b|;
      assert x == prefix + a + ("." + Extension(v)) == (prefix + a + ".") + Extension(v) + [];
      assert y == prefix + b + ("." + Extension(u)) == (prefix + b + ".") + Extension(u) + [];
      Middle(prefix, a, "." + Extension(v));
      Middle(prefix, b, "." + Extension(u));
      Middle(prefix + a + ".", Extension(v), []);
      Middle(prefix + b + ".", Extension(u), []);
    }
  }

  lemma Middle(p: string, m: string, q: string)
    ensures (p + m + q)[|p|..|p| + |m|] == m
  {
  }

  /** The file extension follows the fetch command: bmp exactly for Siglent's screen dump. */
  lemma ExtensionMatchesFetch(v: Vendor)
    ensures Extension(v) == "bmp" <==> FetchCommand(v) == ":SCDP"
    ensures Extension(v) == "png" <==> FetchCommand(v) == ":DISPlay:DATA? PNG, COLOR"
  {
  }
}
