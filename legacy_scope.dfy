/**
 * pyvisa.py, the earlier single-instrument script that oscilloscope_control.py grew out of:
 * open with unconditional header suppression, a bare autoscale, and a PNG capture with no
 * vendor handling and no settings. Its read_binblock is the same algorithm as the one in
 * oscilloscope_control.py and is modelled once, by `ScopeControl.ReadBinblock`.
 */
module LegacyScope {
  import opened Outcomes
  import opened Text
  import opened Binblock
  import opened Visa
  import opened Vendors
  import opened Sequencing
  import opened ScopeControl

  const Autoscale: string := ":AUToscale"

  /** open_scope: the header command goes to every instrument, whatever its vendor. */
  const OpenPlan: seq<Step> := [Send(HeaderOff, WriteFailed(HeaderOff))]

  /** The body of autoscale_oscilloscope; a failed write raises the VISA error itself. */
  const AutoscalePlan: seq<Step> := [Send(Autoscale, WriteFailed(Autoscale))]

  /** The first statement of the capture: ask for a colour PNG. */
  const FetchPlan: seq<Step> := [Send(DisplayFetch, WriteFailed(DisplayFetch))]

  /** The try block of capture_screenshot_display on an open session: fetch, read a block, name a PNG. */
  function Capture(folder: string, stamp: string, failing: set<nat>, s: Session): Captured {
    var ran := Run(FetchPlan, failing, s.written);
    if ran.failure.Some? then Captured(Err(ran.failure.value), Session(ran.written, s.wire, s.calls))
    else
      var d := Decode(s.wire);
      var after := Session(ran.written, d.wire, s.calls + d.calls);
      match d.value
      case Err(e) => Captured(Err(e), after)
      case Ok(image) => Captured(Ok(Screenshot(image, JoinPath(folder, "scope_screenshot_" + stamp + ".png"))), after)
  }

  // ---------------------------------------------------------------------------------
  // How the script relates to oscilloscope_control.py

  /**
   * The script opens every instrument the way the later module opens a Keysight, and so sends
   * a Siglent or unknown instrument a command the later module withholds.
   */
  lemma OpenTreatsAllAsKeysight(v: Vendor)
    ensures OpenPlan == OpenSteps(Keysight)
    ensures Issued(OpenPlan) == [HeaderOff]
    ensures v != Keysight ==> Issued(OpenSteps(v)) == [] != Issued(OpenPlan)
  {
    HeaderOnlyForKeysight(v);
  }

  /**
   * The autoscale command is the later module's enable command for every vendor but Siglent;
   * only the error differs (the later module wraps it, naming the state).
   */
  lemma AutoscaleMatchesEnable(v: Vendor, failing: set<nat>, written: seq<string>)
    requires v != Siglent
    ensures Issued(AutoscalePlan) == Issued(AutoscaleSteps(true, v))
    ensures Run(AutoscalePlan, failing, written).written == Run(AutoscaleSteps(true, v), failing, written).written
    ensures Run(AutoscalePlan, failing, written).failure.Some?
        <==> Run(AutoscaleSteps(true, v), failing, written).failure.Some?
  {
    assert AutoscaleSteps(true, v) == [Send(Autoscale, AutoscaleFailed(true, Autoscale))];
  }

  /** A capture writes nothing but the fetch command: no autoscale and no timebase. */
  lemma CaptureWritesOnlyFetch(folder: string, stamp: string, failing: set<nat>, s: Session)
    ensures var c := Capture(folder, stamp, failing, s);
      c.after.written == s.written + [DisplayFetch]
      && (|s.written| in failing ==> c.result == Err(WriteFailed(DisplayFetch)) && c.after.wire == s.wire
                                     && c.after.calls == s.calls)
  {
    RunOne(DisplayFetch, WriteFailed(DisplayFetch), failing, s.written);
  }

  /**
   * Once the fetch went out, the script reads exactly what the later module reads from a
   * Keysight whose settings and fetch all went through: same image, same path, same reads.
   */
  lemma CaptureAgreesWithKeysight(autoscale: bool, timebase: Option<Timebase>, folder: string, stamp: string,
                                  failing: set<nat>, s: Session)
    requires Refusal(CaptureSteps(Keysight, autoscale, timebase)).None?
    requires Clean(failing, |s.written|, |Issued(CaptureSteps(Keysight, autoscale, timebase))|)
    ensures var legacy := Capture(folder, stamp, failing, s);
      var current := ScopeControl.Capture(Keysight, autoscale, timebase, folder, stamp, failing, s);
      legacy.result == current.result && legacy.after.wire == current.after.wire
      && legacy.after.calls == current.after.calls
  {
    RunClean(CaptureSteps(Keysight, autoscale, timebase), failing, s.written);
    CaptureCommandsNonEmpty(autoscale, timebase);
    assert |s.written| !in failing;
    RunOne(DisplayFetch, WriteFailed(DisplayFetch), failing, s.written);
    assert ScreenshotName(stamp, Keysight) == "scope_screenshot_" + stamp + ".png";
  }

  lemma RunOne(c: string, e: Error, failing: set<nat>, written: seq<string>)
    ensures Run([Send(c, e)], failing, written)
         == Ran(written + [c], if |written| in failing then Some(e) else None)
  {
    assert [Send(c, e)][1..] == [];
  }

  lemma CaptureCommandsNonEmpty(autoscale: bool, timebase: Option<Timebase>)
    requires Refusal(CaptureSteps(Keysight, autoscale, timebase)).None?
    ensures |Issued(CaptureSteps(Keysight, autoscale, timebase))| > 0
  {
    IssuedAppend(SettingsSteps(Keysight, autoscale, timebase),
                 [Send(FetchCommand(Keysight), WriteFailed(FetchCommand(Keysight)))]);
  }

  /** End to end: an encoded block whose header arrives whole comes back as the saved PNG. */
  lemma CaptureDeliversPayload(folder: string, stamp: string, failing: set<nat>, written: seq<string>,
                               calls: seq<Call>, payload: seq<byte>, width: nat, rest: seq<byte>, grants: seq<nat>)
    requires |written| !in failing
    requires 1 <= width <= 9 && |payload| < Pow10(width)
    requires grants == [] || grants[0] >= 2
    requires |grants| <= 1 || grants[1] >= width
    ensures var c := Capture(folder, stamp, failing, Session(written, Wire(Encode(payload, width) + rest, grants), calls));
      && c.result == Ok(Screenshot(payload, JoinPath(folder, "scope_screenshot_" + stamp + ".png")))
      && c.after.wire.pending == rest
      && c.after.written == written + [DisplayFetch]
  {
    RunOne(DisplayFetch, WriteFailed(DisplayFetch), failing, written);
    RoundTrip(payload, width, rest, grants);
  }

  // ---------------------------------------------------------------------------------
  // Session methods

  /** open_scope: open the resource and send the header command, whatever the vendor. */
  method OpenScope(scope: Instrument) returns (r: Result<()>)
    modifies scope`isOpen, scope`opens, scope`written
    ensures !scope.reachable ==>
              r == Err(ConnectionFailed) && scope.isOpen == old(scope.isOpen)
              && scope.opens == old(scope.opens) && scope.written == old(scope.written)
    ensures scope.reachable ==>
              var ran := Run(OpenPlan, scope.failingWrites, old(scope.written));
              scope.isOpen && scope.opens == old(scope.opens) + 1
              && scope.written == ran.written && r == Outcome(ran.failure)
  {
    r := scope.Open();
    if r.Err? {
      return;
    }
    r := scope.Write(HeaderOff);
  }

  /** autoscale_oscilloscope: open, send the autoscale command, close even when the write raised. */
  method AutoscaleOscilloscope(scope: Instrument) returns (r: Result<()>)
    modifies scope`isOpen, scope`opens, scope`closes, scope`written
    ensures scope.opens == old(scope.opens) + (if scope.reachable then 1 else 0)
    ensures var afterOpen := Run(OpenPlan, scope.failingWrites, old(scope.written));
      && (!scope.reachable ==> r == Err(ConnectionFailed) && scope.written == old(scope.written)
                               && scope.isOpen == old(scope.isOpen) && scope.closes == old(scope.closes))
      && (scope.reachable && afterOpen.failure.Some? ==>
            r == Err(afterOpen.failure.value) && scope.written == afterOpen.written
            && scope.isOpen && scope.closes == old(scope.closes))
      && (scope.reachable && afterOpen.failure.None? ==>
            var ran := Run(AutoscalePlan, scope.failingWrites, afterOpen.written);
            r == Outcome(ran.failure) && scope.written == ran.written
            && !scope.isOpen && scope.closes == old(scope.closes) + 1)
  {
    r := OpenScope(scope);
    if r.Err? {
      return;
    }
    r := scope.Write(Autoscale);
    scope.Close();
  }

  /** capture_screenshot_display: open outside the try block, then fetch, read and close. */
  method CaptureScreenshotDisplay(scope: Instrument, folder: string, stamp: string) returns (r: Result<Screenshot>)
    modifies scope
    ensures scope.opens == old(scope.opens) + (if scope.reachable then 1 else 0)
    ensures var afterOpen := Run(OpenPlan, scope.failingWrites, old(scope.written));
      && (!scope.reachable ==>
            r == Err(ConnectionFailed) && scope.written == old(scope.written) && scope.isOpen == old(scope.isOpen)
            && scope.closes == old(scope.closes) && scope.wire == old(scope.wire) && scope.calls == old(scope.calls))
      && (scope.reachable && afterOpen.failure.Some? ==>
            r == Err(afterOpen.failure.value) && scope.written == afterOpen.written && scope.isOpen
            && scope.closes == old(scope.closes) && scope.wire == old(scope.wire) && scope.calls == old(scope.calls))
      && (scope.reachable && afterOpen.failure.None? ==>
            Capture(folder, stamp, scope.failingWrites, Session(afterOpen.written, old(scope.wire), old(scope.calls)))
              == Captured(r, Session(scope.written, scope.wire, scope.calls))
            && !scope.isOpen && scope.closes == old(scope.closes) + 1)
  {
    var afterOpen := OpenScope(scope);
    if afterOpen.Err? {
      return Err(afterOpen.error);
    }
    r := CaptureOnSession(scope, folder, stamp);
    scope.Close();
  }

  /** The try block of the capture. */
  method CaptureOnSession(scope: Instrument, folder: string, stamp: string) returns (r: Result<Screenshot>)
    requires scope.isOpen
    modifies scope`written, scope`wire, scope`calls
    ensures Capture(folder, stamp, scope.failingWrites, old(Session(scope.written, scope.wire, scope.calls)))
         == Captured(r, Session(scope.written, scope.wire, scope.calls))
  {
    RunOne(DisplayFetch, WriteFailed(DisplayFetch), scope.failingWrites, scope.written);
    var sent := scope.Write(DisplayFetch);
    if sent.Err? {
      return Err(sent.error);
    }
    var block := ReadBinblock(scope);
    if block.Err? {
      return Err(block.error);
    }
    var filename := "scope_screenshot_" + stamp + ".png";
    r := Ok(Screenshot(block.value, JoinPath(folder, filename)));
  }
}
