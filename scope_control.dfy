/**
 * The session-level operations of oscilloscope_control.py, as imperative code over an
 * `Instrument`: opening with header suppression, reading a definite-length block, the
 * autoscale and timebase helpers, the public open/act/close wrappers and the screenshot
 * capture. Each method is proved against the plans of `Sequencing` and the decoder of
 * `Binblock`.
 */
module ScopeControl {
  import opened Outcomes
  import opened Text
  import opened Binblock
  import opened Visa
  import opened Vendors
  import opened Sequencing

  /** The image a capture obtained and the path it was written to. */
  datatype Screenshot = Screenshot(image: seq<byte>, path: string)

  /** What a session has seen: the write log, the unread input, the read_bytes calls. */
  datatype Session = Session(written: seq<string>, wire: Wire, calls: seq<Call>)

  /** The result of a capture on an open session and the session afterwards. */
  datatype Captured = Captured(result: Result<Screenshot>, after: Session)

  /** The image read after the fetch command: a raw read for Siglent, a definite-length block otherwise. */
  function Receive(v: Vendor, w: Wire): Decoded {
    if v == Siglent then
      match ReadAvailable(w)
      case Err(e) => Decoded(Err(e), w, [])
      case Ok((got, rest)) => Decoded(Ok(got), rest, [])
    else Decode(w)
  }

  /**
   * The try block of capture_screenshot_display on an open session: run the settings and
   * fetch plan; if it raised, nothing is read; otherwise read the image and name the file.
   */
  function Capture(v: Vendor, autoscale: bool, timebase: Option<Timebase>, folder: string, stamp: string,
                   failing: set<nat>, s: Session): Captured
  {
    var ran := Run(CaptureSteps(v, autoscale, timebase), failing, s.written);
    if ran.failure.Some? then Captured(Err(ran.failure.value), Session(ran.written, s.wire, s.calls))
    else
      var d := Receive(v, s.wire);
      var after := Session(ran.written, d.wire, s.calls + d.calls);
      match d.value
      case Err(e) => Captured(Err(e), after)
      case Ok(image) => Captured(Ok(Screenshot(image, JoinPath(folder, ScreenshotName(stamp, v)))), after)
  }

  /** Everything about an instrument that a session changes. */
  datatype Snapshot = Snapshot(isOpen: bool, opens: nat, closes: nat, written: seq<string>, wire: Wire, calls: seq<Call>)

  function Snap(scope: Instrument): Snapshot
    reads scope
  {
    Snapshot(scope.isOpen, scope.opens, scope.closes, scope.written, scope.wire, scope.calls)
  }

  /** What capture_screenshot_display returns, and the instrument's state afterwards. */
  datatype Attempt = Attempt(result: Result<Screenshot>, after: Snapshot)

  /**
   * capture_screenshot_display as a function of the instrument before the call: an open that
   * fails returns at once; a header write that fails raises before the try block, leaving the
   * session open; otherwise the capture runs on the new session, which is then closed.
   */
  function CaptureOutcome(resource: string, reachable: bool, failing: set<nat>, before: Snapshot,
                          folder: string, autoscale: Option<bool>, timebase: Option<Timebase>, stamp: string): (a: Attempt)
    ensures a.after.opens == before.opens + (if reachable then 1 else 0)
    ensures !reachable ==> a == Attempt(Err(ConnectionFailed), before)
    ensures reachable ==>
              (a.after.isOpen <==> Run(OpenSteps(VendorOf(resource)), failing, before.written).failure.Some?)
    ensures a.after.closes == before.closes + (if reachable && !a.after.isOpen then 1 else 0)
    ensures a.result.Ok? ==> !a.after.isOpen
  {
    if !reachable then Attempt(Err(ConnectionFailed), before)
    else
      var v := VendorOf(resource);
      var afterOpen := Run(OpenSteps(v), failing, before.written);
      if afterOpen.failure.Some? then
        Attempt(Err(afterOpen.failure.value),
                before.(isOpen := true, opens := before.opens + 1, written := afterOpen.written))
      else
        var c := Capture(v, autoscale.GetOr(AutoscaleDefaultEnabled), timebase, folder, stamp, failing,
                         Session(afterOpen.written, before.wire, before.calls));
        Attempt(c.result, Snapshot(false, before.opens + 1, before.closes + 1, c.after.written, c.after.wire, c.after.calls))
  }

  // ---------------------------------------------------------------------------------
  // Properties of a capture

  /** A capture writes a prefix of its plan's commands, and the whole plan when it succeeds. */
  lemma CaptureWritesPlan(v: Vendor, autoscale: bool, timebase: Option<Timebase>, folder: string, stamp: string,
                          failing: set<nat>, s: Session)
    ensures var c := Capture(v, autoscale, timebase, folder, stamp, failing, s);
      var plan := Issued(CaptureSteps(v, autoscale, timebase));
      && |s.written| <= |c.after.written| <= |s.written| + |plan|
      && c.after.written == s.written + plan[..|c.after.written| - |s.written|]
      && (c.result.Ok? ==> c.after.written == s.written + plan)
  {
    RunWritesPrefix(CaptureSteps(v, autoscale, timebase), failing, s.written);
  }

  /** A capture that raised before the fetch went out read nothing from the instrument. */
  lemma CaptureReadsOnlyAfterFetch(v: Vendor, autoscale: bool, timebase: Option<Timebase>, folder: string, stamp: string,
                                   failing: set<nat>, s: Session)
    requires Run(CaptureSteps(v, autoscale, timebase), failing, s.written).failure.Some?
    ensures var c := Capture(v, autoscale, timebase, folder, stamp, failing, s);
      c.result.Err? && c.after.wire == s.wire && c.after.calls == s.calls
  {
  }

  /**
   * End to end for a block-reading vendor: when no write fails and the instrument answers with
   * an encoded block whose header arrives whole, the capture returns exactly the payload, under
   * the PNG name, and leaves what followed the block unread.
   */
  lemma {:induction false} CaptureDeliversPayload(v: Vendor, autoscale: bool, timebase: Option<Timebase>, folder: string, stamp: string,
                               failing: set<nat>, written: seq<string>, calls: seq<Call>,
                               payload: seq<byte>, width: nat, rest: seq<byte>, grants: seq<nat>)
    requires v != Siglent
    requires Refusal(CaptureSteps(v, autoscale, timebase)).None?
    requires Clean(failing, |written|, |Issued(CaptureSteps(v, autoscale, timebase))|)
    requires 1 <= width <= 9 && |payload| < Pow10(width)
    requires grants == [] || grants[0] >= 2
    requires |grants| <= 1 || grants[1] >= width
    ensures var c := Capture(v, autoscale, timebase, folder, stamp, failing,
                             Session(written, Wire(Encode(payload, width) + rest, grants), calls));
      && c.result == Ok(Screenshot(payload, JoinPath(folder, "scope_screenshot_" + stamp + ".png")))
      && c.after.wire.pending == rest
      && c.after.written == written + Issued(CaptureSteps(v, autoscale, timebase))
  {
    var w := Wire(Encode(payload, width) + rest, grants);
    CleanCapture(v, autoscale, timebase, folder, stamp, failing, Session(written, w, calls));
    RoundTrip(payload, width, rest, grants);
    PngName(stamp, v);
  }

  lemma PngName(stamp: string, v: Vendor)
    requires v != Siglent
    ensures ScreenshotName(stamp, v) == "scope_screenshot_" + stamp + ".png"
  {
  }

  /** With every write going through, a non-Siglent capture is the decoder's outcome. */
  lemma CleanCapture(v: Vendor, autoscale: bool, timebase: Option<Timebase>, folder: string, stamp: string,
                     failing: set<nat>, s: Session)
    requires v != Siglent
    requires Refusal(CaptureSteps(v, autoscale, timebase)).None?
    requires Clean(failing, |s.written|, |Issued(CaptureSteps(v, autoscale, timebase))|)
    ensures var c := Capture(v, autoscale, timebase, folder, stamp, failing, s);
            var d := Decode(s.wire);
            && c.after.written == s.written + Issued(CaptureSteps(v, autoscale, timebase))
            && c.after.wire == d.wire
            && (d.value.Ok? ==> c.result == Ok(Screenshot(d.value.value, JoinPath(folder, ScreenshotName(stamp, v)))))
  {
    var steps := CaptureSteps(v, autoscale, timebase);
    RunClean(steps, failing, s.written);
    assert Run(steps, failing, s.written) == Ran(s.written + Issued(steps), None);
  }

  /** For Siglent the capture returns whatever the instrument had queued, as a BMP. */
  lemma CaptureSiglentTakesAll(autoscale: bool, timebase: Option<Timebase>, folder: string, stamp: string,
                               failing: set<nat>, s: Session)
    requires Refusal(CaptureSteps(Siglent, autoscale, timebase)).None?
    requires Clean(failing, |s.written|, |Issued(CaptureSteps(Siglent, autoscale, timebase))|)
    requires s.wire.pending != []
    ensures var c := Capture(Siglent, autoscale, timebase, folder, stamp, failing, s);
      && c.result == Ok(Screenshot(s.wire.pending, JoinPath(folder, "scope_screenshot_" + stamp + ".bmp")))
      && c.after.wire.pending == [] && c.after.calls == s.calls
  {
    RunClean(CaptureSteps(Siglent, autoscale, timebase), failing, s.written);
    assert ScreenshotName(stamp, Siglent) == "scope_screenshot_" + stamp + ".bmp";
  }

  // ---------------------------------------------------------------------------------
  // Session methods

  /** open_scope: open the resource, then suppress headers if it is a Keysight. */
  method OpenScope(scope: Instrument) returns (r: Result<()>)
    modifies scope`isOpen, scope`opens, scope`written
    ensures !scope.reachable ==>
              r == Err(ConnectionFailed) && scope.isOpen == old(scope.isOpen)
              && scope.opens == old(scope.opens) && scope.written == old(scope.written)
    ensures scope.reachable ==>
              var ran := Run(OpenSteps(VendorOf(scope.resource)), scope.failingWrites, old(scope.written));
              scope.isOpen && scope.opens == old(scope.opens) + 1
              && scope.written == ran.written && r == Outcome(ran.failure)
  {
    r := scope.Open();
    if r.Err? {
      return;
    }
    var vendor := VendorOf(scope.resource);
    if vendor == Keysight {
      r := scope.Write(HeaderOff);
    }
  }

  /** read_binblock: header, length field, then the payload in chunks of at most 65536 bytes. */
  method ReadBinblock(scope: Instrument) returns (r: Result<seq<byte>>)
    requires scope.isOpen
    modifies scope`wire, scope`calls
    ensures var d := Decode(old(scope.wire));
      r == d.value && scope.wire == d.wire && scope.calls == old(scope.calls) + d.calls
  {
    ghost var calls0 := scope.calls;
    var digits, first := ReadDigitCount(scope);
    if digits.Err? {
      return Err(digits.error);
    }
    var length, last := ReadLengthField(scope, first, digits.value);
    AppendAssoc(calls0, first, last);
    if length.Err? {
      return Err(length.error);
    }
    ghost var taken := first + last;
    ghost var l := Loop(scope.wire, length.value);
    ghost var callsBefore := scope.calls;
    r := ReadPayload(scope, length.value);
    ReadAfterHeader(calls0, taken, callsBefore, l);
  }

  lemma ReadAfterHeader(calls0: seq<Call>, taken: seq<Call>, callsBefore: seq<Call>, l: Decoded)
    requires callsBefore == calls0 + taken
    ensures callsBefore + l.calls == calls0 + Prefixed([], taken, l).calls
    ensures l.value == Prefixed([], taken, l).value
  {
    AppendAssoc(calls0, taken, l.calls);
    if l.value.Ok? {
      assert [] + l.value.value == l.value.value;
    }
  }

  /** The two-byte header: '#' and the number of length digits. */
  method ReadDigitCount(scope: Instrument) returns (r: Result<nat>, ghost taken: seq<Call>)
    requires scope.isOpen
    modifies scope`wire, scope`calls
    ensures scope.calls == old(scope.calls) + taken
    ensures r.Err? ==> Decode(old(scope.wire)) == Decoded(Err(r.error), scope.wire, taken)
    ensures r.Ok? ==> Decode(old(scope.wire)) == DecodeLength(taken, r.value, scope.wire)
  {
    ghost var w0 := scope.wire;
    var header := scope.ReadBytes(2);
    if header.Err? {
      return Err(header.error), [Call(2, [])];
    }
    var h := header.value;
    taken := [Call(2, h)];
    assert Read(w0, 2) == Ok((h, scope.wire));
    assert Decode(w0) == DecodeAfterHeader(h, scope.wire);
    if h[0] != Hash {
      return Err(MissingHash), taken;
    }
    var count := ParseInt(h[1..]);
    if count.None? {
      return Err(BadNumber), taken;
    }
    ParseOneByte(h[1..]);
    var digits: nat := count.value;
    r := Ok(digits);
  }

  /** The length field: exactly `digits` bytes, parsed as an integer. */
  method ReadLengthField(scope: Instrument, ghost first: seq<Call>, digits: nat) returns (r: Result<int>, ghost last: seq<Call>)
    requires scope.isOpen
    modifies scope`wire, scope`calls
    ensures scope.calls == old(scope.calls) + last
    ensures r.Err? ==> DecodeLength(first, digits, old(scope.wire)) == Decoded(Err(r.error), scope.wire, first + last)
    ensures r.Ok? ==> DecodeLength(first, digits, old(scope.wire)) == Prefixed([], first + last, Loop(scope.wire, r.value))
  {
    ghost var w1 := scope.wire;
    var lengthField := scope.ReadBytes(digits);
    if lengthField.Err? {
      return Err(lengthField.error), [Call(digits, [])];
    }
    last := [Call(digits, lengthField.value)];
    assert Read(w1, digits) == Ok((lengthField.value, scope.wire));
    var length := ParseInt(lengthField.value);
    if length.None? {
      return Err(BadNumber), last;
    }
    r := Ok(length.value);
  }

  /** The payload loop of read_binblock: ask for min(65536, bytes_left) until nothing is left. */
  method ReadPayload(scope: Instrument, dataLength: int) returns (r: Result<seq<byte>>)
    requires scope.isOpen
    modifies scope`wire, scope`calls
    ensures var d := Loop(old(scope.wire), dataLength);
      r == d.value && scope.wire == d.wire && scope.calls == old(scope.calls) + d.calls
  {
    ghost var w0, calls0 := scope.wire, scope.calls;
    var data: seq<byte> := [];
    var bytesLeft := dataLength;
    ghost var taken: seq<Call> := [];
    assert Loop(w0, dataLength) == Prefixed(data, taken, Loop(scope.wire, bytesLeft)) by {
      var l := Loop(w0, dataLength);
      assert [] + l.calls == l.calls;
      if l.value.Ok? {
        assert [] + l.value.value == l.value.value;
      }
    }
    while bytesLeft > 0
      invariant scope.isOpen
      invariant bytesLeft == dataLength - |data|
      invariant scope.calls == calls0 + taken
      invariant Loop(w0, dataLength) == Prefixed(data, taken, Loop(scope.wire, bytesLeft))
      decreases |scope.wire.pending|
    {
      var toRead := Min(ChunkSize, bytesLeft);
      var block := scope.ReadBytes(toRead);
      if block.Err? {
        return Err(block.error);
      }
      PrefixedTwice(data, taken, block.value, [Call(toRead, block.value)], Loop(scope.wire, bytesLeft - |block.value|));
      AppendAssoc(calls0, taken, [Call(toRead, block.value)]);
      data := data + block.value;
      bytesLeft := bytesLeft - |block.value|;
      taken := taken + [Call(toRead, block.value)];
    }
    assert data + [] == data && taken + [] == taken;
    return Ok(data);
  }

  lemma PrefixedTwice(d1: seq<byte>, c1: seq<Call>, d2: seq<byte>, c2: seq<Call>, rest: Decoded)
    ensures Prefixed(d1, c1, Prefixed(d2, c2, rest)) == Prefixed(d1 + d2, c1 + c2, rest)
  {
    assert c1 + (c2 + rest.calls) == c1 + c2 + rest.calls;
    if rest.value.Ok? {
      assert d1 + (d2 + rest.value.value) == d1 + d2 + rest.value.value;
    }
  }

  /** _set_autoscale_state on an open session. */
  method ApplyAutoscale(scope: Instrument, enabled: bool, v: Vendor) returns (r: Result<()>)
    requires scope.isOpen
    modifies scope`written
    ensures var ran := Run(AutoscaleSteps(enabled, v), scope.failingWrites, old(scope.written));
      scope.written == ran.written && r == Outcome(ran.failure)
  {
    var commands := CommandsFor(v);
    var command: string;
    if enabled {
      command := commands.autoscaleEnable;
    } else {
      if commands.autoscaleDisable.None? {
        return Ok(());
      }
      command := commands.autoscaleDisable.value;
    }
    var written := scope.Write(command);
    if written.Err? {
      return Err(AutoscaleFailed(enabled, command));
    }
    return Ok(());
  }

  /** _set_timebase_scale on an open session. */
  method ApplyTimebase(scope: Instrument, tb: Timebase, v: Vendor) returns (r: Result<()>)
    requires scope.isOpen
    modifies scope`written
    ensures var ran := Run(TimebaseSteps(tb, v), scope.failingWrites, old(scope.written));
      scope.written == ran.written && r == Outcome(ran.failure)
  {
    if tb.secondsPerDivision <= 0.0 {
      return Err(InvalidTimebase);
    }
    var command := CommandsFor(v).timebaseScale;
    r := scope.Write(command + " " + tb.text);
  }

  /** autoscale_oscilloscope: open, send the enable command of the default (Keysight) row, close. */
  method AutoscaleOscilloscope(scope: Instrument) returns (r: Result<()>)
    modifies scope`isOpen, scope`opens, scope`closes, scope`written
    ensures scope.opens == old(scope.opens) + (if scope.reachable then 1 else 0)
    ensures var afterOpen := Run(OpenSteps(VendorOf(scope.resource)), scope.failingWrites, old(scope.written));
      && (!scope.reachable ==> r == Err(ConnectionFailed) && scope.written == old(scope.written)
                               && scope.isOpen == old(scope.isOpen) && scope.closes == old(scope.closes))
      && (scope.reachable && afterOpen.failure.Some? ==>
            r == Err(afterOpen.failure.value) && scope.written == afterOpen.written
            && scope.isOpen && scope.closes == old(scope.closes))
      && (scope.reachable && afterOpen.failure.None? ==>
            var ran := Run(AutoscaleSteps(true, Keysight), scope.failingWrites, afterOpen.written);
            r == Outcome(ran.failure) && scope.written == ran.written
            && !scope.isOpen && scope.closes == old(scope.closes) + 1)
  {
    r := OpenScope(scope);
    if r.Err? {
      return;
    }
    r := ApplyAutoscale(scope, true, Keysight);
    scope.Close();
  }

  /** set_autoscale_state: open, enable or disable autoscale for the detected vendor, close. */
  method SetAutoscaleState(scope: Instrument, enabled: bool) returns (r: Result<()>)
    modifies scope`isOpen, scope`opens, scope`closes, scope`written
    ensures scope.opens == old(scope.opens) + (if scope.reachable then 1 else 0)
    ensures var v := VendorOf(scope.resource);
      var afterOpen := Run(OpenSteps(v), scope.failingWrites, old(scope.written));
      && (!scope.reachable ==> r == Err(ConnectionFailed) && scope.written == old(scope.written)
                               && scope.isOpen == old(scope.isOpen) && scope.closes == old(scope.closes))
      && (scope.reachable && afterOpen.failure.Some? ==>
            r == Err(afterOpen.failure.value) && scope.written == afterOpen.written
            && scope.isOpen && scope.closes == old(scope.closes))
      && (scope.reachable && afterOpen.failure.None? ==>
            var ran := Run(AutoscaleSteps(enabled, v), scope.failingWrites, afterOpen.written);
            r == Outcome(ran.failure) && scope.written == ran.written
            && !scope.isOpen && scope.closes == old(scope.closes) + 1)
  {
    var vendor := VendorOf(scope.resource);
    r := OpenScope(scope);
    if r.Err? {
      return;
    }
    r := ApplyAutoscale(scope, enabled, vendor);
    scope.Close();
  }

  /** set_timebase_scale: open, set the timebase for the detected vendor, close. */
  method SetTimebaseScale(scope: Instrument, tb: Timebase) returns (r: Result<()>)
    modifies scope`isOpen, scope`opens, scope`closes, scope`written
    ensures scope.opens == old(scope.opens) + (if scope.reachable then 1 else 0)
    ensures var v := VendorOf(scope.resource);
      var afterOpen := Run(OpenSteps(v), scope.failingWrites, old(scope.written));
      && (!scope.reachable ==> r == Err(ConnectionFailed) && scope.written == old(scope.written)
                               && scope.isOpen == old(scope.isOpen) && scope.closes == old(scope.closes))
      && (scope.reachable && afterOpen.failure.Some? ==>
            r == Err(afterOpen.failure.value) && scope.written == afterOpen.written
            && scope.isOpen && scope.closes == old(scope.closes))
      && (scope.reachable && afterOpen.failure.None? ==>
            var ran := Run(TimebaseSteps(tb, v), scope.failingWrites, afterOpen.written);
            r == Outcome(ran.failure) && scope.written == ran.written
            && !scope.isOpen && scope.closes == old(scope.closes) + 1)
  {
    var vendor := VendorOf(scope.resource);
    r := OpenScope(scope);
    if r.Err? {
      return;
    }
    r := ApplyTimebase(scope, tb, vendor);
    scope.Close();
  }

  /** The try block of capture_screenshot_display, on a session open_scope returned. */
  method CaptureOnSession(scope: Instrument, folder: string, autoscale: Option<bool>,
                          timebase: Option<Timebase>, stamp: string) returns (r: Result<Screenshot>)
    requires scope.isOpen
    modifies scope`written, scope`wire, scope`calls
    ensures Capture(VendorOf(scope.resource), autoscale.GetOr(AutoscaleDefaultEnabled), timebase, folder, stamp,
                    scope.failingWrites, old(Session(scope.written, scope.wire, scope.calls)))
         == Captured(r, Session(scope.written, scope.wire, scope.calls))
  {
    ghost var failing, written0 := scope.failingWrites, scope.written;
    var autoscaleSetting := autoscale.GetOr(AutoscaleDefaultEnabled);
    var vendor := VendorOf(scope.resource);
    ghost var settings := SettingsSteps(vendor, autoscaleSetting, timebase);
    ghost var fetch := [Send(FetchCommand(vendor), WriteFailed(FetchCommand(vendor)))];
    RunAppend(settings, fetch, failing, written0);

    var applied := ApplySettings(scope, vendor, autoscaleSetting, timebase);
    if applied.Err? {
      return Err(applied.error);
    }
    var image: seq<byte>;
    if vendor == Siglent {
      var sent := scope.Write(ScreenDump);
      if sent.Err? {
        return Err(sent.error);
      }
      var raw := scope.ReadRaw();
      if raw.Err? {
        return Err(raw.error);
      }
      image := raw.value;
    } else {
      var sent := scope.Write(DisplayFetch);
      if sent.Err? {
        return Err(sent.error);
      }
      var block := ReadBinblock(scope);
      if block.Err? {
        return Err(block.error);
      }
      image := block.value;
    }
    var ext := if vendor == Siglent then "bmp" else "png";
    var filename := "scope_screenshot_" + stamp + "." + ext;
    r := Ok(Screenshot(image, JoinPath(folder, filename)));
  }

  /** The autoscale and timebase part of the try block. */
  method ApplySettings(scope: Instrument, vendor: Vendor, autoscale: bool, timebase: Option<Timebase>)
    returns (r: Result<()>)
    requires scope.isOpen
    modifies scope`written
    ensures var ran := Run(SettingsSteps(vendor, autoscale, timebase), scope.failingWrites, old(scope.written));
      scope.written == ran.written && r == Outcome(ran.failure)
  {
    ghost var failing, written0 := scope.failingWrites, scope.written;
    if autoscale {
      var tail := if timebase.Some? then TimebaseSteps(timebase.value, vendor) else [];
      RunAppend(AutoscaleSteps(true, vendor), tail, failing, written0);
      r := ApplyAutoscale(scope, true, vendor);
      if r.Err? {
        return;
      }
      if timebase.Some? {
        r := ApplyTimebase(scope, timebase.value, vendor);
      }
    } else {
      var disable := if vendor != Siglent then AutoscaleSteps(false, vendor) else [];
      var manualScale := timebase.GetOr(DefaultTimebase);
      RunAppend(disable, TimebaseSteps(manualScale, vendor), failing, written0);
      if vendor != Siglent {
        r := ApplyAutoscale(scope, false, vendor);
        if r.Err? {
          return;
        }
      }
      r := ApplyTimebase(scope, manualScale, vendor);
    }
  }

  /**
   * capture_screenshot_display: open_scope outside the try block (so a failed open or header
   * write leaves nothing to close), then the capture, then close on every path.
   */
  method CaptureScreenshotDisplay(scope: Instrument, folder: string, autoscale: Option<bool>,
                                  timebase: Option<Timebase>, stamp: string) returns (r: Result<Screenshot>)
    modifies scope
    ensures Attempt(r, Snap(scope))
         == CaptureOutcome(scope.resource, scope.reachable, scope.failingWrites, old(Snap(scope)),
                           folder, autoscale, timebase, stamp)
  {
    var afterOpen := OpenScope(scope);
    if afterOpen.Err? {
      return Err(afterOpen.error);
    }
    r := CaptureOnSession(scope, folder, autoscale, timebase, stamp);
    scope.Close();
  }

  /** The candidate filter of detect_oscilloscope: every USB resource naming a known vendor id. */
  method UsbCandidates(resources: seq<string>) returns (candidates: seq<string>)
    ensures candidates == Filter(resources, IsCandidate)
  {
    candidates := [];
    var i := 0;
    while i < |resources|
      invariant 0 <= i <= |resources|
      invariant candidates == Filter(resources[..i], IsCandidate)
    {
      var res := resources[i];
      if StartsWith(res, "USB") {
        candidates := AppendIfKnownId(candidates, res);
      }
      FilterSnoc(resources[..i], res, IsCandidate);
      assert resources[..i + 1] == resources[..i] + [res];
      i := i + 1;
    }
    assert resources[..i] == resources;
  }

  /** The inner loop of the filter: append `res` at the first known id it mentions, then stop. */
  method AppendIfKnownId(candidates: seq<string>, res: string) returns (extended: seq<string>)
    requires StartsWith(res, "USB")
    ensures extended == candidates + if IsCandidate(res) then [res] else []
  {
    extended := candidates;
    var k := 0;
    while k < |KnownOscilloscopes|
      invariant 0 <= k <= |KnownOscilloscopes|
      invariant extended == candidates
      invariant forall j :: 0 <= j < k ==> !Contains(Lower(res), Lower(KnownOscilloscopes[j]))
    {
      if Contains(Lower(res), Lower(KnownOscilloscopes[k])) {
        extended := extended + [res];
        assert IsCandidate(res);
        return;
      }
      k := k + 1;
    }
  }

  /** The candidates are exactly the listed resources that pass the filter, in listing order. */
  lemma CandidatesSpec(resources: seq<string>, more: seq<string>)
    ensures forall r :: r in Filter(resources, IsCandidate) <==> r in resources && IsCandidate(r)
    ensures Filter(resources + more, IsCandidate) == Filter(resources, IsCandidate) + Filter(more, IsCandidate)
    ensures forall r :: r in Filter(resources, IsCandidate) ==> VendorOf(r) != Unknown
  {
    FilterAppend(resources, more, IsCandidate);
    forall r | r in Filter(resources, IsCandidate) ensures VendorOf(r) != Unknown {
      CandidateHasKnownVendor(r);
    }
  }
}
