/**
 * The non-visual logic of main_gui.py: describing the scanned VISA resources, the device
 * list with its enabled flags and counters, the status line of the capture button, and the
 * capture worker that drives every enabled device in turn through the instrument code.
 */
module Gui {
  import opened Outcomes
  import opened Text
  import opened Visa
  import opened Sequencing
  import opened ScopeControl

  /** One row of the device list. */
  datatype Device = Device(id: string, name: string, deviceType: string, connected: bool, enabled: bool)

  // ---------------------------------------------------------------------------------
  // Scanning

  /** The transport shown for a resource: the first of USB, GPIB, TCPIP, ASRL it contains. */
  function Transport(resource: string): (r: string)
    ensures r == "USB" <==> Contains(resource, "USB")
    ensures r == "GPIB" <==> !Contains(resource, "USB") && Contains(resource, "GPIB")
    ensures r == "TCP/IP" <==> !Contains(resource, "USB") && !Contains(resource, "GPIB") && Contains(resource, "TCPIP")
    ensures r == "Serial" <==> !Contains(resource, "USB") && !Contains(resource, "GPIB") && !Contains(resource, "TCPIP")
                               && Contains(resource, "ASRL")
    ensures r == "Unknown" <==> !Contains(resource, "USB") && !Contains(resource, "GPIB") && !Contains(resource, "TCPIP")
                                && !Contains(resource, "ASRL")
  {
    if Contains(resource, "USB") then "USB"
    else if Contains(resource, "GPIB") then "GPIB"
    else if Contains(resource, "TCPIP") then "TCP/IP"
    else if Contains(resource, "ASRL") then "Serial"
    else "Unknown"
  }

  /** The name taken from a stripped *IDN? reply: the second comma field, or the first 30 characters. */
  function IdnLabel(reply: string): string {
    var idn := Strip(reply);
    if Contains(idn, ",") then SplitHasTwo(idn, ","); Split(idn, ",")[1] else Take(idn, 30)
  }

  /** Without a comma, the name is the stripped reply cut to 30 characters. */
  lemma IdnLabelWithoutComma(reply: string)
    requires !Contains(Strip(reply), ",")
    ensures IdnLabel(reply) == Strip(reply)[..Min(30, |Strip(reply)|)]
  {
  }

  /**
   * With a comma, the name is the longest comma-free run that follows the first comma of the
   * stripped reply.
   */
  lemma IdnLabelWithComma(reply: string)
    requires Contains(Strip(reply), ",")
    ensures var idn := Strip(reply);
      var r := IdnLabel(reply);
      var i := IndexOf(idn, ",").value;
      && idn[i] == ','
      && (forall j :: 0 <= j < i ==> idn[j] != ',')
      && StartsWith(idn[i + 1..], r)
      && !Contains(r, ",")
      && (r == idn[i + 1..] || idn[i + 1 + |r|] == ',')
  {
    SecondField(Strip(reply));
  }

  lemma SecondField(idn: string)
    requires Contains(idn, ",")
    ensures var r := Split(idn, ",")[1];
      var i := IndexOf(idn, ",").value;
      && idn[i] == ','
      && (forall j :: 0 <= j < i ==> idn[j] != ',')
      && StartsWith(idn[i + 1..], r)
      && !Contains(r, ",")
      && (r == idn[i + 1..] || idn[i + 1 + |r|] == ',')
  {
    var i := IndexOf(idn, ",").value;
    FirstComma(idn, i);
    var tail := idn[i + 1..];
    assert Split(idn, ",") == [idn[..i]] + Split(tail, ",");
    SplitFirst(tail, ",");
    var r := Split(tail, ",")[0];
    if r != tail {
      assert OccursAt(tail, ",", |r|);
      assert tail[|r|..|r| + 1] == ",";
    }
  }

  lemma {:induction false} FirstComma(idn: string, i: nat)
    requires IndexOf(idn, ",") == Some(i)
    ensures i < |idn| && idn[i] == ','
    ensures forall j :: 0 <= j < i ==> idn[j] != ','
  {
    assert OccursAt(idn, ",", i);
    assert idn[i..i + 1] == [idn[i]];
    forall j | 0 <= j < i ensures idn[j] != ',' {
      assert !OccursAt(idn, ",", j);
      assert idn[j..j + 1] == [idn[j]];
    }
  }

  /** The name used when the *IDN? query failed: the fourth "::" field if there is one, else the resource. */
  function FallbackLabel(resource: string): string {
    var parts := Split(resource, "::");
    if |parts| > 3 then parts[3] else resource
  }

  /**
   * The fallback name is one whole "::" field of the resource (the fourth), which the split
   * loses nothing of; a resource with at most three fields is kept whole.
   */
  lemma FallbackLabelSpec(resource: string)
    ensures var parts := Split(resource, "::");
      && Join(parts, "::") == resource
      && (|parts| > 3 ==> FallbackLabel(resource) == parts[3] && !Contains(FallbackLabel(resource), "::"))
      && (|parts| <= 3 ==> FallbackLabel(resource) == resource)
  {
    JoinSplit(resource, "::");
    SplitPiecesFree(resource, "::");
  }

  /** What the reply of *IDN? was, or None when opening or querying the resource raised. */
  function Reply(replies: map<string, string>, resource: string): Option<string> {
    if resource in replies then Some(replies[resource]) else None
  }

  /** The device row the scan builds for one resource. */
  function Describe(resource: string, reply: Option<string>): (d: Device)
    ensures d.id == resource && d.connected && !d.enabled && d.deviceType == Transport(resource)
    ensures d.deviceType != "USB" ==> d.name == resource
    ensures d.deviceType == "USB" && reply.Some? ==> d.name == IdnLabel(reply.value)
    ensures d.deviceType == "USB" && reply.None? ==> d.name == FallbackLabel(resource)
  {
    var kind := Transport(resource);
    var name :=
      if kind == "USB" then
        match reply
        case Some(idn) => IdnLabel(idn)
        case None => FallbackLabel(resource)
      else resource;
    Device(resource, name, kind, true, false)
  }

  /** ScanThread.run: one row per listed resource, in listing order, none of them enabled. */
  method ScanDevices(resources: seq<string>, replies: map<string, string>) returns (devices: seq<Device>)
    ensures |devices| == |resources|
    ensures forall i :: 0 <= i < |resources| ==> devices[i] == Describe(resources[i], Reply(replies, resources[i]))
    ensures forall i :: 0 <= i < |devices| ==> devices[i].id == resources[i] && !devices[i].enabled
  {
    devices := [];
    for i := 0 to |resources|
      invariant |devices| == i
      invariant forall k :: 0 <= k < i ==> devices[k] == Describe(resources[k], Reply(replies, resources[k]))
    {
      var resource := resources[i];
      var deviceType := "Unknown";
      var name := resource;
      if Contains(resource, "USB") {
        deviceType := "USB";
        match Reply(replies, resource)
        case Some(idn) =>
          name := IdnLabel(idn);
        case None =>
          var parts := Split(resource, "::");
          name := if |parts| > 3 then parts[3] else resource;
      } else if Contains(resource, "GPIB") {
        deviceType := "GPIB";
      } else if Contains(resource, "TCPIP") {
        deviceType := "TCP/IP";
      } else if Contains(resource, "ASRL") {
        deviceType := "Serial";
      }
      devices := devices + [Device(resource, name, deviceType, true, false)];
    }
  }

  // ---------------------------------------------------------------------------------
  // The device list

  predicate IsEnabled(d: Device) { d.enabled }

  /** Enabling or disabling one row changes the enabled count by exactly that row's change. */
  lemma {:induction false} CountAfterToggle(ds: seq<Device>, i: nat, on: bool)
    requires i < |ds|
    ensures CountWhere(ds[i := ds[i].(enabled := on)], IsEnabled)
         == CountWhere(ds, IsEnabled) - (if ds[i].enabled then 1 else 0) + (if on then 1 else 0)
  {
    var t := ds[i := ds[i].(enabled := on)];
    if i > 0 {
      CountAfterToggle(ds[1..], i - 1, on);
      assert t[1..] == ds[1..][i - 1 := ds[i].(enabled := on)];
    } else {
      assert t[1..] == ds[1..];
    }
  }

  /** DevicePanel: the scanned devices, whose enabled flags the check boxes change. */
  class DevicePanel {
    var devices: seq<Device>

    constructor ()
      ensures devices == []
    {
      devices := [];
    }

    /** set_devices: the new list replaces the old one. */
    method SetDevices(ds: seq<Device>)
      modifies this
      ensures devices == ds
    {
      devices := ds;
    }

    /** A check box of the i-th row changed state. */
    method SetEnabled(i: nat, on: bool)
      requires i < |devices|
      modifies this
      ensures devices == old(devices)[i := old(devices)[i].(enabled := on)]
      ensures EnabledCount() == old(EnabledCount()) - (if old(devices)[i].enabled then 1 else 0) + (if on then 1 else 0)
    {
      CountAfterToggle(devices, i, on);
      devices := devices[i := devices[i].(enabled := on)];
    }

    /** get_enabled_devices: the enabled rows, in list order. */
    function EnabledDevices(): (r: seq<Device>)
      reads this
      ensures forall d :: d in r <==> d in devices && d.enabled
    {
      Filter(devices, IsEnabled)
    }

    /** The numerator of the count label: never more than the total, and the length of the enabled list. */
    function EnabledCount(): (r: nat)
      reads this
      ensures r == |EnabledDevices()| && r <= |devices|
    {
      CountIsFilterLength(devices, IsEnabled);
      CountWhere(devices, IsEnabled)
    }

    /** update_count: "(enabled/total active)". */
    function CountText(): string
      reads this
    {
      "(" + NatToString(EnabledCount()) + "/" + NatToString(|devices|) + " active)"
    }
  }

  /** Enabled devices of a concatenated list are those of each part, in order. */
  lemma EnabledInOrder(a: seq<Device>, b: seq<Device>)
    ensures Filter(a + b, IsEnabled) == Filter(a, IsEnabled) + Filter(b, IsEnabled)
    ensures Filter([], IsEnabled) == []
  {
    FilterAppend(a, b, IsEnabled);
  }

  /** The count label shows the two counters as decimal numbers that read back as themselves. */
  lemma CountTextReadsBack(enabled: nat, total: nat)
    ensures var e, t := NatToString(enabled), NatToString(total);
      var text := "(" + e + "/" + t + " active)";
      text[1..1 + |e|] == e && DecimalValue(e) == enabled
      && text[2 + |e|..2 + |e| + |t|] == t && DecimalValue(t) == total
  {
    var e, t := NatToString(enabled), NatToString(total);
    var text := "(" + e + "/" + t + " active)";
    NatToStringRoundTrip(enabled);
    NatToStringRoundTrip(total);
    var opening := "(" + e;
    var numbers := opening + "/" + t;
    SliceLeft(numbers, " active)", 1, 1 + |e|);
    SliceLeft(opening + "/", t, 1, 1 + |e|);
    SliceLeft(opening, "/", 1, 1 + |e|);
    assert opening[1..] == e;
    SliceLeft(numbers, " active)", 2 + |e|, 2 + |e| + |t|);
    assert numbers[2 + |e|..] == t;
  }

  // ---------------------------------------------------------------------------------
  // The capture button

  function DeviceWord(n: int): (r: string)
    ensures r == "device" <==> n == 1
    ensures r == "devices" <==> n != 1
  {
    if n == 1 then "device" else "devices"
  }

  /** The status line under the capture button. */
  function CaptureStatus(enabledCount: nat, capturing: bool): string {
    if capturing then "Please wait..."
    else if enabledCount == 0 then "Enable at least one device"
    else NatToString(enabledCount) + " " + DeviceWord(enabledCount) + " will be triggered simultaneously"
  }

  /** The status line starts with the count, which reads back, and the word gets its "s" unless the count is one. */
  lemma CaptureStatusNamesCount(n: nat)
    requires n > 0
    ensures var s := CaptureStatus(n, false);
      var digits := NatToString(n);
      && s[..|digits|] == digits && DecimalValue(digits) == n && s[|digits|] == ' '
      && s[|digits| + 1..|digits| + 7] == "device"
      && (s[|digits| + 7] == 's' <==> n != 1)
  {
    NatToStringRoundTrip(n);
    var digits := NatToString(n);
    var word := DeviceWord(n);
    var spaced := digits + " ";
    var worded := spaced + word;
    var tail := " will be triggered simultaneously";
    var s := CaptureStatus(n, false);
    assert s == worded + tail;
    SliceLeft(worded, tail, 0, |digits|);
    SliceLeft(spaced, word, 0, |digits|);
    SliceLeft(worded, tail, |digits| + 1, |digits| + 7);
    assert worded[|spaced|..] == word;
    assert s[|digits|] == worded[|digits|] == spaced[|digits|];
    if n == 1 {
      assert s[|digits| + 7] == tail[0];
    } else {
      assert s[|digits| + 7] == worded[|spaced| + 6] == word[6];
    }
  }

  /** The first character tells the three status lines apart: "P"lease, "E"nable, or a digit. */
  lemma StatusFirst(n: nat, capturing: bool)
    ensures var s := CaptureStatus(n, capturing);
      && |s| > 0
      && (s[0] == 'P' <==> capturing)
      && (s[0] == 'E' <==> !capturing && n == 0)
  {
    if !capturing && n > 0 {
      var digits := NatToString(n);
      assert CaptureStatus(n, capturing)[0] == digits[0];
    }
  }

  /** Two digit runs that both end at the first space of the same text are the same run. */
  lemma DigitRunsAgree(s: string, a: string, b: string)
    requires forall k :: 0 <= k < |a| ==> '0' <= a[k] <= '9'
    requires forall k :: 0 <= k < |b| ==> '0' <= b[k] <= '9'
    requires |a| < |s| && s[..|a|] == a && s[|a|] == ' '
    requires |b| < |s| && s[..|b|] == b && s[|b|] == ' '
    ensures a == b
  {
    assert forall k :: 0 <= k < |a| ==> s[k] == a[k];
    assert forall k :: 0 <= k < |b| ==> s[k] == b[k];
    assert |a| == |b|;
  }

  /**
   * The status line reads back what it was built from: equal lines come from the same
   * capturing flag and, when not capturing, from the same enabled count.
   */
  lemma CaptureStatusReadsBack(n: nat, c: bool, m: nat, d: bool)
    ensures CaptureStatus(n, c) == CaptureStatus(m, d) ==> c == d && (!c ==> n == m)
  {
    var s, t := CaptureStatus(n, c), CaptureStatus(m, d);
    StatusFirst(n, c);
    StatusFirst(m, d);
    if s == t && !c && !d && n > 0 && m > 0 {
      CaptureStatusNamesCount(n);
      CaptureStatusNamesCount(m);
      DigitRunsAgree(s, NatToString(n), NatToString(m));
      NatToStringRoundTrip(n);
      NatToStringRoundTrip(m);
    }
  }

  // ---------------------------------------------------------------------------------
  // The capture worker

  /** The name a worker sanitises from a device name for its report. */
  function SafeName(name: string): (r: string)
    ensures |r| == Min(20, |name|) && |r| <= 20
    ensures forall i :: 0 <= i < |r| ==> r[i] == (if name[i] == ' ' then '_' else if name[i] == '/' then '-' else name[i])
    ensures forall i :: 0 <= i < |r| ==> r[i] != ' ' && r[i] != '/'
  {
    Take(ReplaceChar(ReplaceChar(name, ' ', '_'), '/', '-'), 20)
  }

  /** The file name the worker reports (the instrument code chooses its own). */
  function ReportedName(safeName: string, stamp: string): string {
    "scope_" + safeName + "_" + stamp + ".png"
  }

  /**
   * The reported name and the written one agree only when the sanitised name is "screenshot"
   * and the instrument is not a Siglent (whose file is a .bmp).
   */
  lemma ReportedNameAgrees(safeName: string, stamp: string, v: Vendors.Vendor)
    ensures ReportedName(safeName, stamp) == ScreenshotName(stamp, v)
        <==> safeName == "screenshot" && v != Vendors.Siglent
  {
    var reported := ReportedName(safeName, stamp);
    var written := ScreenshotName(stamp, v);
    assert written == "scope_" + "screenshot" + "_" + stamp + "." + Extension(v);
    if reported == written {
      assert |safeName| == 10;
      assert reported[6..16] == safeName;
      assert written[6..16] == "screenshot";
      assert reported[|reported| - 3..] == "png";
      assert written[|written| - 3..] == Extension(v);
    }
  }

  datatype Event =
    | Started(id: string)
    | Completed(id: string, path: string)
    | Failed(id: string, error: Error)
    | AllCompleted

  /** The report that follows capture_started for a device. */
  function Finished(d: Device, outcome: Result<Screenshot>, folder: string, stamp: string): (e: Event)
    ensures !e.AllCompleted? && e.id == d.id && (e.Completed? <==> outcome.Ok?) && (e.Failed? <==> outcome.Err?)
  {
    match outcome
    case Ok(_) => Completed(d.id, JoinPath(folder, ReportedName(SafeName(d.name), stamp)))
    case Err(e) => Failed(d.id, e)
  }

  /** The signals for the enabled devices, the j-th reporting under the clock's reading 2 * j. */
  function Reports(enabled: seq<Device>, outcomes: seq<Result<Screenshot>>, folder: string,
                   clock: nat -> string): seq<Event>
    requires |outcomes| == |enabled|
  {
    if enabled == [] then []
    else
      var n := |enabled| - 1;
      Reports(enabled[..n], outcomes[..n], folder, clock)
      + [Started(enabled[n].id), Finished(enabled[n], outcomes[n], folder, clock(2 * n))]
  }

  /** Every signal of one run of the worker. */
  function Events(enabled: seq<Device>, outcomes: seq<Result<Screenshot>>, folder: string,
                  clock: nat -> string): seq<Event>
    requires |outcomes| == |enabled|
  {
    Reports(enabled, outcomes, folder, clock) + [AllCompleted]
  }

  lemma {:induction false} ReportsShape(enabled: seq<Device>, outcomes: seq<Result<Screenshot>>, folder: string,
                                        clock: nat -> string)
    requires |outcomes| == |enabled|
    ensures var e := Reports(enabled, outcomes, folder, clock);
      && |e| == 2 * |enabled|
      && forall j :: 0 <= j < |enabled| ==>
           e[2 * j] == Started(enabled[j].id) && e[2 * j + 1] == Finished(enabled[j], outcomes[j], folder, clock(2 * j))
  {
    if enabled != [] {
      var n := |enabled| - 1;
      ReportsShape(enabled[..n], outcomes[..n], folder, clock);
    }
  }

  /**
   * The signals of a run: for each enabled device in order, capture_started and then exactly one
   * of capture_completed or capture_failed, whatever happened to the devices before it; then
   * all_completed, once, as the last signal.
   */
  lemma EventsShape(enabled: seq<Device>, outcomes: seq<Result<Screenshot>>, folder: string, clock: nat -> string)
    requires |outcomes| == |enabled|
    ensures var e := Events(enabled, outcomes, folder, clock);
      && |e| == 2 * |enabled| + 1
      && e[|e| - 1] == AllCompleted
      && (forall k :: 0 <= k < |e| - 1 ==> !e[k].AllCompleted? && e[k].id == enabled[k / 2].id)
      && (forall j :: 0 <= j < |enabled| ==> e[2 * j] == Started(enabled[j].id))
      && (forall j :: 0 <= j < |enabled| ==>
            (e[2 * j + 1].Completed? <==> outcomes[j].Ok?) && (e[2 * j + 1].Failed? <==> outcomes[j].Err?))
  {
    ReportsShape(enabled, outcomes, folder, clock);
    var e := Events(enabled, outcomes, folder, clock);
    forall k | 0 <= k < |e| - 1 ensures !e[k].AllCompleted? && e[k].id == enabled[k / 2].id {
      var j := k / 2;
      var r := Reports(enabled, outcomes, folder, clock);
      assert e[k] == r[k];
      if k == 2 * j {
        assert r[2 * j] == Started(enabled[j].id);
      } else {
        assert k == 2 * j + 1;
        assert r[2 * j + 1] == Finished(enabled[j], outcomes[j], folder, clock(2 * j));
      }
    }
  }

  /** Every enabled device without an instrument behind its id failed to open. */
  predicate MissingFailed(enabled: seq<Device>, outcomes: seq<Result<Screenshot>>, instruments: map<string, Instrument>)
    requires |outcomes| == |enabled|
  {
    forall j :: 0 <= j < |outcomes| && enabled[j].id !in instruments ==> outcomes[j] == Err(ConnectionFailed)
  }

  /** One more device handled by the worker extends the signals by its two and keeps the failures. */
  lemma WorkerStep(enabled: seq<Device>, outcomes: seq<Result<Screenshot>>, d: Device, o: Result<Screenshot>,
                   folder: string, clock: nat -> string, instruments: map<string, Instrument>)
    requires |outcomes| == |enabled|
    requires MissingFailed(enabled, outcomes, instruments)
    requires d.id !in instruments ==> o == Err(ConnectionFailed)
    ensures Reports(enabled + [d], outcomes + [o], folder, clock)
         == Reports(enabled, outcomes, folder, clock) + [Started(d.id), Finished(d, o, folder, clock(2 * |enabled|))]
    ensures MissingFailed(enabled + [d], outcomes + [o], instruments)
  {
    assert (enabled + [d])[..|enabled|] == enabled;
    assert (outcomes + [o])[..|enabled|] == outcomes;
  }

  lemma EnabledPrefixStep(devices: seq<Device>, i: nat)
    requires i < |devices|
    ensures Filter(devices[..i + 1], IsEnabled)
         == Filter(devices[..i], IsEnabled) + (if devices[i].enabled then [devices[i]] else [])
  {
    FilterSnoc(devices[..i], devices[i], IsEnabled);
    assert devices[..i + 1] == devices[..i] + [devices[i]];
  }

  /** What the worker's capture with `scope`, found in the state `before`, returns and leaves behind. */
  function Attempted(scope: Instrument, before: Snapshot, folder: string, autoscale: bool,
                     timebase: Option<Timebase>, stamp: string): Attempt
  {
    CaptureOutcome(scope.resource, scope.reachable, scope.failingWrites, before, folder, Some(autoscale), timebase, stamp)
  }

  /** Distinct enabled devices reach distinct instruments. */
  predicate SeparateInstruments(enabled: seq<Device>, instruments: map<string, Instrument>) {
    forall j, k :: 0 <= j < k < |enabled| && enabled[j].id in instruments && enabled[k].id in instruments
      ==> instruments[enabled[j].id] != instruments[enabled[k].id]
  }

  /** The instruments that the enabled devices reach. */
  function Reached(enabled: seq<Device>, instruments: map<string, Instrument>): set<Instrument>
  {
    if enabled == [] then {}
    else
      var d := enabled[|enabled| - 1];
      Reached(enabled[..|enabled| - 1], instruments) + (if d.id in instruments then {instruments[d.id]} else {})
  }

  lemma {:induction false} ReachedHas(enabled: seq<Device>, instruments: map<string, Instrument>, j: nat)
    requires j < |enabled| && enabled[j].id in instruments
    ensures instruments[enabled[j].id] in Reached(enabled, instruments)
  {
    if j < |enabled| - 1 {
      var front := enabled[..|enabled| - 1];
      assert front[j] == enabled[j];
      ReachedHas(front, instruments, j);
    }
  }

  lemma {:induction false} ReachedExcludes(enabled: seq<Device>, instruments: map<string, Instrument>, scope: Instrument)
    requires forall j :: 0 <= j < |enabled| && enabled[j].id in instruments ==> instruments[enabled[j].id] != scope
    ensures scope !in Reached(enabled, instruments)
  {
    if enabled != [] {
      var front := enabled[..|enabled| - 1];
      assert forall j :: 0 <= j < |front| ==> front[j] == enabled[j];
      ReachedExcludes(front, instruments, scope);
    }
  }

  /** A device appended to separate devices either has no instrument or reaches one not reached before. */
  lemma SeparateSnoc(enabled: seq<Device>, d: Device, instruments: map<string, Instrument>)
    requires SeparateInstruments(enabled + [d], instruments)
    ensures SeparateInstruments(enabled, instruments)
    ensures d.id in instruments ==> instruments[d.id] !in Reached(enabled, instruments)
  {
    var e := enabled + [d];
    forall j, k | 0 <= j < k < |enabled| && enabled[j].id in instruments && enabled[k].id in instruments
      ensures instruments[enabled[j].id] != instruments[enabled[k].id]
    {
      assert e[j] == enabled[j] && e[k] == enabled[k];
    }
    if d.id in instruments {
      forall j | 0 <= j < |enabled| && enabled[j].id in instruments
        ensures instruments[enabled[j].id] != instruments[d.id]
      {
        assert e[j] == enabled[j] && e[|enabled|] == d;
      }
      ReachedExcludes(enabled, instruments, instruments[d.id]);
    }
  }

  /** The instruments reached grow by the appended device's instrument, if it has one. */
  lemma ReachedSnoc(enabled: seq<Device>, d: Device, instruments: map<string, Instrument>)
    ensures Reached(enabled + [d], instruments)
         == Reached(enabled, instruments) + (if d.id in instruments then {instruments[d.id]} else {})
  {
    assert (enabled + [d])[..|enabled|] == enabled;
  }

  /** An instrument's constant description, its state before a capture, and the capture's place in the run. */
  datatype Key = Key(resource: string, reachable: bool, failing: set<nat>, before: Snapshot, index: nat)

  function KeyOf(scope: Instrument, before: Snapshot, j: nat): Key {
    Key(scope.resource, scope.reachable, scope.failingWrites, before, j)
  }

  /** What each capture of a run is meant to give. */
  type Plan = p: imap<Key, Attempt> | forall k :: k in p
    ghost witness imap k: Key | true :: Attempt(Err(Timeout), k.before)

  /** The j-th capture of the worker: capture_screenshot_display, stamped by the clock's (2j+1)-th reading. */
  ghost function Planned(folder: string, autoscale: bool, timebase: Option<Timebase>, clock: nat -> string): Plan {
    imap k: Key | true :: CaptureOutcome(k.resource, k.reachable, k.failing, k.before, folder, Some(autoscale), timebase, clock(2 * k.index + 1))
  }

  /** The plan's entry for a capture is that capture's outcome. */
  lemma PlannedCapture(scope: Instrument, before: Snapshot, j: nat, folder: string, autoscale: bool,
                       timebase: Option<Timebase>, clock: nat -> string)
    ensures Planned(folder, autoscale, timebase, clock)[KeyOf(scope, before, j)]
         == Attempted(scope, before, folder, autoscale, timebase, clock(2 * j + 1))
  {
  }

  /** Every instrument's state, by object. */
  function Snaps(instruments: map<string, Instrument>): (m: map<Instrument, Snapshot>)
    reads instruments.Values
    ensures m.Keys == instruments.Values
  {
    map scope | scope in instruments.Values :: Snap(scope)
  }

  /**
   * When the enabled devices reach distinct instruments, the j-th capture so far ran on its
   * instrument as `start` records it and left the instrument as `now` records it.
   */
  predicate CapturedFromStart(enabled: seq<Device>, outcomes: seq<Result<Screenshot>>, instruments: map<string, Instrument>,
                              start: map<Instrument, Snapshot>, now: map<Instrument, Snapshot>, plan: Plan)
    requires |outcomes| == |enabled|
  {
    SeparateInstruments(enabled, instruments) ==>
      forall j :: 0 <= j < |enabled| && enabled[j].id in instruments
                  && instruments[enabled[j].id] in start && instruments[enabled[j].id] in now ==>
        Attempt(outcomes[j], now[instruments[enabled[j].id]])
          == plan[KeyOf(instruments[enabled[j].id], start[instruments[enabled[j].id]], j)]
  }

  /** Every instrument that no enabled device reaches is in `now` as in `start`. */
  ghost predicate UntouchedSinceStart(enabled: seq<Device>, instruments: map<string, Instrument>,
                                      start: map<Instrument, Snapshot>, now: map<Instrument, Snapshot>)
  {
    forall scope :: scope in start && scope in now && scope !in Reached(enabled, instruments) ==> now[scope] == start[scope]
  }

  /** One more enabled device's capture, which changed only its own instrument, keeps both accounts. */
  lemma CaptureKeepsAccount(enabled: seq<Device>, outcomes: seq<Result<Screenshot>>, device: Device,
                            outcome: Result<Screenshot>, instruments: map<string, Instrument>,
                            start: map<Instrument, Snapshot>, pre: map<Instrument, Snapshot>, post: map<Instrument, Snapshot>,
                            plan: Plan)
    requires |outcomes| == |enabled|
    requires pre.Keys == post.Keys == instruments.Values
    requires CapturedFromStart(enabled, outcomes, instruments, start, pre, plan)
    requires UntouchedSinceStart(enabled, instruments, start, pre)
    requires device.id in instruments ==>
               Attempt(outcome, post[instruments[device.id]]) == plan[KeyOf(instruments[device.id], pre[instruments[device.id]], |enabled|)]
    requires forall scope :: scope in pre && (device.id !in instruments || scope != instruments[device.id])
               ==> post[scope] == pre[scope]
    ensures CapturedFromStart(enabled + [device], outcomes + [outcome], instruments, start, post, plan)
    ensures UntouchedSinceStart(enabled + [device], instruments, start, post)
  {
    var e, o := enabled + [device], outcomes + [outcome];
    ReachedSnoc(enabled, device, instruments);
    if SeparateInstruments(e, instruments) {
      SeparateSnoc(enabled, device, instruments);
      forall j | 0 <= j < |e| && e[j].id in instruments && instruments[e[j].id] in start && instruments[e[j].id] in post
        ensures Attempt(o[j], post[instruments[e[j].id]]) == plan[KeyOf(instruments[e[j].id], start[instruments[e[j].id]], j)]
      {
        var scope := instruments[e[j].id];
        if j < |enabled| {
          assert e[j] == enabled[j] && o[j] == outcomes[j];
          assert device.id !in instruments || scope != instruments[device.id] by {
            ReachedHas(enabled, instruments, j);
          }
          assert post[scope] == pre[scope];
          assert Attempt(outcomes[j], pre[scope]) == plan[KeyOf(scope, start[scope], j)];
        } else {
          assert e[j] == device && o[j] == outcome;
          assert pre[scope] == start[scope] by {
            assert scope !in Reached(enabled, instruments);
          }
        }
      }
    }
  }

  /** The try block for one enabled device: report name first, then the capture. */
  method CaptureDevice(device: Device, instruments: map<string, Instrument>, folder: string, autoscale: bool,
                       timebase: Option<Timebase>, stamp: string, captureStamp: string)
    returns (finished: Event, outcome: Result<Screenshot>)
    modifies instruments.Values
    ensures finished == Finished(device, outcome, folder, stamp)
    ensures device.id !in instruments ==> outcome == Err(ConnectionFailed)
    ensures device.id in instruments ==>
              Attempt(outcome, Snap(instruments[device.id]))
                == Attempted(instruments[device.id], old(Snap(instruments[device.id])), folder, autoscale, timebase, captureStamp)
    ensures forall scope :: scope in instruments.Values && (device.id !in instruments || scope != instruments[device.id])
              ==> unchanged(scope)
  {
    var safeName := SafeName(device.name);
    var filepath := JoinPath(folder, ReportedName(safeName, stamp));
    if device.id in instruments {
      outcome := CaptureScreenshotDisplay(instruments[device.id], folder, Some(autoscale), timebase, captureStamp);
    } else {
      outcome := Err(ConnectionFailed);
    }
    if outcome.Ok? {
      finished := Completed(device.id, filepath);
    } else {
      finished := Failed(device.id, outcome.error);
    }
  }

  /** One pass of the worker's loop for an enabled device, keeping account of the instruments. */
  method CaptureEnabled(device: Device, instruments: map<string, Instrument>, folder: string, autoscale: bool,
                        timebase: Option<Timebase>, clock: nat -> string, ghost enabled: seq<Device>,
                        outcomes: seq<Result<Screenshot>>, ghost start: map<Instrument, Snapshot>)
    returns (finished: Event, outcome: Result<Screenshot>)
    requires |outcomes| == |enabled|
    requires MissingFailed(enabled, outcomes, instruments)
    requires CapturedFromStart(enabled, outcomes, instruments, start, Snaps(instruments), Planned(folder, autoscale, timebase, clock))
    requires UntouchedSinceStart(enabled, instruments, start, Snaps(instruments))
    modifies instruments.Values
    ensures Reports(enabled + [device], outcomes + [outcome], folder, clock)
         == Reports(enabled, outcomes, folder, clock) + [Started(device.id), finished]
    ensures MissingFailed(enabled + [device], outcomes + [outcome], instruments)
    ensures CapturedFromStart(enabled + [device], outcomes + [outcome], instruments, start, Snaps(instruments),
                              Planned(folder, autoscale, timebase, clock))
    ensures UntouchedSinceStart(enabled + [device], instruments, start, Snaps(instruments))
  {
    var j := |outcomes|;
    ghost var pre := Snaps(instruments);
    finished, outcome := CaptureDevice(device, instruments, folder, autoscale, timebase, clock(2 * j), clock(2 * j + 1));
    WorkerStep(enabled, outcomes, device, outcome, folder, clock, instruments);
    ghost var post := Snaps(instruments);
    if device.id in instruments {
      var scope := instruments[device.id];
      assert pre[scope] == old(Snap(scope)) && post[scope] == Snap(scope);
      PlannedCapture(scope, pre[scope], j, folder, autoscale, timebase, clock);
    }
    forall scope | scope in pre && (device.id !in instruments || scope != instruments[device.id])
      ensures post[scope] == pre[scope]
    {
      assert pre[scope] == old(Snap(scope)) && post[scope] == Snap(scope);
    }
    CaptureKeepsAccount(enabled, outcomes, device, outcome, instruments, start, pre, post, Planned(folder, autoscale, timebase, clock));
  }

  /**
   * Read at one device: when the enabled devices reach distinct instruments, the j-th enabled
   * device's outcome, and the state its instrument is left in, are those of
   * capture_screenshot_display on that instrument as `start` records it.
   */
  lemma CapturedDevice(enabled: seq<Device>, outcomes: seq<Result<Screenshot>>, instruments: map<string, Instrument>,
                       start: map<Instrument, Snapshot>, now: map<Instrument, Snapshot>, folder: string, autoscale: bool,
                       timebase: Option<Timebase>, clock: nat -> string, j: nat)
    requires |outcomes| == |enabled| && start.Keys == now.Keys == instruments.Values
    requires CapturedFromStart(enabled, outcomes, instruments, start, now, Planned(folder, autoscale, timebase, clock))
    requires SeparateInstruments(enabled, instruments)
    requires j < |enabled| && enabled[j].id in instruments
    ensures var scope := instruments[enabled[j].id];
      Attempt(outcomes[j], now[scope]) == Attempted(scope, start[scope], folder, autoscale, timebase, clock(2 * j + 1))
  {
    var scope := instruments[enabled[j].id];
    PlannedCapture(scope, start[scope], j, folder, autoscale, timebase, clock);
  }

  /**
   * CaptureThread.run: every enabled device in turn, each capture in its own try block, the
   * instrument named by the device id (an id with no instrument fails to open). The clock is
   * read twice per device: first for the reported name, then by the capture itself.
   */
  method RunCaptures(devices: seq<Device>, instruments: map<string, Instrument>, folder: string,
                     autoscale: bool, timebase: Option<Timebase>, clock: nat -> string)
    returns (events: seq<Event>, outcomes: seq<Result<Screenshot>>)
    modifies instruments.Values
    ensures |outcomes| == |Filter(devices, IsEnabled)|
    ensures events == Events(Filter(devices, IsEnabled), outcomes, folder, clock)
    ensures MissingFailed(Filter(devices, IsEnabled), outcomes, instruments)
    ensures CapturedFromStart(Filter(devices, IsEnabled), outcomes, instruments, old(Snaps(instruments)), Snaps(instruments),
                              Planned(folder, autoscale, timebase, clock))
    ensures UntouchedSinceStart(Filter(devices, IsEnabled), instruments, old(Snaps(instruments)), Snaps(instruments))
  {
    events, outcomes := [], [];
    ghost var enabled: seq<Device> := [];
    ghost var start := Snaps(instruments);
    for i := 0 to |devices|
      invariant enabled == Filter(devices[..i], IsEnabled)
      invariant |outcomes| == |enabled|
      invariant events == Reports(enabled, outcomes, folder, clock)
      invariant MissingFailed(enabled, outcomes, instruments)
      invariant CapturedFromStart(enabled, outcomes, instruments, start, Snaps(instruments), Planned(folder, autoscale, timebase, clock))
      invariant UntouchedSinceStart(enabled, instruments, start, Snaps(instruments))
    {
      var device := devices[i];
      EnabledPrefixStep(devices, i);
      if !device.enabled {
        continue;
      }
      var finished, outcome := CaptureEnabled(device, instruments, folder, autoscale, timebase, clock, enabled, outcomes, start);
      events := events + [Started(device.id), finished];
      enabled := enabled + [device];
      outcomes := outcomes + [outcome];
    }
    assert devices[..|devices|] == devices;
    events := events + [AllCompleted];
  }
}
