# Oscilloscope screenshot capture — a Dafny model

This project models the instrument protocol of a small oscilloscope screenshot tool: the
SCPI commands it sends to Keysight and Siglent oscilloscopes over VISA, the IEEE 488.2
definite-length arbitrary block it reads the screen image from (section 8.7.9 of
IEEE 488.2: `#`, one digit N, N length digits, then the payload), vendor detection from the
USB vendor id in a resource name, and the non-visual logic of the desktop front end that
scans instruments and captures from every enabled one.

Modules:

- `Outcomes` — the errors the code raises (`Error`), `Result` and `Option`.
- `Text` — the Python string operations the code relies on: `in`, `lower()`/`upper()` on
  ASCII letters, `strip()`, `split()`, slicing, `str(int)`, `os.path.join` (POSIX form), filtering a list.
- `Binblock` — the value-level decoder `Decode` of `read_binblock` over a `Wire` (the bytes
  the instrument has queued, plus how many bytes each transport read hands back), Python's
  `int()` on bytes, an encoder, and the round trip between the two.
- `Visa` — `class Instrument`, the VISA session: open, write (a write may fail at chosen
  positions of the write log), `read_bytes`, `read_raw`, close, with counters and logs.
- `Vendors` — `VENDOR_COMMANDS`, `KNOWN_OSCILLOSCOPES`, `get_oscilloscope_vendor` and the
  USB candidate filter of `detect_oscilloscope`.
- `Sequencing` — each operation's commands as a plan of steps, and `Run`, which plays a plan
  against the failing-write oracle the way a Python `try` block stops at the first raise.
- `ScopeControl` — the functions of `oscilloscope_control.py` as methods on an `Instrument`,
  each proved against the plans of `Sequencing` and the decoder of `Binblock`.
- `LegacyScope` — `pyvisa.py`, the earlier script, and how it relates to the later module.
  Its `read_binblock` is the same code as the later one and is modelled once, by
  `ScopeControl.ReadBinblock`.
- `Gui` — from `main_gui.py`: the device rows built by the scan thread, the device list
  panel with its counters, the capture button's status line and the capture thread's loop.

The code has no "as-is" capture mode: with `autoscale` left unset, a capture uses
`AUTOSCALE_DEFAULT_ENABLED` (false), so it disables autoscale (except on Siglent) and writes
the default timebase of 0.001 s/div before fetching. The model follows the code
(`Sequencing.DefaultCapture`).

## Model

| member | source | states |
|---|---|---|
| Vendors.CommandsFor | oscilloscope_control.py:151 | the lookup with Keysight's row as default always yields one of the table's rows |
| Vendors.UnknownUsesKeysightRow | oscilloscope_control.py:151 | a vendor with no row of its own gets Keysight's commands |
| Vendors.DisableMissingOnlyForSiglent | oscilloscope_control.py:16-29 | Siglent, and only Siglent, has no autoscale-disable command |
| Vendors.VendorOfSpec | oscilloscope_control.py:71-81 | Keysight iff 0x0957 occurs ignoring case; Siglent iff 0x0957 does not and 0xf4ec does; unknown iff neither (all three directions) |
| Vendors.VendorOfIgnoresCase | oscilloscope_control.py:76 | detection gives the same vendor for the upper-cased and the lower-cased name |
| Vendors.KeysightWinsOverSiglent | oscilloscope_control.py:77-80 | a name mentioning both ids is Keysight, because that test runs first |
| Vendors.CandidateHasKnownVendor | oscilloscope_control.py:46-52 | every resource the candidate filter keeps is recognised as Keysight or Siglent |
| Binblock.Read | oscilloscope_control.py:139 | a transport read returns at most the bytes asked for, at least one when bytes are queued and some were asked for, in order; nothing queued times out |
| Binblock.ParseOneByte | oscilloscope_control.py:129 | `int()` of the byte after `#` succeeds exactly when it is a digit, and yields its value |
| Binblock.ParseDigits | oscilloscope_control.py:129-131 | `int()` of a non-empty run of digits is its decimal value |
| Binblock.ParsePadded | oscilloscope_control.py:131 | `int()` of a zero-padded decimal length field gives back the length |
| Binblock.DecodeRejectsMissingHash | oscilloscope_control.py:125-127 | a block not starting with `#` is refused with the missing-hash error after one 2-byte read, which consumed only what it returned |
| Binblock.DecodeShortHeader | oscilloscope_control.py:125-129 | a header read cut to one byte leaves nothing to parse as the digit count: a number error |
| Binblock.DecodeRejectsCount | oscilloscope_control.py:129 | a non-digit after `#` is a number error, with no further read |
| Binblock.DecodeReadsHeader | oscilloscope_control.py:125 | the decoder first takes exactly two bytes when two are available and the read is not cut short |
| Binblock.AfterHeaderCases | oscilloscope_control.py:126-131 | after the header: missing hash, or a digit N that leads to reading N length bytes, or a number error |
| Binblock.DecodeDigitCount | oscilloscope_control.py:129-130 | after `#N` the second read asks for exactly N bytes |
| Binblock.DecodeLengthAsks | oscilloscope_control.py:130-131 | the length-field read follows the header read and asks for the digit count |
| Binblock.LoopGathers | oscilloscope_control.py:133-143 | a finished payload loop returns the concatenation of the blocks it read, exactly `data_length` bytes long (0 when not positive); its only failure is a timeout |
| Binblock.LoopRequests | oscilloscope_control.py:137-141 | each payload read happens while bytes are left, asks for min(65536, bytes left) and gets no more than that |
| Binblock.LoopReadsExactly | oscilloscope_control.py:133-143 | with enough bytes queued the loop returns exactly the next `data_length` bytes and leaves the rest queued, however reads are split |
| Binblock.LoopRunsDry | oscilloscope_control.py:137-141 | with fewer bytes queued than announced the loop drains the queue and times out |
| Binblock.DecodeHeader | oscilloscope_control.py:125-134 | a well-formed header hands the payload loop the announced length after exactly two reads |
| Binblock.RoundTrip | oscilloscope_control.py:119-143 | an encoded block followed by anything decodes to its payload and leaves exactly what followed it queued |
| Binblock.LoopConsumes | oscilloscope_control.py:133-143 | the payload loop takes from the queue exactly the bytes its reads returned, in order, and nothing else |
| Binblock.DecodeConsumes | oscilloscope_control.py:119-143 | whatever its outcome, `read_binblock` takes from the instrument exactly the bytes its reads returned, in order: the queue it found is the read log's bytes followed by what it leaves |
| Visa.ReadAvailable | oscilloscope_control.py:263 | `read_raw` returns everything queued, which is non-empty, and empties the queue; nothing queued times out |
| Visa.Instrument.Open | oscilloscope_control.py:89-90 | opening succeeds exactly for a reachable resource and counts the session |
| Visa.Instrument.Write | oscilloscope_control.py:102 | a write logs the command and fails exactly at the positions the oracle names |
| Visa.Instrument.ReadBytes | oscilloscope_control.py:125 | `read_bytes` returns what `Binblock.Read` delivers, consumes it and logs the call |
| Visa.Instrument.ReadRaw | oscilloscope_control.py:263 | `read_raw` returns what `ReadAvailable` delivers and consumes it |
| Visa.Instrument.Close | oscilloscope_control.py:116 | closing ends the session and counts it |
| Sequencing.RunClean | oscilloscope_control.py:236-267 | with no failing write a plan writes all its commands in order and raises only its refusal |
| Sequencing.RunWritesPrefix | oscilloscope_control.py:236-267 | whatever fails, what is written is a prefix of the plan's commands; a run that raises nothing wrote all of them |
| Sequencing.RunAppend | oscilloscope_control.py:241-267 | running two plans in sequence is running their concatenation, stopping at the first raise |
| Sequencing.HeaderOnlyForKeysight | oscilloscope_control.py:99-102 | header suppression is written for Keysight and for no other vendor |
| Sequencing.AutoscaleWrites | oscilloscope_control.py:146-166 | enabling writes the vendor's enable command; disabling writes the disable command, or nothing for Siglent; unknown vendors use Keysight's |
| Sequencing.TimebaseWrites | oscilloscope_control.py:187-203 | a non-positive timebase is refused before any write; otherwise exactly `<scale command> <value>` is written |
| Sequencing.SiglentSkipIsRedundant | oscilloscope_control.py:246-249 | skipping the disable call for Siglent changes no command, since Siglent has no disable command |
| Sequencing.UnknownCapturesLikeKeysight | oscilloscope_control.py:239-267 | an unknown vendor gets exactly Keysight's capture commands |
| Sequencing.CaptureCommandsAutoscaleOn | oscilloscope_control.py:241-266 | autoscale on: enable, the timebase only when one is given, then the fetch; a refused timebase stops before the fetch |
| Sequencing.CaptureCommandsAutoscaleOff | oscilloscope_control.py:245-266 | autoscale off: disable (never for Siglent), the given or default timebase, then the fetch; a refused timebase stops before the fetch |
| Sequencing.DefaultCapture | oscilloscope_control.py:237-253 | with no explicit choice a capture disables autoscale and writes the 0.001 timebase before the fetch |
| Sequencing.ScreenshotNameDistinct | oscilloscope_control.py:269-272 | two captures get the same file name exactly when their time stamps are equal and their extensions agree |
| Sequencing.ExtensionMatchesFetch | oscilloscope_control.py:258-271 | the file is a bmp exactly when the screen-dump command was used, a png exactly when the display fetch was |
| ScopeControl.CaptureWritesPlan | oscilloscope_control.py:236-267 | a capture writes a prefix of its plan, and the whole plan when it succeeds |
| ScopeControl.CaptureReadsOnlyAfterFetch | oscilloscope_control.py:236-267 | a capture that raised before the fetch read nothing from the instrument |
| ScopeControl.CaptureDeliversPayload | oscilloscope_control.py:221-279 | with no failing write, a Keysight or unknown instrument's encoded block comes back as the image under the png name, and what followed it stays queued |
| ScopeControl.CaptureSiglentTakesAll | oscilloscope_control.py:258-263 | a Siglent capture returns everything queued, as a bmp, without `read_bytes` calls |
| ScopeControl.OpenScope | oscilloscope_control.py:84-104 | an unreachable resource fails and changes nothing; otherwise the session is open and exactly the vendor's open plan was written |
| ScopeControl.ReadBinblock | oscilloscope_control.py:119-143 | the imperative reader returns, consumes and logs exactly what `Binblock.Decode` describes |
| ScopeControl.ReadDigitCount | oscilloscope_control.py:125-129 | the header step agrees with `Decode` up to the length-field read, or with its failure |
| ScopeControl.ReadLengthField | oscilloscope_control.py:130-131 | the length step agrees with `Decode` up to the payload loop, or with its failure |
| ScopeControl.ReadPayload | oscilloscope_control.py:133-143 | the while loop returns, consumes and logs exactly what the payload loop `Loop` describes |
| ScopeControl.ApplyAutoscale | oscilloscope_control.py:146-170 | the write log and result are those of the autoscale plan |
| ScopeControl.ApplyTimebase | oscilloscope_control.py:187-203 | the write log and result are those of the timebase plan |
| ScopeControl.AutoscaleOscilloscope | oscilloscope_control.py:107-116 | open, then Keysight's enable command, then close; a failed open or header write returns before the try block and closes nothing; one session is opened exactly when the resource is reachable |
| ScopeControl.SetAutoscaleState | oscilloscope_control.py:173-184 | open, then the detected vendor's autoscale plan, then close, with the same three outcomes and the same count of opened sessions |
| ScopeControl.SetTimebaseScale | oscilloscope_control.py:206-218 | open, then the detected vendor's timebase plan, then close, with the same three outcomes and the same count of opened sessions |
| ScopeControl.ApplySettings | oscilloscope_control.py:237-253 | the write log and result are those of the settings plan |
| ScopeControl.CaptureOnSession | oscilloscope_control.py:236-279 | result, write log, unread input and read log are those of `ScopeControl.Capture` |
| ScopeControl.CaptureOutcome | oscilloscope_control.py:221-284 | a whole call from the instrument's state before it: one session opened exactly when reachable; an unreachable resource fails and changes nothing; the session stays open exactly when the open plan's write failed, and is closed (once) otherwise; a success always ends closed |
| ScopeControl.CaptureScreenshotDisplay | oscilloscope_control.py:221-284 | the result and the instrument's whole new state (session, counters, write log, unread input, read log) are those `CaptureOutcome` gives for its state before the call |
| ScopeControl.UsbCandidates | oscilloscope_control.py:44-52 | the candidates are exactly the listed resources that pass the filter, in listing order |
| ScopeControl.AppendIfKnownId | oscilloscope_control.py:49-52 | the inner loop appends the resource once exactly when it mentions a known id |
| ScopeControl.CandidatesSpec | oscilloscope_control.py:46-52 | membership in the candidates is membership plus the filter, the filter distributes over concatenation, and every candidate has a known vendor |
| LegacyScope.OpenTreatsAllAsKeysight | pyvisa.py:23-24 | the script sends the header command to every instrument, which the later module sends only to Keysight |
| LegacyScope.AutoscaleMatchesEnable | pyvisa.py:33-35 | the bare autoscale writes what the later module's enable writes for a non-Siglent vendor and fails in the same cases |
| LegacyScope.CaptureWritesOnlyFetch | pyvisa.py:77-79 | a capture writes only the fetch command; when it fails nothing is read |
| LegacyScope.CaptureAgreesWithKeysight | pyvisa.py:67-98 | after its fetch, the script reads and names what the later module does for a Keysight whose settings went through |
| LegacyScope.CaptureDeliversPayload | pyvisa.py:75-95 | an encoded block comes back as the image under the png name |
| LegacyScope.OpenScope | pyvisa.py:8-26 | an unreachable resource fails; otherwise the session is open and the header command was written |
| LegacyScope.AutoscaleOscilloscope | pyvisa.py:28-39 | open, the autoscale command, close, with the three outcomes of the later module; one session is opened exactly when the resource is reachable |
| LegacyScope.CaptureOnSession | pyvisa.py:77-95 | result and session state are those of `LegacyScope.Capture` |
| LegacyScope.CaptureScreenshotDisplay | pyvisa.py:67-98 | a failed open changes nothing, a failed header write leaves the session open, otherwise the capture runs and the session is closed; one session is opened exactly when the resource is reachable |
| Text.JoinPath | oscilloscope_control.py:277 | for a relative file name the path starts with the folder and ends with the name, adds at most one character between them, which is a '/', and in a non-empty folder puts the name right after a '/' |
| Text.BasenameJoinPath | main_gui.py:721 | the joined path's last component is the file name |
| Text.StripWith | main_gui.py:59 | the result is a slice of the input, everything before it and after it is skipped, and it neither starts nor ends with a skipped element |
| Text.Strip | main_gui.py:59 | the stripped reply is exactly the reply minus its leading and trailing whitespace, and neither starts nor ends with whitespace |
| Text.JoinSplit | main_gui.py:63 | joining the split pieces gives back the string |
| Gui.Transport | main_gui.py:51-69 | USB if the name contains USB, else GPIB, else TCP/IP, else Serial, else Unknown, each as an if-and-only-if |
| Gui.IdnLabelWithoutComma | main_gui.py:59-61 | without a comma the name is the stripped reply cut to 30 characters |
| Gui.IdnLabelWithComma | main_gui.py:59-61 | with a comma the name is the comma-free run after the first comma, ending at the next comma or the end |
| Gui.FallbackLabelSpec | main_gui.py:62-63 | the fallback is the whole fourth `::` field when there are more than three, else the resource |
| Gui.Describe | main_gui.py:50-77 | a row has the resource as id, is connected and disabled, has the transport as type, and is named by the reply, the fallback, or the resource |
| Gui.ScanDevices | main_gui.py:44-78 | one row per resource, in order, each as `Describe` builds it, none enabled |
| Gui.CountAfterToggle | main_gui.py:174-177 | toggling one row changes the enabled count by exactly that row's change |
| Gui.DevicePanel.SetDevices | main_gui.py:254-260 | the new list replaces the old one |
| Gui.DevicePanel.SetEnabled | main_gui.py:174-177 | only that row's flag changes, and the enabled count moves with it |
| Gui.DevicePanel.EnabledDevices | main_gui.py:280-281 | the enabled list holds exactly the enabled rows |
| Gui.DevicePanel.EnabledCount | main_gui.py:275-277 | the count is the length of the enabled list and never exceeds the total |
| Gui.EnabledInOrder | main_gui.py:280-281 | the enabled rows of a concatenated list are those of each part, in order |
| Gui.CountTextReadsBack | main_gui.py:275-278 | the count label shows both counters as decimals that read back as themselves |
| Gui.DeviceWord | main_gui.py:451 | "device" exactly for one, "devices" otherwise |
| Gui.CaptureStatusNamesCount | main_gui.py:438-452 | the sentence starts with the count, which reads back, then "device", with an "s" exactly when the count is not one |
| Gui.StatusFirst | main_gui.py:438-452 | the status line is non-empty and starts with "P" exactly while capturing and with "E" exactly when idle with nothing enabled |
| Gui.CaptureStatusReadsBack | main_gui.py:438-452 | equal status lines come from the same capturing flag and, when not capturing, from the same enabled count |
| Gui.SafeName | main_gui.py:106 | at most 20 characters, each the name's own with space to underscore and slash to hyphen, so no space or slash remains |
| Gui.ReportedNameAgrees | main_gui.py:105-107 | the reported file name equals the one written exactly when the safe name is "screenshot" and the instrument is not a Siglent |
| Gui.Finished | main_gui.py:117-119 | the report after a capture names the device and is a completion exactly for success, a failure exactly for an error |
| Gui.EventsShape | main_gui.py:98-120 | per enabled device in order, a start then exactly one completion or failure; then one final all-completed signal |
| Gui.CaptureDevice | main_gui.py:102-119 | the report matches the outcome; a device with no instrument fails to open; otherwise outcome and new state of its instrument are those `CaptureOutcome` gives for that instrument's state before the call, and every other instrument is unchanged |
| Gui.CaptureEnabled | main_gui.py:99-119 | one pass for an enabled device extends the signals by its two and keeps both per-device accounts of the loop |
| Gui.CaptureKeepsAccount | main_gui.py:99-119 | a device's capture that touched only its own instrument keeps every earlier device's outcome and leaves unreached instruments untouched |
| Gui.SeparateSnoc | main_gui.py:99-101 | when distinct enabled devices use distinct instruments, a new device's instrument was reached by none of the earlier ones |
| Gui.ReachedHas | main_gui.py:99-101 | the instrument of every enabled device with one has been reached |
| Gui.ReachedExcludes | main_gui.py:99-101 | an instrument none of the enabled devices maps to has not been reached |
| Gui.PlannedCapture | main_gui.py:104-116 | the planned outcome of the j-th enabled device is the capture of its instrument from its state at that moment with the (2j+1)-th time stamp |
| Gui.RunCaptures | main_gui.py:98-120 | one outcome per enabled device, the signals are `Events` of them, devices with no instrument failed; when distinct enabled devices use distinct instruments, each outcome and the instrument's final state are those of its own capture from the state the run found, so one device's failure cannot change another's outcome; instruments no enabled device uses are untouched |
| Gui.CapturedDevice | main_gui.py:98-120 | reads one device's outcome and final instrument state off the run: those `CaptureOutcome` gives for that instrument's state at the start |

## Left out

- The Qt user interface, its widgets, styles and signals; the scan and capture threads are modelled as sequential code, and a signal as an `Event` in a list.
- The probing half of `detect_oscilloscope` (opening each candidate and querying `*IDN?`) and `main`: they only combine modelled operations with I/O.
- The `*IDN?` query of the scan: its replies are a map from resource name to reply, and a resource missing from it is one whose open or query raised.
- Session settings that do not change the protocol as modelled: `timeout`, `chunk_size`, read and write termination. `read_raw` returns everything queued at once.
- Floats: a timebase carries its value and the text Python renders it as; rendering and `get_timebase`'s parsing of the text box are not modelled.
- Waiting (`time.sleep`, `AUTOSCALE_WAIT_SECONDS`, `wait_time`, `autoscale_wait`) has no effect on the protocol and is left out.
- The clock: time stamps are parameters (`stamp`, and a `clock` function for the capture thread).
- The file system: `os.makedirs` and writing the image file; a capture returns the image and the path instead.
- `os.path.join` is modelled in its POSIX form; Windows path rules are not.
- Exception messages: errors are constructors of `Error`, not the formatted texts.
- Console output (`print`, in `detect_oscilloscope`, the autoscale and timebase helpers and after a capture) is not modelled; nothing the code decides depends on it.
- `set_scanning`, the empty-list label and other visual state of the panels.
- Gui.DevicePanel.SetEnabled: the widget and the panel share one `Device` object in the source; the model updates the row by index instead of through the shared object.
- Binblock.Read: pyvisa's `read_bytes` keeps reading until it has the count asked for; the model lets a read return any non-empty prefix of at most that count, so the decoder is proved for transports that split reads, and a timeout is the only failure a read has.
- Text.Lower: case-folds ASCII letters only (so does Text.Upper); Python's `lower()` also folds other letters. The only non-ASCII characters whose lower case contains an ASCII letter are U+0130, which gives `i` plus a combining dot (U+0307), and U+212A, which gives `k`; neither `0x0957` nor `0xf4ec` contains `i`, `k` or a non-ASCII character, so vendor detection and the candidate filter find the same matches.
- Gui.RunCaptures: per-device outcomes are stated when distinct enabled devices reach distinct instruments; with a shared instrument the later capture starts from the earlier one's end state, which the model leaves unstated.
- Binblock.RoundTrip: holds when the two header reads are not cut short by the transport; payload reads may be split arbitrarily.
