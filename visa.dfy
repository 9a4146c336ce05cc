/**
 * The VISA session the instrument code talks through, reduced to what the code uses:
 * open, write, read_bytes, read_raw and close. Everything the transport decides by itself
 * (whether the instrument can be reached, which writes fail, what the instrument sends
 * back and how reads are split) is fixed when the instrument is created.
 */
module Visa {
  import opened Outcomes
  import opened Binblock

  /** read_raw(): whatever the instrument has queued, in one piece; nothing queued times out. */
  function ReadAvailable(w: Wire): (r: Result<(seq<byte>, Wire)>)
    ensures r.Ok? ==> r.value.0 == w.pending && r.value.0 != [] && r.value.1.pending == []
    ensures r.Err? <==> w.pending == []
  {
    if w.pending == [] then Err(Timeout) else Ok((w.pending, Wire([], w.grants)))
  }

  class Instrument {
    /** The VISA resource name, e.g. USB0::0x0957::0x17A4::MY58250706::INSTR. */
    const resource: string
    /** Whether open_resource succeeds for this name. */
    const reachable: bool
    /** Positions in `written` at which a write raises VisaIOError. */
    const failingWrites: set<nat>

    var isOpen: bool
    var opens: nat
    var closes: nat
    /** Every command handed to write, in order, over all sessions. */
    var written: seq<string>
    /** What the instrument has queued for reading, and how reads are split. */
    var wire: Wire
    /** Every read_bytes call, in order. */
    var calls: seq<Call>

    constructor (resource: string, reachable: bool, failingWrites: set<nat>, wire: Wire)
      ensures this.resource == resource && this.reachable == reachable
      ensures this.failingWrites == failingWrites && this.wire == wire
      ensures !isOpen && opens == 0 && closes == 0 && written == [] && calls == []
    {
      this.resource := resource;
      this.reachable := reachable;
      this.failingWrites := failingWrites;
      this.wire := wire;
      isOpen := false;
      opens, closes := 0, 0;
      written, calls := [], [];
    }

    /** ResourceManager().open_resource(resource). */
    method Open() returns (r: Result<()>)
      modifies this`isOpen, this`opens
      ensures r == if reachable then Ok(()) else Err(ConnectionFailed)
      ensures isOpen == (old(isOpen) || reachable)
      ensures opens == old(opens) + if reachable then 1 else 0
    {
      if reachable {
        isOpen := true;
        opens := opens + 1;
        r := Ok(());
      } else {
        r := Err(ConnectionFailed);
      }
    }

    /** write(command): the command goes out (and is logged) even when the write then raises. */
    method Write(command: string) returns (r: Result<()>)
      requires isOpen
      modifies this`written
      ensures written == old(written) + [command]
      ensures r == if |old(written)| in failingWrites then Err(WriteFailed(command)) else Ok(())
    {
      r := if |written| in failingWrites then Err(WriteFailed(command)) else Ok(());
      written := written + [command];
    }

    /** read_bytes(count). */
    method ReadBytes(count: nat) returns (r: Result<seq<byte>>)
      requires isOpen
      modifies this`wire, this`calls
      ensures Read(old(wire), count).Err? ==>
                r == Err(Timeout) && wire == old(wire) && calls == old(calls) + [Call(count, [])]
      ensures Read(old(wire), count).Ok? ==>
                var (got, rest) := Read(old(wire), count).value;
                r == Ok(got) && wire == rest && calls == old(calls) + [Call(count, got)]
    {
      match Read(wire, count)
      case Err(e) =>
        calls := calls + [Call(count, [])];
        r := Err(e);
      case Ok((got, rest)) =>
        calls := calls + [Call(count, got)];
        wire := rest;
        r := Ok(got);
    }

    /** read_raw(). */
    method ReadRaw() returns (r: Result<seq<byte>>)
      requires isOpen
      modifies this`wire
      ensures ReadAvailable(old(wire)).Err? ==> r == Err(Timeout) && wire == old(wire)
      ensures ReadAvailable(old(wire)).Ok? ==>
                r == Ok(ReadAvailable(old(wire)).value.0) && wire == ReadAvailable(old(wire)).value.1
    {
      match ReadAvailable(wire)
      case Err(e) =>
        r := Err(e);
      case Ok((got, rest)) =>
        wire := rest;
        r := Ok(got);
    }

    /** close(). */
    method Close()
      modifies this`isOpen, this`closes
      ensures !isOpen && closes == old(closes) + 1
    {
      isOpen := false;
      closes := closes + 1;
    }
  }
}
