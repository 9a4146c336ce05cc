/**
 * The IEEE 488.2 definite-length arbitrary block (section 8.7.9 of IEEE 488.2):
 * '#', one digit N, N decimal digits giving a length L, then L payload bytes.
 *
 * This module is the value-level specification of `read_binblock`: what the decoder
 * reads, in which order, with which requests, and what it returns, given what the
 * instrument has queued (`Wire.pending`) and how many bytes each transport read hands
 * back (`Wire.grants`). The imperative decoder over a session is `ScopeControl.ReadBinblock`.
 */
module Binblock {
  import opened Outcomes
  import opened Text

  type byte = b: int | 0 <= b < 256

  const Hash: byte := 35         // '#'
  const Zero: byte := 48         // '0'
  const Plus: byte := 43         // '+'
  const Minus: byte := 45        // '-'
  const Underscore: byte := 95   // '_'

  /** The largest request the decoder makes for payload bytes. */
  const ChunkSize: nat := 65536

  predicate IsDigit(b: byte) { Zero <= b <= Zero + 9 }

  /** The bytes CPython's int() skips around a number: space, \t, \n, \v, \f, \r. */
  predicate IsAsciiSpace(b: byte) { 9 <= b <= 13 || b == 32 }

  /**
   * The receive side of a session: the bytes the instrument still has queued, and the
   * transport's behaviour on successive reads (the i-th read_bytes(k) with k > 0 delivers
   * max(1, grants[i]) bytes at most; once the grants run out, reads deliver in full).
   */
  datatype Wire = Wire(pending: seq<byte>, grants: seq<nat>)

  /** One read_bytes call: the count requested and the bytes it returned. */
  datatype Call = Call(asked: nat, got: seq<byte>)

  /** What one decode leaves behind: its result, the receive side, and the reads it made. */
  datatype Decoded = Decoded(value: Result<seq<byte>>, wire: Wire, calls: seq<Call>)

  /** The number of bytes read_bytes(k) hands back on this wire. */
  function Delivered(w: Wire, k: nat): (n: nat)
    ensures n <= k && n <= |w.pending|
    ensures 0 < k && w.pending != [] ==> 1 <= n
  {
    var grant := if w.grants == [] then k else w.grants[0];
    Min(Min(if grant < 1 then 1 else grant, k), |w.pending|)
  }

  /**
   * read_bytes(k): zero bytes asked returns at once; a read with nothing queued times out;
   * otherwise a non-empty prefix of the queue, at most k bytes long, is taken off it.
   */
  function Read(w: Wire, k: nat): (r: Result<(seq<byte>, Wire)>)
    ensures r.Err? <==> 0 < k && w.pending == []
    ensures r.Err? ==> r.error == Timeout
    ensures r.Ok? ==> |r.value.0| <= k && w.pending == r.value.0 + r.value.1.pending
    ensures r.Ok? && 0 < k ==> 1 <= |r.value.0|
  {
    if k == 0 then Ok(([], w))
    else if w.pending == [] then Err(Timeout)
    else
      var n := Delivered(w, k);
      assert w.pending == w.pending[..n] + w.pending[n..];
      Ok((w.pending[..n], Wire(w.pending[n..], Next(w.grants))))
  }

  /** The transport's behaviour after one more read. */
  function Next(grants: seq<nat>): seq<nat> {
    if grants == [] then [] else grants[1..]
  }

  /** A read the transport does not cut short returns exactly the bytes asked for. */
  lemma ReadFull(w: Wire, k: nat)
    requires 0 < k <= |w.pending|
    requires w.grants == [] || w.grants[0] >= k
    ensures Read(w, k) == Ok((w.pending[..k], Wire(w.pending[k..], Next(w.grants))))
  {
  }

  /** The digits of Python's int() grammar: digits, with single underscores only between digits. */
  predicate WellFormedDigits(t: seq<byte>) {
    && |t| > 0 && IsDigit(t[0]) && IsDigit(t[|t| - 1])
    && (forall k :: 0 <= k < |t| ==> IsDigit(t[k]) || t[k] == Underscore)
    && (forall k :: 0 <= k < |t| - 1 ==> !(t[k] == Underscore && t[k + 1] == Underscore))
  }

  function DropUnderscores(t: seq<byte>): (r: seq<byte>)
    ensures (forall k :: 0 <= k < |t| ==> IsDigit(t[k]) || t[k] == Underscore)
              ==> forall k :: 0 <= k < |r| ==> IsDigit(r[k])
    ensures (forall k :: 0 <= k < |t| ==> IsDigit(t[k])) ==> r == t
  {
    if t == [] then []
    else (if t[0] == Underscore then [] else [t[0]]) + DropUnderscores(t[1..])
  }

  /** The value of a run of decimal digit bytes, most significant first. */
  function DigitsValue(t: seq<byte>): nat
    requires forall k :: 0 <= k < |t| ==> IsDigit(t[k])
  {
    if t == [] then 0
    else
      assert IsDigit(t[|t| - 1]);
      10 * DigitsValue(t[..|t| - 1]) + (t[|t| - 1] as int - Zero as int)
  }

  function ParseUnsigned(t: seq<byte>): Option<nat> {
    if WellFormedDigits(t) then Some(DigitsValue(DropUnderscores(t))) else None
  }

  /**
   * Python's int(b) for a bytes object: surrounding whitespace, an optional sign, then
   * base-10 digits; anything else raises ValueError (None here).
   */
  function ParseInt(s: seq<byte>): Option<int> {
    var t := StripWith(s, IsAsciiSpace);
    if |t| > 0 && (t[0] == Plus || t[0] == Minus) then
      match ParseUnsigned(t[1..])
      case None => None
      case Some(v) =>
        var n: int := if t[0] == Minus then 0 - v as int else v;
        Some(n)
    else
      match ParseUnsigned(t)
      case None => None
      case Some(v) => Some(v)
  }

  /** int() reads a non-empty run of digits as its decimal value. */
  lemma ParseDigits(t: seq<byte>)
    requires |t| > 0 && forall k :: 0 <= k < |t| ==> IsDigit(t[k])
    ensures ParseInt(t) == Some(DigitsValue(t))
  {
    assert IsDigit(t[0]) && IsDigit(t[|t| - 1]);
    assert StripWith(t, IsAsciiSpace) == t;
    assert WellFormedDigits(t);
  }

  /** int() of at most one byte succeeds exactly on a digit, and yields its value. */
  lemma ParseOneByte(s: seq<byte>)
    requires |s| <= 1
    ensures ParseInt(s).Some? <==> |s| == 1 && IsDigit(s[0])
    ensures ParseInt(s).Some? ==> ParseInt(s).value == s[0] - Zero
  {
    if |s| == 1 && IsDigit(s[0]) {
      assert StripWith(s, IsAsciiSpace) == s;
      assert DropUnderscores(s) == s;
      assert DigitsValue(s) == DigitsValue([]) * 10 + (s[0] - Zero);
    }
  }

  /** Concatenation of the bytes a sequence of reads returned, in order. */
  function Gathered(calls: seq<Call>): seq<byte> {
    if calls == [] then [] else calls[0].got + Gathered(calls[1..])
  }

  lemma GatheredOne(c: Call)
    ensures Gathered([c]) == c.got
  {
    assert [c][1..] == [];
  }

  lemma {:induction false} GatheredAppend(a: seq<Call>, b: seq<Call>)
    ensures Gathered(a + b) == Gathered(a) + Gathered(b)
  {
    if a == [] {
      assert a + b == b;
    } else {
      assert (a + b)[1..] == a[1..] + b;
      GatheredAppend(a[1..], b);
    }
  }

  /** `rest` preceded by `calls` that have already produced `data`. */
  function Prefixed(data: seq<byte>, calls: seq<Call>, rest: Decoded): Decoded {
    Decoded(if rest.value.Ok? then Ok(data + rest.value.value) else rest.value, rest.wire, calls + rest.calls)
  }

  /** The payload loop: ask for min(ChunkSize, bytes_left) until nothing is left. */
  function Loop(w: Wire, left: int): Decoded
    decreases |w.pending|
  {
    if left <= 0 then Decoded(Ok([]), w, [])
    else
      var k := Min(ChunkSize, left);
      match Read(w, k)
      case Err(e) => Decoded(Err(e), w, [Call(k, [])])
      case Ok((block, w1)) => Prefixed(block, [Call(k, block)], Loop(w1, left - |block|))
  }

  /** read_binblock: the two-byte header, then the rest of the block. */
  function Decode(w: Wire): Decoded {
    match Read(w, 2)
    case Err(e) => Decoded(Err(e), w, [Call(2, [])])
    case Ok(r) => DecodeAfterHeader(r.0, r.1)
  }

  /** The header must start with '#'; the byte after it is the number of length digits. */
  function DecodeAfterHeader(header: seq<byte>, w: Wire): Decoded
    requires 1 <= |header| <= 2
  {
    var first := [Call(2, header)];
    if header[0] != Hash then Decoded(Err(MissingHash), w, first)
    else
      var countField := header[1..];
      match ParseInt(countField)
      case None => Decoded(Err(BadNumber), w, first)
      case Some(digits) =>
        ParseOneByte(countField);
        DecodeLength(first, digits, w)
  }

  /** Read and parse the length field, then run the payload loop for that many bytes. */
  function DecodeLength(first: seq<Call>, digits: nat, w: Wire): Decoded {
    match Read(w, digits)
    case Err(e) => Decoded(Err(e), w, first + [Call(digits, [])])
    case Ok(r) =>
      var head := first + [Call(digits, r.0)];
      match ParseInt(r.0)
      case None => Decoded(Err(BadNumber), r.1, head)
      case Some(length) => Prefixed([], head, Loop(r.1, length))
  }

  // ---------------------------------------------------------------------------------
  // The payload loop

  /** Given enough queued bytes, the loop returns exactly the next `left` of them and no more. */
  lemma {:induction false} LoopReadsExactly(w: Wire, left: int)
    requires 0 <= left <= |w.pending|
    ensures Loop(w, left).value == Ok(w.pending[..left])
    ensures Loop(w, left).wire.pending == w.pending[left..]
    decreases |w.pending|
  {
    if left > 0 {
      var k := Min(ChunkSize, left);
      var (block, w1) := Read(w, k).value;
      LoopReadsExactly(w1, left - |block|);
      assert w.pending[..left] == block + w1.pending[..left - |block|];
      assert w.pending[left..] == w1.pending[left - |block|..];
    }
  }

  /** Given too few queued bytes, the loop drains the queue and then times out. */
  lemma {:induction false} LoopRunsDry(w: Wire, left: int)
    requires |w.pending| < left
    ensures Loop(w, left).value == Err(Timeout)
    ensures Loop(w, left).wire.pending == []
    decreases |w.pending|
  {
    var k := Min(ChunkSize, left);
    if w.pending != [] {
      var (block, w1) := Read(w, k).value;
      LoopRunsDry(w1, left - |block|);
    }
  }

  /** The loop after one successful read: that read's call, then the rest of the loop. */
  lemma LoopStep(w: Wire, left: int)
    requires 0 < left && Read(w, Min(ChunkSize, left)).Ok?
    ensures var (block, w1) := Read(w, Min(ChunkSize, left)).value;
            Loop(w, left) == Prefixed(block, [Call(Min(ChunkSize, left), block)], Loop(w1, left - |block|))
  {
  }

  lemma GatheredCons(c: Call, cs: seq<Call>, i: nat)
    requires 0 < i <= |cs| + 1
    ensures Gathered(([c] + cs)[..i]) == c.got + Gathered(cs[..i - 1])
  {
    assert ([c] + cs)[..i] == [c] + cs[..i - 1];
  }

  /**
   * A successful loop returns the in-order concatenation of the blocks it read, and its
   * length is exactly the declared one; a failed loop failed on a timeout.
   */
  lemma {:induction false} LoopGathers(w: Wire, left: int)
    ensures var d := Loop(w, left);
            d.value.Ok? ==> d.value.value == Gathered(d.calls) && |d.value.value| == (if left < 0 then 0 else left)
    ensures Loop(w, left).value.Err? ==> Loop(w, left).value.error == Timeout
    decreases |w.pending|
  {
    if left > 0 && Read(w, Min(ChunkSize, left)).Ok? {
      var (block, w1) := Read(w, Min(ChunkSize, left)).value;
      LoopStep(w, left);
      LoopGathers(w1, left - |block|);
      var r := Loop(w1, left - |block|);
      assert Gathered([Call(Min(ChunkSize, left), block)] + r.calls) == block + Gathered(r.calls);
    }
  }

  lemma Regroup(before: seq<byte>, got: seq<byte>, later: seq<byte>, left: seq<byte>)
    ensures before + (got + (later + left)) == (before + got + later) + left
  {
  }

  lemma ConsumeStep(c: Call, calls: seq<Call>, pending: seq<byte>, after: seq<byte>, left: seq<byte>)
    requires pending == c.got + after && after == Gathered(calls) + left
    ensures pending == Gathered([c] + calls) + left
  {
    GatheredAppend([c], calls);
    GatheredOne(c);
  }

  /**
   * The loop takes from the queue exactly what its reads returned, in order: the queue it
   * started with is the read log's bytes followed by what it leaves queued.
   */
  lemma {:induction false} LoopConsumes(w: Wire, left: int)
    ensures w.pending == Gathered(Loop(w, left).calls) + Loop(w, left).wire.pending
    decreases |w.pending|
  {
    if left > 0 {
      var k := Min(ChunkSize, left);
      if Read(w, k).Ok? {
        var r := Read(w, k).value;
        var rest := Loop(r.1, left - |r.0|);
        LoopStep(w, left);
        LoopConsumes(r.1, left - |r.0|);
        ConsumeStep(Call(k, r.0), rest.calls, w.pending, r.1.pending, rest.wire.pending);
      } else {
        GatheredOne(Call(k, []));
      }
    } else {
      assert Loop(w, left).calls == [];
    }
  }

  /** The pacing of the payload reads, one read at a time. */
  predicate Paced(calls: seq<Call>, left: int) {
    calls == [] ||
    (&& 0 < left
     && calls[0].asked == Min(ChunkSize, left)
     && |calls[0].got| <= calls[0].asked
     && Paced(calls[1..], left - |calls[0].got|))
  }

  lemma {:induction false} LoopPaced(w: Wire, left: int)
    ensures Paced(Loop(w, left).calls, left)
    decreases |w.pending|
  {
    if left > 0 && Read(w, Min(ChunkSize, left)).Ok? {
      var (block, w1) := Read(w, Min(ChunkSize, left)).value;
      LoopStep(w, left);
      LoopPaced(w1, left - |block|);
      var calls := Loop(w, left).calls;
      assert calls[1..] == Loop(w1, left - |block|).calls;
    }
  }

  lemma {:induction false} PacedAt(calls: seq<Call>, left: int, i: nat)
    requires Paced(calls, left) && i < |calls|
    ensures 0 < left - |Gathered(calls[..i])|
    ensures calls[i].asked == Min(ChunkSize, left - |Gathered(calls[..i])|)
    ensures |calls[i].got| <= calls[i].asked
  {
    if i == 0 {
      assert calls[..0] == [];
    } else {
      PacedAt(calls[1..], left - |calls[0].got|, i - 1);
      assert calls == [calls[0]] + calls[1..];
      GatheredCons(calls[0], calls[1..], i);
    }
  }

  /**
   * The loop's invariant, read off its trace: before the i-th read, bytes_left is the
   * declared length minus what the earlier reads returned and is positive; the read asks
   * for min(ChunkSize, bytes_left) and gets no more than that.
   */
  lemma LoopRequests(w: Wire, left: int)
    ensures var d := Loop(w, left);
            forall i :: 0 <= i < |d.calls| ==>
              && 0 < left - |Gathered(d.calls[..i])|
              && d.calls[i].asked == Min(ChunkSize, left - |Gathered(d.calls[..i])|)
              && |d.calls[i].got| <= d.calls[i].asked
  {
    var calls := Loop(w, left).calls;
    LoopPaced(w, left);
    forall i | 0 <= i < |calls|
      ensures 0 < left - |Gathered(calls[..i])|
      ensures calls[i].asked == Min(ChunkSize, left - |Gathered(calls[..i])|)
      ensures |calls[i].got| <= calls[i].asked
    {
      PacedAt(calls, left, i);
    }
  }

  // ---------------------------------------------------------------------------------
  // The header

  /** A block that does not start with '#' is refused after the single two-byte header read. */
  lemma DecodeRejectsMissingHash(w: Wire)
    requires w.pending != [] && w.pending[0] != Hash
    ensures var d := Decode(w);
            && d.value == Err(MissingHash)
            && |d.calls| == 1 && d.calls[0].asked == 2 && 1 <= |d.calls[0].got| <= 2
            && w.pending == d.calls[0].got + d.wire.pending
  {
  }

  /**
   * The digit count is the single byte after '#': a digit N makes the second read ask for
   * exactly N bytes.
   */
  lemma DecodeDigitCount(w: Wire)
    requires |w.pending| >= 2 && w.pending[0] == Hash && IsDigit(w.pending[1])
    requires w.grants == [] || w.grants[0] >= 2
    ensures |Decode(w).calls| >= 2 && Decode(w).calls[1].asked == w.pending[1] - Zero
  {
    var header := w.pending[..2];
    var w1 := Wire(w.pending[2..], Next(w.grants));
    DecodeReadsHeader(w);
    AfterHeaderCases(header, w1);
    DecodeLengthAsks([Call(2, header)], w.pending[1] - Zero, w1);
  }

  /** A byte after '#' that is not a digit is not a digit count: int() raises. */
  lemma DecodeRejectsCount(w: Wire)
    requires |w.pending| >= 2 && w.pending[0] == Hash && !IsDigit(w.pending[1])
    requires w.grants == [] || w.grants[0] >= 2
    ensures Decode(w).value == Err(BadNumber) && |Decode(w).calls| == 1
  {
    DecodeReadsHeader(w);
    AfterHeaderCases(w.pending[..2], Wire(w.pending[2..], Next(w.grants)));
  }

  /** A header read in full hands its two bytes to the header step. */
  lemma DecodeReadsHeader(w: Wire)
    requires |w.pending| >= 2
    requires w.grants == [] || w.grants[0] >= 2
    ensures Decode(w) == DecodeAfterHeader(w.pending[..2], Wire(w.pending[2..], Next(w.grants)))
  {
    ReadFull(w, 2);
  }

  /** The header step without int(): a '#' and one digit lead to the length field, all else fails. */
  lemma AfterHeaderCases(header: seq<byte>, w: Wire)
    requires 1 <= |header| <= 2
    ensures var first := [Call(2, header)];
      DecodeAfterHeader(header, w)
        == if header[0] != Hash then Decoded(Err(MissingHash), w, first)
           else if |header| == 2 && IsDigit(header[1]) then DecodeLength(first, header[1] - Zero, w)
           else Decoded(Err(BadNumber), w, first)
  {
    ParseOneByte(header[1..]);
  }

  /** The length-field read comes right after the calls already made, and asks for `digits` bytes. */
  lemma DecodeLengthAsks(first: seq<Call>, digits: nat, w: Wire)
    ensures var d := DecodeLength(first, digits, w);
      |d.calls| > |first| && d.calls[..|first|] == first && d.calls[|first|].asked == digits
  {
    match Read(w, digits)
    case Err(_) =>
    case Ok(r) =>
      var head := first + [Call(digits, r.0)];
      match ParseInt(r.0)
      case None =>
      case Some(length) =>
        var l := Loop(r.1, length);
        assert DecodeLength(first, digits, w).calls == head + l.calls;
        assert (head + l.calls)[..|first|] == first;
  }

  /** A transport that hands back only '#' for the header read makes the decode fail: it does not top up. */
  lemma DecodeShortHeader(w: Wire)
    requires w.pending != [] && w.pending[0] == Hash
    requires w.grants != [] && w.grants[0] <= 1
    ensures Decode(w).value == Err(BadNumber)
  {
    var (header, w1) := Read(w, 2).value;
    assert header == [Hash];
    ParseOneByte(header[1..]);
  }

  // ---------------------------------------------------------------------------------
  // Encoding and the round trip

  function Pow10(n: nat): (p: nat)
    ensures p >= 1
  {
    if n == 0 then 1 else 10 * Pow10(n - 1)
  }

  /** `n` written in exactly `width` decimal digits, with leading zeros. */
  function PadDecimal(n: nat, width: nat): (r: seq<byte>)
    ensures |r| == width && forall k :: 0 <= k < |r| ==> IsDigit(r[k])
  {
    if width == 0 then [] else PadDecimal(n / 10, width - 1) + [Zero + n % 10]
  }

  /** The block that carries `payload` with its length written in `width` digits. */
  function Encode(payload: seq<byte>, width: nat): seq<byte>
    requires 1 <= width <= 9
  {
    [Hash, Zero + width] + PadDecimal(|payload|, width) + payload
  }

  lemma {:induction false} PadDecimalValue(n: nat, width: nat)
    requires n < Pow10(width)
    ensures DigitsValue(PadDecimal(n, width)) == n
  {
    if width > 0 {
      assert n / 10 < Pow10(width - 1);
      PadDecimalValue(n / 10, width - 1);
      var r := PadDecimal(n, width);
      assert r[..|r| - 1] == PadDecimal(n / 10, width - 1);
    }
  }

  /** int() reads a zero-padded length field back as the number written. */
  lemma {:induction false} ParsePadded(n: nat, width: nat)
    requires 1 <= width && n < Pow10(width)
    ensures ParseInt(PadDecimal(n, width)) == Some(n)
  {
    ParseDigits(PadDecimal(n, width));
    PadDecimalValue(n, width);
  }

  /** A header read in full hands its two bytes to the header check. */
  lemma HeaderRead(w: Wire, width: nat, after: seq<byte>)
    requires 1 <= width <= 9
    requires w.pending == [Hash, Zero + width] + after
    requires w.grants == [] || w.grants[0] >= 2
    ensures Decode(w) == DecodeAfterHeader([Hash, Zero + width], Wire(after, Next(w.grants)))
  {
    ReadFull(w, 2);
    assert w.pending[..2] == [Hash, Zero + width] && w.pending[2..] == after;
  }

  /** '#' followed by the digit N asks for an N-digit length field. */
  lemma CountField(width: nat, w: Wire)
    requires 1 <= width <= 9
    ensures DecodeAfterHeader([Hash, Zero + width], w) == DecodeLength([Call(2, [Hash, Zero + width])], width, w)
  {
    HashThenDigit(Zero + width, w);
  }

  lemma HashThenDigit(digit: byte, w: Wire)
    requires IsDigit(digit)
    ensures DecodeAfterHeader([Hash, digit], w) == DecodeLength([Call(2, [Hash, digit])], digit - Zero, w)
  {
    var header: seq<byte> := [Hash, digit];
    assert header[1..] == [digit];
    ParseOneByte(header[1..]);
  }

  /** A length field read in full is parsed and handed to the payload loop. */
  lemma LengthStep(first: seq<Call>, width: nat, n: nat, tail: seq<byte>, grants: seq<nat>)
    requires 1 <= width <= 9 && n < Pow10(width)
    requires grants == [] || grants[0] >= width
    ensures var field := PadDecimal(n, width);
            DecodeLength(first, width, Wire(field + tail, grants))
              == Prefixed([], first + [Call(width, field)], Loop(Wire(tail, Next(grants)), n))
  {
    var field := PadDecimal(n, width);
    var w1 := Wire(field + tail, grants);
    ReadFull(w1, width);
    assert w1.pending[..width] == field && w1.pending[width..] == tail;
    ParsePadded(n, width);
  }

  /** A header that carries `n` in `width` digits, read in full, hands the payload loop `n`. */
  lemma DecodeHeader(w: Wire, width: nat, n: nat, tail: seq<byte>)
    requires 1 <= width <= 9 && n < Pow10(width)
    requires w.pending == [Hash, Zero + width] + PadDecimal(n, width) + tail
    requires w.grants == [] || w.grants[0] >= 2
    requires |w.grants| <= 1 || w.grants[1] >= width
    ensures Decode(w) == Prefixed([], [Call(2, [Hash, Zero + width]), Call(width, PadDecimal(n, width))],
                                  Loop(Wire(tail, Next(Next(w.grants))), n))
  {
    var field := PadDecimal(n, width);
    assert w.pending == [Hash, Zero + width] + (field + tail);
    var w1 := Wire(field + tail, Next(w.grants));
    HeaderRead(w, width, field + tail);
    CountField(width, w1);
    LengthStep([Call(2, [Hash, Zero + width])], width, n, tail, Next(w.grants));
    assert [Call(2, [Hash, Zero + width])] + [Call(width, field)] == [Call(2, [Hash, Zero + width]), Call(width, field)];
  }

  /** The length step, and the loop after it, consume exactly what they log. */
  lemma LengthConsumes(first: seq<Call>, digits: nat, w: Wire)
    ensures Gathered(first) + w.pending == Gathered(DecodeLength(first, digits, w).calls) + DecodeLength(first, digits, w).wire.pending
  {
    match Read(w, digits)
    case Err(e) =>
      GatheredAppend(first, [Call(digits, [])]);
      GatheredOne(Call(digits, []));
    case Ok(r) =>
      var head := first + [Call(digits, r.0)];
      GatheredAppend(first, [Call(digits, r.0)]);
      GatheredOne(Call(digits, r.0));
      match ParseInt(r.0)
      case None =>
      case Some(length) =>
        var rest := Loop(r.1, length);
        LoopConsumes(r.1, length);
        GatheredAppend(head, rest.calls);
        Regroup(Gathered(first), r.0, Gathered(rest.calls), rest.wire.pending);
  }

  /**
   * read_binblock takes from the instrument exactly the bytes its reads returned, in order,
   * whatever the outcome: the queue it started with is the read log's bytes followed by what
   * it leaves queued.
   */
  lemma DecodeConsumes(w: Wire)
    ensures w.pending == Gathered(Decode(w).calls) + Decode(w).wire.pending
  {
    match Read(w, 2)
    case Err(e) =>
      GatheredOne(Call(2, []));
    case Ok(r) =>
      var first := [Call(2, r.0)];
      GatheredOne(first[0]);
      if r.0[0] == Hash {
        match ParseInt(r.0[1..])
        case None =>
        case Some(digits) =>
          ParseOneByte(r.0[1..]);
          LengthConsumes(first, digits, r.1);
      }
  }

  /**
   * Round trip: a well-formed block followed by anything decodes to its payload and leaves
   * exactly what followed it queued, however the transport splits the payload reads, as
   * long as the two header reads are not themselves cut short.
   */
  lemma {:induction false} RoundTrip(payload: seq<byte>, width: nat, rest: seq<byte>, grants: seq<nat>)
    requires 1 <= width <= 9 && |payload| < Pow10(width)
    requires grants == [] || grants[0] >= 2
    requires |grants| <= 1 || grants[1] >= width
    ensures var d := Decode(Wire(Encode(payload, width) + rest, grants));
            d.value == Ok(payload) && d.wire.pending == rest
  {
    DecodeEncoded(Wire(Encode(payload, width) + rest, grants), payload, width, rest);
  }

  /** The payload loop over a queue holding the payload and then more returns the payload. */
  lemma LoopPayload(w: Wire, payload: seq<byte>, rest: seq<byte>)
    requires w.pending == payload + rest
    ensures Loop(w, |payload|).value == Ok(payload) && Loop(w, |payload|).wire.pending == rest
  {
    LoopReadsExactly(w, |payload|);
    assert (payload + rest)[..|payload|] == payload;
    assert (payload + rest)[|payload|..] == rest;
  }

  lemma EncodeThen(payload: seq<byte>, width: nat, rest: seq<byte>)
    requires 1 <= width <= 9
    ensures Encode(payload, width) + rest == [Hash, Zero + width] + PadDecimal(|payload|, width) + (payload + rest)
  {
  }

  lemma PrefixedPayload(calls: seq<Call>, l: Decoded, payload: seq<byte>, rest: seq<byte>)
    requires l.value == Ok(payload) && l.wire.pending == rest
    ensures Prefixed([], calls, l).value == Ok(payload) && Prefixed([], calls, l).wire.pending == rest
  {
    assert [] + payload == payload;
  }

  lemma DecodeEncoded(w: Wire, payload: seq<byte>, width: nat, rest: seq<byte>)
    requires 1 <= width <= 9 && |payload| < Pow10(width)
    requires w.pending == Encode(payload, width) + rest
    requires w.grants == [] || w.grants[0] >= 2
    requires |w.grants| <= 1 || w.grants[1] >= width
    ensures Decode(w).value == Ok(payload) && Decode(w).wire.pending == rest
  {
    var field := PadDecimal(|payload|, width);
    var loop := Wire(payload + rest, Next(Next(w.grants)));
    EncodeThen(payload, width, rest);
    DecodeHeader(w, width, |payload|, payload + rest);
    LoopPayload(loop, payload, rest);
    PrefixedPayload([Call(2, [Hash, Zero + width]), Call(width, field)], Loop(loop, |payload|), payload, rest);
  }
}
