// Construction of the fixed-width line store (storage/consistent_width.go):
// defaults and options, line-width detection, line-count derivation and the
// final rewind of the handle.
//
// Each step is given twice: as a function on the handle's state (Stream),
// which is the specification, and as a method of ConsistentWidthHandler that
// does what the Go code does, proved to agree with that function. The code is
// modelled both as written (FindLineWidthAsWritten,
// NewConsistentWidthHandlerAsWritten, which can panic) and corrected
// (FindLineWidth, NewConsistentWidthHandler).
module ConsistentWidth {
  import opened Io

  /** Size of the scan buffer `b` in findLineWidth. */
  const BufferLen: nat := 1000

  /** Default number of lines added per growth step. */
  const DefaultLineIncrementWidth: int := 500

  /** Go runtime panics the construction path can raise. */
  datatype Panic = IndexOutOfRange(index: nat, length: nat) | IntegerDivideByZero

  /** What a step of the handler ends with: a value (Go's nil error), an error, or a panic. */
  datatype Outcome<T> = Done(value: T) | Failed(error: Error) | Crashed(panic: Panic)

  /** The outcome without its value: what a Go method returning only `error` reports. */
  function Status<T>(o: Outcome<T>): Outcome<()> {
    match o
    case Done(_) => Done(())
    case Failed(e) => Failed(e)
    case Crashed(p) => Crashed(p)
  }

  /** The handler's fields other than the handle. */
  datatype Fields = Fields(
    initialLineCount: int,
    lineCount: int,
    lineWidth: nat,
    lineIncrementWidth: int,
    emptyLineIndexes: seq<int>)

  // ---------------------------------------------------------------------------
  // Options

  /** The one option the store recognises. */
  datatype HandlerOption = OptionLineIncrementWidth(value: int) {
    /** Overwrites the handler's growth increment and nothing else. */
    method Apply(cwh: ConsistentWidthHandler)
      modifies cwh`lineIncrementWidth
      ensures cwh.lineIncrementWidth == value
    {
      cwh.lineIncrementWidth := value;
    }
  }

  /** The growth increment after applying `options`, in order, to `width`:
      each option overwrites it, so the last one given wins, and with no
      options the starting value is kept. */
  function ApplyOptions(options: seq<HandlerOption>, width: int): (r: int)
    ensures r == if options == [] then width else options[|options| - 1].value
    decreases |options|
  {
    if options == [] then width else ApplyOptions(options[1..], options[0].value)
  }

  // ---------------------------------------------------------------------------
  // Width detection

  /** Index of the first '\n' in `s`, or |s| when there is none. */
  function FirstNewline(s: seq<byte>): (k: nat)
    ensures k <= |s|
  {
    if s == [] || s[0] == Newline then 0 else 1 + FirstNewline(s[1..])
  }

  /** FirstNewline finds a '\n', and none comes before it. */
  lemma {:induction false} FirstNewlineSpec(s: seq<byte>)
    ensures forall j :: 0 <= j < FirstNewline(s) ==> s[j] != Newline
    ensures FirstNewline(s) < |s| ==> s[FirstNewline(s)] == Newline
    decreases |s|
  {
    if s != [] && s[0] != Newline {
      FirstNewlineSpec(s[1..]);
      forall j | 1 <= j < FirstNewline(s)
        ensures s[j] != Newline
      {
        assert s[j] == s[1..][j - 1];
      }
    }
  }

  /** The only index with no '\n' before it and a '\n' (or the end) at it is FirstNewline's. */
  lemma {:induction false} FirstNewlineIs(s: seq<byte>, k: nat)
    requires k <= |s|
    requires forall j :: 0 <= j < k ==> s[j] != Newline
    requires k < |s| ==> s[k] == Newline
    ensures FirstNewline(s) == k
    decreases k
  {
    if k > 0 {
      assert s[0] != Newline;
      forall j | 0 <= j < k - 1
        ensures s[1..][j] != Newline
      {
        assert s[1..][j] == s[j + 1];
      }
      if k < |s| {
        assert s[1..][k - 1] == s[k];
      }
      FirstNewlineIs(s[1..], k - 1);
    }
  }

  /** A '\n' occurs in `s` exactly when FirstNewline stops before the end,
      and never before the index it gives. */
  lemma NewlineBefore(s: seq<byte>)
    ensures Newline in s <==> FirstNewline(s) < |s|
    ensures Newline !in s[..FirstNewline(s)]
  {
    FirstNewlineSpec(s);
    if Newline in s {
      var j :| 0 <= j < |s| && s[j] == Newline;
      assert FirstNewline(s) <= j;
    }
  }

  /** What one pass of the scan loop ends with: the '\n' found at `index`
      (counted from the start of the data), an error returned, a panic, or
      the number of bytes scanned so far when the loop goes round again. */
  datatype Step = Found(index: nat) | Stop(error: Error) | Crash(panic: Panic) | Continue(scanned: nat)

  /** The outcome findLineWidth reports for a pass that ends the loop. */
  function Finish(st: Step): Outcome<nat>
    requires !st.Continue?
  {
    match st
    case Found(k) => Done(k + 1)
    case Stop(e) => Failed(e)
    case Crash(p) => Crashed(p)
  }

  /** One pass of the scan loop, the buffer indexed by position in the chunk:
      `rd` is the reply of the pass's read and `i` the bytes scanned before it. */
  function ScanStep(rd: ReadReply, i: nat): (st: Step)
    requires rd.n == |rd.chunk|
    // a '\n' is found inside this chunk, and none comes before it in the chunk
    ensures st.Found? ==>
      i <= st.index < i + rd.n && rd.chunk[st.index - i] == Newline &&
      Newline !in rd.chunk[..st.index - i]
    // the loop goes round again only after a full chunk without '\n'
    ensures st.Continue? <==> rd.err.None? && rd.n >= BufferLen && Newline !in rd.chunk
    ensures st.Continue? ==> st.scanned == i + rd.n
    // an error is the read's own, or io.EOF for a chunk without '\n'
    ensures st.Stop? ==>
      (rd.err.Some? && rd.err.value != EOF && st.error == rd.err.value) ||
      (st.error == EOF && Newline !in rd.chunk)
    ensures rd.err.Some? && rd.err.value != EOF ==> st == Stop(rd.err.value)
    ensures !st.Crash?
  {
    FirstNewlineSpec(rd.chunk);
    NewlineBefore(rd.chunk);
    if rd.err.Some? && rd.err.value != EOF then Stop(rd.err.value)
    else if FirstNewline(rd.chunk) < rd.n then Found(i + FirstNewline(rd.chunk))
    else if rd.err == Some(EOF) || rd.n < BufferLen then Stop(EOF)
    else Continue(i + rd.n)
  }

  /** The scan loop from a handle in state `s`, `i` bytes already scanned. */
  function ScanFrom(s: Stream, i: nat): (Outcome<nat>, Stream)
    decreases Available(s)
  {
    var rd := ReadOn(s, BufferLen);
    var st := ScanStep(rd, i);
    if st.Continue? then ScanFrom(rd.next, st.scanned) else (Finish(st), rd.next)
  }

  /** The scan leaves the handle's contents alone, cannot panic, and a width
      it finds counts the bytes already scanned and the '\n'. */
  lemma {:induction false} ScanFromFacts(s: Stream, i: nat)
    ensures SameDevice(s, ScanFrom(s, i).1)
    ensures !ScanFrom(s, i).0.Crashed?
    ensures ScanFrom(s, i).0.Done? ==> ScanFrom(s, i).0.value > i
    decreases Available(s)
  {
    var rd := ReadOn(s, BufferLen);
    var st := ScanStep(rd, i);
    if st.Continue? {
      ScanFromFacts(rd.next, st.scanned);
    }
  }

  /** Corrected findLineWidth: rewind, then scan. */
  function LineWidthOf(s: Stream): (r: (Outcome<nat>, Stream))
    ensures SameDevice(s, r.1)
    ensures !r.0.Crashed?
    ensures r.0.Done? ==> r.0.value >= 1
  {
    var (sk, s1) := SeekOn(s, 0, SeekStart);
    if sk.Err? then (Failed(sk.error), s1)
    else
      ScanFromFacts(s1, 0);
      ScanFrom(s1, 0)
  }

  /** How the inner loop of findLineWidth as written ends. */
  datatype InnerExit = Hit(i: nat) | Exhausted(i: nat) | OutOfRange(i: nat)

  /** The inner loop as written: `left` more iterations, each testing b[i] and
      then incrementing i; Go's bounds check fires when i reaches |b|. */
  function InnerScanAsWritten(b: seq<byte>, i: nat, left: nat): (r: InnerExit)
    // the indexes passed over were inside the buffer and held no '\n'
    ensures i <= r.i <= i + left
    ensures i < r.i ==> r.i <= |b|
    ensures forall k :: i <= k < r.i ==> b[k] != Newline
    ensures r.Exhausted? <==> r.i == i + left
    ensures r.Hit? ==> r.i < |b| && b[r.i] == Newline
    ensures r.OutOfRange? ==> r.i >= |b| && r.i < i + left
    decreases left
  {
    if left == 0 then Exhausted(i)
    else if i >= |b| then OutOfRange(i)
    else if b[i] == Newline then Hit(i)
    else InnerScanAsWritten(b, i + 1, left - 1)
  }

  /** One pass of the scan loop as written: `filled` is the buffer after the
      pass's read, whose reply is `rd`. */
  function ScanStepAsWritten(rd: ReadReply, filled: seq<byte>, i: nat): (st: Step)
    // the '\n' found is one of the buffer's, at or after the index the pass started from
    ensures st.Found? ==> i <= st.index < |filled| && filled[st.index] == Newline
    // Go's bounds check: the index tested lies outside the buffer
    ensures st.Crash? ==> st.panic.IndexOutOfRange? && st.panic.index >= st.panic.length == |filled|
    ensures st.Continue? ==> rd.err.None? && rd.n >= BufferLen && st.scanned == i + rd.n
    ensures st.Stop? ==>
      (rd.err.Some? && rd.err.value != EOF && st.error == rd.err.value) || st.error == EOF
    // a read error other than io.EOF ends the loop at once
    ensures rd.err.Some? && rd.err.value != EOF ==> st == Stop(rd.err.value)
    // the '\n' found is the first at or after the starting index
    ensures st.Found? ==> forall k :: i <= k < st.index ==> filled[k] != Newline
    // without a read error, the loop ends with io.EOF only when the inner
    // loop ran its `n` passes without finding a '\n'
    ensures st == Stop(EOF) && !(rd.err.Some? && rd.err.value != EOF) ==>
      InnerScanAsWritten(filled, i, rd.n).Exhausted?
  {
    if rd.err.Some? && rd.err.value != EOF then Stop(rd.err.value)
    else match InnerScanAsWritten(filled, i, rd.n)
      case Hit(k) => Found(k)
      case OutOfRange(k) => Crash(IndexOutOfRange(k, |filled|))
      case Exhausted(k) =>
        if rd.err == Some(EOF) || rd.n < BufferLen then Stop(EOF) else Continue(k)
  }

  /** The scan loop as written, `b` being the buffer's contents before the read. */
  function ScanFromAsWritten(s: Stream, b: seq<byte>, i: nat): (r: (Outcome<nat>, Stream))
    requires |b| == BufferLen
    // the scan leaves the handle's contents alone; a width it finds counts
    // the bytes already scanned and the '\n'
    ensures SameDevice(s, r.1)
    ensures r.0.Done? ==> r.0.value > i
    decreases Available(s)
  {
    var rd := ReadOn(s, BufferLen);
    var filled := rd.chunk + b[rd.n..];
    var st := ScanStepAsWritten(rd, filled, i);
    if st.Continue? then ScanFromAsWritten(rd.next, filled, st.scanned) else (Finish(st), rd.next)
  }

  /** A freshly made buffer: `make([]byte, bufferLen)`. */
  function ZeroBuffer(): seq<byte> {
    seq(BufferLen, k => 0 as byte)
  }

  /** findLineWidth as written. */
  function LineWidthOfAsWritten(s: Stream): (r: (Outcome<nat>, Stream))
    ensures SameDevice(s, r.1)
  {
    var (sk, s1) := SeekOn(s, 0, SeekStart);
    if sk.Err? then (Failed(sk.error), s1)
    else ScanFromAsWritten(s1, ZeroBuffer(), 0)
  }

  // ---------------------------------------------------------------------------
  // Line count

  /** findLineCount: seek to the end and divide its offset by the width. Go
      panics on a zero divisor; both operands are non-negative here, so Go's
      truncating division and Dafny's `/` agree. */
  function LineCountOf(s: Stream, width: nat): (r: (Outcome<int>, Stream))
    ensures SameDevice(s, r.1)
    ensures width > 0 ==> !r.0.Crashed?
  {
    var (sk, s1) := SeekOn(s, 0, SeekEnd);
    if sk.Err? then (Failed(sk.error), s1)
    else if width == 0 then (Crashed(IntegerDivideByZero), s1)
    else (Done(sk.value / width), s1)
  }

  // ---------------------------------------------------------------------------
  // Construction

  /** NewConsistentWidthHandler, corrected: a handle without '\n' is reported
      as NoLineSeparator instead of going on with width 0. */
  function Construct(s: Stream, options: seq<HandlerOption>): (r: (Outcome<Fields>, Stream))
    ensures SameDevice(s, r.1)
    ensures !r.0.Crashed?
  {
    var increment := ApplyOptions(options, DefaultLineIncrementWidth);
    var (w, s1) := LineWidthOf(s);
    if !w.Done? then (Failed(if w.error == EOF then NoLineSeparator else w.error), s1)
    else
      var (c, s2) := LineCountOf(s1, w.value);
      if !c.Done? then (Failed(c.error), s2)
      else
        var (sk, s3) := SeekOn(s2, 0, SeekStart);
        if sk.Err? then (Failed(sk.error), s3)
        else (Done(Fields(c.value, c.value, w.value, increment, [])), s3)
  }

  /** NewConsistentWidthHandler as written: on io.EOF it goes on with the
      zero width of the fresh struct. */
  function ConstructAsWritten(s: Stream, options: seq<HandlerOption>): (r: (Outcome<Fields>, Stream))
    ensures SameDevice(s, r.1)
  {
    var increment := ApplyOptions(options, DefaultLineIncrementWidth);
    var (w, s1) := LineWidthOfAsWritten(s);
    if w.Crashed? then (Crashed(w.panic), s1)
    else if w.Failed? && w.error != EOF then (Failed(w.error), s1)
    else
      var width := if w.Done? then w.value else 0;
      var (c, s2) := LineCountOf(s1, width);
      if c.Crashed? then (Crashed(c.panic), s2)
      else if c.Failed? then (Failed(c.error), s2)
      else
        var (sk, s3) := SeekOn(s2, 0, SeekStart);
        if sk.Err? then (Failed(sk.error), s3)
        else (Done(Fields(c.value, c.value, width, increment, [])), s3)
  }

  // ---------------------------------------------------------------------------
  // The handler

  /** The inner loop of findLineWidth, indexing the buffer by the position
      `j` in the chunk: the offset of the first '\n' among the `n` bytes
      read, or `n` when there is none. */
  method ScanChunk(b: array<byte>, n: nat) returns (j: nat)
    requires n <= b.Length
    ensures j == FirstNewline(b[..n])
  {
    j := 0;
    while j < n
      invariant j <= n
      invariant forall k :: 0 <= k < j ==> b[k] != Newline
    {
      if b[j] == Newline {
        FirstNewlineIs(b[..n], j);
        return;
      }
      j := j + 1;
    }
    FirstNewlineIs(b[..n], n);
  }

  /** The inner loop of findLineWidth as written: `n` iterations testing
      b[i] and then incrementing `i`; the index is checked against the
      buffer's length as Go's runtime does. */
  method ScanChunkAsWritten(b: array<byte>, i: nat, n: nat) returns (exit: InnerExit)
    ensures exit == InnerScanAsWritten(b[..], i, n)
  {
    var k: nat := i;
    for j := 0 to n
      invariant InnerScanAsWritten(b[..], k, n - j) == InnerScanAsWritten(b[..], i, n)
    {
      if k >= b.Length {
        return OutOfRange(k);
      }
      if b[k] == Newline {
        return Hit(k);
      }
      k := k + 1;
    }
    return Exhausted(k);
  }

  class ConsistentWidthHandler {
    const handle: Handle
    var initialLineCount: int
    var lineCount: int
    var lineWidth: nat
    var lineIncrementWidth: int
    var emptyLineIndexes: seq<int>

    function View(): Fields
      reads this
    {
      Fields(initialLineCount, lineCount, lineWidth, lineIncrementWidth, emptyLineIndexes)
    }

    /** The struct literal: the handle, the default growth increment, no free
        lines, and Go's zero values elsewhere. */
    constructor (handle: Handle)
      ensures this.handle == handle
      ensures View() == Fields(0, 0, 0, DefaultLineIncrementWidth, [])
    {
      this.handle := handle;
      initialLineCount, lineCount, lineWidth := 0, 0, 0;
      lineIncrementWidth := DefaultLineIncrementWidth;
      emptyLineIndexes := [];
    }

    /** One pass of findLineWidth's loop, the buffer indexed by `j`, the
        position in the chunk: read into `b`, then look for '\n' among the
        bytes read; `i` bytes were scanned before. */
    method ScanPass(b: array<byte>, i: nat) returns (st: Step)
      requires b.Length == BufferLen
      modifies handle, b
      ensures var rd := ReadOn(old(handle.State()), BufferLen);
        handle.State() == rd.next && st == ScanStep(rd, i)
    {
      var n, err := handle.Read(b);
      if err.Some? && err.value != EOF {
        return Stop(err.value);
      }
      var j := ScanChunk(b, n);
      if j < n {
        return Found(i + j);
      }
      if err.Some? && err.value == EOF {
        return Stop(err.value);
      }
      if n < BufferLen {
        return Stop(EOF);
      }
      return Continue(i + n);
    }

    /** findLineWidth with the buffer indexed by the position in the chunk. */
    method FindLineWidth() returns (r: Outcome<()>)
      modifies this`lineWidth, handle
      ensures var (w, s) := LineWidthOf(old(handle.State()));
        handle.State() == s && r == Status(w) &&
        lineWidth == (if w.Done? then w.value else old(lineWidth))
    {
      ghost var goal := LineWidthOf(handle.State());
      var b := new byte[BufferLen];
      var i: nat := 0;
      var foundIndex := false;  // never set: the loop ends by `break Scan` or `return`

      var sk := handle.Seek(0, SeekStart);
      if sk.Err? {
        return Failed(sk.error);
      }

      label Scan:
      while !foundIndex
        invariant b.Length == BufferLen
        invariant ScanFrom(handle.State(), i) == goal
        invariant lineWidth == old(lineWidth)
        decreases Available(handle.State())
      {
        var st := ScanPass(b, i);
        match st
        case Found(k) =>
          i := k;
          break Scan;
        case Stop(e) =>
          return Failed(e);
        case Continue(k) =>
          i := k;
      }

      lineWidth := i + 1;
      return Done(());
    }

    /** One pass of findLineWidth's loop as written: the buffer is indexed by
        `i`, which counts bytes across chunks, with Go's bounds check. */
    method ScanPassAsWritten(b: array<byte>, i: nat) returns (st: Step)
      requires b.Length == BufferLen
      modifies handle, b
      ensures var rd := ReadOn(old(handle.State()), BufferLen);
        handle.State() == rd.next && b[..] == rd.chunk + old(b[..])[rd.n..] &&
        st == ScanStepAsWritten(rd, b[..], i)
    {
      var n, err := handle.Read(b);
      if err.Some? && err.value != EOF {
        return Stop(err.value);
      }
      var exit := ScanChunkAsWritten(b, i, n);
      match exit
      case OutOfRange(k) =>
        return Crash(IndexOutOfRange(k, b.Length));
      case Hit(k) =>
        return Found(k);
      case Exhausted(k) =>
        if err.Some? && err.value == EOF {
          return Stop(err.value);
        }
        if n < BufferLen {
          return Stop(EOF);
        }
        return Continue(k);
    }

    /** findLineWidth as written: once the scan goes past the first chunk the
        index leaves the buffer and Go's bounds check fires. */
    method FindLineWidthAsWritten() returns (r: Outcome<()>)
      modifies this`lineWidth, handle
      ensures var (w, s) := LineWidthOfAsWritten(old(handle.State()));
        handle.State() == s && r == Status(w) &&
        lineWidth == (if w.Done? then w.value else old(lineWidth))
    {
      ghost var goal := LineWidthOfAsWritten(handle.State());
      var b := new byte[BufferLen](k => 0);
      var i: nat := 0;
      var foundIndex := false;  // never set: the loop ends by `break Scan` or `return`

      var sk := handle.Seek(0, SeekStart);
      if sk.Err? {
        return Failed(sk.error);
      }
      assert b[..] == ZeroBuffer();

      label Scan:
      while !foundIndex
        invariant b.Length == BufferLen
        invariant ScanFromAsWritten(handle.State(), b[..], i) == goal
        invariant lineWidth == old(lineWidth)
        decreases Available(handle.State())
      {
        ghost var before, s0 := b[..], handle.State();
        var st := ScanPassAsWritten(b, i);
        ghost var rd := ReadOn(s0, BufferLen);
        assert handle.State() == rd.next && b[..] == rd.chunk + before[rd.n..];
        match st
        case Found(k) =>
          i := k;
          break Scan;
        case Stop(e) =>
          return Failed(e);
        case Crash(p) =>
          return Crashed(p);
        case Continue(k) =>
          i := k;
      }

      lineWidth := i + 1;
      return Done(());
    }

    /** findLineCount: both counts become the end offset divided by the width. */
    method FindLineCount() returns (r: Outcome<()>)
      modifies this`initialLineCount, this`lineCount, handle
      ensures var (c, s) := LineCountOf(old(handle.State()), lineWidth);
        handle.State() == s && r == Status(c) &&
        (c.Done? ==> initialLineCount == lineCount == c.value) &&
        (!c.Done? ==> initialLineCount == old(initialLineCount) && lineCount == old(lineCount))
    {
      var size := handle.Seek(0, SeekEnd);
      if size.Err? {
        return Failed(size.error);
      }
      if lineWidth == 0 {
        // the runtime check on the division
        return Crashed(IntegerDivideByZero);
      }
      initialLineCount := size.value / lineWidth;
      lineCount := initialLineCount;
      return Done(());
    }
  }

  /** Applies the options in order to a fresh handler. */
  method ApplyAll(cwh: ConsistentWidthHandler, options: seq<HandlerOption>)
    modifies cwh`lineIncrementWidth
    ensures cwh.lineIncrementWidth == ApplyOptions(options, old(cwh.lineIncrementWidth))
  {
    for k := 0 to |options|
      invariant cwh.lineIncrementWidth == ApplyOptions(options[..k], old(cwh.lineIncrementWidth))
    {
      options[k].Apply(cwh);
    }
    assert options[..|options|] == options;
  }

  /** NewConsistentWidthHandler, corrected. */
  method NewConsistentWidthHandler(handle: Handle, options: seq<HandlerOption>)
    returns (r: Outcome<ConsistentWidthHandler>)
    modifies handle
    ensures var (spec, s) := Construct(old(handle.State()), options);
      handle.State() == s && Status(r) == Status(spec) &&
      (r.Done? ==> fresh(r.value) && r.value.handle == handle && r.value.View() == spec.value)
  {
    var cwh := new ConsistentWidthHandler(handle);
    ApplyAll(cwh, options);

    var err := cwh.FindLineWidth();
    if err.Failed? && err.error == EOF {
      // no '\n' before the end of the data
      return Failed(NoLineSeparator);
    } else if err.Failed? {
      return Failed(err.error);
    }

    err := cwh.FindLineCount();
    if err.Failed? {
      return Failed(err.error);
    }

    var sk := handle.Seek(0, SeekStart);
    if sk.Err? {
      return Failed(sk.error);
    }
    return Done(cwh);
  }

  /** NewConsistentWidthHandler as written: io.EOF from findLineWidth is
      ignored and construction goes on with lineWidth still 0. */
  method NewConsistentWidthHandlerAsWritten(handle: Handle, options: seq<HandlerOption>)
    returns (r: Outcome<ConsistentWidthHandler>)
    modifies handle
    ensures var (spec, s) := ConstructAsWritten(old(handle.State()), options);
      handle.State() == s && Status(r) == Status(spec) &&
      (r.Done? ==> fresh(r.value) && r.value.handle == handle && r.value.View() == spec.value)
  {
    var cwh := new ConsistentWidthHandler(handle);
    ApplyAll(cwh, options);

    ghost var s0 := handle.State();
    var err := cwh.FindLineWidthAsWritten();
    ghost var w := LineWidthOfAsWritten(s0);
    assert cwh.lineWidth == if w.0.Done? then w.0.value else 0;
    if err.Crashed? {
      return Crashed(err.panic);
    }
    if err.Failed? && err.error == EOF {
      // the source leaves this branch empty
    } else if err.Failed? {
      return Failed(err.error);
    }

    err := cwh.FindLineCount();
    if err.Crashed? {
      return Crashed(err.panic);
    }
    if err.Failed? {
      return Failed(err.error);
    }

    var sk := handle.Seek(0, SeekStart);
    if sk.Err? {
      return Failed(sk.error);
    }
    return Done(cwh);
  }
}
