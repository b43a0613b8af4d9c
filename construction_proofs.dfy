// Properties of the construction path of the fixed-width line store
// (storage/consistent_width.go), stated on the specification functions of
// module ConsistentWidth, which the handler's methods are proved to follow.
module ConstructionProofs {
  import opened Io
  import opened ConsistentWidth

  /** A handle that never fails and always fills the whole scan buffer when it can. */
  ghost predicate Clean(s: Stream) {
    s.faults == map[] && s.maxRead >= BufferLen
  }

  // ---------------------------------------------------------------------------
  // FirstNewline on slices

  /** With no '\n' before `a`, the first '\n' of s[a..b] is the first of s, seen from a. */
  lemma FirstNewlineOfSlice(s: seq<byte>, a: nat, b: nat)
    requires a <= b <= |s|
    requires FirstNewline(s) >= a
    ensures FirstNewline(s[a..b]) == Min(FirstNewline(s), b) - a
  {
    var f := FirstNewline(s);
    var m := Min(f, b);
    FirstNewlineSpec(s);
    forall j | 0 <= j < m - a
      ensures s[a..b][j] != Newline
    {
      assert s[a..b][j] == s[a + j];
    }
    if m < b {
      assert s[a..b][m - a] == s[m];
    }
    FirstNewlineIs(s[a..b], m - a);
  }

  // ---------------------------------------------------------------------------
  // The inner loop as written

  /** While `i` stays inside the buffer, the inner loop as written finds the
      first '\n' of the chunk, like the corrected loop. */
  lemma {:induction false} InnerWithinBuffer(b: seq<byte>, n: nat, i: nat)
    requires i <= n <= |b|
    requires forall j :: 0 <= j < i ==> b[j] != Newline
    ensures InnerScanAsWritten(b, i, n - i) ==
      (if FirstNewline(b[..n]) < n then Hit(FirstNewline(b[..n])) else Exhausted(n))
    decreases n - i
  {
    if i == n {
      FirstNewlineIs(b[..n], n);
    } else if b[i] == Newline {
      FirstNewlineIs(b[..n], i);
    } else {
      InnerWithinBuffer(b, n, i + 1);
    }
  }

  /** A read after the first full chunk: the as-written loop survives it only
      when the read delivers nothing, and then agrees with the corrected loop. */
  lemma ScanAsWrittenPastFirstChunk(s: Stream, b: seq<byte>, i: nat)
    requires |b| == BufferLen && i >= BufferLen
    ensures ReadOn(s, BufferLen).n > 0 ==>
      ScanFromAsWritten(s, b, i).0 == Crashed(IndexOutOfRange(i, BufferLen))
    ensures !ScanFromAsWritten(s, b, i).0.Crashed? ==> ScanFromAsWritten(s, b, i) == ScanFrom(s, i)
  {
  }

  // ---------------------------------------------------------------------------
  // Width detection

  /** findLineWidth seeks to offset 0 first, so where the cursor was does not matter. */
  lemma WidthIgnoresStartingCursor(s: Stream, p: nat)
    ensures LineWidthOf(s.(pos := p)).0 == LineWidthOf(s).0
    ensures LineWidthOfAsWritten(s.(pos := p)).0 == LineWidthOfAsWritten(s).0
  {
  }

  /** A failed seek to offset 0 is returned unchanged. */
  lemma SeekFailureReturned(s: Stream, options: seq<HandlerOption>)
    requires s.calls in s.faults
    ensures LineWidthOf(s).0 == Failed(IoFailure(s.faults[s.calls]))
    ensures LineWidthOfAsWritten(s).0 == Failed(IoFailure(s.faults[s.calls]))
    ensures Construct(s, options).0 == Failed(IoFailure(s.faults[s.calls]))
    ensures ConstructAsWritten(s, options).0 == Failed(IoFailure(s.faults[s.calls]))
  {
  }

  /** A failed first read is returned unchanged. */
  lemma ReadFailureReturned(s: Stream, options: seq<HandlerOption>)
    requires s.calls !in s.faults && s.calls + 1 in s.faults
    ensures LineWidthOf(s).0 == Failed(IoFailure(s.faults[s.calls + 1]))
    ensures LineWidthOfAsWritten(s).0 == Failed(IoFailure(s.faults[s.calls + 1]))
    ensures Construct(s, options).0 == Failed(IoFailure(s.faults[s.calls + 1]))
    ensures ConstructAsWritten(s, options).0 == Failed(IoFailure(s.faults[s.calls + 1]))
  {
  }

  /** A '\n' that the first read delivers gives the width, whether or not that
      read also reported EOF; the as-written scan agrees. */
  lemma {:induction false} NewlineInFirstChunk(s: Stream)
    requires s.calls !in s.faults && s.calls + 1 !in s.faults
    requires FirstNewline(s.data) < Min(Min(BufferLen, s.maxRead), |s.data|)
    ensures LineWidthOf(s).0 == Done(FirstNewline(s.data) + 1)
    ensures LineWidthOfAsWritten(s).0 == Done(FirstNewline(s.data) + 1)
  {
    var s1 := SeekOn(s, 0, SeekStart).1;
    assert s1.pos == 0 && s1.calls == s.calls + 1 && SameDevice(s, s1);
    var rd := ReadOn(s1, BufferLen);
    var f := FirstNewline(s.data);
    assert rd.n > f;
    FirstNewlineOfSlice(s.data, 0, rd.n);
    assert rd.chunk == s.data[0..rd.n];
    var filled := rd.chunk + ZeroBuffer()[rd.n..];
    assert filled[..rd.n] == rd.chunk;
    InnerWithinBuffer(filled, rd.n, 0);
    assert ScanStep(rd, 0) == Found(f);
    assert ScanStepAsWritten(rd, filled, 0) == Found(f);
  }

  /** A short first read without '\n' ends detection with io.EOF, even when
      the handle holds more bytes; construction then reports the missing
      separator. */
  lemma {:induction false} ShortFirstReadWithoutNewline(s: Stream, options: seq<HandlerOption>)
    requires s.calls !in s.faults && s.calls + 1 !in s.faults
    requires Min(Min(BufferLen, s.maxRead), |s.data|) < BufferLen
    requires FirstNewline(s.data) >= Min(Min(BufferLen, s.maxRead), |s.data|)
    ensures LineWidthOf(s).0 == Failed(EOF)
    ensures LineWidthOfAsWritten(s).0 == Failed(EOF)
    ensures Construct(s, options).0 == Failed(NoLineSeparator)
  {
    var s1 := SeekOn(s, 0, SeekStart).1;
    assert s1.pos == 0 && s1.calls == s.calls + 1 && SameDevice(s, s1);
    var rd := ReadOn(s1, BufferLen);
    assert rd.n == Min(Min(BufferLen, s.maxRead), |s.data|);
    FirstNewlineOfSlice(s.data, 0, rd.n);
    if rd.n > 0 {
      assert rd.chunk == s.data[0..rd.n];
    }
    var filled := rd.chunk + ZeroBuffer()[rd.n..];
    assert filled[..rd.n] == rd.chunk;
    InnerWithinBuffer(filled, rd.n, 0);
  }

  /** One pass on a clean handle, with no '\n' before the cursor: it finds
      the first '\n' of the data if the read delivers it, stops with io.EOF
      if the read reaches the end, and otherwise goes on from the new cursor. */
  lemma CleanStep(s: Stream, i: nat)
    requires Clean(s)
    requires i == s.pos <= |s.data|
    requires FirstNewline(s.data) >= s.pos
    ensures var rd := ReadOn(s, BufferLen);
      var st := ScanStep(rd, i);
      var f := FirstNewline(s.data);
      (f < s.pos + rd.n ==> st == Found(f)) &&
      (f >= s.pos + rd.n && !st.Continue? ==> st == Stop(EOF) && s.pos + rd.n == |s.data|) &&
      (st.Continue? ==> st.scanned == rd.next.pos <= |s.data| && f >= rd.next.pos && Clean(rd.next))
  {
    var rd := ReadOn(s, BufferLen);
    var f := FirstNewline(s.data);
    assert s.calls !in s.faults;
    assert rd.n == Min(BufferLen, |s.data| - s.pos);
    if rd.n == 0 {
      assert rd.err == Some(EOF);
      assert FirstNewline(rd.chunk) == 0;
    } else {
      assert rd.chunk == s.data[s.pos..s.pos + rd.n] && rd.next.pos == s.pos + rd.n;
      FirstNewlineOfSlice(s.data, s.pos, s.pos + rd.n);
      if f < s.pos + rd.n {
        assert FirstNewline(rd.chunk) == f - s.pos < rd.n;
      } else {
        assert FirstNewline(rd.chunk) == rd.n;
        if rd.err == None && rd.n == BufferLen {
          assert ScanStep(rd, i) == Continue(i + rd.n);
        } else {
          assert s.pos + rd.n == |s.data|;
        }
      }
    }
  }

  /** On a clean handle, with no '\n' before the cursor, the scan from the
      cursor finds the first '\n' of the data, or reports io.EOF. */
  lemma {:induction false} ScanOnCleanHandle(s: Stream, i: nat)
    requires Clean(s)
    requires i == s.pos <= |s.data|
    requires FirstNewline(s.data) >= s.pos
    ensures ScanFrom(s, i).0 ==
      (if FirstNewline(s.data) < |s.data| then Done(FirstNewline(s.data) + 1) else Failed(EOF))
    decreases Available(s)
  {
    var rd := ReadOn(s, BufferLen);
    var st := ScanStep(rd, i);
    CleanStep(s, i);
    if st.Continue? {
      ScanOnCleanHandle(rd.next, st.scanned);
    }
  }

  /** On a clean handle the detected width is the offset of the first '\n' plus one. */
  lemma CleanHandleWidth(s: Stream)
    requires Clean(s)
    ensures LineWidthOf(s).0 ==
      (if FirstNewline(s.data) < |s.data| then Done(FirstNewline(s.data) + 1) else Failed(EOF))
  {
    var s1 := SeekOn(s, 0, SeekStart).1;
    assert s1.pos == 0 && SameDevice(s, s1);
    ScanOnCleanHandle(s1, 0);
  }

  /** Every error of the scan is io.EOF or a failure the handle was set to report. */
  lemma {:induction false} ScanErrorsComeFromHandle(s: Stream, i: nat)
    ensures var r := ScanFrom(s, i).0;
      r.Failed? ==> r.error == EOF || (r.error.IoFailure? && r.error.code in s.faults.Values)
    decreases Available(s)
  {
    var rd := ReadOn(s, BufferLen);
    var st := ScanStep(rd, i);
    if st.Continue? {
      ScanErrorsComeFromHandle(rd.next, st.scanned);
    } else if s.calls in s.faults {
      assert st == Stop(IoFailure(s.faults[s.calls]));
      assert s.faults[s.calls] in s.faults.Values;
    }
  }

  /** A read that fails, in whatever pass, ends the scan with its own error. */
  lemma ScanFailureReturned(s: Stream, b: seq<byte>, i: nat)
    requires |b| == BufferLen
    requires s.calls in s.faults
    ensures ScanFrom(s, i).0 == Failed(IoFailure(s.faults[s.calls]))
    ensures ScanFromAsWritten(s, b, i).0 == Failed(IoFailure(s.faults[s.calls]))
  {
  }

  // ---------------------------------------------------------------------------
  // Line count

  /** The line count is the number of whole lines up to the end offset; a
      trailing partial line is dropped without an error. */
  lemma LineCountIsWholeLines(s: Stream, width: nat)
    requires width > 0 && LineCountOf(s, width).0.Done?
    ensures var c := LineCountOf(s, width).0.value;
      0 <= c && c * width <= |s.data| < (c + 1) * width
    ensures LineCountOf(s, width).1.pos == |s.data|
  {
  }

  /** findLineCount on a zero width panics whenever the seek to the end succeeds. */
  lemma ZeroWidthDividesByZero(s: Stream)
    requires s.calls !in s.faults
    ensures LineCountOf(s, 0).0 == Crashed(IntegerDivideByZero)
  {
  }

  // ---------------------------------------------------------------------------
  // Construction

  /** On success, construction leaves the cursor at offset 0 and the fields as
      specified: a positive width, both counts equal to the end offset divided
      by the width, the increment of the last option (500 without one), and
      no free lines. */
  lemma ConstructedFields(s: Stream, options: seq<HandlerOption>)
    requires Construct(s, options).0.Done?
    ensures var (r, t) := Construct(s, options);
      t.pos == 0 && t.data == s.data &&
      r.value.lineWidth >= 1 &&
      r.value.initialLineCount == r.value.lineCount == |s.data| / r.value.lineWidth &&
      r.value.lineIncrementWidth ==
        (if options == [] then DefaultLineIncrementWidth else options[|options| - 1].value) &&
      r.value.emptyLineIndexes == []
  {
    var (w, s1) := LineWidthOf(s);
    var (c, s2) := LineCountOf(s1, w.value);
    assert SameDevice(s, s1) && SameDevice(s1, s2);
  }

  /** Construction ignores where the cursor was. */
  lemma ConstructIgnoresStartingCursor(s: Stream, p: nat, options: seq<HandlerOption>)
    ensures Construct(s.(pos := p), options).0 == Construct(s, options).0
  {
  }

  /** Construction fails only with the missing-separator error or with a
      failure the handle reported, passed on unchanged. */
  lemma ConstructErrorsComeFromHandle(s: Stream, options: seq<HandlerOption>)
    ensures var r := Construct(s, options).0;
      r.Failed? ==> r.error == NoLineSeparator || (r.error.IoFailure? && r.error.code in s.faults.Values)
  {
    var (sk, s1) := SeekOn(s, 0, SeekStart);
    if sk.Err? {
      assert s.faults[s.calls] in s.faults.Values;
    } else {
      ScanErrorsComeFromHandle(s1, 0);
      ScanFromFacts(s1, 0);
      var (w, t1) := ScanFrom(s1, 0);
      if w.Done? {
        var (c, s2) := LineCountOf(t1, w.value);
        if t1.calls in t1.faults {
          assert t1.faults[t1.calls] in s.faults.Values;
        } else if s2.calls in s2.faults {
          assert s2.faults[s2.calls] in s.faults.Values;
        }
      }
    }
  }

  /** After a width is found, a failing seek to the end and a failing rewind
      to offset 0 are returned unchanged. */
  lemma LaterSeekFailuresReturned(s: Stream, options: seq<HandlerOption>)
    ensures var (w, t1) := LineWidthOf(s);
      w.Done? && t1.calls in t1.faults ==>
        Construct(s, options).0 == Failed(IoFailure(t1.faults[t1.calls]))
    ensures var (w, t1) := LineWidthOf(s);
      var t2 := SeekOn(t1, 0, SeekEnd).1;
      w.Done? && t1.calls !in t1.faults && t2.calls in t2.faults ==>
        Construct(s, options).0 == Failed(IoFailure(t2.faults[t2.calls]))
    ensures var (w, t1) := LineWidthOfAsWritten(s);
      (w.Done? || w == Failed(EOF)) && t1.calls in t1.faults ==>
        ConstructAsWritten(s, options).0 == Failed(IoFailure(t1.faults[t1.calls]))
    ensures var (w, t1) := LineWidthOfAsWritten(s);
      var t2 := SeekOn(t1, 0, SeekEnd).1;
      w.Done? && t1.calls !in t1.faults && t2.calls in t2.faults ==>
        ConstructAsWritten(s, options).0 == Failed(IoFailure(t2.faults[t2.calls]))
  {
  }

  /** On a clean handle construction succeeds exactly when the data holds a
      '\n'; the width is then the offset of the first '\n' plus one and both
      counts are the data length divided by it. */
  lemma ConstructOnCleanHandle(s: Stream, options: seq<HandlerOption>)
    requires Clean(s)
    ensures var (r, t) := Construct(s, options);
      (r.Done? <==> Newline in s.data) &&
      (r.Done? ==>
        r.value.lineWidth == FirstNewline(s.data) + 1 &&
        r.value.lineCount == r.value.initialLineCount == |s.data| / (FirstNewline(s.data) + 1) &&
        t.pos == 0) &&
      (!r.Done? ==> r == Failed(NoLineSeparator))
  {
    CleanHandleWidth(s);
    NewlineBefore(s.data);
    if Construct(s, options).0.Done? {
      ConstructedFields(s, options);
    }
  }

  // ---------------------------------------------------------------------------
  // The code as written

  /** The fix changes only the runs that panic: wherever findLineWidth as
      written does not crash, it gives the corrected result. */
  lemma WidthAsWrittenAgreesUnlessCrash(s: Stream)
    ensures !LineWidthOfAsWritten(s).0.Crashed? ==> LineWidthOfAsWritten(s) == LineWidthOf(s)
  {
    var (sk, s1) := SeekOn(s, 0, SeekStart);
    if sk.Ok? {
      var rd := ReadOn(s1, BufferLen);
      var filled := rd.chunk + ZeroBuffer()[rd.n..];
      assert filled[..rd.n] == rd.chunk;
      InnerWithinBuffer(filled, rd.n, 0);
      if !(rd.err.Some? && rd.err.value != EOF) && FirstNewline(rd.chunk) >= rd.n
         && rd.err != Some(EOF) && rd.n >= BufferLen {
        ScanAsWrittenPastFirstChunk(rd.next, filled, rd.n);
      }
    }
  }

  /** Outside the two faults (a panic in the scan, io.EOF from it), the
      constructor as written builds the same handler as the corrected one
      and leaves the handle in the same state. */
  lemma ConstructAsWrittenAgrees(s: Stream, options: seq<HandlerOption>)
    requires !LineWidthOfAsWritten(s).0.Crashed? && LineWidthOfAsWritten(s).0 != Failed(EOF)
    ensures ConstructAsWritten(s, options) == Construct(s, options)
  {
    WidthAsWrittenAgreesUnlessCrash(s);
  }

  /** Index bug: when the first chunk is 1000 bytes without '\n' and the
      handle holds more, the second pass indexes b[1000] and panics; the
      corrected scan returns the width of the first '\n' (or io.EOF). */
  lemma AsWrittenIndexOutOfRange(s: Stream, options: seq<HandlerOption>)
    requires Clean(s)
    requires |s.data| > BufferLen && FirstNewline(s.data) >= BufferLen
    ensures LineWidthOfAsWritten(s).0 == Crashed(IndexOutOfRange(BufferLen, BufferLen))
    ensures ConstructAsWritten(s, options).0 == Crashed(IndexOutOfRange(BufferLen, BufferLen))
    ensures LineWidthOf(s).0 ==
      (if FirstNewline(s.data) < |s.data| then Done(FirstNewline(s.data) + 1) else Failed(EOF))
  {
    CleanHandleWidth(s);
    var s1 := SeekOn(s, 0, SeekStart).1;
    assert s1.pos == 0 && SameDevice(s, s1);
    var rd := ReadOn(s1, BufferLen);
    assert rd.n == BufferLen && rd.err == None;
    FirstNewlineOfSlice(s.data, 0, rd.n);
    var filled := rd.chunk + ZeroBuffer()[rd.n..];
    assert filled[..rd.n] == rd.chunk;
    InnerWithinBuffer(filled, rd.n, 0);
    assert |filled| == BufferLen;
    var rd2 := ReadOn(rd.next, BufferLen);
    assert rd2.n > 0;
    ScanAsWrittenPastFirstChunk(rd.next, filled, BufferLen);
  }

  /** Zero-width bug: on a clean handle of at most 1000 bytes without '\n'
      (an empty one included), findLineWidth reports io.EOF, construction
      goes on with lineWidth 0 and findLineCount divides by zero; the
      corrected constructor reports the missing separator. */
  lemma AsWrittenDividesByZero(s: Stream, options: seq<HandlerOption>)
    requires s.faults == map[]
    requires |s.data| <= BufferLen && Newline !in s.data
    ensures ConstructAsWritten(s, options).0 == Crashed(IntegerDivideByZero)
    ensures Construct(s, options).0 == Failed(NoLineSeparator)
  {
    ShortDataWithoutNewline(s);
    var (w, s1) := LineWidthOfAsWritten(s);
    assert s1.calls !in s1.faults;
  }

  /** Both scans report io.EOF on a fault-free handle of at most 1000 bytes without '\n'. */
  lemma ShortDataWithoutNewline(s: Stream)
    requires s.faults == map[]
    requires |s.data| <= BufferLen && Newline !in s.data
    ensures LineWidthOfAsWritten(s).0 == Failed(EOF)
    ensures LineWidthOf(s).0 == Failed(EOF)
  {
    NewlineBefore(s.data);
    if Min(Min(BufferLen, s.maxRead), |s.data|) < BufferLen {
      ShortFirstReadWithoutNewline(s, []);
    } else {
      // a first read of all 1000 bytes, then a read that delivers nothing
      CleanHandleWidth(s);
      var s1 := SeekOn(s, 0, SeekStart).1;
      assert s1.pos == 0 && SameDevice(s, s1);
      var rd := ReadOn(s1, BufferLen);
      assert rd.n == BufferLen && rd.chunk == s.data;
      var filled := rd.chunk + ZeroBuffer()[rd.n..];
      assert filled[..rd.n] == rd.chunk;
      InnerWithinBuffer(filled, rd.n, 0);
      if rd.err != Some(EOF) {
        assert ReadOn(rd.next, BufferLen).n == 0;
        ScanAsWrittenPastFirstChunk(rd.next, filled, BufferLen);
      }
      WidthAsWrittenAgreesUnlessCrash(s);
    }
  }
}
