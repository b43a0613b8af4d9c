# Fixed-width line store: construction

This project models how the fixed-width line store of `yo3jones/storage`
(`storage/consistent_width.go`) is built over a storage handle. The store
treats a seekable, readable byte store as a sequence of equal-length lines,
each ending in `'\n'`. The constructor `NewConsistentWidthHandler` does four
things:

- it fills in the defaults: a growth increment of 500 lines and an empty list of free lines;
- it applies the caller's options in order;
- it detects the line width by scanning from offset 0 in 1000-byte reads for the first `'\n'` (`findLineWidth`);
- it derives the line count from the end offset (`findLineCount`), then rewinds the handle.

The model has three modules.

- `Io` (`io.dfy`) is the handle. Its state is a `Stream`: the bytes, the
  cursor, how many bytes one Read delivers at most, whether a Read that
  reaches the end reports EOF together with its bytes, and which calls fail
  with which I/O error. `ReadOn` and `SeekOn` are functions on that state.
  The class `Handle` has mutable `pos` and `calls` fields, and its `Read`
  and `Seek` methods follow those functions. `Read` fills an `array` the
  way Go's `Read` fills a slice.
- `ConsistentWidth` (`consistent_width.dfy`) holds the handler. Each step of
  construction is stated twice. A function on `Stream` is the specification
  (`LineWidthOf`, `LineCountOf`, `Construct`). A method of the class
  `ConsistentWidthHandler` updates the fields as the Go code does and is
  proved to agree with its function. The width scan appears twice. The
  code as written indexes the buffer by the running count `i`
  (`FindLineWidthAsWritten`, `NewConsistentWidthHandlerAsWritten`). The
  corrected code indexes it by the position in the chunk and reports a
  missing separator as an error (`FindLineWidth`,
  `NewConsistentWidthHandler`). Go's runtime panics are values of the
  outcome (`Crashed`).
- `ConstructionProofs` (`construction_proofs.dfy`) proves properties of the
  specification functions. It covers what a scan finds, which errors reach
  the caller, the fields after construction, and the two faults of the code
  as written.

## Model

| member | source | states |
|---|---|---|
| Io.ReadOn | storage/consistent_width.go:8 | One io.Reader Read: at most `len` bytes, namely the next bytes at the cursor, with the cursor moved past them. An injected failure delivers nothing and leaves the cursor in place. An empty reply to a non-empty buffer is EOF. The contents never change. |
| Io.SeekOn | storage/consistent_width.go:9 | One io.Seeker Seek: it succeeds exactly when the call is not set to fail and the target is not negative. On success the cursor and the returned offset are the origin plus the offset. On a failure the cursor stays where it was. |
| Io.Handle.Read | storage/consistent_width.go:8 | The bytes delivered fill the front of the buffer and the rest of the buffer keeps its old contents. The count, the error and the new handle state are those of `ReadOn`. |
| Io.Handle.Seek | storage/consistent_width.go:9 | The result and the new handle state are those of `SeekOn`. |
| ConsistentWidth.HandlerOption.Apply | storage/consistent_width.go:29-31 | The option overwrites the handler's growth increment with its value. Its frame allows no other field to change. |
| ConsistentWidth.ApplyOptions | storage/consistent_width.go:54-56 | The options loop as a function. Each option overwrites the increment, so the result is the last option's value, or the starting value when there are no options. This is proved by induction through the recursive call. |
| ConsistentWidth.ApplyAll | storage/consistent_width.go:54-56 | The loop over the options leaves the increment at `ApplyOptions` of the starting value, that is, the last option's value. Nothing else changes. |
| ConsistentWidth.ConsistentWidthHandler.constructor | storage/consistent_width.go:48-52 | A fresh handler holds the handle, a growth increment of 500, no free lines, and zero counts and width. |
| ConsistentWidth.FirstNewline | storage/consistent_width.go:98-103 | Where the corrected inner loop stops: the index of the chunk's first `'\n'`, or the chunk's length when there is none. It never exceeds the length, and FirstNewlineSpec and FirstNewlineIs pin its value. |
| ConsistentWidth.FirstNewlineSpec | storage/consistent_width.go:98-103 | No byte before the index FirstNewline gives is `'\n'`, and the byte at that index is `'\n'` unless the index is the end. |
| ConsistentWidth.FirstNewlineIs | storage/consistent_width.go:98-103 | FirstNewline gives the only index with no `'\n'` before it and a `'\n'` (or the end) at it. |
| ConsistentWidth.NewlineBefore | storage/consistent_width.go:98-103 | A chunk holds a `'\n'` exactly when FirstNewline stops before its end, and no `'\n'` comes before the index FirstNewline gives. |
| ConsistentWidth.ScanChunk | storage/consistent_width.go:98-103 | The inner loop, indexed by position in the chunk, stops at the first `'\n'` among the `n` bytes read, or at `n`. |
| ConsistentWidth.ScanChunkAsWritten | storage/consistent_width.go:98-103 | The inner loop as written, which tests `b[i]` and then increments `i` for `n` passes, hits a `'\n'`, runs out of passes, or leaves the buffer. |
| ConsistentWidth.ScanStep | storage/consistent_width.go:94-111 | One pass of the corrected loop after its read. A read error other than io.EOF ends the loop with exactly that error. Otherwise a `'\n'` among the bytes read ends the loop at its offset, and no `'\n'` comes before it in the chunk. Otherwise io.EOF ends the loop, whether the read reported it or came back short. The loop goes round again exactly when the read was full, had no error and held no `'\n'`, and the count then grows by the chunk's length. |
| ConsistentWidth.ScanFrom | storage/consistent_width.go:90-112 | The corrected scan loop, run pass by pass through ScanStep from a handle state. ScanFromFacts bounds its result, and ScanOnCleanHandle and CleanHandleWidth give its value. |
| ConsistentWidth.ScanFromFacts | storage/consistent_width.go:90-112 | The scan loop leaves the handle's contents alone and cannot panic. A width it finds is larger than the bytes scanned before it. |
| ConsistentWidth.InnerScanAsWritten | storage/consistent_width.go:98-103 | The inner loop as written. Every index it passes over lies inside the buffer and holds no `'\n'`. It stops in one of three ways: at a `'\n'` (Hit); at the first index outside the buffer before its `n` passes are done (OutOfRange, Go's bounds panic); or after exactly `n` passes (Exhausted). |
| ConsistentWidth.ScanStepAsWritten | storage/consistent_width.go:94-111 | One pass as written. A read error other than io.EOF ends the loop with exactly that error. A `'\n'` it finds lies in the buffer at or after the index the pass started from. A panic names an index outside the buffer. The loop goes round again only after a full read without error, and the count then grows by the chunk's length. Any other error is io.EOF. |
| ConsistentWidth.ScanFromAsWritten | storage/consistent_width.go:90-112 | The scan loop as written, from a handle state and the buffer's contents. It leaves the handle's contents alone, and any width it finds is larger than the bytes scanned before. WidthAsWrittenAgreesUnlessCrash and AsWrittenIndexOutOfRange give its value. |
| ConsistentWidth.LineWidthOf | storage/consistent_width.go:77-117 | Width detection cannot panic, leaves the contents alone, and any width it finds is at least 1. |
| ConsistentWidth.LineWidthOfAsWritten | storage/consistent_width.go:77-117 | Width detection as written leaves the contents alone. |
| ConsistentWidth.LineCountOf | storage/consistent_width.go:119-133 | The line count leaves the contents alone and cannot panic when the width is positive. |
| ConsistentWidth.Construct | storage/consistent_width.go:42-75 | Corrected construction leaves the contents alone and never panics. |
| ConsistentWidth.ConstructAsWritten | storage/consistent_width.go:42-75 | Construction as written leaves the contents alone. |
| ConsistentWidth.ConsistentWidthHandler.ScanPass | storage/consistent_width.go:91-111 | One pass of the corrected loop: the read's reply and the new handle state are those of `ReadOn`. The pass ends as the specification step `ScanStep` says, with the `'\n'` found, the error returned, or the count scanned so far. |
| ConsistentWidth.ConsistentWidthHandler.FindLineWidth | storage/consistent_width.go:77-117 | The corrected findLineWidth returns what `LineWidthOf` returns and leaves the handle in the same state. It sets `lineWidth` exactly on success and leaves it unchanged on any error. |
| ConsistentWidth.ConsistentWidthHandler.ScanPassAsWritten | storage/consistent_width.go:91-111 | One pass of the loop as written: the buffer after the read and the new handle state are those of `ReadOn`. The pass ends as `ScanStepAsWritten` says, which includes the index panic. |
| ConsistentWidth.ConsistentWidthHandler.FindLineWidthAsWritten | storage/consistent_width.go:77-117 | findLineWidth as written returns, or panics with, what `LineWidthOfAsWritten` gives. It sets `lineWidth` exactly on success. |
| ConsistentWidth.ConsistentWidthHandler.FindLineCount | storage/consistent_width.go:119-133 | findLineCount seeks to the end and sets both counts to that offset divided by `lineWidth`. It panics on a zero width. A seek error is returned and the counts are left alone. |
| ConsistentWidth.NewConsistentWidthHandler | storage/consistent_width.go:42-75 | Corrected construction ends as `Construct` says. On success it returns a fresh handler over the handle whose fields are `Construct`'s. |
| ConsistentWidth.NewConsistentWidthHandlerAsWritten | storage/consistent_width.go:42-75 | Construction as written ends as `ConstructAsWritten` says, panics included. On success the handler's fields are that function's. |
| ConstructionProofs.InnerWithinBuffer | storage/consistent_width.go:98-103 | While the index stays inside the buffer, the inner loop as written finds the first `'\n'` of the chunk, as the corrected loop does. |
| ConstructionProofs.ScanAsWrittenPastFirstChunk | storage/consistent_width.go:99 | After 1000 bytes have been scanned, any read that delivers a byte makes the loop as written index `b[i]` with `i >= 1000` and panic. Otherwise it agrees with the corrected scan. |
| ConstructionProofs.WidthIgnoresStartingCursor | storage/consistent_width.go:86-88 | Detection seeks to offset 0 first, so its result does not depend on where the cursor was. |
| ConstructionProofs.SeekFailureReturned | storage/consistent_width.go:86-88 | A failing seek to offset 0 is returned unchanged by detection (both versions) and by construction (both versions). |
| ConstructionProofs.ReadFailureReturned | storage/consistent_width.go:94-96 | A failing first read is returned unchanged by detection and by construction. |
| ConstructionProofs.NewlineInFirstChunk | storage/consistent_width.go:98-100 | A `'\n'` that the first read delivers, at offset i, gives width i+1. This holds whether or not that read also reports EOF, and in both versions. |
| ConstructionProofs.ShortFirstReadWithoutNewline | storage/consistent_width.go:105-111 | A short first read without `'\n'` ends detection with io.EOF even when the handle holds more bytes. Corrected construction then reports the missing separator. |
| ConstructionProofs.CleanStep | storage/consistent_width.go:91-111 | On a handle that never fails and whose every read fills the 1000-byte buffer while 1000 bytes remain (`maxRead` at least 1000), one pass finds the first `'\n'` of the data if the read delivers it. It stops with io.EOF only at the end of the data. Otherwise the loop goes on from the new cursor. |
| ConstructionProofs.ScanOnCleanHandle | storage/consistent_width.go:90-112 | On a handle that never fails and whose every read fills the 1000-byte buffer while 1000 bytes remain (`maxRead` at least 1000), the scan finds the first `'\n'` of the whole data, or reports io.EOF when there is none. |
| ConstructionProofs.CleanHandleWidth | storage/consistent_width.go:77-117 | On such a handle the corrected width is the offset of the first `'\n'` plus one, or io.EOF when there is no `'\n'`. |
| ConstructionProofs.ScanErrorsComeFromHandle | storage/consistent_width.go:94-96 | Every error of the scan is io.EOF or an I/O failure carrying one of the codes the handle was set to fail with. |
| ConstructionProofs.ScanFailureReturned | storage/consistent_width.go:94-96 | A read that fails, in any pass, ends both scans with exactly that failure. |
| ConstructionProofs.LineCountIsWholeLines | storage/consistent_width.go:129 | The count is the number of whole lines up to the end offset. A trailing partial line is dropped without an error, and the cursor is left at the end. |
| ConstructionProofs.ZeroWidthDividesByZero | storage/consistent_width.go:129 | findLineCount with width 0 panics whenever the seek to the end succeeds. |
| ConstructionProofs.ConstructedFields | storage/consistent_width.go:42-75 | After a successful construction the cursor is at 0 and the width is positive. Both counts equal the length divided by the width. The increment is the last option's value (500 without options), and the free list is empty. |
| ConstructionProofs.ConstructIgnoresStartingCursor | storage/consistent_width.go:86-88 | The result of construction does not depend on where the cursor was. |
| ConstructionProofs.ConstructErrorsComeFromHandle | storage/consistent_width.go:58-73 | Corrected construction fails only with the missing-separator error or with an I/O failure carrying one of the codes the handle was set to fail with. |
| ConstructionProofs.LaterSeekFailuresReturned | storage/consistent_width.go:66-72 | After a width is found, a failing seek to the end (line 125) or a failing rewind to offset 0 (line 70) is returned unchanged by both constructors. The constructor as written also goes on to the seek to the end after io.EOF, with width 0. |
| ConstructionProofs.ConstructOnCleanHandle | storage/consistent_width.go:42-75 | On a handle that never fails and whose every read fills the 1000-byte buffer while 1000 bytes remain (`maxRead` at least 1000), corrected construction succeeds exactly when the data holds a `'\n'`. The width is then the offset of the first `'\n'` plus one, both counts are the length divided by it, and the cursor is at 0. Otherwise it fails with the missing-separator error. |
| ConstructionProofs.WidthAsWrittenAgreesUnlessCrash | storage/consistent_width.go:98-103 | Wherever detection as written does not panic, it gives the corrected result and handle state. |
| ConstructionProofs.ConstructAsWrittenAgrees | storage/consistent_width.go:58-63 | When detection as written neither panics nor ends with io.EOF, construction as written equals corrected construction. |
| ConstructionProofs.AsWrittenIndexOutOfRange | storage/consistent_width.go:99 | On a handle that never fails and whose every read fills the 1000-byte buffer while 1000 bytes remain (`maxRead` at least 1000), with no `'\n'` in the first 1000 bytes and more data after them, detection and construction as written panic indexing `b[1000]`. The corrected detection finds the first `'\n'` or reports io.EOF. |
| ConstructionProofs.AsWrittenDividesByZero | storage/consistent_width.go:58-63 | On a fault-free handle of at most 1000 bytes without `'\n'`, the empty handle included, construction as written panics dividing by zero. Corrected construction reports the missing separator. |
| ConstructionProofs.ShortDataWithoutNewline | storage/consistent_width.go:105-111 | On such a handle both versions of detection end with io.EOF. |

## Left out

- The write side of the handle (`io.WriterAt`, storage/consistent_width.go:10) is not modelled, because construction never writes. The handle's contents are fixed.
- The handler's record operations are not modelled. `expand`, `Read` and `Update` are stubs that return zero values (storage/consistent_width.go:135-145). `Insert`, `Remove` and `GetLineWidth` are declared in the interface but not implemented, and growth and the free list are never used during construction.
- The mismatch between the interface's `Read` (three results, line 15) and the method's `Read` (two results) is a compile-time matter and has no behaviour to model.
- Concurrency is not modelled: the handler is not safe for concurrent use, and the model is sequential.
- Io.ReadOn: an I/O failure delivers no bytes. Go allows a Read to return bytes together with a non-EOF error, but the handler returns such an error at once, so the bytes make no difference.
- Io.ReadOn: one handle has one maximum read size (`maxRead`). A reader whose reply sizes vary from call to call (1000 bytes, then 300 with data still left) cannot be expressed. ScanStep and ScanStepAsWritten handle such replies, but no lemma about the whole scan reaches them.
- Io.ReadOn: a reply of zero bytes and no error to a non-empty buffer is not produced. io.Reader discourages it, and the handler would treat it as a short read ending in io.EOF.
- Go's `int` and `int64` widths are not modelled. All integers are unbounded: the offsets and counts here are far below 2^63, and both operands of the division are non-negative, so Go's truncating division is Dafny's `/`.
- The capacity (10) of the free-line slice is not modelled, because only its contents are observable.
- NewConsistentWidthHandler: the corrected constructor treats "no `'\n'` in the handle" as a fatal configuration error (`NoLineSeparator`), including for an empty handle. It does not defer the width to a first insert, because insert is not implemented. It also keeps the rule that a read shorter than 1000 bytes ends the scan (lines 109-111). So `NoLineSeparator` means "no `'\n'` before the first short read", and a reader that returns short reads in mid-stream can hide a later `'\n'` (ConstructionProofs.ShortFirstReadWithoutNewline).
- ConstructionProofs.LineCountIsWholeLines: the code divides and silently drops a trailing partial line. The model follows the code rather than reporting a length that is not a whole number of lines as corruption.
- Two behaviours of the code are kept in both models. First, nothing rewinds the handle between detection and counting: findLineCount seeks to the end itself (storage/consistent_width.go:119-127). Second, a trailing partial line is dropped by the division at line 129 (ConstructionProofs.LineCountIsWholeLines). A third is kept only in the model as written: io.EOF from detection falls through the empty branch at lines 58-61 into the division by zero at line 129. This is the second finding, and the corrected constructor reports `NoLineSeparator` instead.

## Findings

| source | as written | input that shows it | evidently intended | confidence | as-written member | corrected member |
|---|---|---|---|---|---|---|
| storage/consistent_width.go:99 | The inner loop tests `b[i]`, where `i` counts bytes across all chunks read so far, so the second 1000-byte chunk indexes `b[1000]` and Go panics | A handle that never fails and whose reads fill the 1000-byte buffer, holding 1000 bytes other than `'\n'` followed by `"\n"` | Test `b[j]`, the position in the current chunk, and keep `i` as the running offset, so the width is the offset of the first `'\n'` plus one | high; not executed | ConstructionProofs.AsWrittenIndexOutOfRange | ConstructionProofs.CleanHandleWidth |
| storage/consistent_width.go:58-61 | When findLineWidth returns io.EOF (no `'\n'` found), construction goes on with `lineWidth` 0, and findLineCount divides by it (line 129), so Go panics | An empty handle, or any handle of at most 1000 bytes without `'\n'` | Report the missing separator as an error of its own instead of going on with width 0 | high; not executed | ConstructionProofs.AsWrittenDividesByZero | ConstructionProofs.ConstructOnCleanHandle |
