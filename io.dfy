// The storage handle the handler borrows from its caller: something that can
// be read sequentially through a cursor and whose cursor can be moved with
// Seek (storage/consistent_width.go:7-11). The handler never writes during
// construction, so the contents are fixed here.
//
// Failures and the reader's delivery policy are parameters of the handle:
// `faults` maps the number of a Seek/Read call (counted from the handle's
// creation) to the code of the I/O error that call fails with; `maxRead` is
// the most bytes one Read delivers; `eofWithData` says whether a Read that
// reaches the end reports EOF together with its bytes (io.Reader allows both).
module Io {

  newtype byte = x: int | 0 <= x < 256

  /** The line separator '\n'. */
  const Newline: byte := 10

  datatype Option<T> = None | Some(value: T)

  /** Error values seen by the handler: io.EOF, an I/O failure reported by the
      handle, a seek to a negative position, and the storage layer's own
      "no line separator found". The last is not the handle's, but it shares
      this type so that, as with Go's single `error` type, the handler can
      pass the handle's errors on and add its own in one value. */
  datatype Error = EOF | IoFailure(code: int) | InvalidSeek | NoLineSeparator

  /** Go's (value, error) pair for the handle's Seek. */
  datatype Result<T> = Ok(value: T) | Err(error: Error)

  /** io.SeekStart and io.SeekEnd, the two origins the handler uses. */
  datatype Whence = SeekStart | SeekEnd

  /** The observable state of a handle. */
  datatype Stream = Stream(
    data: seq<byte>,
    pos: nat,
    maxRead: nat,
    eofWithData: bool,
    faults: map<nat, int>,
    calls: nat)

  /** Same contents and same behaviour; only the cursor and the call counter may differ. */
  ghost predicate SameDevice(s: Stream, t: Stream) {
    s.data == t.data && s.maxRead == t.maxRead &&
    s.eofWithData == t.eofWithData && s.faults == t.faults
  }

  /** Bytes between the cursor and the end of the data. */
  function Available(s: Stream): nat {
    if s.pos < |s.data| then |s.data| - s.pos else 0
  }

  function Min(a: nat, b: nat): nat {
    if a <= b then a else b
  }

  /** What one Read call delivers: the count, the error, the bytes, and the handle afterwards. */
  datatype ReadReply = ReadReply(n: nat, err: Option<Error>, chunk: seq<byte>, next: Stream)

  /** One io.Reader.Read into a buffer of `len` bytes. */
  function ReadOn(s: Stream, len: nat): (r: ReadReply)
    ensures SameDevice(s, r.next) && r.next.calls == s.calls + 1
    ensures r.n == |r.chunk| <= len
    // an injected failure delivers nothing and leaves the cursor where it was
    ensures s.calls in s.faults <==> r.err.Some? && r.err.value != EOF
    ensures s.calls in s.faults ==> r.err == Some(IoFailure(s.faults[s.calls])) && r.n == 0 && r.next.pos == s.pos
    // the bytes delivered are the next ones at the cursor, and the cursor moves past them
    ensures r.n > 0 ==> s.pos + r.n <= |s.data| && r.chunk == s.data[s.pos..s.pos + r.n]
    ensures r.n > 0 ==> r.next.pos == s.pos + r.n
    // no (0, nil) reply to a non-empty buffer
    ensures len > 0 && r.n == 0 && s.calls !in s.faults ==> r.err == Some(EOF)
    ensures Available(r.next) == Available(s) - r.n
  {
    var next := s.(calls := s.calls + 1);
    if s.calls in s.faults then
      ReadReply(0, Some(IoFailure(s.faults[s.calls])), [], next)
    else if len == 0 then
      ReadReply(0, None, [], next)
    else
      var n := Min(Min(len, s.maxRead), Available(s));
      if n == 0 then
        ReadReply(0, Some(EOF), [], next)
      else
        var end := s.pos + n;
        ReadReply(n, if s.eofWithData && end == |s.data| then Some(EOF) else None,
                  s.data[s.pos..end], next.(pos := end))
  }

  /** One io.Seeker.Seek: the new offset, or the error. */
  function SeekOn(s: Stream, offset: int, whence: Whence): (r: (Result<nat>, Stream))
    ensures SameDevice(s, r.1) && r.1.calls == s.calls + 1
    ensures s.calls in s.faults ==> r.0 == Err(IoFailure(s.faults[s.calls]))
    ensures r.0.Err? ==> r.1.pos == s.pos
    ensures r.0.Ok? <==> s.calls !in s.faults && 0 <= (if whence == SeekStart then 0 else |s.data|) + offset
    ensures r.0.Ok? ==> r.1.pos == r.0.value == (if whence == SeekStart then 0 else |s.data|) + offset
  {
    var next := s.(calls := s.calls + 1);
    var base := if whence == SeekStart then 0 else |s.data|;
    if s.calls in s.faults then (Err(IoFailure(s.faults[s.calls])), next)
    else if base + offset < 0 then (Err(InvalidSeek), next)
    else (Ok(base + offset), next.(pos := base + offset))
  }

  class Handle {
    const data: seq<byte>
    const maxRead: nat
    const eofWithData: bool
    const faults: map<nat, int>
    var pos: nat
    var calls: nat

    function State(): Stream
      reads this
    {
      Stream(data, pos, maxRead, eofWithData, faults, calls)
    }

    constructor (data: seq<byte>, maxRead: nat, eofWithData: bool, faults: map<nat, int>)
      ensures State() == Stream(data, 0, maxRead, eofWithData, faults, 0)
    {
      this.data, this.maxRead, this.eofWithData, this.faults := data, maxRead, eofWithData, faults;
      pos, calls := 0, 0;
    }

    method Seek(offset: int, whence: Whence) returns (r: Result<nat>)
      modifies this
      ensures (r, State()) == SeekOn(old(State()), offset, whence)
    {
      var (res, next) := SeekOn(State(), offset, whence);
      r := res;
      pos, calls := next.pos, next.calls;
    }

    /** Fills the front of `b` with the bytes delivered; the rest of `b` keeps its old contents. */
    method Read(b: array<byte>) returns (n: nat, err: Option<Error>)
      modifies this, b
      ensures var r := ReadOn(old(State()), b.Length);
        n == r.n && err == r.err && State() == r.next &&
        b[..] == r.chunk + old(b[..])[r.n..]
    {
      var reply := ReadOn(State(), b.Length);
      forall k | 0 <= k < reply.n {
        b[k] := reply.chunk[k];
      }
      n, err := reply.n, reply.err;
      pos, calls := reply.next.pos, reply.next.calls;
    }
  }
}
