/** Reading one line through a buffered reader whose refills arrive in arbitrary chunks:
    the answer depends on the bytes alone. */
module LineReader {
  import opened Wrappers
  import opened Text

  const NEWLINE: Byte := 10

  function Flatten(chunks: seq<seq<Byte>>): seq<Byte> {
    if chunks == [] then [] else chunks[0] + Flatten(chunks[1..])
  }

  function Longest(chunks: seq<seq<Byte>>): nat {
    if chunks == [] then 0
    else if |chunks[0]| > Longest(chunks[1..]) then |chunks[0]| else Longest(chunks[1..])
  }

  /** Where the first newline stands, or the length if there is none. */
  function NewlineAt(s: seq<Byte>): (i: nat)
    ensures i <= |s|
    ensures forall k | 0 <= k < i :: s[k] != NEWLINE
    ensures i < |s| ==> s[i] == NEWLINE
  {
    if s == [] || s[0] == NEWLINE then 0 else 1 + NewlineAt(s[1..])
  }

  /** The first line with its newline, or everything if none ends. */
  function FirstLine(s: seq<Byte>): seq<Byte> {
    if NewlineAt(s) < |s| then s[..NewlineAt(s) + 1] else s
  }

  /** The answer on a whole stream, which ends in an error if `broken`: none if the line
      is too long, if nothing is left, or if the error comes first. */
  function WholeLine(s: seq<Byte>, broken: bool, maxBytes: nat): Option<seq<Byte>> {
    if s == [] || |FirstLine(s)| > maxBytes then None
    else if broken && NewlineAt(s) == |s| then None
    else Some(FirstLine(s))
  }

  /** A buffered reader: what is buffered, the refills to come, and how they end. */
  class Reader {
    const broken: bool
    var buffer: seq<Byte>
    var chunks: seq<seq<Byte>>

    ghost predicate Valid()
      reads this
    {
      forall i | 0 <= i < |chunks| :: chunks[i] != []
    }

    ghost function Stream(): seq<Byte>
      reads this
    {
      buffer + Flatten(chunks)
    }

    /** The longest piece a refill can hand out. */
    ghost function Reach(): nat
      reads this
    {
      if |buffer| > Longest(chunks) then |buffer| else Longest(chunks)
    }

    constructor (chunks: seq<seq<Byte>>, broken: bool)
      requires forall i | 0 <= i < |chunks| :: chunks[i] != []
      ensures Valid() && Stream() == Flatten(chunks) && this.broken == broken
    {
      buffer, this.chunks, this.broken := [], chunks, broken;
    }

    /** `fill_buf`: empty only at the end of the stream. */
    method FillBuf() returns (r: Result<seq<Byte>, ()>)
      requires Valid()
      modifies this
      ensures Valid() && Stream() == old(Stream()) && Reach() <= old(Reach())
      ensures r.Ok? ==> r.value == buffer && (buffer == [] ==> Stream() == [] && !broken)
      ensures r.Err? ==> broken && Stream() == []
    {
      if buffer == [] && chunks != [] {
        buffer, chunks := chunks[0], chunks[1..];
      }
      if buffer == [] && broken {
        return Err(());
      }
      r := Ok(buffer);
    }

    method Consume(n: nat)
      requires Valid() && n <= |buffer|
      modifies `buffer
      ensures Valid() && Stream() == old(Stream())[n..] && buffer == old(buffer)[n..] && Reach() <= old(Reach())
    {
      assert (buffer + Flatten(chunks))[n..] == buffer[n..] + Flatten(chunks);
      buffer := buffer[n..];
    }
  }

  method FindNewline(s: seq<Byte>) returns (i: nat)
    ensures i == NewlineAt(s)
  {
    i := 0;
    while i < |s| && s[i] != NEWLINE
      invariant i <= |s| && NewlineAt(s) == i + NewlineAt(s[i..])
    {
      assert s[i..][1..] == s[i + 1..];
      i := i + 1;
    }
  }

  lemma {:induction false} NewlineInConcat(a: seq<Byte>, b: seq<Byte>)
    ensures NewlineAt(a + b) == if NewlineAt(a) < |a| then NewlineAt(a) else |a| + NewlineAt(b)
  {
    if a == [] {
      assert a + b == b;
    } else if a[0] != NEWLINE {
      assert (a + b)[1..] == a[1..] + b;
      NewlineInConcat(a[1..], b);
    }
  }

  /** Takes what is buffered, through the first newline if there is one. */
  method TakeBuffered(reader: Reader) returns (piece: seq<Byte>, ended: bool)
    requires reader.Valid() && reader.buffer != []
    modifies reader
    ensures reader.Valid() && reader.Reach() <= old(reader.Reach())
    ensures piece + reader.Stream() == old(reader.Stream()) && 0 < |piece| <= old(reader.Reach())
    ensures NewlineAt(piece) == if ended then |piece| - 1 else |piece|
  {
    hide NewlineAt, Longest, Flatten;
    var available := reader.buffer;
    var pos := FindNewline(available);
    ended := pos < |available|;
    var n := if ended then pos + 1 else |available|;
    NewlineInPrefix(available, n);
    piece := available[..n];
    TakenAndLeft(available, Flatten(reader.chunks), n);
    reader.Consume(n);
  }

  lemma TakenAndLeft(available: seq<Byte>, rest: seq<Byte>, n: nat)
    requires n <= |available|
    ensures available[..n] + (available + rest)[n..] == available + rest
  {
  }

  /** `read_line_bounded`. The result is a function of the stream, not of its chunks; a
      returned line is exactly what was consumed; and the buffer never outgrew the limit
      by more than one refill. */
  method ReadLineBounded(reader: Reader, maxBytes: nat) returns (line: Option<seq<Byte>>, ghost peak: nat)
    requires reader.Valid()
    modifies reader
    ensures reader.Valid()
    ensures line == WholeLine(old(reader.Stream()), reader.broken, maxBytes)
    ensures line.Some? ==> line.value + reader.Stream() == old(reader.Stream())
    ensures peak <= maxBytes + old(reader.Reach())
  {
    hide WholeLine, NewlineAt, Longest, Flatten;
    var buf: seq<Byte> := [];
    ghost var stream := reader.Stream();
    peak := 0;
    NoNewline();
    while true
      invariant reader.Valid() && reader.Reach() <= old(reader.Reach())
      invariant buf + reader.Stream() == stream
      invariant NewlineAt(buf) == |buf| && |buf| <= maxBytes
      invariant peak <= maxBytes + old(reader.Reach())
      decreases |reader.Stream()|
    {
      var filled := reader.FillBuf();
      if filled.Err? {
        EndOfStream(buf, stream, true, maxBytes);
        return None, peak;
      }
      if |filled.value| == 0 {
        EndOfStream(buf, stream, false, maxBytes);
        return if |buf| == 0 then None else Some(buf), peak;
      }
      var piece, ended := TakeBuffered(reader);
      NewlineInConcat(buf, piece);
      assert buf + (piece + reader.Stream()) == (buf + piece) + reader.Stream();
      buf := buf + piece;
      peak := if |buf| > peak then |buf| else peak;
      if |buf| > maxBytes {
        TooLong(buf, stream, reader.Stream(), reader.broken, maxBytes);
        return None, peak;
      }
      if ended {
        LineFound(buf, stream, reader.Stream(), reader.broken, maxBytes);
        return Some(buf), peak;
      }
    }
  }

  lemma NoNewline()
    ensures NewlineAt([]) == 0
  {
  }

  /** A prefix that ends just after the first newline, or before any. */
  lemma {:induction false} NewlineInPrefix(s: seq<Byte>, n: nat)
    requires n <= |s| && n <= NewlineAt(s) + 1
    ensures NewlineAt(s[..n]) == if n <= NewlineAt(s) then n else NewlineAt(s)
  {
    if n > 0 && s[0] != NEWLINE {
      assert s[..n][1..] == s[1..][..n - 1];
      NewlineInPrefix(s[1..], n - 1);
    }
  }

  lemma EndOfStream(buf: seq<Byte>, stream: seq<Byte>, broken: bool, maxBytes: nat)
    requires stream == buf + [] && NewlineAt(buf) == |buf| && |buf| <= maxBytes
    ensures WholeLine(stream, broken, maxBytes) == if broken || buf == [] then None else Some(buf)
  {
    assert stream == buf;
  }

  /** What was read so far holds no newline before its last byte and is too long already. */
  lemma TooLong(buf: seq<Byte>, stream: seq<Byte>, rest: seq<Byte>, broken: bool, maxBytes: nat)
    requires stream == buf + rest && |buf| > maxBytes && NewlineAt(buf) >= |buf| - 1
    ensures WholeLine(stream, broken, maxBytes) == None
  {
    NewlineInConcat(buf, rest);
  }

  lemma LineFound(buf: seq<Byte>, stream: seq<Byte>, rest: seq<Byte>, broken: bool, maxBytes: nat)
    requires stream == buf + rest && 0 < |buf| <= maxBytes && NewlineAt(buf) == |buf| - 1
    ensures WholeLine(stream, broken, maxBytes) == Some(buf)
  {
    NewlineInConcat(buf, rest);
    assert stream[..|buf|] == buf;
  }

  // ---- what the answer is ------------------------------------------------------------------

  /** The answer is a line exactly when it is a non-empty prefix of the stream within the
      limit that ends in its only newline, or is the whole unbroken stream without one. */
  lemma WholeLineIff(s: seq<Byte>, broken: bool, maxBytes: nat, line: seq<Byte>)
    ensures WholeLine(s, broken, maxBytes) == Some(line) <==>
            && 0 < |line| <= maxBytes && line <= s
            && (forall k | 0 <= k < |line| - 1 :: line[k] != NEWLINE)
            && (line[|line| - 1] == NEWLINE || (line == s && !broken))
  {
    if 0 < |line| && line <= s && forall k | 0 <= k < |line| - 1 :: line[k] != NEWLINE {
      assert s == line + s[|line|..];
      assert line[|line| - 1] == NEWLINE ==> NewlineAt(s) == |line| - 1;
      assert s[..|line|] == line;
    }
  }
}
