/**
 * The framing layer (src/protocol/mod.rs): a message is serialized into a
 * buffer, and the buffer goes out behind its length as four big-endian
 * bytes. Also the crate's error type and the way it describes itself.
 */
module Protocol {
  import opened Wrappers
  import opened Wire
  import opened ProtocolDe

  // ---------------------------------------------------------------------
  // Errors.

  datatype Error = Io(err: IoError) | SequenceMustHaveLength | Custom(msg: string)

  const SEQUENCE_MESSAGE: string := "sequence / map must have known length"

  /** `Error::description`: an I/O error describes itself as its cause does. */
  function Description(e: Error): (d: string)
    ensures Cause(e).Some? ==> d == Cause(e).value.description
    ensures e.SequenceMustHaveLength? ==> d == SEQUENCE_MESSAGE
  {
    match e
    case Io(err) => err.description
    case SequenceMustHaveLength => SEQUENCE_MESSAGE
    case Custom(msg) => msg
  }

  /** `Error::cause`: only an I/O error has one, the error it wraps. */
  function Cause(e: Error): (c: Option<IoError>)
    ensures c.Some? <==> e.Io?
    ensures c.Some? ==> e == Io(c.value)
  {
    match e
    case Io(err) => Some(err)
    case SequenceMustHaveLength => None
    case Custom(_) => None
  }

  /** `From<io::Error>`: the I/O error is wrapped unchanged. */
  function FromIoError(err: IoError): (e: Error)
    ensures Cause(e) == Some(err) && Description(e) == err.description
  {
    Io(err)
  }

  /** `serde::de::Error::custom` and `serde::ser::Error::custom`, given the message's text. */
  function CustomError(desc: string): (e: Error)
    ensures Cause(e) == None && Description(e) == desc
  {
    Error.Custom(desc)
  }

  /**
   * `Display::fmt` exactly as written, given how many nested calls it may
   * make: `SequenceMustHaveLength` formats itself with `{}`, which calls fmt
   * on the same value again. `None` is a call that has not returned.
   */
  function DisplayAsWritten(e: Error, depth: nat): (r: Option<string>)
    ensures r.None? <==> e.SequenceMustHaveLength?
    decreases depth
  {
    match e
    case Io(err) => Some("IO error: " + err.display)
    case SequenceMustHaveLength => if depth == 0 then None else DisplayAsWritten(e, depth - 1)
    case Custom(s) => Some(s)
  }

  /**
   * `Display::fmt` as intended: the description stands in for the
   * self-reference, and every other error shows what the written one returns.
   */
  function Display(e: Error): (d: string)
    ensures e.SequenceMustHaveLength? ==> d == Description(e)
    ensures !e.SequenceMustHaveLength? ==> DisplayAsWritten(e, 0) == Some(d)
  {
    match e
    case Io(err) => "IO error: " + err.display
    case SequenceMustHaveLength => Description(e)
    case Custom(s) => s
  }

  /**
   * The intended display agrees with the written one wherever that one
   * returns, however deep calls may go; it shows an I/O error as the prefix
   * and the I/O error's own display text, a custom error as its own text, and
   * `SequenceMustHaveLength` as its description.
   */
  lemma DisplayAgrees(e: Error, depth: nat)
    ensures !e.SequenceMustHaveLength? ==> DisplayAsWritten(e, depth) == Some(Display(e))
    ensures e.Io? ==> Display(e) == "IO error: " + e.err.display
    ensures e.Custom? ==> Display(e) == Description(e)
    ensures e.SequenceMustHaveLength? ==> Display(e) == SEQUENCE_MESSAGE
  {
  }

  /** A custom error shows exactly the message it was made from. */
  lemma CustomShowsMessage(desc: string)
    ensures Display(CustomError(desc)) == desc && Description(CustomError(desc)) == desc
  {
  }

  // ---------------------------------------------------------------------
  // Serializing into a buffer.

  /**
   * The serializer's output buffer: every field is written as its text
   * followed by NUL, so a value goes out as the token stream `Tokens`.
   */
  class Serializer {
    var output: seq<byte>

    constructor ()
      ensures output == []
    {
      output := [];
    }

    method Serialize(v: Value, shape: Shape)
      requires Conforms(v, shape)
      modifies this
      ensures output == old(output) + Join(Tokens(v, shape))
    {
      output := output + Join(Tokens(v, shape));
    }
  }

  /**
   * `to_bytes`: a fresh serializer's whole output, or the error serializing
   * the value reported (`failure`, given by the caller). What it returns on
   * success decodes back to the value, using up exactly the buffer.
   */
  method ToBytes(v: Value, shape: Shape, failure: Option<Error>) returns (r: Result<seq<byte>, Error>)
    requires Conforms(v, shape)
    ensures failure.Some? ==> r == Err(failure.value)
    ensures failure.None? ==> r == Ok(Join(Tokens(v, shape)))
    ensures r.Ok? ==> Decode(shape, r.value, 0, None) == Decoded(v, |r.value|)
  {
    var s := new Serializer();
    s.Serialize(v, shape);
    assert s.output == Join(Tokens(v, shape));
    if failure.Some? {
      return Err(failure.value);
    }
    DecodeOfTokens(shape, v, s.output, 0, None);
    r := Ok(s.output);
  }

  // ---------------------------------------------------------------------
  // The frame.

  const U32_BOUND: nat := 0x1_0000_0000

  /** `u32::to_be_bytes`. */
  function BigEndian4(n: nat): (b: seq<byte>)
    requires n < U32_BOUND
    ensures |b| == 4
  {
    var m1 := n / 256;
    var m2 := m1 / 256;
    [(m2 / 256) as byte, (m2 % 256) as byte, (m1 % 256) as byte, (n % 256) as byte]
  }

  /** `u32::from_be_bytes`. */
  function FromBigEndian4(b: seq<byte>): (n: nat)
    requires |b| == 4
    ensures n < U32_BOUND
  {
    ((b[0] as nat * 256 + b[1] as nat) * 256 + b[2] as nat) * 256 + b[3] as nat
  }

  lemma BigEndian4RoundTrip(n: nat)
    requires n < U32_BOUND
    ensures FromBigEndian4(BigEndian4(n)) == n
  {
    var m1 := n / 256;
    var m2 := m1 / 256;
    assert n == m1 * 256 + n % 256;
    assert m1 == m2 * 256 + m1 % 256;
    assert m2 == (m2 / 256) * 256 + m2 % 256;
  }

  /** The length `to_writer` puts in front: `msg.len() as u32` keeps the low 32 bits. */
  function LengthPrefix(msg: seq<byte>): (b: seq<byte>)
    ensures |b| == 4
    ensures |msg| < U32_BOUND ==> FromBigEndian4(b) == |msg|
    ensures FromBigEndian4(b) == |msg| % U32_BOUND
  {
    BigEndian4RoundTrip(|msg| % U32_BOUND);
    BigEndian4(|msg| % U32_BOUND)
  }

  /** Everything `to_writer` sends for a message whose body is `msg`. */
  function Frame(msg: seq<byte>): (f: seq<byte>)
    ensures |f| == 4 + |msg| && f[4..] == msg
    ensures FromBigEndian4(f[..4]) == |msg| % U32_BOUND
  {
    var f := LengthPrefix(msg) + msg;
    assert f[..4] == LengthPrefix(msg);
    f
  }

  /**
   * Reading a frame back, as a helper for stating the frame's meaning: the
   * four length bytes, then that many body bytes; `None` when the data is
   * too short for either.
   */
  function ParseFrame(data: seq<byte>): Option<seq<byte>> {
    if |data| < 4 then None
    else
      var n := FromBigEndian4(data[..4]);
      if |data| - 4 < n then None else Some(data[4..4 + n])
  }

  /** A frame reads back as its body, whatever follows it, when the body's length fits in 32 bits. */
  lemma ParseFrameOfFrame(msg: seq<byte>, rest: seq<byte>)
    requires |msg| < U32_BOUND
    ensures ParseFrame(Frame(msg) + rest) == Some(msg)
  {
    var data := Frame(msg) + rest;
    assert data[..4] == Frame(msg)[..4];
    assert data[4..4 + |msg|] == msg;
  }

  /** A body of 2^32 bytes or more gets a length prefix that claims fewer bytes than follow. */
  lemma FrameTruncatesLength(msg: seq<byte>)
    requires |msg| >= U32_BOUND
    ensures FromBigEndian4(Frame(msg)[..4]) < |msg|
  {
  }

  // ---------------------------------------------------------------------
  // The byte sink.

  /** Which of `buf` a sink that has taken `used` bytes and holds at most `capacity` takes. */
  function Accepted(capacity: Option<nat>, used: nat, buf: seq<byte>): (a: seq<byte>)
    requires capacity.None? || used <= capacity.value
    ensures |a| <= |buf| && a == buf[..|a|]
    ensures capacity.Some? ==> used + |a| <= capacity.value
    ensures Fits(capacity, used, |buf|) <==> a == buf
  {
    if Fits(capacity, used, |buf|) then buf else buf[..capacity.value - used]
  }

  predicate Fits(capacity: Option<nat>, used: nat, n: nat) {
    capacity.None? || used + n <= capacity.value
  }

  /** Two writes in a row take what one write of both would, if the second is made only after the first fits. */
  lemma AcceptedSplit(capacity: Option<nat>, used: nat, a: seq<byte>, b: seq<byte>)
    requires capacity.None? || used <= capacity.value
    ensures Fits(capacity, used, |a|) ==>
      Accepted(capacity, used, a + b) == a + Accepted(capacity, used + |a|, b)
    ensures !Fits(capacity, used, |a|) ==> Accepted(capacity, used, a + b) == Accepted(capacity, used, a)
    ensures Fits(capacity, used, |a| + |b|) <==> Fits(capacity, used, |a|) && Fits(capacity, used + |a|, |b|)
  {
    if Fits(capacity, used, |a|) && !Fits(capacity, used + |a|, |b|) {
      assert (a + b)[..capacity.value - used] == a + b[..capacity.value - used - |a|];
    }
    if !Fits(capacity, used, |a|) {
      assert (a + b)[..capacity.value - used] == a[..capacity.value - used];
    }
  }

  /**
   * A `std::io::Write` that takes bytes until it holds `capacity` of them
   * (never, when there is no capacity), and then fails with `error`.
   * `write_all` stops at the first failure, keeping what was taken before it.
   * `calls` records the buffer of every `write_all` call made so far.
   */
  class Writer {
    var written: seq<byte>
    ghost var calls: seq<seq<byte>>
    const capacity: Option<nat>
    const error: IoError

    ghost predicate Valid()
      reads this
    {
      capacity.None? || |written| <= capacity.value
    }

    constructor (capacity: Option<nat>, error: IoError)
      ensures Valid() && written == [] && calls == [] && this.capacity == capacity && this.error == error
    {
      written := [];
      calls := [];
      this.capacity := capacity;
      this.error := error;
    }

    method WriteAll(buf: seq<byte>) returns (r: Result<(), IoError>)
      requires Valid()
      modifies this
      ensures Valid()
      ensures written == old(written) + Accepted(capacity, |old(written)|, buf)
      ensures calls == old(calls) + [buf]
      ensures r == if Fits(capacity, |old(written)|, |buf|) then Ok(()) else Err(error)
    {
      r := if Fits(capacity, |written|, |buf|) then Ok(()) else Err(error);
      written := written + Accepted(capacity, |written|, buf);
      calls := calls + [buf];
    }
  }

  /**
   * `to_writer`: when serializing fails, that error comes back and the writer
   * is not called. Otherwise the frame of the serialization goes to the
   * writer: the length first, and if the writer fails on it, the body is not
   * written and the writer's error comes back as `Error::Io`.
   */
  method ToWriter(w: Writer, v: Value, shape: Shape, failure: Option<Error>) returns (r: Result<(), Error>)
    requires w.Valid() && Conforms(v, shape)
    modifies w
    ensures w.Valid()
    ensures failure.Some? ==> r == Err(failure.value) && w.written == old(w.written) && w.calls == old(w.calls)
    ensures failure.None? ==> var msg := Join(Tokens(v, shape)); var f := Frame(msg);
      w.written == old(w.written) + Accepted(w.capacity, |old(w.written)|, f) &&
      w.calls == old(w.calls) + FrameCalls(w.capacity, |old(w.written)|, msg) &&
      r == if Fits(w.capacity, |old(w.written)|, |f|) then Ok(()) else Err(FromIoError(w.error))
  {
    var msg := ToBytes(v, shape, failure);
    if msg.Err? {
      return Err(msg.error);
    }
    r := WriteFrame(w, msg.value);
  }

  /** The `write_all` calls `to_writer` makes: the length prefix, and the body only once the prefix went through. */
  function FrameCalls(capacity: Option<nat>, used: nat, msg: seq<byte>): (calls: seq<seq<byte>>)
    ensures 1 <= |calls| <= 2 && calls[0] == LengthPrefix(msg)
    ensures |calls| == 2 <==> Fits(capacity, used, 4)
    ensures |calls| == 1 || calls[1] == msg
  {
    if Fits(capacity, used, 4) then [LengthPrefix(msg), msg] else [LengthPrefix(msg)]
  }

  /** The two `write_all` calls of `to_writer`: the length prefix, then the body. */
  method WriteFrame(w: Writer, msg: seq<byte>) returns (r: Result<(), Error>)
    requires w.Valid()
    modifies w
    ensures w.Valid()
    ensures w.written == old(w.written) + Accepted(w.capacity, |old(w.written)|, Frame(msg))
    ensures w.calls == old(w.calls) + FrameCalls(w.capacity, |old(w.written)|, msg)
    ensures r == if Fits(w.capacity, |old(w.written)|, 4 + |msg|) then Ok(()) else Err(FromIoError(w.error))
  {
    ghost var before := w.written;
    var prefix := LengthPrefix(msg);
    assert Frame(msg) == prefix + msg;
    AcceptedSplit(w.capacity, |before|, prefix, msg);
    var r1 := w.WriteAll(prefix);
    if r1.Err? {
      return Err(FromIoError(r1.error));
    }
    var r2 := w.WriteAll(msg);
    if r2.Err? {
      return Err(FromIoError(r2.error));
    }
    r := Ok(());
  }

  /**
   * When the writer cannot take the four length bytes, none of the body
   * reaches it: the bytes taken are those of the prefix alone (and `FrameCalls`
   * says the body is not even offered).
   */
  lemma NoBodyAfterFailedPrefix(capacity: Option<nat>, used: nat, msg: seq<byte>)
    requires capacity.None? || used <= capacity.value
    requires !Fits(capacity, used, 4)
    ensures Accepted(capacity, used, Frame(msg)) == Accepted(capacity, used, LengthPrefix(msg))
    ensures |Accepted(capacity, used, Frame(msg))| < 4
  {
    AcceptedSplit(capacity, used, LengthPrefix(msg), msg);
  }

  /** A writer with room for the frame receives exactly 4 + |msg| bytes, and they read back as the body. */
  lemma WholeFrameWritten(capacity: Option<nat>, used: nat, msg: seq<byte>)
    requires capacity.None? || used <= capacity.value
    requires Fits(capacity, used, 4 + |msg|) && |msg| < U32_BOUND
    ensures |Accepted(capacity, used, Frame(msg))| == 4 + |msg|
    ensures ParseFrame(Accepted(capacity, used, Frame(msg))) == Some(msg)
  {
    ParseFrameOfFrame(msg, []);
    assert Frame(msg) + [] == Frame(msg);
  }
}
