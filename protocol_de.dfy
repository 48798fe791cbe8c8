/**
 * The token reader of the protocol (src/protocol/de.rs). Every field,
 * whatever its type, is a byte string ended by NUL; a struct is its fields
 * one after another with nothing in front. The buffered reader is a byte
 * sequence with a cursor; an I/O failure of the underlying reader is a
 * `Fault` at a byte position.
 */
module ProtocolDe {
  import opened Wrappers
  import opened Wire

  /** An `std::io::Error`, as the two texts the codec takes from it: `description()` and its `Display` text. */
  datatype IoError = IoError(description: string, display: string)

  /** Reading the byte at index `at` fails with `error`. */
  datatype Fault = Fault(at: nat, error: IoError)

  /** The serde value error this deserializer reports. */
  datatype DeError = Custom(message: string) | InvalidLength(len: nat)

  /** `convert_io_error`: the I/O error's description becomes a custom error. */
  function ConvertIoError(e: IoError): DeError {
    Custom(e.description)
  }

  predicate NoFaultIn(fault: Option<Fault>, lo: nat, hi: nat) {
    fault.None? || fault.value.at < lo || hi <= fault.value.at
  }

  /** The bytes `s` sit in `data` from index `pos` on. */
  predicate At(data: seq<byte>, pos: nat, s: seq<byte>) {
    pos + |s| <= |data| && forall i :: 0 <= i < |s| ==> data[pos + i] == s[i]
  }

  lemma AtSlice(data: seq<byte>, pos: nat, s: seq<byte>)
    requires At(data, pos, s)
    ensures data[pos..pos + |s|] == s
  {
  }

  /** Two pieces next to each other sit where their concatenation does. */
  lemma AtSplit(data: seq<byte>, pos: nat, a: seq<byte>, b: seq<byte>)
    requires At(data, pos, a + b)
    ensures At(data, pos, a) && At(data, pos + |a|, b)
  {
    forall i | 0 <= i < |a| ensures data[pos + i] == a[i] {
      assert (a + b)[i] == a[i];
    }
    forall i | 0 <= i < |b| ensures data[pos + |a| + i] == b[i] {
      assert (a + b)[|a| + i] == b[i];
    }
  }

  // ---------------------------------------------------------------------
  // One `read_until(delim)`.

  /** The index of the first `d` at or after `from`, or |s| if there is none. */
  function IndexOf(s: seq<byte>, from: nat, d: byte): (j: nat)
    requires from <= |s|
    ensures from <= j <= |s|
    ensures j < |s| ==> s[j] == d
    ensures forall k :: from <= k < j ==> s[k] != d
    decreases |s| - from
  {
    if from == |s| || s[from] == d then from else IndexOf(s, from + 1, d)
  }

  /** Any position that has only non-`d` bytes before it and `d` or the end at it is `IndexOf`. */
  lemma {:induction false} IndexOfIs(s: seq<byte>, from: nat, d: byte, p: nat)
    requires from <= p <= |s|
    requires forall k :: from <= k < p ==> s[k] != d
    requires p == |s| || s[p] == d
    ensures IndexOf(s, from, d) == p
    decreases p - from
  {
    if from < p {
      IndexOfIs(s, from + 1, d, p);
    }
  }

  /** Where `read_until` stops when nothing fails: past the delimiter, or at the end. */
  function ReadUntilEnd(data: seq<byte>, pos: nat, d: byte): nat
    requires pos <= |data|
  {
    var j := IndexOf(data, pos, d);
    if j < |data| then j + 1 else |data|
  }

  /** What `read_until` appends, where it leaves the cursor, and the error it reports. */
  datatype Appended = Appended(bytes: seq<byte>, pos: nat, error: Option<IoError>)

  function ReadUntilSpec(data: seq<byte>, pos: nat, d: byte, fault: Option<Fault>): (r: Appended)
    requires pos <= |data|
    ensures pos <= r.pos <= |data| && r.bytes == data[pos..r.pos]
  {
    var end := ReadUntilEnd(data, pos, d);
    if fault.Some? && pos <= fault.value.at < end then
      Appended(data[pos..fault.value.at], fault.value.at, Some(fault.value.error))
    else
      Appended(data[pos..end], end, None)
  }

  /** Where the byte loop of `read_until` stops, and what the call then reports. */
  lemma ReadUntilStop(data: seq<byte>, start: nat, p: nat, d: byte, fault: Option<Fault>)
    requires start <= p <= |data|
    requires forall k :: start <= k < p ==> data[k] != d
    requires NoFaultIn(fault, start, p)
    requires p == |data| || data[p] == d || (fault.Some? && fault.value.at == p)
    ensures var a := ReadUntilSpec(data, start, d, fault);
      if p < |data| && fault.Some? && fault.value.at == p then a == Appended(data[start..p], p, Some(fault.value.error))
      else if p < |data| then a == Appended(data[start..p + 1], p + 1, None)
      else a == Appended(data[start..p], p, None)
  {
    IndexOfIs(data, start, d, if p < |data| && data[p] != d then IndexOf(data, p, d) else p);
  }

  // ---------------------------------------------------------------------
  // `read_string`: read through the first NUL, drop the last byte, and turn
  // the rest into text.

  /** `Vec::pop`, keeping the rest. */
  function Pop(b: seq<byte>): seq<byte> {
    if |b| > 0 then b[..|b| - 1] else b
  }

  /** The bytes `read_string` keeps before converting them, and where the cursor ends. */
  datatype Token = Token(result: Result<seq<byte>, DeError>, pos: nat)

  function ReadToken(data: seq<byte>, pos: nat, fault: Option<Fault>): (r: Token)
    requires pos <= |data|
    ensures pos <= r.pos <= |data|
  {
    var a := ReadUntilSpec(data, pos, NUL, fault);
    if a.error.Some? then Token(Err(ConvertIoError(a.error.value)), a.pos)
    else Token(Ok(Pop(a.bytes)), a.pos)
  }

  datatype Read = Read(result: Result<string, DeError>, pos: nat)

  function ReadStringSpec(data: seq<byte>, pos: nat, fault: Option<Fault>): (r: Read)
    requires pos <= |data|
    ensures pos <= r.pos <= |data|
  {
    var t := ReadToken(data, pos, fault);
    if t.result.Err? then Read(Err(t.result.error), t.pos) else Read(Ok(Text(t.result.value)), t.pos)
  }

  /** A token never holds a NUL. */
  lemma ReadTokenNulFree(data: seq<byte>, pos: nat, fault: Option<Fault>)
    requires pos <= |data|
    ensures var r := ReadToken(data, pos, fault);
      r.result.Ok? ==> NulFree(r.result.value)
  {
    var r := ReadToken(data, pos, fault);
    if r.result.Ok? {
      var j := IndexOf(data, pos, NUL);
      assert r.result.value == data[pos..j] || r.result.value == data[pos..|data| - 1];
    }
  }

  /** The same for the text `read_string` returns. */
  lemma ReadStringNulFree(data: seq<byte>, pos: nat, fault: Option<Fault>)
    requires pos <= |data|
    ensures var r := ReadStringSpec(data, pos, fault);
      r.result.Ok? ==> forall i :: 0 <= i < |r.result.value| ==> r.result.value[i] != '\0'
  {
    ReadTokenNulFree(data, pos, fault);
  }

  /** A token ended by a NUL is followed by that NUL, and the cursor is right past it. */
  lemma ReadTokenConsumes(data: seq<byte>, pos: nat, fault: Option<Fault>)
    requires pos <= |data|
    requires IndexOf(data, pos, NUL) < |data|
    ensures var r := ReadToken(data, pos, fault);
      r.result.Ok? ==> r.pos == IndexOf(data, pos, NUL) + 1 && data[pos..r.pos] == r.result.value + [NUL]
  {
    var r := ReadToken(data, pos, fault);
    if r.result.Ok? {
      var j := IndexOf(data, pos, NUL);
      assert data[pos..j + 1] == data[pos..j] + [NUL];
    }
  }

  /** An exhausted reader yields the empty string, not an error, and stays where it is. */
  lemma ReadStringAtEnd(data: seq<byte>, fault: Option<Fault>)
    ensures ReadStringSpec(data, |data|, fault) == Read(Ok(""), |data|)
  {
  }

  /** Data that ends without a NUL loses its last byte to the pop. */
  lemma ReadStringUnterminated(data: seq<byte>, pos: nat, fault: Option<Fault>)
    requires pos < |data|
    requires forall k :: pos <= k < |data| ==> data[k] != NUL
    requires NoFaultIn(fault, pos, |data|)
    ensures ReadStringSpec(data, pos, fault) == Read(Ok(Text(data[pos..|data| - 1])), |data|)
  {
    IndexOfIs(data, pos, NUL, |data|);
    assert Pop(data[pos..|data|]) == data[pos..|data| - 1];
  }

  /** A failing reader turns into a custom error carrying the I/O error's description. */
  lemma ReadStringFault(data: seq<byte>, pos: nat, f: Fault)
    requires pos <= |data| && pos <= f.at < ReadUntilEnd(data, pos, NUL)
    ensures ReadStringSpec(data, pos, Some(f)) == Read(Err(Custom(f.error.description)), f.at)
  {
  }

  /** Reading `t` followed by NUL gives back `t` and moves past the NUL. */
  lemma ReadTokenOf(data: seq<byte>, pos: nat, fault: Option<Fault>, t: seq<byte>)
    requires NulFree(t) && At(data, pos, t + [NUL])
    requires NoFaultIn(fault, pos, pos + |t| + 1)
    ensures ReadToken(data, pos, fault) == Token(Ok(t), pos + |t| + 1)
  {
    AtSplit(data, pos, t, [NUL]);
    forall k | pos <= k < pos + |t|
      ensures data[k] != NUL
    {
      assert data[pos + (k - pos)] == t[k - pos];
    }
    assert data[pos + |t| + 0] == [NUL][0];
    IndexOfIs(data, pos, NUL, pos + |t|);
    AtSlice(data, pos, t);
    assert data[pos..pos + |t| + 1][..|t|] == data[pos..pos + |t|];
  }

  lemma ReadStringOf(data: seq<byte>, pos: nat, fault: Option<Fault>, t: seq<byte>)
    requires NulFree(t) && At(data, pos, t + [NUL])
    requires NoFaultIn(fault, pos, pos + |t| + 1)
    ensures ReadStringSpec(data, pos, fault) == Read(Ok(Text(t)), pos + |t| + 1)
  {
    ReadTokenOf(data, pos, fault, t);
  }

  // ---------------------------------------------------------------------
  // What the deserializer decodes. `deserialize_u64`, `deserialize_str`,
  // `deserialize_string` and `deserialize_struct` are implemented; every other
  // request is forwarded to `deserialize`, which panics.

  datatype Shape = U64 | Str | String | Struct(fields: seq<Shape>) | Unsupported(kind: string)

  datatype Outcome = Decoded(value: Value, pos: nat) | Failed(error: DeError, pos: nat) | Panicked

  function Decode(shape: Shape, data: seq<byte>, pos: nat, fault: Option<Fault>): (r: Outcome)
    requires pos <= |data|
    ensures !r.Panicked? ==> pos <= r.pos <= |data|
    decreases shape
  {
    match shape
    case U64 =>
      var r := ReadStringSpec(data, pos, fault);
      if r.result.Err? then Failed(r.result.error, r.pos)
      else if ParseU64(r.result.value).None? then Panicked
      else Decoded(Int(ParseU64(r.result.value).value), r.pos)
    case Str =>
      var r := ReadStringSpec(data, pos, fault);
      if r.result.Err? then Failed(r.result.error, r.pos) else Decoded(Value.Str(r.result.value), r.pos)
    case String =>
      var r := ReadStringSpec(data, pos, fault);
      if r.result.Err? then Failed(r.result.error, r.pos) else Decoded(Value.Str(r.result.value), r.pos)
    case Struct(fs) => DecodeFields(shape, 0, [], data, pos, fault)
    case Unsupported(_) => Panicked
  }

  /** The struct's fields from the `i`-th on, each decoded where the previous one stopped. */
  function DecodeFields(shape: Shape, i: nat, done: seq<Value>, data: seq<byte>, pos: nat, fault: Option<Fault>): (r: Outcome)
    requires shape.Struct? && i <= |shape.fields| && pos <= |data|
    ensures !r.Panicked? ==> pos <= r.pos <= |data|
    ensures r.Decoded? ==> r.value.Record? && |r.value.fields| == |done| + |shape.fields| - i
    decreases shape, |shape.fields| - i
  {
    if i == |shape.fields| then Decoded(Record(done), pos)
    else match Decode(shape.fields[i], data, pos, fault)
      case Decoded(v, p) => DecodeFields(shape, i + 1, done + [v], data, p, fault)
      case Failed(e, p) => Failed(e, p)
      case Panicked => Panicked
  }

  /** The values a shape describes: strings are NUL-free Latin text and numbers fit in u64. */
  predicate Conforms(v: Value, shape: Shape)
    decreases shape
  {
    match shape
    case U64 => v.Int? && 0 <= v.i < U64_BOUND
    case Str => v.Str? && IsLatin(v.s) && NulFree(Bytes(v.s))
    case String => v.Str? && IsLatin(v.s) && NulFree(Bytes(v.s))
    case Struct(fs) =>
      v.Record? && |v.fields| == |fs| && forall i :: 0 <= i < |fs| ==> Conforms(v.fields[i], fs[i])
    case Unsupported(_) => false
  }

  /** The tokens of a conforming value, field by field: the stream a serializer of this format writes. */
  function Tokens(v: Value, shape: Shape): (ts: seq<seq<byte>>)
    requires Conforms(v, shape)
    ensures forall i :: 0 <= i < |ts| ==> NulFree(ts[i])
    decreases shape, 1
  {
    match shape
    case U64 => DecimalTextNulFree(v.i); [Bytes(DecimalText(v.i))]
    case Str => [Bytes(v.s)]
    case String => [Bytes(v.s)]
    case Struct(fs) => FieldTokens(v, shape, 0)
  }

  function FieldTokens(v: Value, shape: Shape, i: nat): (ts: seq<seq<byte>>)
    requires shape.Struct? && Conforms(v, shape) && i <= |shape.fields|
    ensures forall k :: 0 <= k < |ts| ==> NulFree(ts[k])
    decreases shape, 0, |shape.fields| - i
  {
    if i == |shape.fields| then []
    else Tokens(v.fields[i], shape.fields[i]) + FieldTokens(v, shape, i + 1)
  }

  /** A number's token reads back as the number. */
  lemma DecodeU64OfToken(n: nat, data: seq<byte>, pos: nat, fault: Option<Fault>)
    requires n < U64_BOUND
    requires At(data, pos, Join([Bytes(DecimalText(n))]))
    requires NoFaultIn(fault, pos, pos + |Join([Bytes(DecimalText(n))])|)
    ensures Decode(Shape.U64, data, pos, fault) == Decoded(Int(n), pos + |Join([Bytes(DecimalText(n))])|)
  {
    var t := Bytes(DecimalText(n));
    DecimalTextNulFree(n);
    JoinOne(t);
    ReadStringOf(data, pos, fault, t);
    TextOfBytes(DecimalText(n));
    ParseU64OfDecimal(n);
  }

  /** A string's token reads back as the string, whether it is borrowed or owned. */
  lemma DecodeTextOfToken(shape: Shape, s: string, data: seq<byte>, pos: nat, fault: Option<Fault>)
    requires shape == Shape.Str || shape == Shape.String
    requires IsLatin(s) && NulFree(Bytes(s))
    requires At(data, pos, Join([Bytes(s)]))
    requires NoFaultIn(fault, pos, pos + |Join([Bytes(s)])|)
    ensures Decode(shape, data, pos, fault) == Decoded(Value.Str(s), pos + |Join([Bytes(s)])|)
  {
    JoinOne(Bytes(s));
    ReadStringOf(data, pos, fault, Bytes(s));
    TextOfBytes(s);
  }

  /**
   * Round trip: the token stream of a conforming value decodes back to it,
   * using exactly its bytes, wherever it sits in the reader's data.
   */
  lemma {:induction false} DecodeOfTokens(shape: Shape, v: Value, data: seq<byte>, pos: nat, fault: Option<Fault>)
    requires Conforms(v, shape)
    requires At(data, pos, Join(Tokens(v, shape)))
    requires NoFaultIn(fault, pos, pos + |Join(Tokens(v, shape))|)
    ensures Decode(shape, data, pos, fault) == Decoded(v, pos + |Join(Tokens(v, shape))|)
    decreases shape, 2
  {
    match shape
    case U64 => DecodeU64OfToken(v.i, data, pos, fault);
    case Str => DecodeTextOfToken(shape, v.s, data, pos, fault);
    case String => DecodeTextOfToken(shape, v.s, data, pos, fault);
    case Struct(fs) => DecodeStructOfTokens(shape, v, data, pos, fault);
  }

  lemma DecodeStructOfTokens(shape: Shape, v: Value, data: seq<byte>, pos: nat, fault: Option<Fault>)
    requires shape.Struct? && Conforms(v, shape)
    requires At(data, pos, Join(FieldTokens(v, shape, 0)))
    requires NoFaultIn(fault, pos, pos + |Join(FieldTokens(v, shape, 0))|)
    ensures Decode(shape, data, pos, fault) == Decoded(v, pos + |Join(FieldTokens(v, shape, 0))|)
    decreases shape, 1
  {
    var ends := LayOut(v, shape, 0, data, pos, fault);
    FieldsDecode(shape, v, data, fault, ends);
    DecodeFieldsFrom(shape, v, 0, data, fault, ends);
    PrefixNone(v.fields);
  }

  /** Each field laid out in the stream decodes back to itself. */
  lemma FieldsDecode(shape: Shape, v: Value, data: seq<byte>, fault: Option<Fault>, ends: seq<nat>)
    requires shape.Struct? && |ends| == |shape.fields| + 1
    requires forall j :: 0 <= j < |shape.fields| ==> FieldAt(v, shape, j, data, ends[j], ends[j + 1], fault)
    ensures forall j :: 0 <= j < |shape.fields| ==> FieldDecodes(shape, v, j, data, fault, ends)
    decreases shape, 0
  {
    forall j | 0 <= j < |shape.fields| ensures FieldDecodes(shape, v, j, data, fault, ends) {
      assert FieldAt(v, shape, j, data, ends[j], ends[j + 1], fault);
      DecodeOfTokens(shape.fields[j], v.fields[j], data, ends[j], fault);
    }
  }

  /** Field `j` of `v` occupies `data[p..q]`, as its own token stream, with no fault inside. */
  predicate FieldAt(v: Value, shape: Shape, j: nat, data: seq<byte>, p: nat, q: nat, fault: Option<Fault>)
  {
    && shape.Struct? && v.Record? && j < |shape.fields| && j < |v.fields|
    && Conforms(v.fields[j], shape.fields[j])
    && q == p + |Join(Tokens(v.fields[j], shape.fields[j]))|
    && At(data, p, Join(Tokens(v.fields[j], shape.fields[j])))
    && NoFaultIn(fault, p, p + |Join(Tokens(v.fields[j], shape.fields[j]))|)
  }

  /**
   * Where each field's stream lies inside the stream of fields `i..`: the
   * boundaries `ends[i] <= ... <= ends[|fields|]`, each field between two.
   */
  lemma {:induction false} LayOut(v: Value, shape: Shape, i: nat, data: seq<byte>, pos: nat, fault: Option<Fault>)
    returns (ends: seq<nat>)
    requires shape.Struct? && Conforms(v, shape) && i <= |shape.fields|
    requires At(data, pos, Join(FieldTokens(v, shape, i)))
    requires NoFaultIn(fault, pos, pos + |Join(FieldTokens(v, shape, i))|)
    ensures |ends| == |shape.fields| + 1 && ends[i] == pos
    ensures ends[|shape.fields|] == pos + |Join(FieldTokens(v, shape, i))|
    ensures forall j :: i <= j < |shape.fields| ==> FieldAt(v, shape, j, data, ends[j], ends[j + 1], fault)
    decreases |shape.fields| - i
  {
    if i == |shape.fields| {
      ends := seq(|shape.fields| + 1, _ => pos);
    } else {
      FieldTokensSplit(v, shape, i, data, pos, fault);
      var p := pos + |Join(Tokens(v.fields[i], shape.fields[i]))|;
      var rest := LayOut(v, shape, i + 1, data, p, fault);
      ends := rest[i := pos];
      forall j | i < j <= |shape.fields| ensures ends[j] == rest[j] { }
    }
  }

  /** Field `j` decodes from boundary `ends[j]` and stops at `ends[j + 1]`. */
  predicate FieldDecodes(shape: Shape, v: Value, j: nat, data: seq<byte>, fault: Option<Fault>, ends: seq<nat>)
  {
    && shape.Struct? && v.Record? && j < |shape.fields| && j < |v.fields| && j + 1 < |ends|
    && ends[j] <= ends[j + 1] <= |data|
    && Decode(shape.fields[j], data, ends[j], fault) == Decoded(v.fields[j], ends[j + 1])
  }

  /**
   * `deserialize_struct` reads the fields strictly in order: when each field
   * decodes from where the previous one stopped, the struct decodes to all of
   * them and stops where the last one did.
   */
  lemma {:induction false} DecodeFieldsFrom(shape: Shape, v: Value, i: nat, data: seq<byte>, fault: Option<Fault>, ends: seq<nat>)
    requires shape.Struct? && v.Record? && |v.fields| == |shape.fields| && i <= |shape.fields|
    requires |ends| == |shape.fields| + 1 && ends[i] <= |data|
    requires forall j :: i <= j < |shape.fields| ==> FieldDecodes(shape, v, j, data, fault, ends)
    ensures DecodeFields(shape, i, v.fields[..i], data, ends[i], fault) == Decoded(v, ends[|shape.fields|])
    decreases |shape.fields| - i
  {
    if i == |shape.fields| {
      PrefixAll(v.fields);
    } else {
      assert FieldDecodes(shape, v, i, data, fault, ends);
      DecodeFieldsFrom(shape, v, i + 1, data, fault, ends);
      DecodeFieldsStep(shape, v, i, data, ends[i], fault, ends[i + 1], ends[|shape.fields|], ends[|shape.fields|]);
    }
  }

  /** Decoding field `i` and then the fields after it is decoding from field `i` on. */
  lemma DecodeFieldsStep(shape: Shape, v: Value, i: nat, data: seq<byte>, pos: nat, fault: Option<Fault>, p: nat, q: nat, e: nat)
    requires shape.Struct? && i < |shape.fields| && v.Record? && i < |v.fields| && pos <= p <= |data| && q == e
    requires Decode(shape.fields[i], data, pos, fault) == Decoded(v.fields[i], p)
    requires DecodeFields(shape, i + 1, v.fields[..i + 1], data, p, fault) == Decoded(v, q)
    ensures DecodeFields(shape, i, v.fields[..i], data, pos, fault) == Decoded(v, e)
  {
    PrefixStep(v.fields, i);
  }

  lemma PrefixNone(s: seq<Value>)
    ensures s[..0] == []
  {
  }

  lemma PrefixAll(s: seq<Value>)
    ensures s[..|s|] == s
  {
  }

  lemma PrefixStep(s: seq<Value>, i: nat)
    requires i < |s|
    ensures s[..i] + [s[i]] == s[..i + 1]
  {
  }

  /** The stream of fields `i..` is field `i`'s stream followed by that of the fields after it. */
  lemma FieldTokensSplit(v: Value, shape: Shape, i: nat, data: seq<byte>, pos: nat, fault: Option<Fault>)
    requires shape.Struct? && Conforms(v, shape) && i < |shape.fields|
    requires At(data, pos, Join(FieldTokens(v, shape, i)))
    requires NoFaultIn(fault, pos, pos + |Join(FieldTokens(v, shape, i))|)
    ensures v.Record? && i < |v.fields| && Conforms(v.fields[i], shape.fields[i])
    ensures var p := pos + |Join(Tokens(v.fields[i], shape.fields[i]))|;
      && p + |Join(FieldTokens(v, shape, i + 1))| == pos + |Join(FieldTokens(v, shape, i))|
      && At(data, pos, Join(Tokens(v.fields[i], shape.fields[i])))
      && At(data, p, Join(FieldTokens(v, shape, i + 1)))
      && NoFaultIn(fault, pos, p)
      && NoFaultIn(fault, p, p + |Join(FieldTokens(v, shape, i + 1))|)
  {
    var head := Tokens(v.fields[i], shape.fields[i]);
    var tail := FieldTokens(v, shape, i + 1);
    assert FieldTokens(v, shape, i) == head + tail;
    JoinAppend(head, tail);
    AtSplit(data, pos, Join(head), Join(tail));
  }

  // ---------------------------------------------------------------------
  // The reader and the deserializer.

  /** A buffered reader: the bytes it will deliver and how far it has got. */
  class Reader {
    const data: seq<byte>
    const fault: Option<Fault>
    var pos: nat

    ghost predicate Valid()
      reads this
    {
      pos <= |data|
    }

    constructor (data: seq<byte>, fault: Option<Fault>, pos: nat)
      requires pos <= |data|
      ensures Valid() && this.data == data && this.fault == fault && this.pos == pos
    {
      this.data := data;
      this.fault := fault;
      this.pos := pos;
    }

    /** `BufRead::read_until`: append bytes through the first `delim`, or to the end. */
    method ReadUntil(delim: byte, buffer: seq<byte>) returns (buf: seq<byte>, r: Result<nat, IoError>)
      requires Valid()
      modifies this
      ensures Valid()
      ensures var a := ReadUntilSpec(data, old(pos), delim, fault);
        buf == buffer + a.bytes && pos == a.pos &&
        r == (if a.error.Some? then Err(a.error.value) else Ok(|a.bytes|))
    {
      var start := pos;
      var p := pos;
      buf := buffer;
      while p < |data| && data[p] != delim && !(fault.Some? && fault.value.at == p)
        invariant start <= p <= |data|
        invariant buf == buffer + data[start..p]
        invariant forall k :: start <= k < p ==> data[k] != delim
        invariant NoFaultIn(fault, start, p)
        decreases |data| - p
      {
        buf := buf + [data[p]];
        p := p + 1;
      }
      ReadUntilStop(data, start, p, delim, fault);
      if p < |data| && fault.Some? && fault.value.at == p {
        pos := p;
        r := Err(fault.value.error);
        return;
      }
      if p < |data| {
        assert data[start..p] + [data[p]] == data[start..p + 1];
        buf := buf + [data[p]];
        p := p + 1;
      }
      pos := p;
      r := Ok(p - start);
    }
  }

  /** Decodes the protocol from a borrowed reader; the reader's position is the cursor. */
  class Deserializer {
    const reader: Reader
    var next: byte

    /** `Deserializer::new`: nothing is read, and `next` starts at 0. */
    constructor New(r: Reader)
      ensures reader == r && next == 0
      ensures unchanged(r)
    {
      reader := r;
      next := 0;
    }

    method ReadString() returns (res: Result<string, DeError>)
      requires reader.Valid()
      modifies reader
      ensures reader.Valid()
      ensures Read(res, reader.pos) == ReadStringSpec(reader.data, old(reader.pos), reader.fault)
    {
      ghost var a := ReadUntilSpec(reader.data, reader.pos, NUL, reader.fault);
      var buffer: seq<byte> := [];
      var r;
      buffer, r := reader.ReadUntil(NUL, buffer);
      assert buffer == a.bytes;
      if r.Err? {
        return Err(ConvertIoError(r.error));
      }
      if |buffer| > 0 {
        buffer := buffer[..|buffer| - 1];
      }
      res := Ok(Text(buffer));
    }

    /** The result of a decode method agrees with the outcome `Decode` predicts. */
    ghost predicate Agrees(res: Result<Value, DeError>, o: Outcome)
      reads reader
    {
      match o
      case Decoded(v, p) => res == Ok(v) && reader.pos == p
      case Failed(e, p) => res == Err(e) && reader.pos == p
      case Panicked => false
    }

    /** One token, parsed as a decimal u64; a token that does not parse panics. */
    method DeserializeU64() returns (res: Result<Value, DeError>)
      requires reader.Valid()
      requires Decode(Shape.U64, reader.data, reader.pos, reader.fault) != Panicked
      modifies reader
      ensures reader.Valid()
      ensures Agrees(res, Decode(Shape.U64, reader.data, old(reader.pos), reader.fault))
    {
      var s := ReadString();
      if s.Err? {
        return Err(s.error);
      }
      res := Ok(Int(ParseU64(s.value).value));
    }

    method DeserializeStr() returns (res: Result<Value, DeError>)
      requires reader.Valid()
      modifies reader
      ensures reader.Valid()
      ensures Agrees(res, Decode(Shape.Str, reader.data, old(reader.pos), reader.fault))
    {
      var s := ReadString();
      if s.Err? {
        return Err(s.error);
      }
      res := Ok(Value.Str(s.value));
    }

    method DeserializeString() returns (res: Result<Value, DeError>)
      requires reader.Valid()
      modifies reader
      ensures reader.Valid()
      ensures Agrees(res, Decode(Shape.String, reader.data, old(reader.pos), reader.fault))
    {
      var s := ReadString();
      if s.Err? {
        return Err(s.error);
      }
      res := Ok(Value.Str(s.value));
    }

    /** What a field's `Deserialize` asks of this deserializer, by the field's shape. */
    method Deserialize(shape: Shape) returns (res: Result<Value, DeError>)
      requires reader.Valid()
      requires Decode(shape, reader.data, reader.pos, reader.fault) != Panicked
      modifies reader
      ensures reader.Valid()
      ensures Agrees(res, Decode(shape, reader.data, old(reader.pos), reader.fault))
      decreases shape, 1
    {
      match shape
      case U64 => res := DeserializeU64();
      case Str => res := DeserializeStr();
      case String => res := DeserializeString();
      case Struct(_) => res := DeserializeStruct(shape);
    }

    /** The struct visitor: each field in declaration order, read from the same cursor. */
    method DeserializeStruct(shape: Shape) returns (res: Result<Value, DeError>)
      requires shape.Struct? && reader.Valid()
      requires Decode(shape, reader.data, reader.pos, reader.fault) != Panicked
      modifies reader
      ensures reader.Valid()
      ensures Agrees(res, Decode(shape, reader.data, old(reader.pos), reader.fault))
      decreases shape, 0
    {
      var i := 0;
      var done: seq<Value> := [];
      while i < |shape.fields|
        invariant 0 <= i <= |shape.fields| && reader.Valid()
        invariant DecodeFields(shape, i, done, reader.data, reader.pos, reader.fault)
               == Decode(shape, reader.data, old(reader.pos), reader.fault)
        decreases |shape.fields| - i
      {
        var v := Deserialize(shape.fields[i]);
        if v.Err? {
          return Err(v.error);
        }
        done := done + [v.value];
        i := i + 1;
      }
      res := Ok(Record(done));
    }
  }
}
