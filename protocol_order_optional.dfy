/**
 * `OptionalType` (src/protocol/order.rs): a type name, then a value of that
 * type only when the name is not empty. Its visitor over any sequence of
 * elements, and its instance over the field deserializer of de.rs.
 */
module ProtocolOrderOptional {
  import opened Wrappers
  import opened Wire
  import opened ProtocolDe

  // The struct request ignores its field list, so the visitor sees a plain
  // sequence of elements.

  datatype OptionalType<T> = None | Some(kind: string, t: T)

  /** The name a non-string element gets when it is read as the kind. */
  const INVALID_KIND: DeError := Custom("invalid type: expected a string")

  /** A sequence access over elements each already deserialized, or failed. */
  class SeqAccess {
    var rest: seq<Result<Value, DeError>>

    constructor (elements: seq<Result<Value, DeError>>)
      ensures rest == elements
    {
      rest := elements;
    }

    /** `next_element`: the next element's outcome, or nothing once the elements run out. */
    method NextElement() returns (e: Result<Option<Value>, DeError>)
      modifies this
      ensures old(rest) == [] ==> e == Ok(Option.None) && rest == []
      ensures old(rest) != [] ==> rest == old(rest)[1..]
      ensures old(rest) != [] && old(rest)[0].Ok? ==> e == Ok(Option.Some(old(rest)[0].value))
      ensures old(rest) != [] && old(rest)[0].Err? ==> e == Err(old(rest)[0].error)
    {
      if rest == [] {
        e := Ok(Option.None);
      } else {
        var head := rest[0];
        rest := rest[1..];
        e := if head.Ok? then Ok(Option.Some(head.value)) else Err(head.error);
      }
    }
  }

  /** What `visit_seq` returns and how many elements it took. */
  datatype Visited = Visited(result: Result<OptionalType<Value>, DeError>, taken: nat)

  /**
   * `visit_seq`, when a missing payload is reported as an invalid length of
   * `payload_missing`; a missing kind is always reported as length 0.
   */
  function VisitSeqReporting(elements: seq<Result<Value, DeError>>, payload_missing: nat): (r: Visited)
    ensures r.taken <= |elements| && r.taken <= 2
    ensures r.result.Ok? ==> r.taken >= 1 && elements[0].Ok? && elements[0].value.Str?
  {
    if |elements| == 0 then Visited(Err(InvalidLength(0)), 0)
    else if elements[0].Err? then Visited(Err(elements[0].error), 1)
    else if !elements[0].value.Str? then Visited(Err(INVALID_KIND), 1)
    else if elements[0].value.s == "" then Visited(Ok(OptionalType.None), 1)
    else if |elements| == 1 then Visited(Err(InvalidLength(payload_missing)), 1)
    else if elements[1].Err? then Visited(Err(elements[1].error), 2)
    else Visited(Ok(OptionalType.Some(elements[0].value.s, elements[1].value)), 2)
  }

  /** `visit_seq` as written: a missing payload is reported as length 0 too. */
  function VisitSeqAsWritten(elements: seq<Result<Value, DeError>>): (r: Visited)
    ensures (forall i :: 0 <= i < |elements| ==> elements[i].Ok?) && r.result.Err? && r.result.error.InvalidLength?
      ==> r.result.error.len == 0
  {
    VisitSeqReporting(elements, 0)
  }

  /** `visit_seq` reporting, as serde's `invalid_length` asks, how many elements it received. */
  function VisitSeqCorrected(elements: seq<Result<Value, DeError>>): (r: Visited)
    ensures (forall i :: 0 <= i < |elements| ==> elements[i].Ok?) && r.result.Err? && r.result.error.InvalidLength?
      ==> r.result.error.len == |elements|
  {
    VisitSeqReporting(elements, 1)
  }

  /** `visit_seq` as written, taking the elements and stopping after the kind when it is empty. */
  method VisitSeq(access: SeqAccess) returns (r: Result<OptionalType<Value>, DeError>)
    modifies access
    ensures r == VisitSeqAsWritten(old(access.rest)).result
    ensures access.rest == old(access.rest)[VisitSeqAsWritten(old(access.rest)).taken..]
  {
    var kind := access.NextElement();
    if kind.Err? {
      return Err(kind.error);
    }
    if kind.value.None? {
      return Err(InvalidLength(0));
    }
    if !kind.value.value.Str? {
      return Err(INVALID_KIND);
    }
    if kind.value.value.s == "" {
      return Ok(OptionalType.None);
    }
    var t := access.NextElement();
    if t.Err? {
      return Err(t.error);
    }
    if t.value.None? {
      return Err(InvalidLength(0));
    }
    r := Ok(OptionalType.Some(kind.value.value.s, t.value.value));
  }

  /** The elements an optional type is written as: the kind, then the value unless the kind is empty. */
  function OptionalElements(o: OptionalType<Value>): (es: seq<Result<Value, DeError>>)
    ensures |es| == if o.None? then 1 else 2
  {
    match o
    case None => [Ok(Value.Str(""))]
    case Some(kind, t) => [Ok(Value.Str(kind)), Ok(t)]
  }

  // ---------------------------------------------------------------------
  // `OptionalType` over the deserializer of src/protocol/de.rs, whose
  // sequence never runs out: every element is one more field read.

  datatype OptionalOutcome =
    | OptionalDecoded(value: OptionalType<Value>, pos: nat)
    | OptionalFailed(error: DeError, pos: nat)
    | OptionalPanicked

  /** The kind is read as a `String`, which is one `read_string`; the value follows only after a non-empty kind. */
  function DecodeOptional(t: Shape, data: seq<byte>, pos: nat, fault: Option<Fault>): (r: OptionalOutcome)
    requires pos <= |data|
    ensures !r.OptionalPanicked? ==> pos <= r.pos <= |data|
  {
    var k := ReadStringSpec(data, pos, fault);
    if k.result.Err? then OptionalFailed(k.result.error, k.pos)
    else if k.result.value == "" then OptionalDecoded(OptionalType.None, k.pos)
    else match Decode(t, data, k.pos, fault)
      case Failed(e, q) => OptionalFailed(e, q)
      case Panicked => OptionalPanicked
      case Decoded(v, q) => OptionalDecoded(OptionalType.Some(k.result.value, v), q)
  }

  /** The elements the de.rs sequence hands the visitor: the kind, then the value's outcome if it is asked for. */
  function StreamElements(t: Shape, data: seq<byte>, pos: nat, fault: Option<Fault>): seq<Result<Value, DeError>>
    requires pos <= |data|
  {
    var k := ReadStringSpec(data, pos, fault);
    if k.result.Err? then [Err(k.result.error)]
    else if k.result.value == "" then [Ok(Value.Str(""))]
    else match Decode(t, data, k.pos, fault)
      case Failed(e, _) => [Ok(Value.Str(k.result.value)), Err(e)]
      case Panicked => []
      case Decoded(v, _) => [Ok(Value.Str(k.result.value)), Ok(v)]
  }

  /** The optional types the format can carry: a Latin, NUL-free kind, and a conforming value after a non-empty one. */
  predicate OptionalConforms(o: OptionalType<Value>, t: Shape) {
    match o
    case None => true
    case Some(kind, v) => kind != "" && IsLatin(kind) && NulFree(Bytes(kind)) && Conforms(v, t)
  }

  /** The tokens of an optional type: one empty token, or the kind's token and then the value's. */
  function OptionalTokens(o: OptionalType<Value>, t: Shape): (ts: seq<seq<byte>>)
    requires OptionalConforms(o, t)
    ensures o.None? ==> ts == [[]]
  {
    match o
    case None => [Bytes("")]
    case Some(kind, v) => [Bytes(kind)] + Tokens(v, t)
  }

  // ---------------------------------------------------------------------
  // What the optional type promises.

  /** An optional type's elements visit back to it, and a kind that is empty leaves the rest untouched. */
  lemma VisitSeqRoundTrip(o: OptionalType<Value>, rest: seq<Result<Value, DeError>>)
    requires o.Some? ==> o.kind != ""
    ensures VisitSeqAsWritten(OptionalElements(o) + rest) == Visited(Ok(o), |OptionalElements(o)|)
    ensures VisitSeqCorrected(OptionalElements(o) + rest) == Visited(Ok(o), |OptionalElements(o)|)
  {
  }

  /** Conversely, whatever the visitor accepts is an optional type's elements, with a non-empty kind for `Some`. */
  lemma VisitSeqAccepted(es: seq<Result<Value, DeError>>)
    ensures var r := VisitSeqCorrected(es);
      r.result.Ok? ==> es[..r.taken] == OptionalElements(r.result.value) && (r.result.value.Some? ==> r.result.value.kind != "")
  {
  }

  /** The sequence runs out before the visitor is done: no elements, or a non-empty kind alone. */
  predicate RanOut(es: seq<Result<Value, DeError>>) {
    |es| == 0 || (|es| == 1 && es[0].Ok? && es[0].value.Str? && es[0].value.s != "")
  }

  /** Corrected, running out is reported with the number of elements received. */
  lemma CorrectedLengthCounts(es: seq<Result<Value, DeError>>)
    ensures RanOut(es) ==> VisitSeqCorrected(es) == Visited(Err(InvalidLength(|es|)), |es|)
  {
  }

  /** As written, a kind without its value is reported as length 0 although one element was received. */
  lemma PayloadMissingReportsZero()
    ensures VisitSeqAsWritten([Ok(Value.Str("x"))]) == Visited(Err(InvalidLength(0)), 1)
  {
  }

  /** The two visitors differ on that input alone. */
  lemma AsWrittenDiffersOnlyThere(es: seq<Result<Value, DeError>>)
    ensures VisitSeqAsWritten(es) != VisitSeqCorrected(es) <==> |es| == 1 && RanOut(es)
  {
  }

  /** Over de.rs, decoding an optional type is the visitor run on the elements that deserializer hands out. */
  lemma DecodeOptionalVisits(t: Shape, data: seq<byte>, pos: nat, fault: Option<Fault>)
    requires pos <= |data| && DecodeOptional(t, data, pos, fault) != OptionalPanicked
    ensures var r, es := DecodeOptional(t, data, pos, fault), StreamElements(t, data, pos, fault);
      !RanOut(es) &&
      (r.OptionalDecoded? ==> VisitSeqAsWritten(es).result == Ok(r.value)) &&
      (r.OptionalFailed? ==> VisitSeqAsWritten(es).result == Err(r.error))
  {
  }

  /** Round trip: the tokens of a conforming optional type decode back to it, using exactly its bytes. */
  lemma DecodeOptionalOfTokens(o: OptionalType<Value>, t: Shape, data: seq<byte>, pos: nat, fault: Option<Fault>)
    requires OptionalConforms(o, t)
    requires At(data, pos, Join(OptionalTokens(o, t)))
    requires NoFaultIn(fault, pos, pos + |Join(OptionalTokens(o, t))|)
    ensures DecodeOptional(t, data, pos, fault) == OptionalDecoded(o, pos + |Join(OptionalTokens(o, t))|)
  {
    if o.None? {
      JoinOne([]);
      assert [] + [NUL] == [NUL];
      DecodeNoneOfToken(t, data, pos, fault);
    } else {
      JoinAppend([Bytes(o.kind)], Tokens(o.t, t));
      JoinOne(Bytes(o.kind));
      DecodeSomeOfTokens(o.kind, o.t, t, data, pos, fault);
    }
  }

  /** An empty kind's token is the whole optional type. */
  lemma DecodeNoneOfToken(t: Shape, data: seq<byte>, pos: nat, fault: Option<Fault>)
    requires At(data, pos, [NUL]) && NoFaultIn(fault, pos, pos + 1)
    ensures DecodeOptional(t, data, pos, fault) == OptionalDecoded(OptionalType.None, pos + 1)
  {
    assert [] + [NUL] == [NUL];
    ReadStringOf(data, pos, fault, []);
    assert Text([]) == "";
  }

  /** A non-empty kind's token, then the value's tokens. */
  lemma DecodeSomeOfTokens(kind: string, v: Value, t: Shape, data: seq<byte>, pos: nat, fault: Option<Fault>)
    requires kind != "" && IsLatin(kind) && NulFree(Bytes(kind)) && Conforms(v, t)
    requires At(data, pos, (Bytes(kind) + [NUL]) + Join(Tokens(v, t)))
    requires NoFaultIn(fault, pos, pos + |Bytes(kind)| + 1 + |Join(Tokens(v, t))|)
    ensures DecodeOptional(t, data, pos, fault)
         == OptionalDecoded(OptionalType.Some(kind, v), pos + |Bytes(kind)| + 1 + |Join(Tokens(v, t))|)
  {
    KindTokenRead(kind, Join(Tokens(v, t)), data, pos, fault);
    SomeAfterKind(kind, v, t, data, pos, fault);
  }

  /** Once the kind has been read, the value's tokens that follow make the optional type `Some`. */
  lemma SomeAfterKind(kind: string, v: Value, t: Shape, data: seq<byte>, pos: nat, fault: Option<Fault>)
    requires kind != "" && Conforms(v, t) && pos + |kind| + 1 <= |data|
    requires ReadStringSpec(data, pos, fault) == Read(Ok(kind), pos + |kind| + 1)
    requires At(data, pos + |kind| + 1, Join(Tokens(v, t)))
    requires NoFaultIn(fault, pos + |kind| + 1, pos + |kind| + 1 + |Join(Tokens(v, t))|)
    ensures DecodeOptional(t, data, pos, fault)
         == OptionalDecoded(OptionalType.Some(kind, v), pos + |kind| + 1 + |Join(Tokens(v, t))|)
  {
    var p := pos + |kind| + 1;
    DecodeOfTokens(t, v, data, p, fault);
    assert ReadStringSpec(data, pos, fault).pos == p;
  }

  /** A non-empty kind read where the value then decodes gives `Some`, ending where the value does. */
  lemma DecodeOptionalSome(t: Shape, data: seq<byte>, pos: nat, fault: Option<Fault>, kind: string, v: Value, q: nat)
    requires pos + |kind| + 1 <= |data| && kind != ""
    requires ReadStringSpec(data, pos, fault) == Read(Ok(kind), pos + |kind| + 1)
    requires Decode(t, data, pos + |kind| + 1, fault) == Decoded(v, q)
    ensures DecodeOptional(t, data, pos, fault) == OptionalDecoded(OptionalType.Some(kind, v), q)
  {
    var k := ReadStringSpec(data, pos, fault);
    assert k.pos == pos + |kind| + 1;
    assert Decode(t, data, k.pos, fault) == Decoded(v, q);
  }

  /** The kind's token reads back as the kind and leaves the cursor at what follows it. */
  lemma KindTokenRead(kind: string, rest: seq<byte>, data: seq<byte>, pos: nat, fault: Option<Fault>)
    requires IsLatin(kind) && NulFree(Bytes(kind))
    requires At(data, pos, (Bytes(kind) + [NUL]) + rest)
    requires NoFaultIn(fault, pos, pos + |Bytes(kind)| + 1 + |rest|)
    ensures ReadStringSpec(data, pos, fault) == Read(Ok(kind), pos + |kind| + 1)
    ensures At(data, pos + |kind| + 1, rest) && NoFaultIn(fault, pos + |kind| + 1, pos + |kind| + 1 + |rest|)
  {
    AtSplit(data, pos, Bytes(kind) + [NUL], rest);
    ReadStringOf(data, pos, fault, Bytes(kind));
    TextOfBytes(kind);
  }
}
