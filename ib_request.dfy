/**
 * Outgoing requests (src/ib/request.rs). Each request's wire name is its
 * message number and its version joined by a NUL, so that writing the name as
 * one token puts two tokens on the wire.
 */
module IbRequest {
  import opened Wrappers
  import opened Wire
  import opened IbTypes
  import opened IbContract
  import opened ProtocolDe

  datatype Request =
    | None
    | ReqMktData(ticker_id: i32, contract: Contract, generic_tick_list: string, snapshot: bool,
                 regulatory_snapshot: bool, mkt_data_options: seq<TagValue>)
    | ReqOpenOrders
    | ReqAcctData(subscribe: bool, acct_code: string)
    | ReqAllOpenOrders
    | ReqPositions
    | StartApi(client_id: i32, optional_capabilities: string)

  /** The `#[default]` variant. */
  const DEFAULT_REQUEST: Request := Request.None

  /** A message number and the version of that message. */
  datatype Discriminant = Discriminant(id: nat, version: nat)

  /** The number and version each request is renamed to; `None` keeps its own name. */
  function RequestDiscriminant(r: Request): (d: Option<Discriminant>)
    ensures d.Some? <==> !r.None?
  {
    match r
    case None => Option.None
    case ReqMktData(_, _, _, _, _, _) => Some(Discriminant(1, 11))
    case ReqOpenOrders => Some(Discriminant(5, 1))
    case ReqAcctData(_, _) => Some(Discriminant(6, 2))
    case ReqAllOpenOrders => Some(Discriminant(16, 1))
    case ReqPositions => Some(Discriminant(61, 1))
    case StartApi(_, _) => Some(Discriminant(71, 2))
  }

  /** A fused name: the number, a NUL, the version. */
  function Fused(d: Discriminant): string {
    DecimalText(d.id) + "\0" + DecimalText(d.version)
  }

  /** The variant name the serializer is given. */
  function VariantName(r: Request): (t: string)
    ensures IsLatin(t)
    ensures r.None? ==> t == "None"
  {
    if r.None? then "None" else Fused(RequestDiscriminant(r).value)
  }

  /** Requests of different variants have different names, so the name determines the variant. */
  lemma VariantNamesDistinct(r: Request, s: Request)
    ensures VariantName(r) == VariantName(s) ==>
      r.None? == s.None? && r.ReqMktData? == s.ReqMktData? && r.ReqOpenOrders? == s.ReqOpenOrders? &&
      r.ReqAcctData? == s.ReqAcctData? && r.ReqAllOpenOrders? == s.ReqAllOpenOrders? &&
      r.ReqPositions? == s.ReqPositions? && r.StartApi? == s.StartApi?
  {
    if VariantName(r) == VariantName(s) {
      if !r.None? && !s.None? {
        FusedInjective(RequestDiscriminant(r).value, RequestDiscriminant(s).value);
      } else if r.None? != s.None? {
        var n := if r.None? then s else r;
        NulAfterId(RequestDiscriminant(n).value);
        assert false;
      }
    }
  }

  /** The NUL separates the two numbers, so a fused name determines both. */
  lemma FusedInjective(d: Discriminant, e: Discriminant)
    ensures Fused(d) == Fused(e) ==> d == e
  {
    var a, b := DecimalText(d.id), DecimalText(e.id);
    if Fused(d) == Fused(e) {
      NulAfterId(d);
      NulAfterId(e);
      assert a == Fused(d)[..|a|] && b == Fused(e)[..|b|];
      assert DecimalText(d.version) == Fused(d)[|a| + 1..];
      assert DecimalText(e.version) == Fused(e)[|b| + 1..];
      DecimalTextInjective(d.id, e.id);
      DecimalTextInjective(d.version, e.version);
    }
  }

  /** The first NUL of a fused name is the one right after the number. */
  lemma NulAfterId(d: Discriminant)
    ensures Fused(d)[|DecimalText(d.id)|] == '\0'
    ensures forall i :: 0 <= i < |DecimalText(d.id)| ==> Fused(d)[i] != '\0'
  {
    var a := DecimalText(d.id);
    forall i | 0 <= i < |a| ensures Fused(d)[i] != '\0' {
      assert Fused(d)[i] == a[i] && IsDigit(a[i]);
    }
  }

  lemma DecimalTextInjective(m: nat, n: nat)
    ensures DecimalText(m) == DecimalText(n) ==> m == n
  {
    if DecimalText(m) == DecimalText(n) {
      DecimalTextValue(m);
      DecimalTextValue(n);
    }
  }

  /** Written as one token, a fused name is the number's token followed by the version's token. */
  lemma FusedIsTwoTokens(d: Discriminant)
    ensures Bytes(Fused(d)) + [NUL] == Join([Bytes(DecimalText(d.id)), Bytes(DecimalText(d.version))])
  {
    var a, b := Bytes(DecimalText(d.id)), Bytes(DecimalText(d.version));
    assert Bytes(Fused(d)) == a + [NUL] + b;
    JoinOne(b);
    assert [a, b][1..] == [b];
  }

  /** So a reader gets the number with one `read_string` and the version with the next. */
  lemma FusedReadsAsTwo(d: Discriminant, data: seq<byte>, pos: nat, fault: Option<Fault>)
    requires At(data, pos, Bytes(Fused(d)) + [NUL])
    requires NoFaultIn(fault, pos, pos + |Fused(d)| + 1)
    ensures var r := ReadStringSpec(data, pos, fault);
      r == Read(Ok(DecimalText(d.id)), pos + |DecimalText(d.id)| + 1)
      && ReadStringSpec(data, r.pos, fault) == Read(Ok(DecimalText(d.version)), pos + |Fused(d)| + 1)
  {
    FusedHalves(d);
    ReadTwo(data, pos, fault, DecimalText(d.id), DecimalText(d.version));
  }

  lemma FusedHalves(d: Discriminant)
    ensures Bytes(Fused(d)) + [NUL] == (Bytes(DecimalText(d.id)) + [NUL]) + (Bytes(DecimalText(d.version)) + [NUL])
    ensures |Fused(d)| == |DecimalText(d.id)| + 1 + |DecimalText(d.version)|
  {
  }

  /** Two numbers' tokens, one after the other, read back one per `read_string`. */
  lemma ReadTwo(data: seq<byte>, pos: nat, fault: Option<Fault>, m: string, n: string)
    requires AllDigits(m) && IsLatin(m) && AllDigits(n) && IsLatin(n)
    requires At(data, pos, (Bytes(m) + [NUL]) + (Bytes(n) + [NUL]))
    requires NoFaultIn(fault, pos, pos + |m| + 1 + |n| + 1)
    ensures ReadStringSpec(data, pos, fault) == Read(Ok(m), pos + |m| + 1)
    ensures ReadStringSpec(data, pos + |m| + 1, fault) == Read(Ok(n), pos + |m| + 1 + |n| + 1)
  {
    AtSplit(data, pos, Bytes(m) + [NUL], Bytes(n) + [NUL]);
    ReadHalf(data, pos, fault, m);
    ReadHalf(data, pos + |m| + 1, fault, n);
  }

  lemma ReadHalf(data: seq<byte>, pos: nat, fault: Option<Fault>, n: string)
    requires AllDigits(n) && IsLatin(n)
    requires At(data, pos, Bytes(n) + [NUL]) && NoFaultIn(fault, pos, pos + |n| + 1)
    ensures ReadStringSpec(data, pos, fault) == Read(Ok(n), pos + |n| + 1)
  {
    ReadStringOf(data, pos, fault, Bytes(n));
    TextOfBytes(n);
  }

  /** The fused names spelled as the renames write them. */
  lemma FusedSpellings()
    ensures Fused(Discriminant(1, 11)) == "1\011" && Fused(Discriminant(5, 1)) == "5\01"
    ensures Fused(Discriminant(6, 2)) == "6\02" && Fused(Discriminant(16, 1)) == "16\01"
    ensures Fused(Discriminant(61, 1)) == "61\01" && Fused(Discriminant(71, 2)) == "71\02"
  {
  }

  // ---------------------------------------------------------------------
  // Field layouts.

  function TagValueListValue(options: seq<TagValue>): (v: Value)
    ensures v.List? && |v.items| == |options|
    ensures forall i :: 0 <= i < |options| ==> v.items[i] == TagValueValue(options[i])
  {
    List(seq(|options|, i requires 0 <= i < |options| => TagValueValue(options[i])))
  }

  /** A list of tag-value pairs, read back only when every item is one. */
  function TagValueListOfValue(v: Value): Option<seq<TagValue>> {
    if v.List? then TagValuesOfItems(v.items) else Option.None
  }

  function TagValuesOfItems(items: seq<Value>): Option<seq<TagValue>>
    decreases |items|
  {
    if items == [] then Some([])
    else if TagValueOfValue(items[0]).Some? && TagValuesOfItems(items[1..]).Some?
    then Some([TagValueOfValue(items[0]).value] + TagValuesOfItems(items[1..]).value)
    else Option.None
  }

  /** Reading the options' list back gives the options, in order. */
  lemma TagValueListRoundTrip(options: seq<TagValue>)
    ensures TagValueListOfValue(TagValueListValue(options)) == Some(options)
  {
    TagValuesOfLayouts(TagValueListValue(options).items, options);
  }

  lemma {:induction false} TagValuesOfLayouts(items: seq<Value>, options: seq<TagValue>)
    requires |items| == |options|
    requires forall i :: 0 <= i < |options| ==> items[i] == TagValueValue(options[i])
    ensures TagValuesOfItems(items) == Some(options)
    decreases |options|
  {
    if options != [] {
      TagValuesOfLayouts(items[1..], options[1..]);
      assert [options[0]] + options[1..] == options;
    }
  }

  /**
   * `req_mkt_data`: the ticker, the contract, the contract's legs once more,
   * whether there is a delta-neutral contract, the tick list, the two
   * snapshot flags and the options.
   */
  function MktDataValue(r: Request): (v: Value)
    requires r.ReqMktData?
    ensures v.Record? && |v.fields| == 8
    ensures v.fields[1] == ContractValue(r.contract) && v.fields[2] == ComboLegsValue(r.contract.combo_legs)
    ensures v.fields[3] == Bool(r.contract.delta_neutral_contract.Some?)
  {
    var c := r.contract;
    Record([Int(r.ticker_id as int), ContractValue(c), ComboLegsValue(c.combo_legs),
            Bool(c.delta_neutral_contract.Some?), Value.Str(r.generic_tick_list), Bool(r.snapshot),
            Bool(r.regulatory_snapshot), TagValueListValue(r.mkt_data_options)])
  }

  /**
   * The market-data request eight fields stand for: the legs and the flag
   * must repeat what the contract itself holds.
   */
  function MktDataOfFields(f: seq<Value>): Option<Request> {
    if |f| == 8 && AsI32(f[0]).Some? && ContractOfValue(f[1]).Some?
       && f[2] == ComboLegsValue(ContractOfValue(f[1]).value.combo_legs)
       && f[3] == Bool(ContractOfValue(f[1]).value.delta_neutral_contract.Some?)
       && f[4].Str? && f[5].Bool? && f[6].Bool? && TagValueListOfValue(f[7]).Some?
    then Some(ReqMktData(AsI32(f[0]).value, ContractOfValue(f[1]).value, f[4].s, f[5].b, f[6].b,
                         TagValueListOfValue(f[7]).value))
    else Option.None
  }

  /** Reading a market-data request's fields back gives the request. */
  lemma MktDataRoundTrip(r: Request)
    requires r.ReqMktData?
    ensures MktDataOfFields(MktDataValue(r).fields) == Some(r)
  {
    ContractRoundTrip(r.contract);
    TagValueListRoundTrip(r.mkt_data_options);
  }

  /**
   * Only the flag follows the legs: after the contract, two requests whose
   * delta-neutral contracts differ but are both present lay out the same fields.
   */
  lemma MktDataOmitsDeltaNeutralBody(r: Request, d: DeltaNeutralContract, e: DeltaNeutralContract)
    requires r.ReqMktData?
    ensures var a := MktDataValue(r.(contract := r.contract.(delta_neutral_contract := Some(d))));
      var b := MktDataValue(r.(contract := r.contract.(delta_neutral_contract := Some(e))));
      a.fields[0] == b.fields[0] && a.fields[2..] == b.fields[2..] && a.fields[3] == Bool(true)
  {
  }

  /** `StartApi`: the client id, then the optional capabilities. */
  function StartApiValue(r: Request): (v: Value)
    requires r.StartApi?
    ensures v.Record? && |v.fields| == 2
  {
    Record([Int(r.client_id as int), Value.Str(r.optional_capabilities)])
  }

  function ReqAcctDataValue(r: Request): (v: Value)
    requires r.ReqAcctData?
    ensures v.Record? && |v.fields| == 2
  {
    Record([Bool(r.subscribe), Value.Str(r.acct_code)])
  }

  /**
   * A request as the serializer is given it: its variant name and its fields.
   * `ReqMktData` is written through `serialize_with`, which the derive treats as
   * a newtype variant around the 8-tuple; the model puts the tuple's eight
   * fields straight into the variant's payload, which gives the same tokens on
   * this field-by-field wire.
   */
  function RequestValue(r: Request): (v: Value)
    ensures v.Variant? && v.tag == VariantName(r)
    ensures RequestOfValue(v) == Some(r)
  {
    FusedSpellings();
    match r
    case None => Variant("None", [])
    case ReqMktData(_, _, _, _, _, _) => MktDataRoundTrip(r); Variant(VariantName(r), MktDataValue(r).fields)
    case ReqOpenOrders => Variant(VariantName(r), [])
    case ReqAcctData(_, _) => Variant(VariantName(r), ReqAcctDataValue(r).fields)
    case ReqAllOpenOrders => Variant(VariantName(r), [])
    case ReqPositions => Variant(VariantName(r), [])
    case StartApi(_, _) => Variant(VariantName(r), StartApiValue(r).fields)
  }

  /** The request a serialized value stands for. */
  function RequestOfValue(v: Value): Option<Request> {
    if !v.Variant? then Option.None
    else if v.tag == "None" && v.payload == [] then Some(Request.None)
    else if v.tag == Fused(Discriminant(1, 11)) then MktDataOfFields(v.payload)
    else if v.tag == Fused(Discriminant(5, 1)) && v.payload == [] then Some(ReqOpenOrders)
    else if v.tag == Fused(Discriminant(16, 1)) && v.payload == [] then Some(ReqAllOpenOrders)
    else if v.tag == Fused(Discriminant(61, 1)) && v.payload == [] then Some(ReqPositions)
    else if v.tag == Fused(Discriminant(6, 2)) && |v.payload| == 2 && v.payload[0].Bool? && v.payload[1].Str?
    then Some(ReqAcctData(v.payload[0].b, v.payload[1].s))
    else if v.tag == Fused(Discriminant(71, 2)) && |v.payload| == 2 && AsI32(v.payload[0]).Some? && v.payload[1].Str?
    then Some(StartApi(AsI32(v.payload[0]).value, v.payload[1].s))
    else Option.None
  }
}
