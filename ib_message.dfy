/**
 * Incoming messages (src/ib/message.rs): the handshake reply, the table of
 * message numbers, the layout of message 61 and the two reduced contract
 * records that some messages carry instead of a full `Contract`.
 */
module IbMessage {
  import opened Wrappers
  import opened Wire
  import opened IbTypes
  import opened IbContract
  import opened IbOrder
  import opened ProtocolDe

  // ---------------------------------------------------------------------
  // The handshake reply.

  datatype Hello = Hello(server_version: nat, server_connection_time: string)

  /** Exactly two fields, in this order and with no count before them. */
  const HELLO_SHAPE: Shape := Struct([Shape.U64, Shape.String])

  function HelloValue(h: Hello): Value {
    Record([Int(h.server_version), Value.Str(h.server_connection_time)])
  }

  /** A reply the format can carry: the version fits in a u64 and the time is NUL-free Latin text. */
  predicate Representable(h: Hello) {
    h.server_version < U64_BOUND && IsLatin(h.server_connection_time) && NulFree(Bytes(h.server_connection_time))
  }

  function HelloOfValue(v: Value): Option<Hello> {
    if v.Record? && |v.fields| == 2 && v.fields[0].Int? && v.fields[0].i >= 0 && v.fields[1].Str?
    then Some(Hello(v.fields[0].i, v.fields[1].s))
    else Option.None
  }

  /** On the wire a reply is the version's decimal token and then the time's token. */
  lemma HelloTokens(h: Hello)
    requires Representable(h)
    ensures Conforms(HelloValue(h), HELLO_SHAPE)
    ensures Tokens(HelloValue(h), HELLO_SHAPE) == [Bytes(DecimalText(h.server_version)), Bytes(h.server_connection_time)]
  {
    var v := HelloValue(h);
    assert Conforms(v.fields[0], Shape.U64) && Conforms(v.fields[1], Shape.String);
    calc {
      Tokens(v, HELLO_SHAPE);
      FieldTokens(v, HELLO_SHAPE, 0);
      Tokens(v.fields[0], Shape.U64) + (Tokens(v.fields[1], Shape.String) + FieldTokens(v, HELLO_SHAPE, 2));
    }
  }

  /** Reading a reply's two tokens gives back the reply. */
  lemma ReadHello(h: Hello, data: seq<byte>, pos: nat, fault: Option<Fault>)
    requires Representable(h)
    requires At(data, pos, Join([Bytes(DecimalText(h.server_version)), Bytes(h.server_connection_time)]))
    requires NoFaultIn(fault, pos, pos + |Join([Bytes(DecimalText(h.server_version)), Bytes(h.server_connection_time)])|)
    ensures var r := Decode(HELLO_SHAPE, data, pos, fault);
      r.Decoded? && HelloOfValue(r.value) == Some(h)
      && r.pos == pos + |Join([Bytes(DecimalText(h.server_version)), Bytes(h.server_connection_time)])|
  {
    HelloTokens(h);
    DecodeOfTokens(HELLO_SHAPE, HelloValue(h), data, pos, fault);
  }

  // ---------------------------------------------------------------------
  // The reduced contracts.

  /** The contract fields of a position message (11 fields, `exchange` but no `primary_exch`). */
  datatype PositionDataContract = PositionDataContract(
    conid: i32,
    symbol: string,
    sec_type: string,
    last_trade_date_or_contract_month: string,
    strike: F64,
    right: Right,
    multiplier: string,
    exchange: string,
    currency: string,
    local_symbol: string,
    trading_class: string)

  /** The contract fields of a portfolio message (11 fields, `primary_exch` but no `exchange`). */
  datatype PortfolioValueContract = PortfolioValueContract(
    conid: i32,
    symbol: string,
    sec_type: string,
    last_trade_date_or_contract_month: string,
    strike: F64,
    right: Right,
    multiplier: string,
    primary_exch: string,
    currency: string,
    local_symbol: string,
    trading_class: string)

  /** `From<PositionDataContract> for Contract`: the 11 fields copied over a default contract. */
  function ContractOfPositionData(c: PositionDataContract): (r: Contract)
    ensures r.exchange == c.exchange && r.primary_exch == ""
    ensures r.delta_neutral_contract == Option.None && r.combo_legs == [] && !IsCombo(r)
    ensures PositionDataOfContract(r) == c
  {
    DefaultContract().(conid := c.conid, symbol := c.symbol, sec_type := c.sec_type,
      last_trade_date_or_contract_month := c.last_trade_date_or_contract_month, strike := c.strike,
      right := c.right, multiplier := c.multiplier, exchange := c.exchange, currency := c.currency,
      local_symbol := c.local_symbol, trading_class := c.trading_class)
  }

  /** The fields of a full contract that a position message carries. */
  function PositionDataOfContract(c: Contract): PositionDataContract {
    PositionDataContract(c.conid, c.symbol, c.sec_type, c.last_trade_date_or_contract_month, c.strike,
      c.right, c.multiplier, c.exchange, c.currency, c.local_symbol, c.trading_class)
  }

  /** Every field a position message does not carry is the default contract's. */
  lemma PositionDataDefaultsElsewhere(c: PositionDataContract)
    ensures var r := ContractOfPositionData(c);
      r.(conid := 0, symbol := "", sec_type := "", last_trade_date_or_contract_month := "", strike := F64(0),
         right := DEFAULT_RIGHT, multiplier := "", exchange := "", currency := "", local_symbol := "",
         trading_class := "") == DefaultContract()
  {
  }

  /** A contract is the conversion of its projection exactly when its other fields are the defaults. */
  lemma PositionDataExactly(r: Contract)
    ensures ContractOfPositionData(PositionDataOfContract(r)) == r <==>
      r.(conid := 0, symbol := "", sec_type := "", last_trade_date_or_contract_month := "", strike := F64(0),
         right := DEFAULT_RIGHT, multiplier := "", exchange := "", currency := "", local_symbol := "",
         trading_class := "") == DefaultContract()
  {
  }

  /** `From<PortfolioValueContract> for Contract`: the 11 fields copied over a default contract. */
  function ContractOfPortfolioValue(c: PortfolioValueContract): (r: Contract)
    ensures r.primary_exch == c.primary_exch && r.exchange == ""
    ensures r.delta_neutral_contract == Option.None && r.combo_legs == [] && !IsCombo(r)
    ensures PortfolioValueOfContract(r) == c
  {
    DefaultContract().(conid := c.conid, symbol := c.symbol, sec_type := c.sec_type,
      last_trade_date_or_contract_month := c.last_trade_date_or_contract_month, strike := c.strike,
      right := c.right, multiplier := c.multiplier, primary_exch := c.primary_exch, currency := c.currency,
      local_symbol := c.local_symbol, trading_class := c.trading_class)
  }

  function PortfolioValueOfContract(c: Contract): PortfolioValueContract {
    PortfolioValueContract(c.conid, c.symbol, c.sec_type, c.last_trade_date_or_contract_month, c.strike,
      c.right, c.multiplier, c.primary_exch, c.currency, c.local_symbol, c.trading_class)
  }

  lemma PortfolioValueDefaultsElsewhere(c: PortfolioValueContract)
    ensures var r := ContractOfPortfolioValue(c);
      r.(conid := 0, symbol := "", sec_type := "", last_trade_date_or_contract_month := "", strike := F64(0),
         right := DEFAULT_RIGHT, multiplier := "", primary_exch := "", currency := "", local_symbol := "",
         trading_class := "") == DefaultContract()
  {
  }

  /** The two reduced records lead to the same contract only when both exchanges are empty. */
  lemma ExchangesDiffer(p: PositionDataContract, q: PortfolioValueContract)
    ensures ContractOfPositionData(p) == ContractOfPortfolioValue(q) ==> p.exchange == "" && q.primary_exch == ""
  {
  }

  // ---------------------------------------------------------------------
  // Messages.

  /** An open order as the client keeps it, assembled from the open-order message. */
  datatype OpenOrder = OpenOrder(contract: Contract, order: Order, state: OrderState)

  function DefaultOpenOrder(): (o: OpenOrder)
    ensures o.contract == DefaultContract() && o.order == DefaultOrder() && o.state == DefaultOrderState()
  {
    OpenOrder(DefaultContract(), DefaultOrder(), DefaultOrderState())
  }

  datatype Message =
    | OrderStatus
    | ErrMsg(version: i32, id: i32, error_code: i32, error_msg: string)
    | OpenOrderMsg(open_order: OpenOrder)
    | AcctValue(version: i32, key: string, val: string, cur: string, account_name: string)
    | PortfolioValue(version: i32, portfolio_contract: PortfolioValueContract, position: F64, market_price: F64,
                     market_value: F64, average_cost: F64, unrealized_pnl: F64, realized_pnl: F64, account_name: string)
    | AcctTime(version: i32, account_time: string)
    | NextValidId(version: i32, order_id: i32)
    | ManagedAccts(version: i32, accounts_list: string)
    | AcctDownloadEnd(version: i32, account: string)
    | PositionData(version: i32, account: string, contract: Contract, position: F64, avg_cost: F64)
    | PositionDataEnd(version: i32)
    | UnknownMessage(raw: string)

  /** The message numbers, in declaration order. */
  const MESSAGE_TAGS: seq<string> := ["3", "4", "5", "6", "7", "8", "9", "15", "54", "61", "62"]

  /** A message's number; the unknown message is not a protocol message and has none. */
  function MessageTag(m: Message): (t: Option<string>)
    ensures t.Some? <==> !m.UnknownMessage?
    ensures t.Some? ==> t.value in MESSAGE_TAGS
  {
    match m
    case OrderStatus => Some("3")
    case ErrMsg(_, _, _, _) => Some("4")
    case OpenOrderMsg(_) => Some("5")
    case AcctValue(_, _, _, _, _) => Some("6")
    case PortfolioValue(_, _, _, _, _, _, _, _, _) => Some("7")
    case AcctTime(_, _) => Some("8")
    case NextValidId(_, _) => Some("9")
    case ManagedAccts(_, _) => Some("15")
    case AcctDownloadEnd(_, _) => Some("54")
    case PositionData(_, _, _, _, _) => Some("61")
    case PositionDataEnd(_) => Some("62")
    case UnknownMessage(_) => Option.None
  }

  /**
   * The name the derived reader takes for the unknown message: it carries no
   * rename, so its tag is the variant's own name.
   */
  const UNKNOWN_MESSAGE_NAME: string := "UnknownMessage"

  /** Which variant a message is. */
  datatype Kind =
    | OrderStatusKind | ErrMsgKind | OpenOrderKind | AcctValueKind | PortfolioValueKind | AcctTimeKind
    | NextValidIdKind | ManagedAcctsKind | AcctDownloadEndKind | PositionDataKind | PositionDataEndKind
    | UnknownMessageKind

  function KindOf(m: Message): Kind {
    match m
    case OrderStatus => OrderStatusKind
    case ErrMsg(_, _, _, _) => ErrMsgKind
    case OpenOrderMsg(_) => OpenOrderKind
    case AcctValue(_, _, _, _, _) => AcctValueKind
    case PortfolioValue(_, _, _, _, _, _, _, _, _) => PortfolioValueKind
    case AcctTime(_, _) => AcctTimeKind
    case NextValidId(_, _) => NextValidIdKind
    case ManagedAccts(_, _) => ManagedAcctsKind
    case AcctDownloadEnd(_, _) => AcctDownloadEndKind
    case PositionData(_, _, _, _, _) => PositionDataKind
    case PositionDataEnd(_) => PositionDataEndKind
    case UnknownMessage(_) => UnknownMessageKind
  }

  /**
   * The variant a tag selects. The derived reader has no catch-all variant:
   * a tag that is neither a message number nor the unknown message's own name
   * is refused (serde's unknown-variant error), and the unknown message is
   * selected only by its name, after which its `String` payload is read.
   */
  function Dispatch(tag: string): (k: Option<Kind>)
    ensures k.None? <==> tag !in MESSAGE_TAGS && tag != UNKNOWN_MESSAGE_NAME
    ensures k == Some(UnknownMessageKind) <==> tag == UNKNOWN_MESSAGE_NAME
  {
    if tag == "3" then Some(OrderStatusKind)
    else if tag == "4" then Some(ErrMsgKind)
    else if tag == "5" then Some(OpenOrderKind)
    else if tag == "6" then Some(AcctValueKind)
    else if tag == "7" then Some(PortfolioValueKind)
    else if tag == "8" then Some(AcctTimeKind)
    else if tag == "9" then Some(NextValidIdKind)
    else if tag == "15" then Some(ManagedAcctsKind)
    else if tag == "54" then Some(AcctDownloadEndKind)
    else if tag == "61" then Some(PositionDataKind)
    else if tag == "62" then Some(PositionDataEndKind)
    else if tag == UNKNOWN_MESSAGE_NAME then Some(UnknownMessageKind)
    else Option.None
  }

  /** Dispatching on a message's own tag, its number or the unknown message's name, selects its variant. */
  lemma DispatchOfTag(m: Message)
    ensures !m.UnknownMessage? ==> Dispatch(MessageTag(m).value) == Some(KindOf(m))
    ensures m.UnknownMessage? ==> Dispatch(UNKNOWN_MESSAGE_NAME) == Some(KindOf(m))
  {
  }

  /** A raw tag outside the table, such as "10", selects no variant: it is not kept as an unknown message. */
  lemma NoCatchAll()
    ensures Dispatch("10").None? && Dispatch("").None?
  {
  }

  /** Message numbers are pairwise distinct, so the number determines the variant. */
  lemma MessageTagsDistinct(m: Message, n: Message)
    ensures MessageTag(m).Some? && MessageTag(m) == MessageTag(n) ==> KindOf(m) == KindOf(n)
  {
    if MessageTag(m).Some? && MessageTag(m) == MessageTag(n) {
      DispatchOfTag(m);
      DispatchOfTag(n);
    }
  }

  // ---------------------------------------------------------------------
  // Message 61.

  /** The wire record of message 61. */
  datatype Message61 = Message61(version: i32, account: string, contract: PositionDataContract, position: F64, avg_cost: F64)

  /** `decode_61`: the same fields, the contract widened to a full contract. */
  function Decode61(m: Message61): (msg: Message)
    ensures msg.PositionData? && MessageTag(msg) == Some("61")
    ensures Message61OfPositionData(msg) == Some(m)
  {
    PositionData(m.version, m.account, ContractOfPositionData(m.contract), m.position, m.avg_cost)
  }

  /** The wire record behind a position message, when its contract came from one. */
  function Message61OfPositionData(msg: Message): Option<Message61> {
    if msg.PositionData? && ContractOfPositionData(PositionDataOfContract(msg.contract)) == msg.contract
    then Some(Message61(msg.version, msg.account, PositionDataOfContract(msg.contract), msg.position, msg.avg_cost))
    else Option.None
  }

  /** The reduced contract's layout: its eleven fields in declaration order. */
  function PositionDataContractValue(c: PositionDataContract): (v: Value)
    ensures v.Record? && |v.fields| == 11
  {
    Record([Int(c.conid as int), Value.Str(c.symbol), Value.Str(c.sec_type),
            Value.Str(c.last_trade_date_or_contract_month), Float(c.strike), Tag(RightToken(c.right)),
            Value.Str(c.multiplier), Value.Str(c.exchange), Value.Str(c.currency), Value.Str(c.local_symbol),
            Value.Str(c.trading_class)])
  }

  function PositionDataContractOfValue(v: Value): Option<PositionDataContract> {
    if v.Record? && |v.fields| == 11 then
      var f := v.fields;
      if AsI32(f[0]).Some? && f[1].Str? && f[2].Str? && f[3].Str? && f[4].Float? && RightOfValue(f[5]).Some?
         && f[6].Str? && f[7].Str? && f[8].Str? && f[9].Str? && f[10].Str?
      then Some(PositionDataContract(AsI32(f[0]).value, f[1].s, f[2].s, f[3].s, f[4].f, RightOfValue(f[5]).value,
                                     f[6].s, f[7].s, f[8].s, f[9].s, f[10].s))
      else Option.None
    else Option.None
  }

  /** Reading the reduced contract's layout back gives the reduced contract. */
  lemma PositionDataContractRoundTrip(c: PositionDataContract)
    ensures PositionDataContractOfValue(PositionDataContractValue(c)) == Some(c)
  {
  }

  /** The serialized form: version, account, the reduced contract, position, average cost. */
  function Message61Value(m: Message61): (v: Value)
    ensures v.Record? && |v.fields| == 5 && v.fields[2] == PositionDataContractValue(m.contract)
  {
    Record([Int(m.version as int), Value.Str(m.account), PositionDataContractValue(m.contract),
            Float(m.position), Float(m.avg_cost)])
  }

  function Message61OfValue(v: Value): Option<Message61> {
    if v.Record? && |v.fields| == 5 && AsI32(v.fields[0]).Some? && v.fields[1].Str?
       && PositionDataContractOfValue(v.fields[2]).Some? && v.fields[3].Float? && v.fields[4].Float?
    then Some(Message61(AsI32(v.fields[0]).value, v.fields[1].s, PositionDataContractOfValue(v.fields[2]).value,
                        v.fields[3].f, v.fields[4].f))
    else Option.None
  }

  /** Reading message 61's layout back gives the message. */
  lemma Message61RoundTrip(m: Message61)
    ensures Message61OfValue(Message61Value(m)) == Some(m)
  {
    PositionDataContractRoundTrip(m.contract);
  }

  /**
   * The same record as the deserializer sees it: `i32`, `f64` and enums are
   * among the kinds it forwards to `deserialize`.
   */
  const MESSAGE_61_SHAPE: Shape := Struct([
    Unsupported("i32"), Shape.String,
    Struct([Unsupported("i32"), Shape.String, Shape.String, Shape.String, Unsupported("f64"), Unsupported("enum"),
            Shape.String, Shape.String, Shape.String, Shape.String, Shape.String]),
    Unsupported("f64"), Unsupported("f64")])

  /**
   * A remark on the deserializer of src/protocol/de.rs taken by itself: it
   * panics at the first field of message 61, before reading anything. The
   * program reaches a deserializer only through `Deserializer::new_v100plus`,
   * which is not part of this model, so this is not a claim about a run of
   * the program.
   */
  lemma Message61Panics(data: seq<byte>, pos: nat, fault: Option<Fault>)
    requires pos <= |data|
    ensures Decode(MESSAGE_61_SHAPE, data, pos, fault).Panicked?
  {
    assert Decode(MESSAGE_61_SHAPE.fields[0], data, pos, fault).Panicked?;
  }
}
