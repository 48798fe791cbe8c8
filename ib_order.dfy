/**
 * Orders (src/ib/order.rs): the order-type and routing vocabularies, the
 * order record with its defaults, and the order's state.
 */
module IbOrder {
  import opened Wrappers
  import opened Wire
  import opened IbTypes
  import opened IbContract
  import opened IbOrderCondition

  /** Written as the variant's name, or its rename where the name is several words. */
  datatype OrderType =
    | None
    | MKT
    | LMT
    | STP
    | STP_LMT
    | REL
    | TRAIL
    | BOX_TOP
    | FIX_PEGGED
    | LIT
    | LMT_PLUS_MKT
    | LOC
    | MIT
    | MKT_PRT
    | MOC
    | MTL
    | PASSV_REL
    | PEG_MID
    | PEG_MKT
    | PEG_PRIM
    | PEG_STK
    | REL_PLUS_LMT
    | REL_PLUS_MKT
    | SNAP_MID
    | SNAP_MKT
    | SNAP_PRIM
    | STP_PRT
    | TRAIL_LIMIT
    | TRAIL_LIT
    | TRAIL_LMT_PLUS_MKT
    | TRAIL_MIT
    | TRAIL_REL_PLUS_MKT
    | VOL
    | VWAP
    | QUOTE
    | PEG_PRIM_VOL
    | PEG_MID_VOL
    | PEG_MKT_VOL
    | PEG_SRF_VOL

  const DEFAULT_ORDER_TYPE: OrderType := OrderType.None

  function OrderTypeToken(o: OrderType): (t: string)
    ensures OrderTypeOfToken(t) == Some(o)
  {
    match o
    case None => ""
    case MKT => "MKT"
    case LMT => "LMT"
    case STP => "STP"
    case STP_LMT => "STP LMT"
    case REL => "REL"
    case TRAIL => "TRAIL"
    case BOX_TOP => "BOX TOP"
    case FIX_PEGGED => "FIX PEGGED"
    case LIT => "LIT"
    case LMT_PLUS_MKT => "LMT + MKT"
    case LOC => "LOC"
    case MIT => "MIT"
    case MKT_PRT => "MKT PRT"
    case MOC => "MOC"
    case MTL => "MTL"
    case PASSV_REL => "PASSV REL"
    case PEG_MID => "PEG MID"
    case PEG_MKT => "PEG MKT"
    case PEG_PRIM => "PEG PRIM"
    case PEG_STK => "PEG STK"
    case REL_PLUS_LMT => "REL + LMT"
    case REL_PLUS_MKT => "REL + MKT"
    case SNAP_MID => "SNAP MID"
    case SNAP_MKT => "SNAP MKT"
    case SNAP_PRIM => "SNAP PRIM"
    case STP_PRT => "STP PRT"
    case TRAIL_LIMIT => "TRAIL LIMIT"
    case TRAIL_LIT => "TRAIL LIT"
    case TRAIL_LMT_PLUS_MKT => "TRAIL LMT + MKT"
    case TRAIL_MIT => "TRAIL MIT"
    case TRAIL_REL_PLUS_MKT => "TRAIL REL + MKT"
    case VOL => "VOL"
    case VWAP => "VWAP"
    case QUOTE => "QUOTE"
    case PEG_PRIM_VOL => "PPV"
    case PEG_MID_VOL => "PDV"
    case PEG_MKT_VOL => "PMV"
    case PEG_SRF_VOL => "PSV"
  }

  /** Tokens are told apart by length and then by first letter before they are compared whole. */
  function OrderTypeOfToken(t: string): Option<OrderType> {
    if |t| == 0 then
      if t == "" then Some(OrderType.None)
      else Option.None
    else if |t| == 3 then
      if t[0] == 'M' then
        if t == "MKT" then Some(OrderType.MKT)
        else if t == "MIT" then Some(OrderType.MIT)
        else if t == "MOC" then Some(OrderType.MOC)
        else if t == "MTL" then Some(OrderType.MTL)
        else Option.None
      else if t[0] == 'L' then
        if t == "LMT" then Some(OrderType.LMT)
        else if t == "LIT" then Some(OrderType.LIT)
        else if t == "LOC" then Some(OrderType.LOC)
        else Option.None
      else if t[0] == 'S' then
        if t == "STP" then Some(OrderType.STP)
        else Option.None
      else if t[0] == 'R' then
        if t == "REL" then Some(OrderType.REL)
        else Option.None
      else if t[0] == 'V' then
        if t == "VOL" then Some(OrderType.VOL)
        else Option.None
      else if t[0] == 'P' then
        if t == "PPV" then Some(OrderType.PEG_PRIM_VOL)
        else if t == "PDV" then Some(OrderType.PEG_MID_VOL)
        else if t == "PMV" then Some(OrderType.PEG_MKT_VOL)
        else if t == "PSV" then Some(OrderType.PEG_SRF_VOL)
        else Option.None
      else Option.None
    else if |t| == 4 then
      if t == "VWAP" then Some(OrderType.VWAP)
      else Option.None
    else if |t| == 5 then
      if t == "TRAIL" then Some(OrderType.TRAIL)
      else if t == "QUOTE" then Some(OrderType.QUOTE)
      else Option.None
    else if |t| == 7 then
      if t[0] == 'S' then
        if t == "STP LMT" then Some(OrderType.STP_LMT)
        else if t == "STP PRT" then Some(OrderType.STP_PRT)
        else Option.None
      else if t[0] == 'B' then
        if t == "BOX TOP" then Some(OrderType.BOX_TOP)
        else Option.None
      else if t[0] == 'M' then
        if t == "MKT PRT" then Some(OrderType.MKT_PRT)
        else Option.None
      else if t[0] == 'P' then
        if t == "PEG MID" then Some(OrderType.PEG_MID)
        else if t == "PEG MKT" then Some(OrderType.PEG_MKT)
        else if t == "PEG STK" then Some(OrderType.PEG_STK)
        else Option.None
      else Option.None
    else if |t| == 8 then
      if t[0] == 'P' then
        if t == "PEG PRIM" then Some(OrderType.PEG_PRIM)
        else Option.None
      else if t[0] == 'S' then
        if t == "SNAP MID" then Some(OrderType.SNAP_MID)
        else if t == "SNAP MKT" then Some(OrderType.SNAP_MKT)
        else Option.None
      else Option.None
    else if |t| == 9 then
      if t[0] == 'L' then
        if t == "LMT + MKT" then Some(OrderType.LMT_PLUS_MKT)
        else Option.None
      else if t[0] == 'P' then
        if t == "PASSV REL" then Some(OrderType.PASSV_REL)
        else Option.None
      else if t[0] == 'R' then
        if t == "REL + LMT" then Some(OrderType.REL_PLUS_LMT)
        else if t == "REL + MKT" then Some(OrderType.REL_PLUS_MKT)
        else Option.None
      else if t[0] == 'S' then
        if t == "SNAP PRIM" then Some(OrderType.SNAP_PRIM)
        else Option.None
      else if t[0] == 'T' then
        if t == "TRAIL LIT" then Some(OrderType.TRAIL_LIT)
        else if t == "TRAIL MIT" then Some(OrderType.TRAIL_MIT)
        else Option.None
      else Option.None
    else if |t| == 10 then
      if t == "FIX PEGGED" then Some(OrderType.FIX_PEGGED)
      else Option.None
    else if |t| == 11 then
      if t == "TRAIL LIMIT" then Some(OrderType.TRAIL_LIMIT)
      else Option.None
    else if |t| == 15 then
      if t == "TRAIL LMT + MKT" then Some(OrderType.TRAIL_LMT_PLUS_MKT)
      else if t == "TRAIL REL + MKT" then Some(OrderType.TRAIL_REL_PLUS_MKT)
      else Option.None
    else Option.None
  }

  /** Order types spelled with spaces are single tokens: a space is not a field boundary. */
  lemma MultiWordOrderTypes()
    ensures OrderTypeToken(STP_LMT) == "STP LMT" && OrderTypeToken(TRAIL_LMT_PLUS_MKT) == "TRAIL LMT + MKT"
    ensures NulFree(Bytes(OrderTypeToken(STP_LMT)))
  {
  }

  /** No two order types share a token. */
  lemma OrderTypeTokensDistinct(a: OrderType, b: OrderType)
    ensures OrderTypeToken(a) == OrderTypeToken(b) ==> a == b
  {
    assert OrderTypeOfToken(OrderTypeToken(b)) == Some(b);
  }

  datatype ClearingIntent = Default | IB | Away | PTA

  const DEFAULT_CLEARING_INTENT: ClearingIntent := ClearingIntent.Default

  function ClearingIntentToken(c: ClearingIntent): (t: string)
    ensures ClearingIntentOfToken(t) == Some(c)
  {
    match c
    case Default => ""
    case IB => "IB"
    case Away => "Away"
    case PTA => "PTA"
  }

  function ClearingIntentOfToken(t: string): Option<ClearingIntent> {
    if t == "" then Some(ClearingIntent.Default)
    else if t == "IB" then Some(IB)
    else if t == "Away" then Some(Away)
    else if t == "PTA" then Some(PTA)
    else Option.None
  }

  datatype Origin = Customer | Firm

  const DEFAULT_ORIGIN: Origin := Customer

  function OriginToken(o: Origin): (t: string)
    ensures OriginOfToken(t) == Some(o)
  {
    match o
    case Customer => "0"
    case Firm => "1"
  }

  function OriginOfToken(t: string): Option<Origin> {
    if t == "0" then Some(Customer) else if t == "1" then Some(Firm) else Option.None
  }

  datatype AuctionStrategy = AuctionUnset | AuctionMatch | AuctionImprovement | AuctionTransparent

  const DEFAULT_AUCTION_STRATEGY: AuctionStrategy := AuctionUnset

  function AuctionStrategyToken(a: AuctionStrategy): (t: string)
    ensures AuctionStrategyOfToken(t) == Some(a)
  {
    match a
    case AuctionUnset => "0"
    case AuctionMatch => "1"
    case AuctionImprovement => "2"
    case AuctionTransparent => "3"
  }

  function AuctionStrategyOfToken(t: string): Option<AuctionStrategy> {
    if t == "0" then Some(AuctionUnset)
    else if t == "1" then Some(AuctionMatch)
    else if t == "2" then Some(AuctionImprovement)
    else if t == "3" then Some(AuctionTransparent)
    else Option.None
  }

  datatype OrderComboLeg = OrderComboLeg(price: Option<F64>)

  /** Institutional orders only. */
  datatype OpenClose = None | Open | Close

  const DEFAULT_OPEN_CLOSE: OpenClose := OpenClose.None

  function OpenCloseToken(o: OpenClose): (t: string)
    ensures OpenCloseOfToken(t) == Some(o)
  {
    match o
    case None => ""
    case Open => "O"
    case Close => "C"
  }

  function OpenCloseOfToken(t: string): Option<OpenClose> {
    if t == "" || t == "?" then Some(OpenClose.None)
    else if t == "O" then Some(OpenClose.Open)
    else if t == "C" then Some(OpenClose.Close)
    else Option.None
  }

  /** "?" is read as neither, which is written as the empty token. */
  lemma OpenCloseAlias()
    ensures OpenCloseOfToken("?") == Some(OpenClose.None) && OpenCloseToken(OpenClose.None) == ""
  {
  }

  datatype Order = Order(
    order_id: i32,
    client_id: i32,
    perm_id: i32,
    parent_id: i32,
    parent_perm_id: Option<i64>,
    action: Action,
    total_quantity: F64,
    display_size: i32,
    order_type: OrderType,
    lmt_price: Option<F64>,
    aux_price: Option<F64>,
    tif: TimeInForce,
    all_or_none: bool,
    block_order: bool,
    hidden: bool,
    outside_rth: bool,
    sweep_to_fill: bool,
    percent_offset: Option<F64>,
    trailing_percent: Option<F64>,
    trail_stop_price: Option<F64>,
    min_qty: Option<i32>,
    good_after_time: string,
    good_till_date: string,
    oca_group: string,
    oca_type: OcaType,
    order_ref: string,
    rule80a: Rule80A,
    trigger_method: TriggerMethod,
    active_start_time: string,
    active_stop_time: string,
    fa_group: string,
    fa_profile: string,
    fa_method: string,
    fa_percentage: string,
    open_close: OpenClose,
    origin: Origin,
    short_sale_slot: ShortSaleSlot,
    designated_location: string,
    exempt_code: i32,
    discretionary_amt: F64,
    e_trade_only: bool,
    firm_quote_only: bool,
    nbbo_price_cap: Option<F64>,
    opt_out_smart_routing: bool,
    auction_strategy: Option<i32>,
    starting_price: Option<F64>,
    stock_ref_price: Option<F64>,
    delta: Option<F64>,
    stock_range_lower: Option<F64>,
    stock_range_upper: Option<F64>,
    randomize_size: bool,
    randomize_price: bool,
    volatility: Option<F64>,
    volatility_type: VolatilityType,
    delta_neutral_order_type: string,
    delta_neutral_aux_price: Option<F64>,
    delta_neutral_con_id: i32,
    delta_neutral_settling_firm: string,
    delta_neutral_clearing_account: string,
    delta_neutral_clearing_intent: ClearingIntent,
    delta_neutral_open_close: OpenClose,
    delta_neutral_short_sale: Option<bool>,
    delta_neutral_short_sale_slot: ShortSaleSlot,
    delta_neutral_designated_location: string,
    continuous_update: bool,
    reference_price_type: ReferencePriceType,
    basis_points: Option<F64>,
    basis_points_type: Option<i32>,
    scale_init_level_size: Option<i32>,
    scale_subs_level_size: Option<i32>,
    scale_price_increment: Option<F64>,
    scale_price_adjust_value: Option<F64>,
    scale_price_adjust_interval: Option<i32>,
    scale_profit_offset: Option<F64>,
    scale_auto_reset: bool,
    scale_init_position: Option<i32>,
    scale_init_fill_qty: Option<i32>,
    scale_random_percent: bool,
    scale_table: string,
    hedge_type: HedgeType,
    hedge_param: string,
    account: string,
    settling_firm: string,
    clearing_account: string,
    clearing_intent: ClearingIntent,
    algo_strategy: string,
    algo_params: seq<TagValue>,
    smart_combo_routing_params: seq<TagValue>,
    algo_id: string,
    what_if: bool,
    transmit: bool,
    override_percentage_constraints: bool,
    not_held: bool,
    solicited: bool,
    model_code: string,
    order_combo_legs: seq<OrderComboLeg>,
    order_misc_options: seq<TagValue>,
    reference_contract_id: i32,
    pegged_change_amount: F64,
    is_pegged_change_amount_decrease: bool,
    reference_change_amount: F64,
    reference_exchange_id: string,
    adjusted_order_type: string,
    trigger_price: Option<F64>,
    adjusted_stop_price: Option<F64>,
    adjusted_stop_limit_price: Option<F64>,
    adjusted_trailing_amount: Option<F64>,
    adjustable_trailing_unit: i32,
    lmt_price_offset: Option<F64>,
    conditions: seq<OrderCondition>,
    conditions_cancel_order: bool,
    conditions_ignore_rth: bool,
    ext_operator: string,
    soft_dollar_tier: SoftDollarTier,
    cash_qty: Option<F64>,
    mifid2_decision_maker: string,
    mifid2_decision_algo: string,
    mifid2_execution_trader: string,
    mifid2_execution_algo: string,
    dont_use_auto_price_for_hedge: bool,
    is_oms_container: bool,
    discretionary_up_to_limit_price: bool,
    auto_cancel_date: string,
    filled_quantity: Option<F64>,
    ref_futures_con_id: i32,
    auto_cancel_parent: bool,
    shareholder: string,
    imbalance_only: bool,
    route_marketable_to_bbo: bool,
    use_price_mgmt_algo: Option<bool>)

  /**
   * The derived default: the exemption code is -1 and `transmit` is true;
   * every other field is zero, empty, false, none or its enum's default.
   */
  function DefaultOrder(): (o: Order)
    ensures o.exempt_code == -1 && o.transmit
    ensures o.order_id == 0 && o.parent_perm_id == Option.None && o.display_size == 0
    ensures o.order_type == OrderType.None && o.action == Action.None && o.tif == DAY
    ensures o.oca_type == OcaType.None && o.hedge_type == HedgeType.None && o.origin == Customer
    ensures o.delta_neutral_order_type == "" && o.delta_neutral_con_id == 0 && o.algo_strategy == ""
    ensures o.algo_params == [] && o.conditions == [] && o.trail_stop_price == Option.None
  {
    Order(
      0, 0, 0, 0, Option.None, DEFAULT_ACTION, F64(0), 0, DEFAULT_ORDER_TYPE, Option.None, Option.None,
      DEFAULT_TIME_IN_FORCE, false, false, false, false, false, Option.None, Option.None, Option.None,
      Option.None, "", "", "", DEFAULT_OCA_TYPE, "", DEFAULT_RULE80A, DEFAULT_TRIGGER_METHOD, "", "",
      "", "", "", "", DEFAULT_OPEN_CLOSE, DEFAULT_ORIGIN, DEFAULT_SHORT_SALE_SLOT, "", -1, F64(0),
      false, false, Option.None, false, Option.None, Option.None, Option.None, Option.None,
      Option.None, Option.None, false, false, Option.None, DEFAULT_VOLATILITY_TYPE, "", Option.None, 0,
      "", "", DEFAULT_CLEARING_INTENT, DEFAULT_OPEN_CLOSE, Option.None, DEFAULT_SHORT_SALE_SLOT, "",
      false, DEFAULT_REFERENCE_PRICE_TYPE, Option.None, Option.None, Option.None, Option.None,
      Option.None, Option.None, Option.None, Option.None, false, Option.None, Option.None, false, "",
      DEFAULT_HEDGE_TYPE, "", "", "", "", DEFAULT_CLEARING_INTENT, "", [], [], "", false, true, false,
      false, false, "", [], [], 0, F64(0), false, F64(0), "", "", Option.None, Option.None,
      Option.None, Option.None, 0, Option.None, [], false, false, "", DEFAULT_SOFT_DOLLAR_TIER,
      Option.None, "", "", "", "", false, false, false, "", Option.None, 0, false, "", false, false,
      Option.None)
  }

  datatype OrderState = OrderState(
    status: string,
    init_margin_before: string,
    maint_margin_before: string,
    equity_with_loan_before: string,
    init_margin_change: string,
    maint_margin_change: string,
    equity_with_loan_change: string,
    init_margin_after: string,
    maint_margin_after: string,
    equity_with_loan_after: string,
    commission: Option<F64>,
    min_commission: Option<F64>,
    max_commission: Option<F64>,
    commission_currency: string,
    warning_text: string,
    completed_time: string,
    completed_status: string)

  function DefaultOrderState(): (s: OrderState)
    ensures s.status == "" && s.commission == Option.None && s.warning_text == ""
  {
    OrderState(
      "", "", "", "", "", "", "", "", "", "", Option.None, Option.None, Option.None, "", "", "", "")
  }
}
