/**
 * The open-order message (src/protocol/order.rs): its wire record, the
 * helper tags it uses, and the conversion that assembles an `OpenOrder`
 * from the message.
 */
module ProtocolOrder {
  import opened Wrappers
  import opened Wire
  import opened ProtocolDe
  import opened IbTypes
  import opened IbContract
  import opened IbOrder
  import opened IbOrderCondition
  import opened IbMessage

  // ---------------------------------------------------------------------
  // The wire record, field groups in the order they arrive.

  datatype ContractFields = ContractFields(
    conid: i32, symbol: string, sec_type: string, last_trade_date_or_contract_month: string, strike: F64,
    right: Right, multiplier: string, exchange: string, currency: string, local_symbol: string,
    trading_class: string)

  datatype OrderBasic = OrderBasic(
    action: Action, total_quantity: F64, order_type: OrderType, lmt_price: Option<F64>, aux_price: Option<F64>,
    tif: TimeInForce, oca_group: string, account: string, open_close: OpenClose, origin: Origin, order_ref: string)

  datatype FAParams = FAParams(group: string, method_: string, percentage: string, profile: string)

  datatype ShortSaleParams = ShortSaleParams(short_sale_slot: ShortSaleSlot, designated_location: string, exempt_code: i32)

  datatype BoxOrderParams = BoxOrderParams(starting_price: Option<F64>, stock_ref_price: Option<F64>, delta: Option<F64>)

  datatype PegToStkOrVolOrderParams = PegToStkOrVolOrderParams(stock_range_lower: Option<F64>, stock_range_upper: Option<F64>)

  /** Only the token "None" is understood for the delta-neutral order type. */
  datatype DeltaNeutralOrderType = None

  function DeltaNeutralOrderTypeOfToken(t: string): (r: Option<DeltaNeutralOrderType>)
    ensures r.Some? <==> t == "None"
  {
    if t == "None" then Option.Some(DeltaNeutralOrderType.None) else Option.None
  }

  datatype OpenOrderAttribs = OpenOrderAttribs(
    settling_firm: string, clearing_account: string, clearing_intent: ClearingIntent, open_close: OpenClose)

  datatype DeltaNeutralParams = DeltaNeutralParams(
    delta_neutral_con_id: Option<i32>, open_order_attribs: OpenOrderAttribs, delta_neutral_short_sale: Option<bool>,
    delta_neutral_short_sale_slot: ShortSaleSlot, delta_neutral_designated_location: string)

  datatype VolOrderParams = VolOrderParams(
    volatility: Option<F64>, volatility_type: VolatilityType, delta_neutral_order_type: DeltaNeutralOrderType,
    delta_neutral_aux_price: Option<F64>, delta_neutral_params: DeltaNeutralParams, continuous_update: bool,
    reference_price_type: ReferencePriceType)

  datatype TrailParams = TrailParams(trail_stop_price: Option<F64>, trailing_percent: Option<F64>)

  datatype BasisPoints = BasisPoints(basis_points: Option<F64>, basis_points_type: Option<i32>)

  datatype ComboLegs = ComboLegs(c_combo_legs_descrip: string, c_combo_legs: seq<ComboLeg>, order_combo_legs: seq<OrderComboLeg>)

  /** A field that must arrive empty. */
  datatype EmptyString = None

  function EmptyStringOfToken(t: string): (r: Option<EmptyString>)
    ensures r.Some? <==> t == ""
  {
    if t == "" then Option.Some(EmptyString.None) else Option.None
  }

  datatype ScaleOrderParams = ScaleOrderParams(
    scale_init_level_size: Option<i32>, scale_subs_level_size: Option<i32>, scale_price_increment: EmptyString)

  datatype ClearingParams = ClearingParams(clearing_account: string, clearing_intent: ClearingIntent)

  /** The delta-neutral contract, present after the tag "1" and absent after "0". */
  datatype DeltaNeutral = None | Some(c: DeltaNeutralContract)

  function DeltaNeutralValue(d: DeltaNeutral): (v: Value)
    ensures v.Variant? && (v.tag == "1" <==> d.Some?) && (v.tag == "0" <==> d.None?)
    ensures DeltaNeutralOfValue(v) == Option.Some(d)
  {
    match d
    case None => Variant("0", [])
    case Some(c) => Variant("1", [DeltaNeutralContractValue(c)])
  }

  function DeltaNeutralOfValue(v: Value): Option<DeltaNeutral> {
    if v == Variant("0", []) then Option.Some(DeltaNeutral.None)
    else if v.Variant? && v.tag == "1" && |v.payload| == 1 && DeltaNeutralContractOfValue(v.payload[0]).Some?
    then Option.Some(DeltaNeutral.Some(DeltaNeutralContractOfValue(v.payload[0]).value))
    else Option.None
  }

  /** Whatever was decoded, a contract is present exactly when the tag was "1". */
  lemma DeltaNeutralFlag(v: Value, d: DeltaNeutral)
    requires DeltaNeutralOfValue(v) == Option.Some(d)
    ensures d.Some? <==> v.tag == "1"
  {
  }

  datatype WhatIfInfoAndCommission = WhatIfInfoAndCommission(
    what_if: bool, s_status: string,
    s_init_margin_before: string, s_maint_margin_before: string, s_equity_with_loan_before: string,
    s_init_margin_change: string, s_maint_margin_change: string, s_equity_with_loan_change: string,
    s_init_margin_after: string, s_maint_margin_after: string, s_equity_with_loan_after: string,
    s_commission: Option<F64>, s_min_commission: Option<F64>, s_max_commission: Option<F64>,
    s_commission_currency: string, s_warning_text: string)

  datatype VolRandomizeFlags = VolRandomizeFlags(randomize_size: bool, randomize_price: bool)

  datatype Conditions = Conditions(conditions: seq<OrderCondition>)

  datatype StopPriceAndLmtPriceOffset = StopPriceAndLmtPriceOffset(trail_stop_price: Option<F64>, lmt_price_offset: Option<F64>)

  datatype AdjustedOrderParams = AdjustedOrderParams(
    adjusted_order_type: string, trigger_price: Option<F64>, stop_price_and_lmt_price_offset: StopPriceAndLmtPriceOffset,
    adjusted_stop_price: Option<F64>, adjusted_stop_limit_price: Option<F64>, adjusted_trailing_amount: Option<F64>,
    adjustable_trailing_unit: i32)

  /** An algorithm's name and its parameters. */
  datatype Algo = Algo(strategy: string, params: seq<TagValue>)

  datatype OpenOrderMessage = OpenOrderMessage(
    order_id: i32,
    contract: ContractFields,
    order: OrderBasic,
    client_id: i32,
    perm_id: i32,
    outside_rth: bool,
    hidden: bool,
    discretionary_amt: F64,
    good_after_time: string,
    shares_allocation: string,
    fa_params: FAParams,
    model_code: string,
    good_till_date: string,
    rule80a: Rule80A,
    percent_offset: Option<F64>,
    settling_firm: string,
    short_sale_params: ShortSaleParams,
    auction_strategy: Option<i32>,
    box_order_params: BoxOrderParams,
    peg_to_stk_or_vol_order_params: PegToStkOrVolOrderParams,
    display_size: Option<i32>,
    block_order: bool,
    sweep_to_fill: bool,
    all_or_none: bool,
    min_qty: Option<i32>,
    oca_type: OcaType,
    e_trade_only: bool,
    firm_quote_only: bool,
    nbbo_price_cap: Option<F64>,
    parent_id: i32,
    trigger_method: TriggerMethod,
    vol_order_params: VolOrderParams,
    trail_params: TrailParams,
    basis_points: BasisPoints,
    combo_legs: ComboLegs,
    smart_combo_routing_params: seq<TagValue>,
    scale_order_params: ScaleOrderParams,
    hedge_type: HedgeType,
    opt_out_smart_routing: bool,
    clearing_params: ClearingParams,
    not_held: bool,
    c_delta_neutral: DeltaNeutral,
    algo: Option<Algo>,
    solicited: bool,
    what_if_info_and_commission: WhatIfInfoAndCommission,
    vol_randomize_flags: VolRandomizeFlags,
    conditions: Conditions,
    adjusted_order_params: AdjustedOrderParams,
    soft_dollar_tier: SoftDollarTier,
    cash_qty: Option<F64>,
    dont_use_auto_price_for_hedge: bool,
    is_oms_container: bool,
    discretionary_up_to_limit_price: bool,
    use_price_mgmt_algo: Option<bool>)

  // ---------------------------------------------------------------------
  // `From<OpenOrderMessage> for OpenOrder`.

  /** `Option::unwrap_or_default` for an `i32`. */
  function UnwrapOrZero(x: Option<i32>): (n: i32)
    ensures x.Some? ==> n == x.value
    ensures !x.Some? ==> n == 0
  {
    if x.Some? then x.value else 0
  }

  // The conversion assigns one field per statement. Consecutive assignments
  // to the same record are grouped here into one update; the `if`s on the
  // delta-neutral contract and on the algorithm split them where the source does.

  /** The contract of an open order: the message's contract fields and legs over a default contract. */
  function ConvertedContract(f: OpenOrderMessage): Contract {
    var contract := DefaultContract().(
      conid := f.contract.conid, symbol := f.contract.symbol, sec_type := f.contract.sec_type,
      last_trade_date_or_contract_month := f.contract.last_trade_date_or_contract_month,
      strike := f.contract.strike, right := f.contract.right, multiplier := f.contract.multiplier,
      exchange := f.contract.exchange, currency := f.contract.currency,
      local_symbol := f.contract.local_symbol, trading_class := f.contract.trading_class,
      combo_legs_descrip := f.combo_legs.c_combo_legs_descrip, combo_legs := f.combo_legs.c_combo_legs);
    if f.c_delta_neutral.Some? then contract.(delta_neutral_contract := Option.Some(f.c_delta_neutral.c))
    else contract
  }

  /** The order of an open order: the message's fields over a default order, in the source's order. */
  function ConvertedOrder(f: OpenOrderMessage): Order {
    var dn := f.vol_order_params.delta_neutral_params;
    var order := DefaultOrder().(
      order_id := f.order_id,
      action := f.order.action, total_quantity := f.order.total_quantity, order_type := f.order.order_type,
      lmt_price := f.order.lmt_price, aux_price := f.order.aux_price, tif := f.order.tif,
      oca_group := f.order.oca_group, account := f.order.account, open_close := f.order.open_close,
      origin := f.order.origin, order_ref := f.order.order_ref,
      client_id := f.client_id, perm_id := f.perm_id, outside_rth := f.outside_rth, hidden := f.hidden,
      discretionary_amt := f.discretionary_amt, good_after_time := f.good_after_time,
      fa_group := f.fa_params.group, fa_method := f.fa_params.method_, fa_percentage := f.fa_params.percentage,
      fa_profile := f.fa_params.profile, model_code := f.model_code, good_till_date := f.good_till_date,
      rule80a := f.rule80a, percent_offset := f.percent_offset, settling_firm := f.settling_firm,
      short_sale_slot := f.short_sale_params.short_sale_slot,
      designated_location := f.short_sale_params.designated_location,
      exempt_code := f.short_sale_params.exempt_code, auction_strategy := f.auction_strategy,
      starting_price := f.box_order_params.starting_price, stock_ref_price := f.box_order_params.stock_ref_price,
      delta := f.box_order_params.delta,
      stock_range_lower := f.peg_to_stk_or_vol_order_params.stock_range_lower,
      stock_range_upper := f.peg_to_stk_or_vol_order_params.stock_range_upper,
      display_size := UnwrapOrZero(f.display_size),
      block_order := f.block_order, sweep_to_fill := f.sweep_to_fill, all_or_none := f.all_or_none,
      min_qty := f.min_qty, oca_type := f.oca_type, e_trade_only := f.e_trade_only,
      firm_quote_only := f.firm_quote_only, nbbo_price_cap := f.nbbo_price_cap, parent_id := f.parent_id,
      trigger_method := f.trigger_method,
      volatility := f.vol_order_params.volatility, volatility_type := f.vol_order_params.volatility_type,
      delta_neutral_order_type := "None", delta_neutral_aux_price := f.vol_order_params.delta_neutral_aux_price,
      delta_neutral_con_id := UnwrapOrZero(dn.delta_neutral_con_id),
      delta_neutral_settling_firm := dn.open_order_attribs.settling_firm,
      delta_neutral_clearing_account := dn.open_order_attribs.clearing_account,
      delta_neutral_clearing_intent := dn.open_order_attribs.clearing_intent,
      delta_neutral_open_close := dn.open_order_attribs.open_close,
      delta_neutral_short_sale := dn.delta_neutral_short_sale,
      delta_neutral_short_sale_slot := dn.delta_neutral_short_sale_slot,
      delta_neutral_designated_location := dn.delta_neutral_designated_location,
      continuous_update := f.vol_order_params.continuous_update,
      reference_price_type := f.vol_order_params.reference_price_type,
      trail_stop_price := f.trail_params.trail_stop_price, trailing_percent := f.trail_params.trailing_percent,
      basis_points := f.basis_points.basis_points, basis_points_type := f.basis_points.basis_points_type,
      order_combo_legs := f.combo_legs.order_combo_legs, smart_combo_routing_params := f.smart_combo_routing_params,
      scale_init_level_size := f.scale_order_params.scale_init_level_size,
      scale_subs_level_size := f.scale_order_params.scale_subs_level_size,
      hedge_type := f.hedge_type, opt_out_smart_routing := f.opt_out_smart_routing,
      clearing_account := f.clearing_params.clearing_account, clearing_intent := f.clearing_params.clearing_intent,
      not_held := f.not_held);
    var order := if f.algo.Some? then order.(algo_strategy := f.algo.value.strategy, algo_params := f.algo.value.params) else order;
    var comm := f.what_if_info_and_commission;
    var adj := f.adjusted_order_params;
    order.(
      solicited := f.solicited, what_if := comm.what_if,
      randomize_size := f.vol_randomize_flags.randomize_size, randomize_price := f.vol_randomize_flags.randomize_price,
      conditions := f.conditions.conditions,
      adjusted_order_type := adj.adjusted_order_type, trigger_price := adj.trigger_price,
      trail_stop_price := adj.stop_price_and_lmt_price_offset.trail_stop_price,
      lmt_price_offset := adj.stop_price_and_lmt_price_offset.lmt_price_offset,
      adjusted_stop_price := adj.adjusted_stop_price, adjusted_stop_limit_price := adj.adjusted_stop_limit_price,
      adjusted_trailing_amount := adj.adjusted_trailing_amount,
      adjustable_trailing_unit := adj.adjustable_trailing_unit,
      soft_dollar_tier := f.soft_dollar_tier, cash_qty := f.cash_qty,
      dont_use_auto_price_for_hedge := f.dont_use_auto_price_for_hedge, is_oms_container := f.is_oms_container,
      discretionary_up_to_limit_price := f.discretionary_up_to_limit_price,
      use_price_mgmt_algo := f.use_price_mgmt_algo)
  }

  /** The order's state: the what-if report's fields over a default state. */
  function ConvertedState(f: OpenOrderMessage): OrderState {
    var comm := f.what_if_info_and_commission;
    DefaultOrderState().(
      status := comm.s_status,
      init_margin_before := comm.s_init_margin_before, maint_margin_before := comm.s_maint_margin_before,
      equity_with_loan_before := comm.s_equity_with_loan_before,
      init_margin_change := comm.s_init_margin_change, maint_margin_change := comm.s_maint_margin_change,
      equity_with_loan_change := comm.s_equity_with_loan_change,
      init_margin_after := comm.s_init_margin_after, maint_margin_after := comm.s_maint_margin_after,
      equity_with_loan_after := comm.s_equity_with_loan_after,
      commission := comm.s_commission, min_commission := comm.s_min_commission,
      max_commission := comm.s_max_commission, commission_currency := comm.s_commission_currency,
      warning_text := comm.s_warning_text)
  }

  function ConvertedOpenOrder(f: OpenOrderMessage): OpenOrder {
    OpenOrder(ConvertedContract(f), ConvertedOrder(f), ConvertedState(f))
  }

  /**
   * The conversion as the source performs it: default records, then the
   * assignments in order, the trailing stop price assigned a second time
   * from the adjusted order's parameters. The assignments are those of
   * `ConvertedContract`, `ConvertedOrder` and `ConvertedState`, here in the
   * source's statement order; the postcondition proves both the same.
   */
  method OpenOrderFrom(f: OpenOrderMessage) returns (o: OpenOrder)
    ensures o == ConvertedOpenOrder(f)
  {
    var order := DefaultOrder();
    var contract := DefaultContract();
    var state := DefaultOrderState();

    var dn := f.vol_order_params.delta_neutral_params;
    // The deprecated shares allocation is read and dropped.
    order := order.(
      order_id := f.order_id,
      action := f.order.action, total_quantity := f.order.total_quantity, order_type := f.order.order_type,
      lmt_price := f.order.lmt_price, aux_price := f.order.aux_price, tif := f.order.tif,
      oca_group := f.order.oca_group, account := f.order.account, open_close := f.order.open_close,
      origin := f.order.origin, order_ref := f.order.order_ref,
      client_id := f.client_id, perm_id := f.perm_id, outside_rth := f.outside_rth, hidden := f.hidden,
      discretionary_amt := f.discretionary_amt, good_after_time := f.good_after_time,
      fa_group := f.fa_params.group, fa_method := f.fa_params.method_, fa_percentage := f.fa_params.percentage,
      fa_profile := f.fa_params.profile, model_code := f.model_code, good_till_date := f.good_till_date,
      rule80a := f.rule80a, percent_offset := f.percent_offset, settling_firm := f.settling_firm,
      short_sale_slot := f.short_sale_params.short_sale_slot,
      designated_location := f.short_sale_params.designated_location,
      exempt_code := f.short_sale_params.exempt_code, auction_strategy := f.auction_strategy,
      starting_price := f.box_order_params.starting_price, stock_ref_price := f.box_order_params.stock_ref_price,
      delta := f.box_order_params.delta,
      stock_range_lower := f.peg_to_stk_or_vol_order_params.stock_range_lower,
      stock_range_upper := f.peg_to_stk_or_vol_order_params.stock_range_upper,
      display_size := UnwrapOrZero(f.display_size),
      block_order := f.block_order, sweep_to_fill := f.sweep_to_fill, all_or_none := f.all_or_none,
      min_qty := f.min_qty, oca_type := f.oca_type, e_trade_only := f.e_trade_only,
      firm_quote_only := f.firm_quote_only, nbbo_price_cap := f.nbbo_price_cap, parent_id := f.parent_id,
      trigger_method := f.trigger_method,
      volatility := f.vol_order_params.volatility, volatility_type := f.vol_order_params.volatility_type,
      delta_neutral_order_type := "None", delta_neutral_aux_price := f.vol_order_params.delta_neutral_aux_price,
      delta_neutral_con_id := UnwrapOrZero(dn.delta_neutral_con_id),
      delta_neutral_settling_firm := dn.open_order_attribs.settling_firm,
      delta_neutral_clearing_account := dn.open_order_attribs.clearing_account,
      delta_neutral_clearing_intent := dn.open_order_attribs.clearing_intent,
      delta_neutral_open_close := dn.open_order_attribs.open_close,
      delta_neutral_short_sale := dn.delta_neutral_short_sale,
      delta_neutral_short_sale_slot := dn.delta_neutral_short_sale_slot,
      delta_neutral_designated_location := dn.delta_neutral_designated_location,
      continuous_update := f.vol_order_params.continuous_update,
      reference_price_type := f.vol_order_params.reference_price_type,
      trail_stop_price := f.trail_params.trail_stop_price, trailing_percent := f.trail_params.trailing_percent,
      basis_points := f.basis_points.basis_points, basis_points_type := f.basis_points.basis_points_type,
      order_combo_legs := f.combo_legs.order_combo_legs, smart_combo_routing_params := f.smart_combo_routing_params,
      scale_init_level_size := f.scale_order_params.scale_init_level_size,
      scale_subs_level_size := f.scale_order_params.scale_subs_level_size,
      hedge_type := f.hedge_type, opt_out_smart_routing := f.opt_out_smart_routing,
      clearing_account := f.clearing_params.clearing_account, clearing_intent := f.clearing_params.clearing_intent,
      not_held := f.not_held);
    contract := contract.(
      conid := f.contract.conid, symbol := f.contract.symbol, sec_type := f.contract.sec_type,
      last_trade_date_or_contract_month := f.contract.last_trade_date_or_contract_month,
      strike := f.contract.strike, right := f.contract.right, multiplier := f.contract.multiplier,
      exchange := f.contract.exchange, currency := f.contract.currency,
      local_symbol := f.contract.local_symbol, trading_class := f.contract.trading_class,
      combo_legs_descrip := f.combo_legs.c_combo_legs_descrip, combo_legs := f.combo_legs.c_combo_legs);
    if f.c_delta_neutral.Some? {
      contract := contract.(delta_neutral_contract := Option.Some(f.c_delta_neutral.c));
    }
    if f.algo.Some? {
      order := order.(algo_strategy := f.algo.value.strategy, algo_params := f.algo.value.params);
    }
    var comm := f.what_if_info_and_commission;
    var adj := f.adjusted_order_params;
    order := order.(
      solicited := f.solicited, what_if := comm.what_if,
      randomize_size := f.vol_randomize_flags.randomize_size, randomize_price := f.vol_randomize_flags.randomize_price,
      conditions := f.conditions.conditions,
      adjusted_order_type := adj.adjusted_order_type, trigger_price := adj.trigger_price,
      trail_stop_price := adj.stop_price_and_lmt_price_offset.trail_stop_price,
      lmt_price_offset := adj.stop_price_and_lmt_price_offset.lmt_price_offset,
      adjusted_stop_price := adj.adjusted_stop_price, adjusted_stop_limit_price := adj.adjusted_stop_limit_price,
      adjusted_trailing_amount := adj.adjusted_trailing_amount,
      adjustable_trailing_unit := adj.adjustable_trailing_unit,
      soft_dollar_tier := f.soft_dollar_tier, cash_qty := f.cash_qty,
      dont_use_auto_price_for_hedge := f.dont_use_auto_price_for_hedge, is_oms_container := f.is_oms_container,
      discretionary_up_to_limit_price := f.discretionary_up_to_limit_price,
      use_price_mgmt_algo := f.use_price_mgmt_algo);
    state := state.(
      status := comm.s_status,
      init_margin_before := comm.s_init_margin_before, maint_margin_before := comm.s_maint_margin_before,
      equity_with_loan_before := comm.s_equity_with_loan_before,
      init_margin_change := comm.s_init_margin_change, maint_margin_change := comm.s_maint_margin_change,
      equity_with_loan_change := comm.s_equity_with_loan_change,
      init_margin_after := comm.s_init_margin_after, maint_margin_after := comm.s_maint_margin_after,
      equity_with_loan_after := comm.s_equity_with_loan_after,
      commission := comm.s_commission, min_commission := comm.s_min_commission,
      max_commission := comm.s_max_commission, commission_currency := comm.s_commission_currency,
      warning_text := comm.s_warning_text);

    o := OpenOrder(contract, order, state);
  }
}
