/**
 * What the open-order conversion of src/protocol/order.rs promises, stated
 * about the conversion functions of `ProtocolOrder`.
 *
 * Several proofs split on `f.algo.Some?`: the verifier does not look through
 * the algorithm branch of the conversion unaided.
 */
module ProtocolOrderFacts {
  import opened Wrappers
  import opened Wire
  import opened IbContract
  import opened IbOrder
  import opened IbMessage
  import opened ProtocolOrder

  /** `unwrap_or_default`: a display size that was sent is kept, a missing one becomes 0. */
  lemma ConvertedDisplaySize(f: OpenOrderMessage)
    ensures ConvertedOrder(f).display_size == UnwrapOrZero(f.display_size)
  {
    if f.algo.Some? {
    }
  }

  /** The same rule for the delta-neutral contract id. */
  lemma ConvertedDeltaNeutralConId(f: OpenOrderMessage)
    ensures ConvertedOrder(f).delta_neutral_con_id == UnwrapOrZero(f.vol_order_params.delta_neutral_params.delta_neutral_con_id)
  {
    if f.algo.Some? {
    }
  }

  /** The delta-neutral order type is always "None", whatever the message carried. */
  lemma ConvertedDeltaNeutralOrderType(f: OpenOrderMessage)
    ensures ConvertedOrder(f).delta_neutral_order_type == "None"
  {
    if f.algo.Some? {
    }
  }

  /**
   * The trailing stop price is assigned twice and the adjusted order's value
   * wins: the one sent with the trail parameters never reaches the order.
   */
  lemma TrailStopPriceOverwritten(f: OpenOrderMessage, p: Option<F64>)
    ensures ConvertedOrder(f).trail_stop_price == f.adjusted_order_params.stop_price_and_lmt_price_offset.trail_stop_price
    ensures ConvertedOrder(f).trailing_percent == f.trail_params.trailing_percent
    ensures ConvertedOrder(f.(trail_params := f.trail_params.(trail_stop_price := p))).trail_stop_price
         == ConvertedOrder(f).trail_stop_price
  {
    if f.algo.Some? {
    }
  }

  /** The contract has a delta-neutral contract exactly when the message carried one, and it is that one. */
  lemma ConvertedDeltaNeutral(f: OpenOrderMessage)
    ensures ConvertedContract(f).delta_neutral_contract.Some? <==> f.c_delta_neutral.Some?
    ensures f.c_delta_neutral.Some? ==> ConvertedContract(f).delta_neutral_contract.value == f.c_delta_neutral.c
  {
  }

  /** An absent algorithm leaves the default empty strategy and no parameters. */
  lemma ConvertedAlgo(f: OpenOrderMessage)
    ensures f.algo.Some? ==>
      ConvertedOrder(f).algo_strategy == f.algo.value.strategy && ConvertedOrder(f).algo_params == f.algo.value.params
    ensures !f.algo.Some? ==> ConvertedOrder(f).algo_strategy == "" && ConvertedOrder(f).algo_params == []
  {
  }

  /** Fields the conversion never assigns keep the default order's values, `transmit` among them. */
  lemma UnassignedOrderFieldsDefault(f: OpenOrderMessage)
    ensures var o, d := ConvertedOrder(f), DefaultOrder();
      o.transmit && o.parent_perm_id == d.parent_perm_id &&
      o.active_start_time == d.active_start_time && o.active_stop_time == d.active_stop_time &&
      o.hedge_param == d.hedge_param && o.algo_id == d.algo_id &&
      o.override_percentage_constraints == d.override_percentage_constraints &&
      o.order_misc_options == d.order_misc_options && o.filled_quantity == d.filled_quantity &&
      o.ext_operator == d.ext_operator && o.auto_cancel_date == d.auto_cancel_date &&
      o.auto_cancel_parent == d.auto_cancel_parent && o.shareholder == d.shareholder &&
      o.imbalance_only == d.imbalance_only && o.route_marketable_to_bbo == d.route_marketable_to_bbo
  {
    if f.algo.Some? {
    }
  }

  /** The scale-price fields the conversion leaves as a to-do stay at their defaults. */
  lemma UnassignedScaleFieldsDefault(f: OpenOrderMessage)
    ensures var o, d := ConvertedOrder(f), DefaultOrder();
      o.scale_price_increment == d.scale_price_increment && o.scale_price_adjust_value == d.scale_price_adjust_value &&
      o.scale_price_adjust_interval == d.scale_price_adjust_interval && o.scale_profit_offset == d.scale_profit_offset &&
      o.scale_auto_reset == d.scale_auto_reset && o.scale_init_position == d.scale_init_position &&
      o.scale_init_fill_qty == d.scale_init_fill_qty && o.scale_random_percent == d.scale_random_percent &&
      o.scale_table == d.scale_table
  {
    if f.algo.Some? {
    }
  }

  /** The two condition flags the conversion leaves as a to-do are not assigned. */
  lemma UnassignedConditionFieldsDefault(f: OpenOrderMessage)
    ensures var o, d := ConvertedOrder(f), DefaultOrder();
      o.conditions_cancel_order == d.conditions_cancel_order && o.conditions_ignore_rth == d.conditions_ignore_rth
  {
    if f.algo.Some? {
    }
  }

  /** Nor are the pegged-to-benchmark fields, which the message does not carry. */
  lemma UnassignedPegFieldsDefault(f: OpenOrderMessage)
    ensures var o, d := ConvertedOrder(f), DefaultOrder();
      o.reference_contract_id == d.reference_contract_id && o.pegged_change_amount == d.pegged_change_amount &&
      o.is_pegged_change_amount_decrease == d.is_pegged_change_amount_decrease &&
      o.reference_change_amount == d.reference_change_amount && o.reference_exchange_id == d.reference_exchange_id &&
      o.ref_futures_con_id == d.ref_futures_con_id
  {
    if f.algo.Some? {
    }
  }

  /** Nor are the MiFID II fields. */
  lemma UnassignedMifid2FieldsDefault(f: OpenOrderMessage)
    ensures var o, d := ConvertedOrder(f), DefaultOrder();
      o.mifid2_decision_maker == d.mifid2_decision_maker && o.mifid2_decision_algo == d.mifid2_decision_algo &&
      o.mifid2_execution_trader == d.mifid2_execution_trader && o.mifid2_execution_algo == d.mifid2_execution_algo
  {
    if f.algo.Some? {
    }
  }

  /** The state is the what-if report; the completion fields stay at their defaults. */
  lemma ConvertedStateFields(f: OpenOrderMessage)
    ensures var s, comm := ConvertedState(f), f.what_if_info_and_commission;
      s.status == comm.s_status && s.commission == comm.s_commission && s.warning_text == comm.s_warning_text &&
      s.completed_time == DefaultOrderState().completed_time && s.completed_status == DefaultOrderState().completed_status
  {
  }

  /** The contract keeps the identifiers and the legs the message sent. */
  lemma ConvertedContractFields(f: OpenOrderMessage)
    ensures var c := ConvertedContract(f);
      c.conid == f.contract.conid && c.symbol == f.contract.symbol && c.exchange == f.contract.exchange &&
      c.combo_legs == f.combo_legs.c_combo_legs && c.primary_exch == DefaultContract().primary_exch
  {
  }

  /** The order keeps the identifiers and the conditions the message sent. */
  lemma ConvertedOrderFields(f: OpenOrderMessage)
    ensures var o := ConvertedOrder(f);
      o.order_id == f.order_id && o.perm_id == f.perm_id && o.client_id == f.client_id &&
      o.order_type == f.order.order_type && o.conditions == f.conditions.conditions
  {
    if f.algo.Some? {
    }
  }

  /** The contract has a delta-neutral contract exactly when the message's flag said "1". */
  lemma DeltaNeutralContractFromFlag(f: OpenOrderMessage, v: Value)
    requires DeltaNeutralOfValue(v) == Option.Some(f.c_delta_neutral)
    ensures ConvertedContract(f).delta_neutral_contract.Some? <==> v.tag == "1"
  {
    DeltaNeutralFlag(v, f.c_delta_neutral);
    ConvertedDeltaNeutral(f);
  }
}
