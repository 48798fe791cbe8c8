/** Contracts and combination legs (src/ib/contract.rs). */
module IbContract {
  import opened Wrappers
  import opened Wire
  import opened IbTypes

  datatype DeltaNeutralContract = DeltaNeutralContract(conid: i32, delta: F64, price: F64)

  /** How a leg's opening or closing relates to the whole combination. */
  datatype LegOpenClose = Same | Open | Close | Unknown

  /** `impl Default for LegOpenClose`. */
  const DEFAULT_LEG_OPEN_CLOSE: LegOpenClose := Same

  function LegOpenCloseToken(l: LegOpenClose): (t: string)
    ensures LegOpenCloseOfToken(t) == Some(l)
  {
    match l
    case Same => "0"
    case Open => "1"
    case Close => "2"
    case Unknown => "3"
  }

  function LegOpenCloseOfToken(t: string): Option<LegOpenClose> {
    if t == "0" then Some(Same)
    else if t == "1" then Some(Open)
    else if t == "2" then Some(Close)
    else if t == "3" then Some(Unknown)
    else Option.None
  }

  datatype ShortSaleSlot = None | ClearingBroker | ThirdParty

  /** `impl Default for ShortSaleSlot`. */
  const DEFAULT_SHORT_SALE_SLOT: ShortSaleSlot := ShortSaleSlot.None

  function ShortSaleSlotToken(s: ShortSaleSlot): (t: string)
    ensures ShortSaleSlotOfToken(t) == Some(s)
  {
    match s
    case None => "0"
    case ClearingBroker => "1"
    case ThirdParty => "2"
  }

  function ShortSaleSlotOfToken(t: string): Option<ShortSaleSlot> {
    if t == "0" then Some(ShortSaleSlot.None)
    else if t == "1" then Some(ClearingBroker)
    else if t == "2" then Some(ThirdParty)
    else Option.None
  }

  datatype ComboLeg = ComboLeg(
    con_id: i32,
    ratio: i32,
    action: Action,
    exchange: string,
    open_close: LegOpenClose,
    short_sale_slot: ShortSaleSlot,
    designated_location: string,
    exempt_code: i32)

  /** `impl Default for ComboLeg`: no exemption code is -1, everything else is zero or its default. */
  function DefaultComboLeg(): (l: ComboLeg)
    ensures l.exempt_code == -1
    ensures l.con_id == 0 && l.ratio == 0 && l.exchange == "" && l.designated_location == ""
    ensures l.action == DEFAULT_ACTION && l.open_close == Same && l.short_sale_slot == ShortSaleSlot.None
  {
    ComboLeg(0, 0, DEFAULT_ACTION, "", DEFAULT_LEG_OPEN_CLOSE, DEFAULT_SHORT_SALE_SLOT, "", -1)
  }

  datatype Contract = Contract(
    conid: i32,
    symbol: string,
    sec_type: string,
    last_trade_date_or_contract_month: string,
    strike: F64,
    right: Right,
    multiplier: string,
    exchange: string,
    primary_exch: string,
    currency: string,
    local_symbol: string,
    trading_class: string,
    sec_id_type: string,
    sec_id: string,
    delta_neutral_contract: Option<DeltaNeutralContract>,
    include_expired: bool,
    combo_legs_descrip: string,
    combo_legs: seq<ComboLeg>)

  /** The derived default: zero, empty, false, none and no legs, field by field. */
  function DefaultContract(): (c: Contract)
    ensures c.delta_neutral_contract == Option.None && c.combo_legs == []
    ensures c.conid == 0 && c.strike == F64(0) && c.right == Right.None && !c.include_expired
    ensures c.exchange == "" && c.primary_exch == ""
  {
    Contract(0, "", "", "", F64(0), DEFAULT_RIGHT, "", "", "", "", "", "", "", "", Option.None, false, "", [])
  }

  /** `Contract::is_combo`. */
  function IsCombo(c: Contract): (b: bool)
    ensures b <==> c.combo_legs != []
  {
    |c.combo_legs| > 0
  }

  /** A default contract has no legs and so is not a combination. */
  lemma DefaultNotCombo()
    ensures !IsCombo(DefaultContract())
  {
  }

  /** Adding a leg makes any contract a combination; dropping them all makes it a single contract. */
  lemma ComboByLegs(c: Contract, leg: ComboLeg)
    ensures IsCombo(c.(combo_legs := c.combo_legs + [leg]))
    ensures !IsCombo(c.(combo_legs := []))
  {
  }

  // ---------------------------------------------------------------------
  // The serialized forms, field by field in declaration order, each with
  // the reading that takes it back.

  function DeltaNeutralContractValue(d: DeltaNeutralContract): (v: Value)
    ensures DeltaNeutralContractOfValue(v) == Some(d)
  {
    Record([Int(d.conid as int), Float(d.delta), Float(d.price)])
  }

  function DeltaNeutralContractOfValue(v: Value): Option<DeltaNeutralContract> {
    if v.Record? && |v.fields| == 3 && AsI32(v.fields[0]).Some? && v.fields[1].Float? && v.fields[2].Float?
    then Some(DeltaNeutralContract(AsI32(v.fields[0]).value, v.fields[1].f, v.fields[2].f))
    else Option.None
  }

  /** The enumerations a contract or leg holds, read from their unit variants. */
  function ActionOfValue(v: Value): Option<Action> {
    if AsTag(v).Some? then ActionOfToken(AsTag(v).value) else Option.None
  }

  function RightOfValue(v: Value): Option<Right> {
    if AsTag(v).Some? then RightOfToken(AsTag(v).value) else Option.None
  }

  function LegOpenCloseOfValue(v: Value): Option<LegOpenClose> {
    if AsTag(v).Some? then LegOpenCloseOfToken(AsTag(v).value) else Option.None
  }

  function ShortSaleSlotOfValue(v: Value): Option<ShortSaleSlot> {
    if AsTag(v).Some? then ShortSaleSlotOfToken(AsTag(v).value) else Option.None
  }

  /** A leg is its eight fields in declaration order, the enumerations as their renamed tags. */
  function ComboLegValue(l: ComboLeg): (v: Value)
    ensures v.Record? && |v.fields| == 8
  {
    Record([Int(l.con_id as int), Int(l.ratio as int), Tag(ActionToken(l.action)), Value.Str(l.exchange),
            Tag(LegOpenCloseToken(l.open_close)), Tag(ShortSaleSlotToken(l.short_sale_slot)),
            Value.Str(l.designated_location), Int(l.exempt_code as int)])
  }

  function ComboLegOfValue(v: Value): Option<ComboLeg> {
    if v.Record? && |v.fields| == 8 then
      var f := v.fields;
      if AsI32(f[0]).Some? && AsI32(f[1]).Some? && ActionOfValue(f[2]).Some? && f[3].Str?
         && LegOpenCloseOfValue(f[4]).Some? && ShortSaleSlotOfValue(f[5]).Some? && f[6].Str? && AsI32(f[7]).Some?
      then Some(ComboLeg(AsI32(f[0]).value, AsI32(f[1]).value, ActionOfValue(f[2]).value, f[3].s,
                         LegOpenCloseOfValue(f[4]).value, ShortSaleSlotOfValue(f[5]).value, f[6].s, AsI32(f[7]).value))
      else Option.None
    else Option.None
  }

  /** The legs as a list: item `i` is the layout of leg `i`. */
  function ComboLegsValue(legs: seq<ComboLeg>): (v: Value)
    ensures v.List? && |v.items| == |legs|
    ensures forall i :: 0 <= i < |legs| ==> v.items[i] == ComboLegValue(legs[i])
  {
    List(seq(|legs|, i requires 0 <= i < |legs| => ComboLegValue(legs[i])))
  }

  /** Reading a leg's layout back gives the leg. */
  lemma ComboLegRoundTrip(l: ComboLeg)
    ensures ComboLegOfValue(ComboLegValue(l)) == Some(l)
  {
  }

  /** Reading the legs' list back gives the legs, in order. */
  lemma ComboLegsRoundTrip(legs: seq<ComboLeg>)
    ensures ComboLegsOfValue(ComboLegsValue(legs)) == Some(legs)
  {
    ComboLegsOfLayouts(ComboLegsValue(legs).items, legs);
  }

  /** Items that are, one by one, the layouts of some legs read back as those legs. */
  lemma {:induction false} ComboLegsOfLayouts(items: seq<Value>, legs: seq<ComboLeg>)
    requires |items| == |legs|
    requires forall i :: 0 <= i < |legs| ==> items[i] == ComboLegValue(legs[i])
    ensures ComboLegsOfItems(items) == Some(legs)
    decreases |legs|
  {
    if legs != [] {
      ComboLegRoundTrip(legs[0]);
      ComboLegsOfLayouts(items[1..], legs[1..]);
      assert [legs[0]] + legs[1..] == legs;
    }
  }

  /** A list of legs, read back only when every item is a leg. */
  function ComboLegsOfValue(v: Value): Option<seq<ComboLeg>> {
    if v.List? then ComboLegsOfItems(v.items) else Option.None
  }

  function ComboLegsOfItems(items: seq<Value>): Option<seq<ComboLeg>>
    decreases |items|
  {
    if items == [] then Some([])
    else if ComboLegOfValue(items[0]).Some? && ComboLegsOfItems(items[1..]).Some?
    then Some([ComboLegOfValue(items[0]).value] + ComboLegsOfItems(items[1..]).value)
    else Option.None
  }

  /** The optional delta-neutral contract: absent, or present holding its three fields. */
  function OptDeltaNeutralValue(d: Option<DeltaNeutralContract>): (v: Value)
  {
    if d.Some? then Opt(Some(DeltaNeutralContractValue(d.value))) else Opt(Option.None)
  }

  lemma OptDeltaNeutralRoundTrip(d: Option<DeltaNeutralContract>)
    ensures OptDeltaNeutralOfValue(OptDeltaNeutralValue(d)) == Some(d)
  {
  }

  function OptDeltaNeutralOfValue(v: Value): Option<Option<DeltaNeutralContract>> {
    if v == Opt(Option.None) then Some(Option.None)
    else if v.Opt? && v.o.Some? && DeltaNeutralContractOfValue(v.o.value).Some?
    then Some(Some(DeltaNeutralContractOfValue(v.o.value).value))
    else Option.None
  }

  /** A contract is its eighteen fields in declaration order; reading them back gives the contract. */
  function ContractValue(c: Contract): (v: Value)
    ensures v.Record? && |v.fields| == 18
  {
    Record(
      [Int(c.conid as int), Value.Str(c.symbol), Value.Str(c.sec_type),
       Value.Str(c.last_trade_date_or_contract_month), Float(c.strike), Tag(RightToken(c.right))]
      + [Value.Str(c.multiplier), Value.Str(c.exchange), Value.Str(c.primary_exch), Value.Str(c.currency),
         Value.Str(c.local_symbol), Value.Str(c.trading_class)]
      + [Value.Str(c.sec_id_type), Value.Str(c.sec_id), OptDeltaNeutralValue(c.delta_neutral_contract),
         Bool(c.include_expired), Value.Str(c.combo_legs_descrip), ComboLegsValue(c.combo_legs)])
  }

  /** Reading a contract's layout back gives the contract. */
  lemma ContractRoundTrip(c: Contract)
    ensures ContractOfValue(ContractValue(c)) == Some(c)
  {
    OptDeltaNeutralRoundTrip(c.delta_neutral_contract);
    ComboLegsRoundTrip(c.combo_legs);
  }

  function ContractOfValue(v: Value): Option<Contract> {
    if v.Record? && |v.fields| == 18 then
      var f := v.fields;
      if AsI32(f[0]).Some? && f[1].Str? && f[2].Str? && f[3].Str? && f[4].Float? && RightOfValue(f[5]).Some?
         && f[6].Str? && f[7].Str? && f[8].Str? && f[9].Str? && f[10].Str? && f[11].Str? && f[12].Str? && f[13].Str?
         && OptDeltaNeutralOfValue(f[14]).Some? && f[15].Bool? && f[16].Str? && ComboLegsOfValue(f[17]).Some?
      then Some(Contract(AsI32(f[0]).value, f[1].s, f[2].s, f[3].s, f[4].f, RightOfValue(f[5]).value,
                         f[6].s, f[7].s, f[8].s, f[9].s, f[10].s, f[11].s, f[12].s, f[13].s,
                         OptDeltaNeutralOfValue(f[14]).value, f[15].b, f[16].s, ComboLegsOfValue(f[17]).value))
      else Option.None
    else Option.None
  }
}
