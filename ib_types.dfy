/**
 * The enumerations of src/ib/types.rs and the tokens that stand for them on
 * the wire. A variant without a rename is written as its own name; a
 * renamed one as its rename; an alias is a further token that decodes to
 * the same variant but is never written.
 */
module IbTypes {
  import opened Wrappers
  import opened Wire

  // ---------------------------------------------------------------------
  // Algorithmic orders.

  datatype AlgoParam =
    | startTime | endTime | allowPastEndTime | maxPctVol | pctVol | strategyType | noTakeLiq
    | riskAversion | forceCompletion | displaySize | getDone | noTradeAhead | useOddLots
    | componentSize | timeBetweenOrders | randomizeTime20 | randomizeSize55 | giveUp | catchUp | waitForFill

  datatype AlgoStrategy = None | Vwap | Twap | ArrivalPx | DarkIce | PctVol | AD

  const DEFAULT_ALGO_STRATEGY: AlgoStrategy := AlgoStrategy.None

  /** `AlgoStrategy::params`: the parameters each strategy takes, in order. */
  function Params(s: AlgoStrategy): (ps: seq<AlgoParam>)
    ensures s == AlgoStrategy.None <==> ps == []
    ensures s != AlgoStrategy.None ==> |ps| >= 2 && ps[0] == startTime && ps[1] == endTime
    ensures forall i, j :: 0 <= i < j < |ps| ==> ps[i] != ps[j]
  {
    match s
    case None => []
    case Vwap => [startTime, endTime, maxPctVol, noTakeLiq, getDone, noTradeAhead, useOddLots]
    case Twap => [startTime, endTime, allowPastEndTime, strategyType]
    case ArrivalPx => [startTime, endTime, allowPastEndTime, maxPctVol, riskAversion, forceCompletion]
    case DarkIce => [startTime, endTime, allowPastEndTime, displaySize]
    case PctVol => [startTime, endTime, pctVol, noTakeLiq]
    case AD => [startTime, endTime, componentSize, timeBetweenOrders, randomizeTime20, randomizeSize55, giveUp, catchUp, waitForFill]
  }

  /** Only a time-sliced strategy other than the percent-of-volume one may run past its end time. */
  lemma PastEndTime(s: AlgoStrategy)
    ensures allowPastEndTime in Params(s) <==> s in {Twap, ArrivalPx, DarkIce}
  {
  }

  // ---------------------------------------------------------------------
  // Hedging: a variant with a tag carries the hedge parameter after it.

  datatype HedgeType = None | Delta(param: string) | Beta(param: string) | Fx(param: string) | Pair(param: string)

  const DEFAULT_HEDGE_TYPE: HedgeType := HedgeType.None

  function HedgeTag(h: HedgeType): string {
    match h
    case None => ""
    case Delta(_) => "D"
    case Beta(_) => "B"
    case Fx(_) => "F"
    case Pair(_) => "P"
  }

  /** The tag, then the parameter string when the variant has one. */
  function HedgeValue(h: HedgeType): (v: Value)
    ensures HedgeOfValue(v) == Some(h)
    ensures v.Variant? && v.tag == HedgeTag(h) && |v.payload| == (if h.None? then 0 else 1)
  {
    if h.None? then Tag("") else Variant(HedgeTag(h), [Value.Str(h.param)])
  }

  function HedgeOfValue(v: Value): Option<HedgeType> {
    if !v.Variant? then Option.None
    else if v.tag == "" && v.payload == [] then Some(HedgeType.None)
    else if |v.payload| != 1 || !v.payload[0].Str? then Option.None
    else
      var p := v.payload[0].s;
      if v.tag == "D" then Some(Delta(p))
      else if v.tag == "B" then Some(Beta(p))
      else if v.tag == "F" then Some(Fx(p))
      else if v.tag == "P" then Some(Pair(p))
      else Option.None
  }

  /** A hedge decodes only from its own tag, and the parameter comes through unchanged. */
  lemma HedgeOfValueIs(v: Value, h: HedgeType)
    requires HedgeOfValue(v) == Some(h)
    ensures v == HedgeValue(h)
  {
  }

  // ---------------------------------------------------------------------
  // Option rights.

  datatype Right = None | Put | Call

  const DEFAULT_RIGHT: Right := Right.None

  function RightToken(r: Right): (t: string)
    ensures RightOfToken(t) == Some(r)
  {
    match r
    case None => ""
    case Put => "P"
    case Call => "C"
  }

  function RightOfToken(t: string): Option<Right> {
    if t == "" || t == "?" then Some(Right.None)
    else if t == "P" then Some(Put)
    else if t == "C" then Some(Call)
    else Option.None
  }

  /** "?" is read as no right, but no right is written as the empty token. */
  lemma RightAlias()
    ensures RightOfToken("?") == Some(Right.None) && RightToken(Right.None) == ""
  {
  }

  /** Exactly the written tokens and the alias are accepted. */
  lemma RightOfTokenIs(t: string)
    ensures RightOfToken(t).Some? <==> t == "?" || exists r :: RightToken(r) == t
  {
    if t == "" { assert RightToken(Right.None) == t; }
    if t == "P" { assert RightToken(Put) == t; }
    if t == "C" { assert RightToken(Call) == t; }
  }

  // ---------------------------------------------------------------------
  // Volatility orders.

  datatype VolatilityType = None | Daily | Annual

  const DEFAULT_VOLATILITY_TYPE: VolatilityType := VolatilityType.None

  function VolatilityTypeToken(v: VolatilityType): (t: string)
    ensures VolatilityTypeOfToken(t) == Some(v)
  {
    match v
    case None => "0"
    case Daily => "1"
    case Annual => "2"
  }

  /** "2147483647", the absent-i32 sentinel, is one more way of saying none. */
  function VolatilityTypeOfToken(t: string): Option<VolatilityType> {
    if t == "0" || t == "2147483647" then Some(VolatilityType.None)
    else if t == "1" then Some(Daily)
    else if t == "2" then Some(Annual)
    else Option.None
  }

  lemma VolatilityTypeAlias()
    ensures VolatilityTypeOfToken("2147483647") == Some(VolatilityType.None)
    ensures VolatilityTypeToken(VolatilityType.None) == "0"
  {
  }

  datatype ReferencePriceType = None | Midpoint | BidOrAsk

  const DEFAULT_REFERENCE_PRICE_TYPE: ReferencePriceType := ReferencePriceType.None

  function ReferencePriceTypeToken(r: ReferencePriceType): (t: string)
    ensures ReferencePriceTypeOfToken(t) == Some(r)
  {
    match r
    case None => "0"
    case Midpoint => "1"
    case BidOrAsk => "2"
  }

  /** Unlike the volatility type, the absent-i32 sentinel is not accepted here. */
  function ReferencePriceTypeOfToken(t: string): Option<ReferencePriceType> {
    if t == "0" then Some(ReferencePriceType.None)
    else if t == "1" then Some(ReferencePriceType.Midpoint)
    else if t == "2" then Some(BidOrAsk)
    else Option.None
  }

  lemma ReferencePriceTypeNoSentinel()
    ensures ReferencePriceTypeOfToken("2147483647") == Option.None
  {
  }

  // ---------------------------------------------------------------------
  // Triggers.

  datatype TriggerMethod = Default | DoubleBidAsk | Last | DoubleLast | BidAsk | LastOrBidAsk | Midpoint

  const DEFAULT_TRIGGER_METHOD: TriggerMethod := TriggerMethod.Default

  function TriggerMethodToken(m: TriggerMethod): (t: string)
    ensures TriggerMethodOfToken(t) == Some(m)
  {
    match m
    case Default => "0"
    case DoubleBidAsk => "1"
    case Last => "2"
    case DoubleLast => "3"
    case BidAsk => "4"
    case LastOrBidAsk => "7"
    case Midpoint => "8"
  }

  function TriggerMethodOfToken(t: string): Option<TriggerMethod> {
    if t == "0" then Some(TriggerMethod.Default)
    else if t == "1" then Some(DoubleBidAsk)
    else if t == "2" then Some(Last)
    else if t == "3" then Some(DoubleLast)
    else if t == "4" then Some(BidAsk)
    else if t == "7" then Some(LastOrBidAsk)
    else if t == "8" then Some(TriggerMethod.Midpoint)
    else Option.None
  }

  /** The numbering skips 5 and 6: those tokens name no trigger method. */
  lemma TriggerMethodGap()
    ensures TriggerMethodOfToken("5") == Option.None && TriggerMethodOfToken("6") == Option.None
    ensures TriggerMethodToken(DEFAULT_TRIGGER_METHOD) == "0"
  {
  }

  // ---------------------------------------------------------------------
  // Order sides, and the rest of the order vocabulary.

  datatype Action = None | BUY | SELL | SSHORT

  /** `impl Default for Action`. */
  const DEFAULT_ACTION: Action := Action.None

  function ActionToken(a: Action): (t: string)
    ensures ActionOfToken(t) == Some(a)
  {
    match a
    case None => ""
    case BUY => "BUY"
    case SELL => "SELL"
    case SSHORT => "SSHORT"
  }

  function ActionOfToken(t: string): Option<Action> {
    if t == "" then Some(Action.None)
    else if t == "BUY" then Some(BUY)
    else if t == "SELL" then Some(SELL)
    else if t == "SSHORT" then Some(SSHORT)
    else Option.None
  }

  datatype Rule80A =
    | None | Individual | Agency | AgentOtherMember | IndividualPTIA | AgencyPTIA
    | AgentOtherMemberPTIA | IndividualPT | AgencyPT | AgentOtherMemberPT

  const DEFAULT_RULE80A: Rule80A := Rule80A.None

  function Rule80AToken(r: Rule80A): (t: string)
    ensures Rule80AOfToken(t) == Some(r)
  {
    match r
    case None => ""
    case Individual => "I"
    case Agency => "A"
    case AgentOtherMember => "W"
    case IndividualPTIA => "J"
    case AgencyPTIA => "U"
    case AgentOtherMemberPTIA => "M"
    case IndividualPT => "K"
    case AgencyPT => "Y"
    case AgentOtherMemberPT => "N"
  }

  /** The server sends "0" for none; it is accepted beside the empty token. */
  function Rule80AOfToken(t: string): Option<Rule80A> {
    if t == "" || t == "0" then Some(Rule80A.None)
    else if t == "I" then Some(Individual)
    else if t == "A" then Some(Agency)
    else if t == "W" then Some(AgentOtherMember)
    else if t == "J" then Some(IndividualPTIA)
    else if t == "U" then Some(AgencyPTIA)
    else if t == "M" then Some(AgentOtherMemberPTIA)
    else if t == "K" then Some(IndividualPT)
    else if t == "Y" then Some(AgencyPT)
    else if t == "N" then Some(AgentOtherMemberPT)
    else Option.None
  }

  lemma Rule80AAlias()
    ensures Rule80AOfToken("0") == Some(Rule80A.None) && Rule80AToken(Rule80A.None) == ""
  {
  }

  /** The nine designations are nine distinct one-letter tokens. */
  lemma Rule80ALetters(a: Rule80A, b: Rule80A)
    requires a != Rule80A.None
    ensures |Rule80AToken(a)| == 1
    ensures Rule80AToken(a) == Rule80AToken(b) ==> a == b
  {
    assert Rule80AOfToken(Rule80AToken(b)) == Some(b);
  }

  datatype OcaType = None | CancelWithBlocking | ReduceWithBlocking | ReduceWithoutBlocking

  const DEFAULT_OCA_TYPE: OcaType := OcaType.None

  function OcaTypeToken(o: OcaType): (t: string)
    ensures OcaTypeOfToken(t) == Some(o)
  {
    match o
    case None => "0"
    case CancelWithBlocking => "1"
    case ReduceWithBlocking => "2"
    case ReduceWithoutBlocking => "3"
  }

  function OcaTypeOfToken(t: string): Option<OcaType> {
    if t == "0" then Some(OcaType.None)
    else if t == "1" then Some(CancelWithBlocking)
    else if t == "2" then Some(ReduceWithBlocking)
    else if t == "3" then Some(ReduceWithoutBlocking)
    else Option.None
  }

  datatype TimeInForce = DAY | GTC | OPG | IOC | GTD | GTT | AUC | FOK | GTX | DTC

  const DEFAULT_TIME_IN_FORCE: TimeInForce := DAY

  function TimeInForceToken(f: TimeInForce): (t: string)
    ensures TimeInForceOfToken(t) == Some(f)
  {
    match f
    case DAY => "DAY"
    case GTC => "GTC"
    case OPG => "OPG"
    case IOC => "IOC"
    case GTD => "GTD"
    case GTT => "GTT"
    case AUC => "AUC"
    case FOK => "FOK"
    case GTX => "GTX"
    case DTC => "DTC"
  }

  function TimeInForceOfToken(t: string): Option<TimeInForce> {
    if t == "DAY" then Some(DAY)
    else if t == "GTC" then Some(GTC)
    else if t == "OPG" then Some(OPG)
    else if t == "IOC" then Some(IOC)
    else if t == "GTD" then Some(GTD)
    else if t == "GTT" then Some(GTT)
    else if t == "AUC" then Some(AUC)
    else if t == "FOK" then Some(FOK)
    else if t == "GTX" then Some(GTX)
    else if t == "DTC" then Some(DTC)
    else Option.None
  }

  datatype UsePriceMgmtAlgo = None | NotUse | Use

  function UsePriceMgmtAlgoToken(u: UsePriceMgmtAlgo): (t: string)
    ensures UsePriceMgmtAlgoOfToken(t) == Some(u)
  {
    match u
    case None => "2147483647"
    case NotUse => "0"
    case Use => "1"
  }

  function UsePriceMgmtAlgoOfToken(t: string): Option<UsePriceMgmtAlgo> {
    if t == "2147483647" then Some(UsePriceMgmtAlgo.None)
    else if t == "0" then Some(NotUse)
    else if t == "1" then Some(Use)
    else Option.None
  }

  // ---------------------------------------------------------------------
  // Records.

  datatype TagValue = TagValue(tag: string, value: string)

  datatype SoftDollarTier = SoftDollarTier(name: string, value: string, display_name: string)

  const DEFAULT_SOFT_DOLLAR_TIER: SoftDollarTier := SoftDollarTier("", "", "")

  /** A tag-value pair is its two strings, tag first. */
  function TagValueValue(t: TagValue): (v: Value)
    ensures TagValueOfValue(v) == Some(t)
  {
    Record([Value.Str(t.tag), Value.Str(t.value)])
  }

  function TagValueOfValue(v: Value): Option<TagValue> {
    if v.Record? && |v.fields| == 2 && v.fields[0].Str? && v.fields[1].Str?
    then Some(TagValue(v.fields[0].s, v.fields[1].s))
    else Option.None
  }
}
