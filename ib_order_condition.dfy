/**
 * Order conditions (src/ib/order_condition.rs): a condition is its type's
 * number followed by its own fields, the first of which always says how it
 * combines with the condition before it.
 */
module IbOrderCondition {
  import opened Wrappers
  import opened Wire
  import opened IbTypes

  datatype AndOr = And | Or

  const DEFAULT_AND_OR: AndOr := And

  function AndOrToken(a: AndOr): (t: string)
    ensures AndOrOfToken(t) == Some(a)
  {
    match a
    case And => "a"
    case Or => "o"
  }

  function AndOrOfToken(t: string): Option<AndOr> {
    if t == "a" then Some(And) else if t == "o" then Some(Or) else Option.None
  }

  datatype OrderCondition =
    | Price(and_or: AndOr, trigger_method: TriggerMethod)
    | Time(and_or: AndOr)
    | Margin(and_or: AndOr)
    | Execution(and_or: AndOr, sec_type: string, exchange: string, symbol: string)
    | Volume(and_or: AndOr)
    | PercentChange(and_or: AndOr)

  /** The derived default is the first variant with default fields. */
  const DEFAULT_ORDER_CONDITION: OrderCondition := Price(DEFAULT_AND_OR, DEFAULT_TRIGGER_METHOD)

  function ConditionTag(c: OrderCondition): string {
    match c
    case Price(_, _) => "1"
    case Time(_) => "3"
    case Margin(_) => "4"
    case Execution(_, _, _, _) => "5"
    case Volume(_) => "6"
    case PercentChange(_) => "7"
  }

  /** The condition as the tag and then its fields, `and_or` first. */
  function ConditionValue(c: OrderCondition): (v: Value)
    ensures v.Variant? && v.tag == ConditionTag(c) && |v.payload| >= 1
    ensures v.payload[0] == Tag(AndOrToken(c.and_or))
    ensures ConditionOfValue(v) == Some(c)
  {
    var head := Tag(AndOrToken(c.and_or));
    match c
    case Price(_, m) => Variant("1", [head, Tag(TriggerMethodToken(m))])
    case Time(_) => Variant("3", [head])
    case Margin(_) => Variant("4", [head])
    case Execution(_, sec_type, exchange, symbol) =>
      Variant("5", [head, Value.Str(sec_type), Value.Str(exchange), Value.Str(symbol)])
    case Volume(_) => Variant("6", [head])
    case PercentChange(_) => Variant("7", [head])
  }

  function TagToken(v: Value): Option<string> {
    if v.Variant? && v.payload == [] then Some(v.tag) else Option.None
  }

  function ConditionOfValue(v: Value): Option<OrderCondition> {
    if !v.Variant? || |v.payload| == 0 || TagToken(v.payload[0]).None? then Option.None
    else
      var a := AndOrOfToken(TagToken(v.payload[0]).value);
      var p := v.payload;
      if a.None? then Option.None
      else if v.tag == "1" then
        if |p| == 2 && TagToken(p[1]).Some? && TriggerMethodOfToken(TagToken(p[1]).value).Some?
        then Some(Price(a.value, TriggerMethodOfToken(TagToken(p[1]).value).value)) else Option.None
      else if v.tag == "5" then
        if |p| == 4 && p[1].Str? && p[2].Str? && p[3].Str?
        then Some(Execution(a.value, p[1].s, p[2].s, p[3].s)) else Option.None
      else if |p| != 1 then Option.None
      else if v.tag == "3" then Some(Time(a.value))
      else if v.tag == "4" then Some(Margin(a.value))
      else if v.tag == "6" then Some(Volume(a.value))
      else if v.tag == "7" then Some(PercentChange(a.value))
      else Option.None
  }

  /** Distinct conditions have distinct tags, and "2" is the tag of none. */
  lemma ConditionTags(c: OrderCondition, d: OrderCondition)
    ensures ConditionTag(c) == ConditionTag(d) ==>
      c.Price? == d.Price? && c.Time? == d.Time? && c.Margin? == d.Margin? &&
      c.Execution? == d.Execution? && c.Volume? == d.Volume? && c.PercentChange? == d.PercentChange?
    ensures ConditionTag(c) != "2"
  {
  }

  lemma NoConditionTwo(payload: seq<Value>)
    ensures ConditionOfValue(Variant("2", payload)) == Option.None
  {
  }
}
