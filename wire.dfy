/**
 * What every part of the codec shares: bytes and fixed-width integers, the
 * NUL-terminated token form of a field stream, decimal integer text as Rust's
 * `str::parse` reads it, and the serde data model the derived layouts are
 * written in.
 */
module Wire {
  import opened Wrappers

  newtype byte = x: int | 0 <= x < 256

  /** The field terminator. */
  const NUL: byte := 0

  newtype i32 = x: int | -0x8000_0000 <= x < 0x8000_0000
  newtype i64 = x: int | -0x8000_0000_0000_0000 <= x < 0x8000_0000_0000_0000

  const U64_BOUND: nat := 0x1_0000_0000_0000_0000

  /** An `f64`, kept as its bit pattern: the codec only copies these. */
  datatype F64 = F64(bits: bv64)

  predicate NulFree(t: seq<byte>) {
    forall i :: 0 <= i < |t| ==> t[i] != NUL
  }

  /** The wire form of a field stream: every token followed by its NUL. */
  function Join(tokens: seq<seq<byte>>): seq<byte> {
    if tokens == [] then [] else tokens[0] + [NUL] + Join(tokens[1..])
  }

  lemma {:induction false} JoinAppend(a: seq<seq<byte>>, b: seq<seq<byte>>)
    ensures Join(a + b) == Join(a) + Join(b)
  {
    if a == [] {
      assert a + b == b;
    } else {
      assert (a + b)[1..] == a[1..] + b;
      JoinAppend(a[1..], b);
    }
  }

  lemma JoinOne(t: seq<byte>)
    ensures Join([t]) == t + [NUL]
  {
    assert [t][1..] == [];
  }

  // ---------------------------------------------------------------------
  // Bytes and text. A token becomes a `String` through `from_utf8_lossy`;
  // the model maps each byte to the character with the same code, which is
  // that conversion on ASCII text.

  predicate IsLatin(s: string) {
    forall i :: 0 <= i < |s| ==> s[i] as int < 256
  }

  function Text(b: seq<byte>): (s: string)
    ensures |s| == |b| && IsLatin(s)
    ensures forall i :: 0 <= i < |b| ==> s[i] as int == b[i] as int
  {
    seq(|b|, i requires 0 <= i < |b| => (b[i] as int) as char)
  }

  function Bytes(s: string): (b: seq<byte>)
    requires IsLatin(s)
    ensures |b| == |s|
    ensures forall i :: 0 <= i < |s| ==> b[i] as int == s[i] as int
  {
    seq(|s|, i requires 0 <= i < |s| => s[i] as int as byte)
  }

  lemma TextOfBytes(s: string)
    requires IsLatin(s)
    ensures Text(Bytes(s)) == s
  {
  }

  lemma BytesOfText(b: seq<byte>)
    ensures Bytes(Text(b)) == b
  {
  }

  // ---------------------------------------------------------------------
  // Decimal integers.

  predicate IsDigit(c: char) {
    '0' <= c <= '9'
  }

  predicate AllDigits(d: string) {
    forall i :: 0 <= i < |d| ==> IsDigit(d[i])
  }

  function DigitChar(k: nat): (c: char)
    requires k < 10
    ensures IsDigit(c) && c as int - '0' as int == k
  {
    ('0' as int + k) as char
  }

  function DigitsValue(d: string): nat
    requires AllDigits(d)
  {
    if d == [] then 0
    else DigitsValue(d[..|d| - 1]) * 10 + (d[|d| - 1] as int - '0' as int)
  }

  /** The shortest decimal text of `n`, as Rust's `Display` writes it. */
  function DecimalText(n: nat): (s: string)
    ensures |s| > 0 && AllDigits(s) && IsLatin(s)
  {
    if n < 10 then [DigitChar(n)] else DecimalText(n / 10) + [DigitChar(n % 10)]
  }

  lemma {:induction false} DecimalTextValue(n: nat)
    ensures DigitsValue(DecimalText(n)) == n
  {
    if n >= 10 {
      var s := DecimalText(n);
      assert s[..|s| - 1] == DecimalText(n / 10);
      DecimalTextValue(n / 10);
    }
  }

  /**
   * `u64::from_str`: an optional leading '+', then one or more decimal
   * digits, and a value below 2^64; anything else is a parse error.
   */
  function ParseU64(s: string): (r: Option<nat>)
    ensures r.Some? ==> r.value < U64_BOUND
  {
    var digits := if |s| > 0 && s[0] == '+' then s[1..] else s;
    if |digits| == 0 || !AllDigits(digits) then None
    else if DigitsValue(digits) < U64_BOUND then Some(DigitsValue(digits))
    else None
  }

  lemma ParseU64OfDecimal(n: nat)
    requires n < U64_BOUND
    ensures ParseU64(DecimalText(n)) == Some(n)
  {
    DecimalTextValue(n);
  }

  /** Decimal text never holds the field terminator. */
  lemma DecimalTextNulFree(n: nat)
    ensures NulFree(Bytes(DecimalText(n)))
  {
  }

  // ---------------------------------------------------------------------
  // The serde data model. A derived `Serialize`/`Deserialize` sees a struct
  // or tuple as its fields in declaration order, an enum variant as its tag
  // followed by the variant's own fields, a `Vec` as a list and an `Option`
  // as present or absent. How an integer, a float, a bool, a list or an
  // absent option is rendered as tokens belongs to the serializer and to the
  // framed deserializer, which are not part of this model.

  datatype Value =
    | Int(i: int)
    | Str(s: string)
    | Bool(b: bool)
    | Float(f: F64)
    | Record(fields: seq<Value>)
    | Variant(tag: string, payload: seq<Value>)
    | List(items: seq<Value>)
    | Opt(o: Option<Value>)

  function AsI32(v: Value): Option<i32> {
    if v.Int? && -0x8000_0000 <= v.i < 0x8000_0000 then Some(v.i as i32) else None
  }

  function AsI64(v: Value): Option<i64> {
    if v.Int? && -0x8000_0000_0000_0000 <= v.i < 0x8000_0000_0000_0000 then Some(v.i as i64) else None
  }

  function AsStr(v: Value): Option<string> {
    if v.Str? then Some(v.s) else None
  }

  function AsF64(v: Value): Option<F64> {
    if v.Float? then Some(v.f) else None
  }

  function AsBool(v: Value): Option<bool> {
    if v.Bool? then Some(v.b) else None
  }

  /** A unit enum variant is its tag alone. */
  function Tag(t: string): (v: Value)
    ensures AsTag(v) == Some(t)
  {
    Variant(t, [])
  }

  /** The tag of a unit variant. */
  function AsTag(v: Value): Option<string> {
    if v.Variant? && v.payload == [] then Some(v.tag) else None
  }

  function OptI32(x: Option<i32>): Value {
    match x
    case None => Opt(None)
    case Some(n) => Opt(Some(Int(n as int)))
  }

  function OptF64(x: Option<F64>): Value {
    match x
    case None => Opt(None)
    case Some(f) => Opt(Some(Float(f)))
  }
}
