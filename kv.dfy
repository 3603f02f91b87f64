/** Typed key-value parameters (kv.go): a key, a kind tag and three payload slots. */
module KV {

  /** Go's `int64` (and `int`, which is 64 bits wide on the platforms the logger targets). */
  newtype int64 = x: int | -0x8000_0000_0000_0000 <= x < 0x8000_0000_0000_0000

  /** Go's `KVParamType`, an `int`; only 0..5 are named, other codes are representable. */
  type KVParamType = int64

  const KV_PARAM_TYPE_STRING: KVParamType := 0
  const KV_PARAM_TYPE_INT: KVParamType := 1
  const KV_PARAM_TYPE_FLOAT: KVParamType := 2
  const KV_PARAM_TYPE_BOOLEAN: KVParamType := 3
  const KV_PARAM_TYPE_TIME: KVParamType := 4
  const KV_PARAM_TYPE_DURATION: KVParamType := 5

  /** A float64 kept as its IEEE-754 bit pattern: it is stored and returned, never computed with. */
  datatype Float64 = Float64(bits: bv64)

  /** The zero value of Go's float64 (+0.0). */
  const FLOAT_ZERO := Float64(0)

  /** A time.Time, represented by its count of nanoseconds since the Unix epoch. */
  datatype Timestamp = FromUnixNano(unixNano: int64)

  /** A time.Duration, a signed count of nanoseconds. */
  datatype TimeSpan = Nanoseconds(count: int64)

  /**
   * The record behind every parameter. Each accessor reads its slot whatever
   * the kind: a mismatched read yields the slot's stored (usually zero) value.
   */
  datatype KVParam = KVParam(key: string, pType: KVParamType, str: string, integer: int64, float: Float64)
  {
    function Key(): string { key }

    function Type(): KVParamType { pType }

    function String(): string { str }

    /** `Int() != 0`: the encoding KVBool uses. */
    predicate Bool() { Int() != 0 }

    function Int(): int64 { integer }

    function Float(): Float64 { float }

    /** `time.Unix(0, int)`. */
    function Time(): Timestamp { FromUnixNano(integer) }

    /** `time.Nanosecond * time.Duration(int)`; the factor is 1, so nothing can overflow. */
    function Duration(): TimeSpan { Nanoseconds(integer) }
  }

  /** The slots a factory leaves untouched hold Go's zero values. */
  predicate UntouchedSlotsZero(p: KVParam)
  {
    (p.pType != KV_PARAM_TYPE_STRING ==> p.str == "")
    && (p.pType == KV_PARAM_TYPE_STRING || p.pType == KV_PARAM_TYPE_FLOAT ==> p.integer == 0)
    && (p.pType != KV_PARAM_TYPE_FLOAT ==> p.float == FLOAT_ZERO)
  }

  function KVString(key: string, value: string): (p: KVParam)
    ensures p.Key() == key && p.Type() == KV_PARAM_TYPE_STRING
    ensures p.String() == value
    ensures p.Int() == 0 && !p.Bool() && p.Float() == FLOAT_ZERO
    ensures UntouchedSlotsZero(p)
  {
    KVParam(key, KV_PARAM_TYPE_STRING, value, 0, FLOAT_ZERO)
  }

  function KVInt(key: string, value: int64): (p: KVParam)
    ensures p.Key() == key && p.Type() == KV_PARAM_TYPE_INT
    ensures p.Int() == value
    ensures p.Bool() == (value != 0)
    ensures p.String() == "" && p.Float() == FLOAT_ZERO
    ensures UntouchedSlotsZero(p)
  {
    KVParam(key, KV_PARAM_TYPE_INT, "", value, FLOAT_ZERO)
  }

  function KVFloat64(key: string, value: Float64): (p: KVParam)
    ensures p.Key() == key && p.Type() == KV_PARAM_TYPE_FLOAT
    ensures p.Float() == value
    ensures p.String() == "" && p.Int() == 0 && !p.Bool()
    ensures UntouchedSlotsZero(p)
  {
    KVParam(key, KV_PARAM_TYPE_FLOAT, "", 0, value)
  }

  /** The int slot starts at 0 and is set to 1 only for `true`. */
  function KVBool(key: string, value: bool): (p: KVParam)
    ensures p.Key() == key && p.Type() == KV_PARAM_TYPE_BOOLEAN
    ensures p.Bool() == value
    ensures p.Int() == (if value then 1 else 0)
    ensures p.String() == "" && p.Float() == FLOAT_ZERO
    ensures UntouchedSlotsZero(p)
  {
    var param := KVParam(key, KV_PARAM_TYPE_BOOLEAN, "", 0, FLOAT_ZERO);
    if value then param.(integer := 1) else param
  }

  /** Stores `value.UnixNano()` in the int slot. */
  function KVTime(key: string, value: Timestamp): (p: KVParam)
    ensures p.Key() == key && p.Type() == KV_PARAM_TYPE_TIME
    ensures p.Time() == value && p.Int() == value.unixNano
    ensures p.String() == "" && p.Float() == FLOAT_ZERO
    ensures UntouchedSlotsZero(p)
  {
    KVParam(key, KV_PARAM_TYPE_TIME, "", value.unixNano, FLOAT_ZERO)
  }

  /** Stores `value.Nanoseconds()` in the int slot. */
  function KVDuration(key: string, value: TimeSpan): (p: KVParam)
    ensures p.Key() == key && p.Type() == KV_PARAM_TYPE_DURATION
    ensures p.Duration() == value && p.Int() == value.count
    ensures p.String() == "" && p.Float() == FLOAT_ZERO
    ensures UntouchedSlotsZero(p)
  {
    KVParam(key, KV_PARAM_TYPE_DURATION, "", value.count, FLOAT_ZERO)
  }

  /**
   * Reading a parameter through an accessor of another kind never fails: it
   * returns the zero value of the untouched slot, or a value derived from the
   * int slot.
   */
  lemma MismatchedAccessors(p: KVParam)
    requires UntouchedSlotsZero(p)
    ensures p.Type() != KV_PARAM_TYPE_STRING ==> p.String() == ""
    ensures p.Type() == KV_PARAM_TYPE_STRING || p.Type() == KV_PARAM_TYPE_FLOAT ==> p.Int() == 0 && !p.Bool()
    ensures p.Type() != KV_PARAM_TYPE_FLOAT ==> p.Float() == FLOAT_ZERO
    ensures p.Bool() == (p.Int() != 0)
    ensures p.Time() == FromUnixNano(p.Int()) && p.Duration() == Nanoseconds(p.Int())
  {
  }
}
