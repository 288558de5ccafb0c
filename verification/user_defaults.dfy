/**
 * The key-value store behind the hub (`UserDefaults.standard`), reduced to a map
 * from key to a tagged stored value, with the typed getters and the write
 * primitive the hub's setters use.
 */
module UserDefaults {
  import opened Wrappers

  /** A `Date`, kept opaque: only its identity matters to the model. */
  datatype Date = Date(ticks: int)

  /** A `Double`, kept opaque as its IEEE-754 bit pattern. */
  datatype Double = Double(bits: bv64)

  /** The payload of an `NSNumber`. */
  datatype Number = IntNumber(i: int) | BoolNumber(b: bool) | DoubleNumber(d: Double)

  /** One property-list object as the store holds it. */
  datatype StoredValue =
    | Num(n: Number)
    | Text(s: string)
    | Bytes(data: seq<bv8>)
    | Moment(date: Date)
    | List(items: seq<StoredValue>)
    | Dict(entries: map<string, StoredValue>)

  type Store = map<string, StoredValue>

  // Coercions of the store's `integer(forKey:)`, `double(forKey:)` and
  // `bool(forKey:)` on a present value.

  function IntegerOf(v: StoredValue): int {
    match v
    case Num(IntNumber(i)) => i
    case Num(BoolNumber(b)) => if b then 1 else 0
    case _ => 0
  }

  function DoubleOf(v: StoredValue): Double {
    match v
    case Num(DoubleNumber(d)) => d
    case _ => Double(0)
  }

  function BoolOf(v: StoredValue): bool {
    match v
    case Num(BoolNumber(b)) => b
    case Num(IntNumber(i)) => i != 0
    case _ => false
  }

  // Encoders: what each typed setter hands to the store.

  function EncodeString(s: string): StoredValue { Text(s) }
  function EncodeInt(i: int): StoredValue { Num(IntNumber(i)) }
  function EncodeDouble(d: Double): StoredValue { Num(DoubleNumber(d)) }
  function EncodeBool(b: bool): StoredValue { Num(BoolNumber(b)) }
  function EncodeDate(d: Date): StoredValue { Moment(d) }
  function EncodeData(b: seq<bv8>): StoredValue { Bytes(b) }

  /** `value.map(encode)`: the optional setters pass nil through. */
  function EncodeOptional<T>(value: Option<T>, encode: T -> StoredValue): Option<StoredValue> {
    match value
    case Some(v) => Some(encode(v))
    case None => None
  }

  /** `set(_:forKey:)` on the store: a present value is written, nil removes the key. */
  function Put(store: Store, key: string, value: Option<StoredValue>): (r: Store)
    ensures value.Some? ==> key in r && r[key] == value.value
    ensures value.None? ==> key !in r
    ensures forall k :: k != key ==> (k in r <==> k in store)
    ensures forall k :: k != key && k in store ==> r[k] == store[k]
  {
    match value
    case Some(v) => store[key := v]
    case None => store - {key}
  }

  /** `object(forKey:)` */
  function Object(store: Store, key: string): (r: Option<StoredValue>)
    ensures r.None? <==> key !in store
    ensures r.Some? ==> r.value == store[key]
  {
    if key in store then Some(store[key]) else None
  }

  /** `string(forKey:)`: nil unless a string is stored. */
  function String(store: Store, key: string): (r: Option<string>)
    ensures r.Some? <==> key in store && store[key].Text?
    ensures r.Some? ==> store[key] == Text(r.value)
  {
    if key in store && store[key].Text? then Some(store[key].s) else None
  }

  /** `array(forKey:)` */
  function Array(store: Store, key: string): (r: Option<seq<StoredValue>>)
    ensures r.Some? <==> key in store && store[key].List?
    ensures r.Some? ==> store[key] == List(r.value)
  {
    if key in store && store[key].List? then Some(store[key].items) else None
  }

  /** `dictionary(forKey:)` */
  function Dictionary(store: Store, key: string): (r: Option<map<string, StoredValue>>)
    ensures r.Some? <==> key in store && store[key].Dict?
    ensures r.Some? ==> store[key] == Dict(r.value)
  {
    if key in store && store[key].Dict? then Some(store[key].entries) else None
  }

  /** `date(for:)`: the stored object cast to a date. */
  function DateValue(store: Store, key: string): (r: Option<Date>)
    ensures r.Some? <==> key in store && store[key].Moment?
    ensures r.Some? ==> store[key] == Moment(r.value)
  {
    match Object(store, key)
    case None => None
    case Some(obj) => if obj.Moment? then Some(obj.date) else None
  }

  /** `data(forKey:)` */
  function Data(store: Store, key: string): (r: Option<seq<bv8>>)
    ensures r.Some? <==> key in store && store[key].Bytes?
    ensures r.Some? ==> store[key] == Bytes(r.value)
  {
    if key in store && store[key].Bytes? then Some(store[key].data) else None
  }

  /** `int(for:)`: nil exactly when the key is absent. */
  function Int(store: Store, key: string): (r: Option<int>)
    ensures r.None? <==> key !in store
    ensures key in store && store[key].Num? && store[key].n.IntNumber? ==> r == Some(store[key].n.i)
  {
    if key !in store then None else Some(IntegerOf(store[key]))
  }

  /** `int64(for:)`: nil exactly when the stored object is not a number. */
  function Int64(store: Store, key: string): (r: Option<int>)
    ensures r.None? <==> key !in store || !store[key].Num?
    ensures key in store && store[key].Num? && store[key].n.IntNumber? ==> r == Some(store[key].n.i)
  {
    match Object(store, key)
    case Some(Num(n)) => Some(IntegerOf(Num(n)))
    case _ => None
  }

  /** `double(for:)`: nil exactly when the key is absent. */
  function DoubleValue(store: Store, key: string): (r: Option<Double>)
    ensures r.None? <==> key !in store
    ensures key in store && store[key].Num? && store[key].n.DoubleNumber? ==> r == Some(store[key].n.d)
  {
    if key !in store then None else Some(DoubleOf(store[key]))
  }

  /** `bool(for:)`: nil exactly when the key is absent. */
  function Bool(store: Store, key: string): (r: Option<bool>)
    ensures r.None? <==> key !in store
    ensures key in store && store[key].Num? && store[key].n.BoolNumber? ==> r == Some(store[key].n.b)
  {
    if key !in store then None else Some(BoolOf(store[key]))
  }

  /**
   * `rawRepresentable(for:)` for a String raw value: nil when no string is stored
   * or when `fromRaw` (the type's `init?(rawValue:)`) has no matching case.
   */
  function RawString<R>(store: Store, key: string, fromRaw: string -> Option<R>): (r: Option<R>)
    ensures r.None? <==> String(store, key).None? || fromRaw(store[key].s).None?
    ensures r.Some? ==> r == fromRaw(store[key].s)
  {
    match String(store, key)
    case None => None
    case Some(str) => fromRaw(str)
  }

  /**
   * `rawRepresentable(for:)` for an Int raw value: nil when the key is absent,
   * otherwise whatever `fromRaw` makes of the stored integer.
   */
  function RawInt<R>(store: Store, key: string, fromRaw: int -> Option<R>): (r: Option<R>)
    ensures key !in store ==> r.None?
    ensures key in store ==> r == fromRaw(IntegerOf(store[key]))
  {
    if key !in store then None else fromRaw(IntegerOf(store[key]))
  }
}
