/**
 * How the JSON library binds the values of a JSON object to the fields of a
 * result record: by key, with an absent key or JSON null giving null, and
 * Integer and Long fields limited to 32 and 64 bits.
 */
module Binding {
  import opened Wrappers
  import opened Json

  /** The key of the primitive `status` field both result records carry, and the discriminant of every body. */
  const StatusKey := "status"

  type Int32 = n: int | -0x8000_0000 <= n < 0x8000_0000
  type Int64 = n: int | -0x8000_0000_0000_0000 <= n < 0x8000_0000_0000_0000

  /** The text under `key`, or null. */
  function StringAt(fields: map<string, Json>, key: string): Option<string> {
    if key in fields && fields[key].JString? then Some(fields[key].s) else None
  }

  /** The number under `key`, or null. */
  function NumberAt(fields: map<string, Json>, key: string): Option<int> {
    if key in fields && fields[key].JInt? then Some(fields[key].n) else None
  }

  predicate StringBindable(fields: map<string, Json>, key: string) {
    key !in fields || fields[key].JNull? || fields[key].JString?
  }

  predicate IntegerBindable(fields: map<string, Json>, key: string) {
    key !in fields || fields[key].JNull? || (fields[key].JInt? && -0x8000_0000 <= fields[key].n < 0x8000_0000)
  }

  predicate LongBindable(fields: map<string, Json>, key: string) {
    key !in fields || fields[key].JNull?
    || (fields[key].JInt? && -0x8000_0000_0000_0000 <= fields[key].n < 0x8000_0000_0000_0000)
  }

  /** Two objects hold the same thing under every key of `keys`. */
  predicate AgreeOn(f: map<string, Json>, g: map<string, Json>, keys: set<string>) {
    forall k | k in keys :: (k in f <==> k in g) && (k in f ==> f[k] == g[k])
  }

  /** A `String` field: null, a string, or a failure naming the key. */
  function StringField(fields: map<string, Json>, key: string): (r: Result<Option<string>, string>)
    ensures r.Ok? <==> StringBindable(fields, key)
    ensures r.Ok? ==> r.value == StringAt(fields, key)
    ensures r.Fail? ==> r.failure == key
  {
    if key !in fields then Ok(None)
    else match fields[key]
      case JNull => Ok(None)
      case JString(s) => Ok(Some(s))
      case _ => Fail(key)
  }

  /** An `Integer` field: a number outside 32 bits does not bind. */
  function IntegerField(fields: map<string, Json>, key: string): (r: Result<Option<Int32>, string>)
    ensures r.Ok? <==> IntegerBindable(fields, key)
    ensures r.Ok? ==> r.value == NumberAt(fields, key)
    ensures r.Fail? ==> r.failure == key
  {
    if key !in fields then Ok(None)
    else match fields[key]
      case JNull => Ok(None)
      case JInt(n) => if -0x8000_0000 <= n < 0x8000_0000 then Ok(Some(n)) else Fail(key)
      case _ => Fail(key)
  }

  /** A `Long` field: a number outside 64 bits does not bind. */
  function LongField(fields: map<string, Json>, key: string): (r: Result<Option<Int64>, string>)
    ensures r.Ok? <==> LongBindable(fields, key)
    ensures r.Ok? ==> r.value == NumberAt(fields, key)
    ensures r.Fail? ==> r.failure == key
  {
    if key !in fields then Ok(None)
    else match fields[key]
      case JNull => Ok(None)
      case JInt(n) => if -0x8000_0000_0000_0000 <= n < 0x8000_0000_0000_0000 then Ok(Some(n)) else Fail(key)
      case _ => Fail(key)
  }

  /**
   * The primitive `boolean status` field: false when the key is absent,
   * a JSON boolean as it is, any other value through `asBoolean`.
   */
  function StatusField(fields: map<string, Json>, key: string, asBoolean: Json -> bool): (b: bool)
    ensures key !in fields ==> !b
    ensures key in fields && fields[key].JBool? ==> b == fields[key].b
    ensures key in fields && !fields[key].JBool? ==> b == asBoolean(fields[key])
  {
    if key !in fields then false
    else match fields[key]
      case JBool(b) => b
      case other => asBoolean(other)
  }

  /** With a faithful `asBoolean`, the bound field is exactly what `asBoolean` says of the value. */
  lemma StatusFieldAgrees(fields: map<string, Json>, key: string, mapper: Mapper)
    requires BooleanFaithful(mapper) && key in fields
    ensures StatusField(fields, key, mapper.asBoolean) == mapper.asBoolean(fields[key])
  {
  }

  /** The JSON value a nullable field is sent as, none for null. */
  function StringValue(v: Option<string>): Option<Json> {
    if v.Some? then Some(JString(v.value)) else None
  }

  function NumberValue(v: Option<int>): Option<Json> {
    if v.Some? then Some(JInt(v.value)) else None
  }
}
