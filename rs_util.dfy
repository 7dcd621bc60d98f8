/** The Rust library's error type (mpris/src/lib.rs) and its one helper,
    `extract_value` (mpris/src/util.rs): a property dictionary as zbus hands
    it over, looked up by key and converted to the field's Rust type. */
module RsUtil {
  import opened Wire

  /** The conversion error of zvariant that the code produces itself. */
  datatype ZError = IncorrectType

  /** `mpris::Error`. The two D-Bus variants carry the message only. */
  datatype Error =
    | NoPlayerFound
    | PlayerNotFound(name: string)
    | DBus(message: string)
    | ZVariant(z: ZError)

  /** `mpris::Result<T>`. */
  datatype Result<T> = Ok(value: T) | Err(error: Error)

  /** The outcome of one `TryFrom<OwnedValue>` conversion. */
  datatype Converted<T> = Converted(value: T) | Failed(z: ZError)

  /** A GetAll reply or the "Metadata" property once zbus has read it into a
      `HashMap<String, OwnedValue>`. */
  type PropertyMap = map<string, RemoteValue>

  /** `HashMap::get` as an `Option`. */
  function Lookup(props: PropertyMap, key: string): (r: Option<RemoteValue>)
    ensures r.Some? <==> key in props
    ensures r.Some? ==> r.value == props[key]
  {
    if key in props then Some(props[key]) else None
  }

  /** `extract_value`: look the key up, then convert a clone of the value
      with `T::try_from`, keeping the result only when it succeeds. The
      conversion is a parameter, as the generic `T` makes it one. */
  function ExtractValue<T>(props: PropertyMap, key: string, tryFrom: RemoteValue -> Converted<T>): (r: Option<T>)
    ensures r.Some? <==> key in props && tryFrom(props[key]).Converted?
    ensures r.Some? ==> r.value == tryFrom(props[key]).value
  {
    match Lookup(props, key)
    case None => None
    case Some(v) =>
      match tryFrom(v)
      case Converted(x) => Some(x)
      case Failed(_) => None
  }

  /** The value of one key depends on that key's entry alone: entries under
      other keys, added or changed, do not affect it. */
  lemma ExtractValueLocal<T>(props: PropertyMap, key: string, other: string, v: RemoteValue,
                             tryFrom: RemoteValue -> Converted<T>)
    requires other != key
    ensures ExtractValue(props[other := v], key, tryFrom) == ExtractValue(props, key, tryFrom)
  {
  }

  // ---------------------------------------------------------------------------
  // The zvariant conversions the library uses. They live in zvariant, not in
  // the repository; each accepts exactly the wire type of its Rust type.

  function AsString(v: RemoteValue): Converted<string> {
    if v.Str? then Converted(v.s) else Failed(IncorrectType)
  }

  function AsObjectPath(v: RemoteValue): Converted<string> {
    if v.ObjectPath? then Converted(v.path) else Failed(IncorrectType)
  }

  function AsI64(v: RemoteValue): Converted<int> {
    if v.Int64? then Converted(v.i) else Failed(IncorrectType)
  }

  function AsF64(v: RemoteValue): Converted<real> {
    if v.Double? then Converted(v.r) else Failed(IncorrectType)
  }

  function AsBool(v: RemoteValue): Converted<bool> {
    if v.Boolean? then Converted(v.raw == DBUS_TRUE) else Failed(IncorrectType)
  }

  function AsStrings(v: RemoteValue): Converted<seq<string>> {
    if v.StrArray? then Converted(v.items) else Failed(IncorrectType)
  }
}
