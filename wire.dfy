/** The D-Bus side as the controller sees it: the values that travel on the
    wire, the calls the controller issues, and the replies it gets back.
    The transport itself (libdbus in C++, zbus in Rust) is not modelled: a
    call is an entry appended to a ghost log, and what the remote answers is
    a parameter of the operation that issues the call. */
module Wire {

  datatype Option<T> = None | Some(value: T)

  /** `dbus_bool_t`, an unsigned 32-bit integer on the wire. */
  newtype u32 = x: int | 0 <= x < 0x1_0000_0000

  /** The range of a signed 64-bit integer (`int64_t`, `i64`). */
  const Int64Min: int := -0x8000_0000_0000_0000
  const Int64Max: int := 0x7fff_ffff_ffff_ffff

  /** libdbus's `TRUE`. */
  const DBUS_TRUE: u32 := 1

  /** A value of the D-Bus type system as the decoders meet it, after the
      enclosing VARIANT has been opened. An array of strings and an array of
      object paths look the same to the decoders (both are read element by
      element as C strings), so one constructor stands for both; `Dict` is
      the `a{sv}` dictionary that GetAll and the "Metadata" property carry. */
  datatype RemoteValue =
    | Boolean(raw: u32)
    | Int32(i: int)
    | Int64(i: int)
    | Double(r: real)
    | Str(s: string)
    | ObjectPath(path: string)
    | StrArray(items: seq<string>)
    | Dict(entries: seq<(string, RemoteValue)>)

  /** The key/value pairs of an `a{sv}` dictionary, in wire order. */
  type Entries = seq<(string, RemoteValue)>

  /** What a remote call answers: a reply carrying a value, or the error
      message the bus hands back (which the C++ side throws as
      `std::runtime_error`). */
  datatype Reply<T> = Ok(value: T) | Err(message: string)

  /** One method call put on the bus. */
  datatype Call = Call(destination: string, path: string, iface: string, member: string, args: seq<RemoteValue>)

  /** The shared connection. Its ghost log records every call issued through
      it, in order, so that "no remote call is made" can be stated. */
  class Bus {
    ghost var calls: seq<Call>

    constructor ()
      ensures calls == []
    {
      calls := [];
    }
  }
}
