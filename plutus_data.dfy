/** Plutus Data as the lucid-cardano library hands it to the bridge after
    `Data.from`: a constructor application, a list, an arbitrary-precision
    integer, or a byte string (lucid shows it as a hex string; the model keeps
    the bytes). The CBOR layer underneath is not modelled. */
module PlutusData {
  import opened Wrappers

  /** One element of a `Uint8Array`. */
  type Byte = b: int | 0 <= b < 256

  type ByteString = seq<Byte>

  datatype Data =
    | Constr(index: nat, fields: seq<Data>)
    | List(items: seq<Data>)
    | Int(value: int)
    | Bytes(bytes: ByteString)

  /** `(d as Constr<Data>).fields[0]` on a value known to be a constructor:
      the first field, or `undefined` when it has none. */
  function FirstField(d: Data): Option<Data>
    requires d.Constr?
  {
    if |d.fields| > 0 then Some(d.fields[0]) else None
  }
}
