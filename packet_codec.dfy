/** The packet codec of the multiplayer bridge (`encodePackets` and
    `decodePackets` in src/utils/HydraMultiplayer/base.ts): a queue of game
    packets travels as a Plutus list of `Constr 0 [to, from, ephemeralKey, data]`. */
module PacketCodec {
  import opened Wrappers
  import opened PlutusData

  /** A game packet: destination and source player slots, the sender's
      session key hash, and the engine's opaque payload. */
  datatype Packet = Packet(to: int, from: int, ephemeralKey: ByteString, data: ByteString)

  /** One packet as `new Constr(0, [BigInt(to), BigInt(from), toHex(ephemeralKey), toHex(data)])`. */
  function EncodePacket(p: Packet): Data {
    Constr(0, [Int(p.to), Int(p.from), Bytes(p.ephemeralKey), Bytes(p.data)])
  }

  /** `encodePackets`: the whole queue, in order, as one Plutus list. */
  function EncodePackets(packets: seq<Packet>): Data {
    List(seq(|packets|, i requires 0 <= i < |packets| => EncodePacket(packets[i])))
  }

  /** The body of the `map` callback in `decodePackets`: destructure the first
      four fields of a constructor (its index is not looked at, extra fields are
      ignored). An element that is not a constructor makes the callback throw.
      The model also reads an element that lacks one of the four fields, or
      holds a field of the wrong kind, as a failure of the whole batch. */
  function DecodePacket(d: Data): (r: Result<Packet>)
    ensures r.Ok? <==>
      d.Constr? && |d.fields| >= 4
      && d.fields[0].Int? && d.fields[1].Int? && d.fields[2].Bytes? && d.fields[3].Bytes?
    ensures r.Ok? ==> EncodePacket(r.value) == Constr(0, d.fields[..4])
  {
    if !d.Constr? then Err("packet datum is not a constructor")
    else if |d.fields| < 4 then Err("packet datum has fewer than four fields")
    else
      var to, from, key, data := d.fields[0], d.fields[1], d.fields[2], d.fields[3];
      if !to.Int? || !from.Int? then Err("packet slot is not an integer")
      else if !key.Bytes? || !data.Bytes? then Err("packet key or payload is not a byte string")
      else
        var p := Packet(to.value, from.value, key.bytes, data.bytes);
        assert [Int(p.to), Int(p.from), Bytes(p.ephemeralKey), Bytes(p.data)] == d.fields[..4];
        Ok(p)
  }

  /** `Array.prototype.map` of `DecodePacket`: every element decoded, in order,
      or the first exception. */
  function DecodeEach(items: seq<Data>): (r: Result<seq<Packet>>)
    ensures r.Ok? <==> forall i | 0 <= i < |items| :: DecodePacket(items[i]).Ok?
    ensures r.Ok? ==> |r.value| == |items|
    ensures r.Ok? ==> forall i | 0 <= i < |items| :: Ok(r.value[i]) == DecodePacket(items[i])
  {
    if items == [] then Ok([])
    else
      match DecodePacket(items[0])
      case Err(e) => Err(e)
      case Ok(p) =>
        match DecodeEach(items[1..])
        case Err(e) => Err(e)
        case Ok(ps) => Ok([p] + ps)
  }

  /** `decodePackets`: `undefined` (here `Ok(None)`) unless the datum is a list,
      in which case every element must decode as a packet. */
  function DecodePackets(d: Data): (r: Result<Option<seq<Packet>>>)
    ensures r == Ok(None) <==> !d.List?
    ensures r.Ok? && r.value.Some? ==> |r.value.value| == |d.items|
  {
    if !d.List? then Ok(None)
    else
      match DecodeEach(d.items)
      case Err(e) => Err(e)
      case Ok(ps) => Ok(Some(ps))
  }

  /** Round trip: decoding an encoded queue gives back every packet, in order,
      with byte-exact keys and payloads. */
  lemma DecodeEncodePackets(packets: seq<Packet>)
    ensures DecodePackets(EncodePackets(packets)) == Ok(Some(packets))
  {
    var items := EncodePackets(packets).items;
    forall i | 0 <= i < |items| ensures DecodePacket(items[i]) == Ok(packets[i]) {
      DecodeEncodePacket(packets[i]);
    }
    var ps := DecodeEach(items).value;
    assert |ps| == |packets|;
    assert forall i | 0 <= i < |ps| :: ps[i] == packets[i];
    assert ps == packets;
  }

  lemma DecodeEncodePacket(p: Packet)
    ensures DecodePacket(EncodePacket(p)) == Ok(p)
  {
  }

  /** Shape discrimination: any datum that is not a list, in particular a game
      record (a top-level constructor), is never read as a packet batch. */
  lemma NonListIsNoBatch(d: Data)
    requires d.Constr? || d.Int? || d.Bytes?
    ensures DecodePackets(d) == Ok(None)
  {
  }
}
