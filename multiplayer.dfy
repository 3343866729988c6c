/** The multiplayer bridge (class `HydraMultiplayer` in
    src/utils/HydraMultiplayer/base.ts): it queues the engine's outgoing
    packets, flushes the queue to the ledger as one transaction that replaces
    the session's anchor output, and interprets every confirmed transaction as
    either a packet batch for the engine or a game announcement. */
module Multiplayer {
  import opened Wrappers
  import opened PlutusData
  import opened PacketCodec
  import opened GameCodec

  /** An unspent output; the bridge only stores and replaces it. */
  datatype UTxO = UTxO(txHash: string, outputIndex: nat)

  /** The inline datum bytes of an output, as `Data.from` sees them: either a
      well-formed Plutus value or bytes it cannot parse (it then throws). */
  datatype RawDatum = Wellformed(data: Data) | Undecodable

  /** Field 2 of a transaction output: no datum, a datum hash, or an inline datum. */
  datatype OutputDatum = NoDatum | DatumHash(hash: ByteString) | InlineDatum(raw: RawDatum)

  datatype TxOutput = TxOutput(datum: OutputDatum)

  /** A confirmed transaction, reduced to what `observeTx` reads: the outputs of its body. */
  datatype Tx = Tx(outputs: seq<TxOutput>)

  /** The callbacks and engine entry points `observeTx` calls, in call order. */
  datatype Event =
    | PacketSeen(packet: Packet)               // onPacket(tx, packet)
    | Received(from: int, data: ByteString)    // the payload copied into the engine, then _ReceivePacket(from, buf, len)
    | TxSeen(txId: string)                     // onTxSeen(txId, tx)
    | NewGame(gameId: string, playerCount: Data, botCount: Data, firstPlayer: Option<Data>)
    | PlayerJoin(gameId: string, players: seq<Option<Data>>)

  /** `output?.["2"]?.[1]?.value` on output 0: the raw inline datum, if any. */
  function InlineDatumOf(tx: Tx): Option<RawDatum> {
    if |tx.outputs| == 0 then None
    else match tx.outputs[0].datum
      case InlineDatum(raw) => Some(raw)
      case _ => None
  }

  /** The reading `observeTx` gives a datum: packets first, the game record
      when the datum is not a list, `Failed` for anything that throws. */
  datatype Interpretation = PacketBatch(packets: seq<Packet>) | Announcement(game: Game) | Failed

  function Interpret(raw: RawDatum): (r: Interpretation)
    ensures r.PacketBatch? <==> raw.Wellformed? && raw.data.List? && DecodeEach(raw.data.items).Ok?
    ensures r.PacketBatch? ==> r.packets == DecodeEach(raw.data.items).value
    ensures r.Announcement? <==> raw.Wellformed? && !raw.data.List? && WellShapedGame(raw.data)
    ensures r.Announcement? ==> r.game == DecodeGame(raw.data).value
  {
    match raw
    case Undecodable => Failed
    case Wellformed(d) =>
      match DecodePackets(d)
      case Err(_) => Failed
      case Ok(Some(packets)) => PacketBatch(packets)
      case Ok(None) =>
        match DecodeGame(d)
        case Err(_) => Failed
        case Ok(g) => Announcement(g)
  }

  /** `if (this.gameId)`: JavaScript truthiness, so the empty string counts as unset. */
  predicate HasGameId(gameId: Option<string>) {
    gameId.Some? && gameId.value != ""
  }

  /** The events of one iteration of the delivery loop. */
  function PacketStep(p: Packet, myIP: int, txId: string): seq<Event> {
    [PacketSeen(p)] + if p.to == myIP then [Received(p.from, p.data), TxSeen(txId)] else []
  }

  /** The events of the delivery loop over `packets`. */
  function PacketEvents(packets: seq<Packet>, myIP: int, txId: string): seq<Event>
    decreases |packets|
  {
    if packets == [] then []
    else PacketEvents(packets[..|packets| - 1], myIP, txId) + PacketStep(packets[|packets| - 1], myIP, txId)
  }

  /** The new `gameId` and the events of one `observeTx` call. */
  datatype Observation = Observation(gameId: Option<string>, events: seq<Event>)

  /** `observeTx` as a function of the transaction and the bridge's state. */
  function Observe(txId: string, tx: Tx, gameId: Option<string>, myIP: int): Observation {
    match InlineDatumOf(tx)
    case None => Observation(gameId, [])
    case Some(raw) =>
      match Interpret(raw)
      case Failed => Observation(gameId, [])
      case PacketBatch(packets) => Observation(gameId, PacketEvents(packets, myIP, txId))
      case Announcement(g) =>
        if HasGameId(gameId) then Observation(gameId, [PlayerJoin(gameId.value, g.players)])
        else
          var first := if |g.players| > 0 then g.players[0] else None;
          Observation(Some(txId), [NewGame(txId, g.playerCount, g.botCount, first)])
  }

  /** The loop at the end of `observeTx`: every packet is reported, in order;
      those addressed to this player's slot are handed to the engine, each
      followed by a "transaction seen" notification. */
  method DeliverPackets(packets: seq<Packet>, myIP: int, txId: string) returns (events: seq<Event>)
    ensures events == PacketEvents(packets, myIP, txId)
  {
    events := [];
    var i := 0;
    while i < |packets|
      invariant 0 <= i <= |packets|
      invariant events == PacketEvents(packets[..i], myIP, txId)
    {
      var p := packets[i];
      events := events + [PacketSeen(p)];
      if p.to == myIP {
        events := events + [Received(p.from, p.data)];
        events := events + [TxSeen(txId)];
      }
      assert packets[..i + 1][..i] == packets[..i];
      i := i + 1;
    }
    assert packets[..i] == packets;
  }

  // ---------------------------------------------------------------------------
  // Projections of an event stream, and what the delivery loop promises

  function SeenPackets(events: seq<Event>): seq<Packet>
    decreases |events|
  {
    if events == [] then []
    else
      var last := events[|events| - 1];
      SeenPackets(events[..|events| - 1]) + (if last.PacketSeen? then [last.packet] else [])
  }

  function Deliveries(events: seq<Event>): seq<(int, ByteString)>
    decreases |events|
  {
    if events == [] then []
    else
      var last := events[|events| - 1];
      Deliveries(events[..|events| - 1]) + (if last.Received? then [(last.from, last.data)] else [])
  }

  function TxSeenCount(events: seq<Event>): nat
    decreases |events|
  {
    if events == [] then 0
    else TxSeenCount(events[..|events| - 1]) + (if events[|events| - 1].TxSeen? then 1 else 0)
  }

  /** The packets addressed to `myIP`, in order. */
  function AddressedTo(packets: seq<Packet>, myIP: int): seq<Packet>
    decreases |packets|
  {
    if packets == [] then []
    else
      var last := packets[|packets| - 1];
      AddressedTo(packets[..|packets| - 1], myIP) + (if last.to == myIP then [last] else [])
  }

  function PayloadsOf(packets: seq<Packet>): seq<(int, ByteString)> {
    seq(|packets|, i requires 0 <= i < |packets| => (packets[i].from, packets[i].data))
  }

  lemma {:induction false} ProjectionsDistribute(a: seq<Event>, b: seq<Event>)
    ensures SeenPackets(a + b) == SeenPackets(a) + SeenPackets(b)
    ensures Deliveries(a + b) == Deliveries(a) + Deliveries(b)
    ensures TxSeenCount(a + b) == TxSeenCount(a) + TxSeenCount(b)
    decreases |b|
  {
    if b == [] {
      assert a + b == a;
    } else {
      var b' := b[..|b| - 1];
      ProjectionsDistribute(a, b');
      assert (a + b)[..|a + b| - 1] == a + b';
      assert (a + b)[|a + b| - 1] == b[|b| - 1];
    }
  }

  lemma SingleProjections(e: Event)
    ensures SeenPackets([e]) == if e.PacketSeen? then [e.packet] else []
    ensures Deliveries([e]) == if e.Received? then [(e.from, e.data)] else []
    ensures TxSeenCount([e]) == if e.TxSeen? then 1 else 0
  {
    assert [e][..0] == [];
  }

  lemma StepProjections(p: Packet, myIP: int, txId: string)
    ensures SeenPackets(PacketStep(p, myIP, txId)) == [p]
    ensures Deliveries(PacketStep(p, myIP, txId)) == if p.to == myIP then [(p.from, p.data)] else []
    ensures TxSeenCount(PacketStep(p, myIP, txId)) == if p.to == myIP then 1 else 0
  {
    SingleProjections(PacketSeen(p));
    if p.to == myIP {
      SingleProjections(Received(p.from, p.data));
      SingleProjections(TxSeen(txId));
      ProjectionsDistribute([PacketSeen(p)], [Received(p.from, p.data)]);
      ProjectionsDistribute([PacketSeen(p), Received(p.from, p.data)], [TxSeen(txId)]);
      assert PacketStep(p, myIP, txId) == [PacketSeen(p), Received(p.from, p.data)] + [TxSeen(txId)];
    } else {
      assert PacketStep(p, myIP, txId) == [PacketSeen(p)];
    }
  }

  /** The delivery loop reports every packet of the batch, in order; hands to
      the engine exactly the packets addressed to `myIP`, in order, with their
      sender slot and payload; and fires "transaction seen" once per such packet. */
  lemma {:induction false} PacketEventsSpec(packets: seq<Packet>, myIP: int, txId: string)
    ensures SeenPackets(PacketEvents(packets, myIP, txId)) == packets
    ensures Deliveries(PacketEvents(packets, myIP, txId)) == PayloadsOf(AddressedTo(packets, myIP))
    ensures TxSeenCount(PacketEvents(packets, myIP, txId)) == |AddressedTo(packets, myIP)|
    decreases |packets|
  {
    if packets != [] {
      var init, last := packets[..|packets| - 1], packets[|packets| - 1];
      PacketEventsSpec(init, myIP, txId);
      ProjectionsDistribute(PacketEvents(init, myIP, txId), PacketStep(last, myIP, txId));
      StepProjections(last, myIP, txId);
      assert init + [last] == packets;
      var a := AddressedTo(init, myIP);
      if last.to == myIP {
        assert PayloadsOf(a + [last]) == PayloadsOf(a) + [(last.from, last.data)];
      } else {
        assert a + [] == a;
      }
    }
  }

  lemma {:induction false} NoneAddressed(packets: seq<Packet>, myIP: int)
    requires forall i | 0 <= i < |packets| :: packets[i].to != myIP
    ensures AddressedTo(packets, myIP) == []
    decreases |packets|
  {
    if packets != [] {
      NoneAddressed(packets[..|packets| - 1], myIP);
    }
  }

  /** Self-filtering: a batch in which no packet targets `myIP` reaches the
      engine not at all and fires no "transaction seen" notification. */
  lemma NothingForOtherSlots(packets: seq<Packet>, myIP: int, txId: string)
    requires forall i | 0 <= i < |packets| :: packets[i].to != myIP
    ensures Deliveries(PacketEvents(packets, myIP, txId)) == []
    ensures TxSeenCount(PacketEvents(packets, myIP, txId)) == 0
    ensures SeenPackets(PacketEvents(packets, myIP, txId)) == packets
  {
    PacketEventsSpec(packets, myIP, txId);
    NoneAddressed(packets, myIP);
  }

  // ---------------------------------------------------------------------------
  // What `observeTx` promises

  /** A transaction whose first output has no inline datum, or whose datum
      cannot be read in either shape, changes nothing and calls nothing: the
      early return, and the `catch` around the whole body. */
  lemma IgnoredTransactions(txId: string, tx: Tx, gameId: Option<string>, myIP: int)
    requires InlineDatumOf(tx).None? || Interpret(InlineDatumOf(tx).value).Failed?
    ensures Observe(txId, tx, gameId, myIP) == Observation(gameId, [])
  {
  }

  /** A malformed game record throws in `decodeGame`, before `gameId` is
      assigned, so the game id survives it. */
  lemma MalformedGameKeepsGameId(txId: string, d: Data, gameId: Option<string>, myIP: int)
    requires !d.List? && !WellShapedGame(d)
    ensures Observe(txId, Tx([TxOutput(InlineDatum(Wellformed(d)))]), gameId, myIP) == Observation(gameId, [])
  {
  }

  /** A packet batch never touches the game id; its events are those of the
      delivery loop. */
  lemma BatchKeepsGameId(txId: string, packets: seq<Packet>, gameId: Option<string>, myIP: int)
    ensures
      var o := Observe(txId, Tx([TxOutput(InlineDatum(Wellformed(EncodePackets(packets))))]), gameId, myIP);
      o.gameId == gameId && o.events == PacketEvents(packets, myIP, txId)
  {
    DecodeEncodePackets(packets);
  }

  /** New game, then join: the first game record seen without a game id makes
      its transaction the game and announces the record's counts and first
      player; a second record then reports the full player list under that
      game id, and does not announce a new game again. */
  lemma NewGameThenJoin(txId1: string, g1: GameRecord, txId2: string, g2: GameRecord, myIP: int)
    requires txId1 != ""
    ensures
      var o1 := Observe(txId1, Tx([TxOutput(InlineDatum(Wellformed(EncodeGame(g1))))]), None, myIP);
      var o2 := Observe(txId2, Tx([TxOutput(InlineDatum(Wellformed(EncodeGame(g2))))]), o1.gameId, myIP);
      && o1.gameId == Some(txId1)
      && o1.events == [NewGame(txId1, Int(g1.playerCount), Int(g1.botCount),
                               if |g1.players| > 0 then Some(Bytes(g1.players[0])) else None)]
      && o2.gameId == Some(txId1)
      && o2.events == [PlayerJoin(txId1, Expected(g2).players)]
  {
    DecodeEncodeGame(g1);
    DecodeEncodeGame(g2);
    EncodedShapesAreExclusive(g1, []);
    EncodedShapesAreExclusive(g2, []);
  }

  // ---------------------------------------------------------------------------
  // The bridge object

  /** `[newUTxO, tx]` as returned by the subclass's `buildTx`. */
  datatype Built = Built(newUTxO: UTxO, tx: string)

  /** A flush between `buildTx` and the end of its `await this.hydra.submitTx(tx)`:
      the queue it encoded, the datum, and what `buildTx` returned. */
  datatype Flight = Flight(batch: seq<Packet>, datum: Data, built: Built)

  /** How the ledger answered a submission. */
  datatype Submitted = Accepted(txId: string) | Rejected(reason: string)

  class HydraMultiplayer {
    /** `key.publicKeyHashBytes`, this session's key hash. */
    const ephemeralKey: ByteString
    var myIP: int
    var latestUTxO: Option<UTxO>
    var packetQueue: seq<Packet>
    var gameId: Option<string>

    constructor (ephemeralKey: ByteString)
      ensures this.ephemeralKey == ephemeralKey
      ensures myIP == 0 && latestUTxO == None && packetQueue == [] && gameId == None
    {
      this.ephemeralKey := ephemeralKey;
      myIP := 0;
      latestUTxO := None;
      packetQueue := [];
      gameId := None;
    }

    method SetIP(ip: int)
      modifies this`myIP
      ensures myIP == ip
    {
      myIP := ip;
    }

    /** The first half of `SendPacket`, up to its `await`: one packet, stamped
        with this session's key hash, goes to the end of the queue. */
    method QueuePacket(to: int, from: int, data: ByteString)
      modifies this`packetQueue
      ensures packetQueue == old(packetQueue) + [Packet(to, from, ephemeralKey, data)]
      ensures |packetQueue| == |old(packetQueue)| + 1
      ensures packetQueue[..|old(packetQueue)|] == old(packetQueue)
    {
      packetQueue := packetQueue + [Packet(to, from, ephemeralKey, data)];
    }

    /** `sendPacketQueue` up to its `await this.hydra.submitTx(tx)`: nothing
        when the queue is empty or the head is not connected; otherwise the
        whole queue is encoded and handed to `buildTx`. No field changes yet. */
    method StartSendPacketQueue(connected: bool, buildTx: Data -> Built) returns (flight: Option<Flight>)
      ensures flight.None? <==> packetQueue == [] || !connected
      ensures flight.Some? ==> flight.value.batch == packetQueue
      ensures flight.Some? ==> flight.value.datum == EncodePackets(packetQueue)
      ensures flight.Some? ==> DecodePackets(flight.value.datum) == Ok(Some(packetQueue))
      ensures flight.Some? ==> flight.value.built == buildTx(flight.value.datum)
    {
      if |packetQueue| == 0 || !connected {
        return None;
      }
      var datum := EncodePackets(packetQueue);
      DecodeEncodePackets(packetQueue);
      var built := buildTx(datum);
      flight := Some(Flight(packetQueue, datum, built));
    }

    /** The rest of `sendPacketQueue` AS WRITTEN: after a successful submit the
        predicted output becomes the anchor and the whole queue is cleared,
        including packets queued while the submit was awaited; a rejected
        submit leaves both fields as they were. */
    method FinishSendPacketQueueAsWritten(flight: Flight, submitted: Submitted)
      modifies this`latestUTxO, this`packetQueue
      ensures submitted.Accepted? ==> latestUTxO == Some(flight.built.newUTxO) && packetQueue == []
      ensures submitted.Rejected? ==> latestUTxO == old(latestUTxO) && packetQueue == old(packetQueue)
    {
      if submitted.Accepted? {
        latestUTxO := Some(flight.built.newUTxO);
        packetQueue := [];
      }
    }

    /** The rest of `sendPacketQueue`, corrected: after a successful submit the
        predicted output becomes the anchor and only the packets the submitted
        batch carried leave the queue; a rejected submit changes nothing. So a
        packet leaves the queue only inside a batch that was accepted. */
    method FinishSendPacketQueue(flight: Flight, submitted: Submitted)
      modifies this`latestUTxO, this`packetQueue
      ensures submitted.Accepted? ==> latestUTxO == Some(flight.built.newUTxO)
      ensures submitted.Accepted? && flight.batch <= old(packetQueue) ==> old(packetQueue) == flight.batch + packetQueue
      ensures submitted.Rejected? || !(flight.batch <= old(packetQueue)) ==> packetQueue == old(packetQueue)
      ensures submitted.Rejected? ==> latestUTxO == old(latestUTxO)
    {
      if submitted.Accepted? {
        latestUTxO := Some(flight.built.newUTxO);
        if flight.batch <= packetQueue {
          packetQueue := packetQueue[|flight.batch|..];
        }
      }
    }

    /** `sendPacketQueue` when nothing else runs during its `await`s. */
    method SendPacketQueue(connected: bool, buildTx: Data -> Built, submitted: Submitted) returns (flight: Option<Flight>)
      modifies this`latestUTxO, this`packetQueue
      ensures flight.None? <==> old(packetQueue) == [] || !connected
      ensures flight.None? ==> latestUTxO == old(latestUTxO) && packetQueue == old(packetQueue)
      ensures flight.Some? ==> flight.value.batch == old(packetQueue)
      ensures flight.Some? ==> flight.value.datum == EncodePackets(old(packetQueue))
      ensures flight.Some? ==> DecodePackets(flight.value.datum) == Ok(Some(old(packetQueue)))
      ensures flight.Some? ==> flight.value.built == buildTx(flight.value.datum)
      ensures flight.Some? && submitted.Accepted? ==> latestUTxO == Some(flight.value.built.newUTxO) && packetQueue == []
      ensures flight.Some? && submitted.Rejected? ==> latestUTxO == old(latestUTxO) && packetQueue == old(packetQueue)
    {
      flight := StartSendPacketQueue(connected, buildTx);
      if flight.Some? {
        FinishSendPacketQueueAsWritten(flight.value, submitted);
      }
    }

    /** `SendPacket` when nothing else runs during its `await`s: queue the
        packet, then flush. */
    method SendPacket(to: int, from: int, data: ByteString, connected: bool, buildTx: Data -> Built, submitted: Submitted)
      returns (flight: Option<Flight>)
      modifies this`latestUTxO, this`packetQueue
      ensures flight.None? <==> !connected
      ensures !connected ==> latestUTxO == old(latestUTxO) && packetQueue == old(packetQueue) + [Packet(to, from, ephemeralKey, data)]
      ensures flight.Some? ==> flight.value.batch == old(packetQueue) + [Packet(to, from, ephemeralKey, data)]
      ensures flight.Some? ==> flight.value.built == buildTx(EncodePackets(flight.value.batch))
      ensures flight.Some? && submitted.Accepted? ==> latestUTxO == Some(flight.value.built.newUTxO) && packetQueue == []
      ensures flight.Some? && submitted.Rejected? ==> latestUTxO == old(latestUTxO) && packetQueue == flight.value.batch
    {
      QueuePacket(to, from, data);
      flight := SendPacketQueue(connected, buildTx, submitted);
    }

    /** `observeTx`: interpret the first output's inline datum; deliver a packet
        batch, or record a new game / report a join for a game record. */
    method ObserveTx(txId: string, tx: Tx) returns (events: seq<Event>)
      modifies this`gameId
      ensures Observation(gameId, events) == Observe(txId, tx, old(gameId), myIP)
    {
      events := [];
      var raw := InlineDatumOf(tx);
      if raw.None? {
        return;
      }
      match Interpret(raw.value)
      case Failed =>
      case PacketBatch(packets) =>
        events := DeliverPackets(packets, myIP, txId);
      case Announcement(game) =>
        if HasGameId(gameId) {
          events := [PlayerJoin(gameId.value, game.players)];
        } else {
          gameId := Some(txId);
          var first := if |game.players| > 0 then game.players[0] else None;
          events := [NewGame(txId, game.playerCount, game.botCount, first)];
        }
    }
  }

  /** A packet sent while an earlier flush awaits its submit is lost with the
      source's clearing: it is not in the submitted batch and the queue is
      empty afterwards. */
  method LatePacketLostAsWritten(key: ByteString, early: Packet, late: Packet, buildTx: Data -> Built)
    returns (submitted: seq<Packet>, remaining: seq<Packet>)
    ensures submitted == [Packet(early.to, early.from, key, early.data)]
    ensures remaining == []
  {
    var bridge := new HydraMultiplayer(key);
    bridge.QueuePacket(early.to, early.from, early.data);
    var flight := bridge.StartSendPacketQueue(true, buildTx);
    bridge.QueuePacket(late.to, late.from, late.data);
    bridge.FinishSendPacketQueueAsWritten(flight.value, Accepted(""));
    submitted, remaining := flight.value.batch, bridge.packetQueue;
  }

  /** With the corrected clearing the late packet stays queued for the next flush. */
  method LatePacketKept(key: ByteString, early: Packet, late: Packet, buildTx: Data -> Built)
    returns (submitted: seq<Packet>, remaining: seq<Packet>)
    ensures submitted == [Packet(early.to, early.from, key, early.data)]
    ensures remaining == [Packet(late.to, late.from, key, late.data)]
  {
    var bridge := new HydraMultiplayer(key);
    bridge.QueuePacket(early.to, early.from, early.data);
    var flight := bridge.StartSendPacketQueue(true, buildTx);
    bridge.QueuePacket(late.to, late.from, late.data);
    bridge.FinishSendPacketQueue(flight.value, Accepted(""));
    submitted, remaining := flight.value.batch, bridge.packetQueue;
  }
}
