/** The game-record codec of the multiplayer bridge (`decodeGame` in
    src/utils/HydraMultiplayer/base.ts): the other datum shape found at the
    session's anchor output, a 7-field record announcing a game and its players. */
module GameCodec {
  import opened Wrappers
  import opened PlutusData
  import opened PacketCodec

  datatype GameState = Lobby | Running | Cheated | Finished | Aborted

  /** What `decodeGame` returns. Its fields are read through unchecked casts, so
      each holds whatever Plutus value sat in its slot; `None` is `undefined`
      (a key wrapper without a field, or an absent optional). */
  datatype Game = Game(
    refereeKeyHash: Option<Data>,
    playerCount: Data,
    botCount: Data,
    players: seq<Option<Data>>,
    state: GameState,
    winner: Option<Data>,
    cheater: Option<Data>)

  /** The constructor index each state is written with on chain. */
  function StateIndex(s: GameState): nat {
    match s
    case Lobby => 0
    case Running => 1
    case Cheated => 2
    case Finished => 3
    case Aborted => 4
  }

  /** The `switch` on `(stateTag as Constr<Data>).index`: indices 0 to 3 name a
      state, everything else (another index, or a value that is not a
      constructor and so has no index) falls to the default, `Aborted`. */
  function StateOfTag(tag: Data): (s: GameState)
    ensures s != Aborted ==> tag.Constr? && tag.index == StateIndex(s)
    ensures tag.Constr? && tag.index < 4 ==> StateIndex(s) == tag.index
    ensures !(tag.Constr? && tag.index < 4) ==> s == Aborted
  {
    if !tag.Constr? then Aborted
    else if tag.index == 0 then Lobby
    else if tag.index == 1 then Running
    else if tag.index == 2 then Cheated
    else if tag.index == 3 then Finished
    else Aborted
  }

  /** An optional key (`winner`, `cheater`): present, as the wrapper's first
      field, exactly when the wrapper is a constructor with index 0. */
  function OptionalKey(w: Data): (r: Option<Data>)
    ensures r.Some? ==> w.Constr? && w.index == 0 && |w.fields| > 0 && r.value == w.fields[0]
    ensures w.Constr? && w.index == 0 && |w.fields| > 0 ==> r.Some?
  {
    if w.Constr? && w.index == 0 then FirstField(w) else None
  }

  /** The conditions under which `decodeGame` runs to the end instead of
      throwing: a constructor with at least seven fields, whose first field is a
      constructor and whose fourth is a list of constructors. */
  predicate WellShapedGame(d: Data) {
    && d.Constr? && |d.fields| >= 7
    && d.fields[0].Constr?
    && d.fields[3].List?
    && forall i | 0 <= i < |d.fields[3].items| :: d.fields[3].items[i].Constr?
  }

  /** `decodeGame`. */
  function DecodeGame(d: Data): (r: Result<Game>)
    ensures r.Ok? <==> WellShapedGame(d)
    ensures r.Ok? ==> |r.value.players| == |d.fields[3].items|
  {
    if !d.Constr? then Err("game datum is not a constructor")
    else if |d.fields| < 7 then Err("game datum has fewer than seven fields")
    else
      var f := d.fields;
      if !f[0].Constr? then Err("referee is not a constructor")
      else if !f[3].List? then Err("players is not a list")
      else if exists i | 0 <= i < |f[3].items| :: !f[3].items[i].Constr? then Err("player is not a constructor")
      else
        var players := seq(|f[3].items|, i requires 0 <= i < |f[3].items| => FirstField(f[3].items[i]));
        Ok(Game(FirstField(f[0]), f[1], f[2], players, StateOfTag(f[4]), OptionalKey(f[5]), OptionalKey(f[6])))
  }

  /** A game record as the chain holds it: key hashes are byte strings, counts
      are integers. */
  datatype GameRecord = GameRecord(
    referee: ByteString,
    playerCount: int,
    botCount: int,
    players: seq<ByteString>,
    state: GameState,
    winner: Option<ByteString>,
    cheater: Option<ByteString>)

  /** A key hash in its single-field wrapper. */
  function KeyWrapper(k: ByteString): Data {
    Constr(0, [Bytes(k)])
  }

  function EncodeOptionalKey(k: Option<ByteString>): Data {
    match k
    case Some(key) => KeyWrapper(key)
    case None => Constr(1, [])
  }

  /** The 7-field layout `decodeGame` reads. */
  function EncodeGame(g: GameRecord): Data {
    Constr(0, [
      KeyWrapper(g.referee),
      Int(g.playerCount),
      Int(g.botCount),
      List(seq(|g.players|, i requires 0 <= i < |g.players| => KeyWrapper(g.players[i]))),
      Constr(StateIndex(g.state), []),
      EncodeOptionalKey(g.winner),
      EncodeOptionalKey(g.cheater)])
  }

  function MapOption(k: Option<ByteString>): Option<Data> {
    match k
    case Some(key) => Some(Bytes(key))
    case None => None
  }

  /** What `decodeGame` is expected to give for a record: each key hash as the
      byte string it is, each count as the integer it is. */
  function Expected(g: GameRecord): Game {
    Game(
      Some(Bytes(g.referee)),
      Int(g.playerCount),
      Int(g.botCount),
      seq(|g.players|, i requires 0 <= i < |g.players| => Some(Bytes(g.players[i]))),
      g.state,
      MapOption(g.winner),
      MapOption(g.cheater))
  }

  /** Round trip: a record in the on-chain layout decodes to its own contents,
      players in datum order, state and optional keys included. */
  lemma DecodeEncodeGame(g: GameRecord)
    ensures DecodeGame(EncodeGame(g)) == Ok(Expected(g))
  {
    var d := EncodeGame(g);
    assert WellShapedGame(d);
    var r := DecodeGame(d).value;
    assert r.players == Expected(g).players;
    match g.winner {
      case Some(k) =>
      case None =>
    }
    match g.cheater {
      case Some(k) =>
      case None =>
    }
  }

  /** An unknown state index decodes to `Aborted`, never to an error. */
  lemma UnknownStateIsAborted(g: GameRecord, index: nat)
    requires index > 3
    ensures
      var d := EncodeGame(g);
      var d' := Constr(0, d.fields[4 := Constr(index, [])]);
      DecodeGame(d').Ok? && DecodeGame(d').value.state == Aborted
  {
    var d := EncodeGame(g);
    var d' := Constr(0, d.fields[4 := Constr(index, [])]);
    assert WellShapedGame(d');
  }

  /** The two readings of a datum exclude each other: a datum that decodes as a
      game record is not a packet batch, and a packet batch is not a game record. */
  lemma ShapesAreExclusive(d: Data)
    ensures DecodeGame(d).Ok? ==> DecodePackets(d) == Ok(None)
    ensures DecodePackets(d).Ok? && DecodePackets(d).value.Some? ==> DecodeGame(d).Err?
  {
  }

  lemma EncodedShapesAreExclusive(g: GameRecord, packets: seq<Packet>)
    ensures DecodePackets(EncodeGame(g)) == Ok(None)
    ensures DecodeGame(EncodePackets(packets)).Err?
  {
  }
}
