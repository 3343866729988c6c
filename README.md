# hydra-doom packet-to-ledger bridge, modelled in Dafny

hydra-doom lets a multiplayer Doom session exchange its network packets
through a Hydra head (a fast, consensus-ordered ledger channel) instead of a
game server. This project models the bridge at the heart of that design:

- **PacketCodec** (`packet_codec.dfy`): `encodePackets`/`decodePackets`, a
  queue of packets as a Plutus list of `Constr 0 [to, from, ephemeralKey, data]`.
  Plutus Data is a tree (`Constr | List | Int | Bytes`, `plutus_data.dfy`).
  `Ok(None)` stands for `undefined` (the datum is not a list), `Err` for a
  thrown exception.
- **GameCodec** (`game_codec.dfy`): `decodeGame`, the 7-field game record. It
  has the same throw conditions as the TypeScript. The fields are read through
  unchecked casts, so they are Plutus values, and `None` stands for `undefined`.
  `EncodeGame` is the on-chain layout `decodeGame` expects. It serves as the
  reference the decoder is proved against.
- **Multiplayer** (`multiplayer.dfy`): the `HydraMultiplayer` class. Its fields
  are `packetQueue`, `latestUTxO`, `gameId` and `myIP`. `sendPacketQueue` is
  split at its `await` on the submission into `StartSendPacketQueue` and a
  finish step. That split shows what happens to packets queued meanwhile.
  `observeTx` is specified by the function `Observe`. Callbacks and engine
  calls are recorded as `Event`s. The delivery loop is the method
  `DeliverPackets`.
- **LucidProviderHydra** (`hydra_provider.dfy`): the `HydraProvider` URL
  derivation, the `NewTx` message, and the tag dispatch of `submitTx`'s
  listener. It also models the promise that the first settling message
  decides, and the `getProtocolParameters` renaming.
- **GameArgs** (`game_args.dfy`): `getArgs`, the engine's argument list.

`Wrappers` (`wrappers.dfy`) holds `Option` and `Result`.

Three behaviours of the code that the model keeps as written:
- `onTxSeen` fires once per packet addressed to `myIP`, not once per observed
  transaction (src/utils/HydraMultiplayer/base.ts:111-117;
  `Multiplayer.NothingForOtherSlots`).
- A `TxValid` resolves every pending submission with its own `txId`, whatever
  transaction it names (src/lucid-provider-hydra.ts:89-91;
  `LucidProviderHydra.TxValidResolvesEveryPending`).
- An unrecognised message tag rejects the pending submission
  (src/lucid-provider-hydra.ts:98-99).

## Model

| member | source | states |
|---|---|---|
| `PacketCodec.DecodePacket` | src/utils/HydraMultiplayer/base.ts:155-162 | an element decodes exactly when it is a constructor with integer `to`/`from` and byte-string key and payload among its first four fields; the decoded packet re-encodes to those four fields (index and extra fields ignored) |
| `PacketCodec.DecodeEach` | src/utils/HydraMultiplayer/base.ts:155-163 | the `map` succeeds exactly when every element decodes, and then yields one packet per element, in order |
| `PacketCodec.DecodePackets` | src/utils/HydraMultiplayer/base.ts:152-165 | the result is `undefined` exactly when the datum is not a list; a decoded batch has one packet per list element |
| `PacketCodec.DecodeEncodePacket` | src/utils/HydraMultiplayer/base.ts:141-161 | one packet survives encoding and decoding unchanged |
| `PacketCodec.DecodeEncodePackets` | src/utils/HydraMultiplayer/base.ts:138-165 | `decodePackets(encodePackets(q)) == q`: same packets, same order, byte-exact keys and payloads, for any integer slots |
| `PacketCodec.NonListIsNoBatch` | src/utils/HydraMultiplayer/base.ts:153-164 | a constructor (a game record), integer or byte string is never read as a packet batch |
| `GameCodec.StateOfTag` | src/utils/HydraMultiplayer/base.ts:195-211 | indices 0-3 map to Lobby/Running/Cheated/Finished (the inverse of the on-chain index); any other index or a non-constructor gives Aborted |
| `GameCodec.OptionalKey` | src/utils/HydraMultiplayer/base.ts:212-221 | `winner`/`cheater` is present, as `fields[0]`, exactly when the wrapper is a constructor with index 0 that has a field |
| `GameCodec.DecodeGame` | src/utils/HydraMultiplayer/base.ts:177-223 | decoding succeeds exactly on a constructor of at least 7 fields whose referee is a constructor and whose players are a list of constructors; one player per list element |
| `GameCodec.DecodeEncodeGame` | src/utils/HydraMultiplayer/base.ts:177-223 | a record in the on-chain layout decodes to its own referee, counts, players in datum order, state, winner and cheater |
| `GameCodec.UnknownStateIsAborted` | src/utils/HydraMultiplayer/base.ts:209-210 | a record with a state index above 3 still decodes, as Aborted |
| `GameCodec.ShapesAreExclusive` | src/utils/HydraMultiplayer/base.ts:152-187 | no datum is both a packet batch and a game record |
| `GameCodec.EncodedShapesAreExclusive` | src/utils/HydraMultiplayer/base.ts:138-187 | an encoded game record is not a batch, and an encoded batch is not a game record |
| `Multiplayer.Interpret` | src/utils/HydraMultiplayer/base.ts:92-107 | packets take priority: a well-formed list whose every element decodes is read as that batch; a datum that is not a list but a well-shaped record is read as the decoded game; everything else is a caught failure |
| `Multiplayer.DeliverPackets` | src/utils/HydraMultiplayer/base.ts:109-118 | the loop produces exactly the event stream `PacketEvents` of the batch |
| `Multiplayer.PacketEventsSpec` | src/utils/HydraMultiplayer/base.ts:109-118 | `onPacket` fires for every packet in order; the engine receives `(from, data)` of exactly the packets with `to == myIP`, in order; `onTxSeen` fires once per such packet |
| `Multiplayer.NothingForOtherSlots` | src/utils/HydraMultiplayer/base.ts:111-117 | when no packet targets `myIP`, nothing reaches the engine and `onTxSeen` never fires |
| `Multiplayer.IgnoredTransactions` | src/utils/HydraMultiplayer/base.ts:84-121 | no inline datum on output 0, or a datum that throws in decoding: no callback and `gameId` unchanged |
| `Multiplayer.MalformedGameKeepsGameId` | src/utils/HydraMultiplayer/base.ts:95-99 | a malformed game record leaves `gameId` unchanged, because `decodeGame` throws before the assignment |
| `Multiplayer.BatchKeepsGameId` | src/utils/HydraMultiplayer/base.ts:92-118 | an encoded batch leaves `gameId` unchanged and produces the delivery loop's events |
| `Multiplayer.NewGameThenJoin` | src/utils/HydraMultiplayer/base.ts:96-106 | first record without a game id: `gameId := txId`, `onNewGame(txId, playerCount, botCount, players[0])`; a later record: `onPlayerJoin(gameId, players)` in datum order, game id kept, no second new game |
| `Multiplayer.HydraMultiplayer.constructor` | src/utils/HydraMultiplayer/base.ts:13-19 | `myIP` 0, no anchor, empty queue, no game id |
| `Multiplayer.HydraMultiplayer.SetIP` | src/utils/HydraMultiplayer/base.ts:55-57 | `myIP` is the given slot, nothing else changes |
| `Multiplayer.HydraMultiplayer.QueuePacket` | src/utils/HydraMultiplayer/base.ts:64-65 | exactly one packet, stamped with the session key hash, is appended; earlier entries unchanged |
| `Multiplayer.HydraMultiplayer.StartSendPacketQueue` | src/utils/HydraMultiplayer/base.ts:69-76 | nothing when the queue is empty or the head is disconnected; otherwise the whole queue is encoded (and decodes back to it) and passed to `buildTx`; no field changes |
| `Multiplayer.HydraMultiplayer.FinishSendPacketQueueAsWritten` | src/utils/HydraMultiplayer/base.ts:77-79 | accepted: anchor := predicted output, queue := [] (whatever was queued meanwhile); rejected: both unchanged |
| `Multiplayer.HydraMultiplayer.FinishSendPacketQueue` | src/utils/HydraMultiplayer/base.ts:77-79 | accepted: anchor := predicted output and only the submitted batch leaves the queue; rejected: both unchanged |
| `Multiplayer.HydraMultiplayer.SendPacketQueue` | src/utils/HydraMultiplayer/base.ts:69-80 | no change when empty or disconnected; after an accepted submit the anchor is `buildTx`'s output and the queue is empty; after a rejection queue and anchor are unchanged |
| `Multiplayer.HydraMultiplayer.SendPacket` | src/utils/HydraMultiplayer/base.ts:59-67 | the packet is queued, then the whole queue goes out as one batch in call order; accepted empties the queue, rejected keeps it |
| `Multiplayer.HydraMultiplayer.ObserveTx` | src/utils/HydraMultiplayer/base.ts:82-122 | the new `gameId` and the events are those of `Observe` |
| `Multiplayer.LatePacketLostAsWritten` | src/utils/HydraMultiplayer/base.ts:74-79 | a packet queued while a submit is awaited is neither in the submitted batch nor left in the queue |
| `Multiplayer.LatePacketKept` | src/utils/HydraMultiplayer/base.ts:74-79 | with the corrected finish the late packet stays queued |
| `LucidProviderHydra.ReplaceFirstWithoutOccurrence` | src/lucid-provider-hydra.ts:24 | `replace` leaves a string without the pattern unchanged |
| `LucidProviderHydra.ReplaceFirstAtFirstOccurrence` | src/lucid-provider-hydra.ts:24 | `replace` rewrites the first occurrence only |
| `LucidProviderHydra.WebSocketUrlOfHttp` | src/lucid-provider-hydra.ts:24 | `http…` becomes `ws…` and `https…` becomes `wss…`, followed by `?history=no` |
| `LucidProviderHydra.WebSocketUrlWithoutHttp` | src/lucid-provider-hydra.ts:24 | an address without `http` only gains `?history=no` |
| `LucidProviderHydra.NewTxMessage` | src/lucid-provider-hydra.ts:102-110 | the message is `{tag: "NewTx", transaction: {type: "Tx BabbageEra", cborHex: tx}}` |
| `LucidProviderHydra.Dispatch` | src/lucid-provider-hydra.ts:84-100 | Greetings/SnapshotConfirmed settle nothing; TxValid resolves with the message's `txId`; TxInvalid rejects with `"Transaction invalid: " + reason`; any other tag rejects with `"Unexpected message: " + raw` |
| `LucidProviderHydra.SettledStaysSettled` | src/lucid-provider-hydra.ts:82-101 | once settled, no later message changes a submission's promise |
| `LucidProviderHydra.FirstSettlingMessageDecides` | src/lucid-provider-hydra.ts:84-100 | the outcome is that of the first message that is not Greetings/SnapshotConfirmed |
| `LucidProviderHydra.IgnoredMessagesKeepPending` | src/lucid-provider-hydra.ts:87-97 | only Greetings/SnapshotConfirmed messages leave the promise pending |
| `LucidProviderHydra.ProtocolParametersAreRenamed` | src/lucid-provider-hydra.ts:34-49 | the result is a lossless renaming (`minFeeA = txFeeFixed`, `minFeeB = txFeePerByte`, `coinsPerUtxoByte = utxoCostPerByte`, …): reading it backwards gives the response again, and vice versa |
| `LucidProviderHydra.HydraProvider.constructor` | src/lucid-provider-hydra.ts:22-27 | the connection is opened on `WebSocketUrl(apiUrl)`; nothing sent or pending |
| `LucidProviderHydra.HydraProvider.SubmitTx` | src/lucid-provider-hydra.ts:80-112 | one new pending promise and exactly one `NewTx` message carrying the transaction |
| `LucidProviderHydra.HydraProvider.OnMessage` | src/lucid-provider-hydra.ts:84-101 | every registered listener settles its promise by `Dispatch` of the message |
| `LucidProviderHydra.TxValidResolvesEveryPending` | src/lucid-provider-hydra.ts:89-91 | one `TxValid` resolves two pending submissions with the same id: there is no check that it names the submitted transaction |
| `GameArgs.GetArgs` | src/utils/game.ts:3-28 | the pushes build exactly `Args(game)` |
| `GameArgs.ArgsLayout` | src/utils/game.ts:4-17 | the list starts with the 5 window flags and the 10 engine flags; its length is 15 + 3 (not solo) + 2 (pet named) |
| `GameArgs.NetworkFlagsIffNotSolo` | src/utils/game.ts:18-23 | `-altdeath -connect 1` follows the engine flags exactly when the type is not SOLO |
| `GameArgs.PetLastIffNamed` | src/utils/game.ts:25 | `-pet <name>` ends the list exactly when the pet name is non-empty |
| `GameArgs.CodeIsIgnored` | src/utils/game.ts:3 | the `code` field has no effect on the list |

## Findings

| source | as written | input that shows it | evidently intended | confidence | as-written member | corrected member |
|---|---|---|---|---|---|---|
| src/utils/HydraMultiplayer/base.ts:74-79 | the queue is encoded at line 74 and cleared wholesale at line 79, after the `await` on the submission | `SendPacket(p1)` starts a flush; `p2` is pushed (line 65) while that flush awaits `submitTx`, and `p2`'s own flush is still suspended at line 73 when the first submission is accepted: `p2` is in no accepted batch and the queue is empty | clear only the packets the accepted batch carried, so that no packet is silently lost | medium; not executed (it depends on the interleaving of the two flushes) | `Multiplayer.LatePacketLostAsWritten` | `Multiplayer.HydraMultiplayer.FinishSendPacketQueue` |

`SendPacketQueue` and `SendPacket` model the source and use the finish as
written. With nothing interleaved, the submitted batch is the whole queue, so
the corrected finish would give the same state.

## Left out

- CBOR and hex: `Data.to`/`Data.from` (RFC 8949 serialisation in lucid-cardano) and `toHex`/`fromHex` are not modelled. The model works on the Plutus Data tree, with byte strings as byte sequences. A datum whose bytes do not parse is `Undecodable`. Plutus maps are not a constructor of the tree.
- PacketCodec.DecodePacket: a packet constructor with fewer than four fields, or with a field of the wrong kind, is treated as an exception that fails the whole batch. In the source a missing field is `undefined`, and `Number(...)` and `fromHex(...)` may coerce such a field instead of throwing (`Number(undefined)` is `NaN`; what `fromHex` does is up to lucid-cardano), so the source may still deliver such an element as a packet.
- `Number(...)` conversions are not modelled. This is JavaScript floating point: integers beyond 2^53 round. Packet slots are unbounded integers. `onNewGame` receives the raw Plutus values of the player and bot counts.
- Optional callbacks (`?.`) are recorded as events whether or not a listener is set. An exception thrown by a callback or the engine in the middle of the delivery loop is not modelled.
- Engine heap marshalling (`_malloc`, `HEAPU8.set`, `_free`) is one `Received(from, data)` event.
- `selectUTxO` and `buildTx` are abstract in the source. `buildTx` is a function parameter that stands for the subclass's `buildTx` after `selectUTxO` has run. The effect of `selectUTxO` on the fields is not modelled.
- The `Hydra` connection class is not part of this model. Its `isConnected()` and the outcome of its `submitTx` are parameters (`connected`, `Submitted`).
- Multiplayer.HydraMultiplayer.StartSendPacketQueue: the empty/connected test at line 70 and the encoding at line 74 are one step. A flush that finishes during the `await this.selectUTxO()` between them, which could leave an empty batch to encode, is not modelled.
- `signData` and the sha512 hook (ed25519 signing) are foreign cryptography and unused on the packet path.
- Key derivation, dedicated/dedicated.ts (process bootstrap, file reads, polling), the React components and useBestRegion.ts (floating-point latencies) are not part of this model.
- WebSocket transport, `fetch`, `JSON.parse`/`JSON.stringify` and logging are I/O. An incoming message is modelled after parsing, reduced to the fields the listener reads. Malformed JSON or missing nested fields (which throw inside the listener) are not modelled. The `getProtocolParameters` response is taken as already fetched.
- `getUtxos`, `getUtxosWithUnit`, `getUtxoByUnit`, `getUtxosByOutRef`, `awaitTx`, `getDatum` and `getDelegation` are unimplemented stubs in the source.
- src/types.ts holds declarations only. Its `GameData` and `EGameType` shapes are used in `GameArgs`.
