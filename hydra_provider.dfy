/** The ledger provider of src/lucid-provider-hydra.ts: the WebSocket URL it
    derives from the head's HTTP address, the `NewTx` message `submitTx`
    sends, the way each incoming message settles (or not) the submission's
    promise, and the renaming of the head's protocol parameters. */
module LucidProviderHydra {
  import opened Wrappers

  // ---------------------------------------------------------------------------
  // The WebSocket URL

  predicate OccursAt(s: string, pat: string, i: int) {
    0 <= i && i + |pat| <= |s| && s[i..i + |pat|] == pat
  }

  /** `String.prototype.replace` with a string pattern. */
  function ReplaceFirst(s: string, pat: string, rep: string): string
    decreases |s|
  {
    if |s| < |pat| then s
    else if s[..|pat|] == pat then rep + s[|pat|..]
    else [s[0]] + ReplaceFirst(s[1..], pat, rep)
  }

  /** An occurrence past the first character is an occurrence in the tail. */
  lemma OccursInTail(s: string, pat: string, i: int)
    requires 1 <= i && |s| >= 1
    ensures OccursAt(s, pat, i) <==> OccursAt(s[1..], pat, i - 1)
  {
    if i + |pat| <= |s| {
      var a, b := s[i..i + |pat|], s[1..][i - 1..i - 1 + |pat|];
      forall k | 0 <= k < |pat| ensures a[k] == b[k] {
        assert a[k] == s[i + k];
      }
      assert a == b;
    }
  }

  /** Without an occurrence of `pat`, `replace` leaves the string as it is. */
  lemma {:induction false} ReplaceFirstWithoutOccurrence(s: string, pat: string, rep: string)
    requires forall i | 0 <= i <= |s| :: !OccursAt(s, pat, i)
    ensures ReplaceFirst(s, pat, rep) == s
    decreases |s|
  {
    if |s| >= |pat| {
      assert !OccursAt(s, pat, 0);
      forall i | 0 <= i <= |s| - 1 ensures !OccursAt(s[1..], pat, i) {
        OccursInTail(s, pat, i + 1);
      }
      ReplaceFirstWithoutOccurrence(s[1..], pat, rep);
      assert [s[0]] + s[1..] == s;
    }
  }

  /** `replace` rewrites the first occurrence of `pat`, and nothing else. */
  lemma {:induction false} ReplaceFirstAtFirstOccurrence(s: string, pat: string, rep: string, i: nat)
    requires OccursAt(s, pat, i)
    requires forall j | 0 <= j < i :: !OccursAt(s, pat, j)
    ensures ReplaceFirst(s, pat, rep) == s[..i] + rep + s[i + |pat|..]
    decreases i
  {
    if i > 0 {
      assert !OccursAt(s, pat, 0);
      var t := s[1..];
      OccursInTail(s, pat, i);
      forall j | 0 <= j < i - 1 ensures !OccursAt(t, pat, j) {
        OccursInTail(s, pat, j + 1);
      }
      ReplaceFirstAtFirstOccurrence(t, pat, rep, i - 1);
      assert [s[0]] + t[..i - 1] == s[..i];
      assert t[i - 1 + |pat|..] == s[i + |pat|..];
    }
  }

  /** `apiUrl.replace("http", "ws") + "?history=no"`. */
  function WebSocketUrl(apiUrl: string): string {
    ReplaceFirst(apiUrl, "http", "ws") + "?history=no"
  }

  /** An `http` or `https` address becomes a `ws` or `wss` one (the rest is
      kept), with the backlog of past events switched off. */
  lemma WebSocketUrlOfHttp(rest: string)
    ensures WebSocketUrl("http" + rest) == "ws" + rest + "?history=no"
    ensures WebSocketUrl("https" + rest) == "wss" + rest + "?history=no"
  {
    var s, s' := "http" + rest, "https" + rest;
    assert OccursAt(s, "http", 0);
    assert OccursAt(s', "http", 0);
    ReplaceFirstAtFirstOccurrence(s, "http", "ws", 0);
    ReplaceFirstAtFirstOccurrence(s', "http", "ws", 0);
    assert s'[4..] == "s" + rest;
  }

  /** An address without `http` in it is only given the query suffix. */
  lemma WebSocketUrlWithoutHttp(apiUrl: string)
    requires forall i | 0 <= i <= |apiUrl| :: !OccursAt(apiUrl, "http", i)
    ensures WebSocketUrl(apiUrl) == apiUrl + "?history=no"
  {
    ReplaceFirstWithoutOccurrence(apiUrl, "http", "ws");
  }

  // ---------------------------------------------------------------------------
  // Messages

  /** The `transaction` object of an outgoing `NewTx` message. */
  datatype TxEnvelope = TxEnvelope(txType: string, cborHex: string)

  /** An outgoing message, before `JSON.stringify`. */
  datatype Outbound = Outbound(tag: string, transaction: TxEnvelope)

  /** The one message `submitTx` sends. */
  function NewTxMessage(tx: string): (m: Outbound)
    ensures m.tag == "NewTx" && m.transaction.txType == "Tx BabbageEra"
    ensures m.transaction.cborHex == tx
  {
    Outbound("NewTx", TxEnvelope("Tx BabbageEra", tx))
  }

  /** An incoming message after `JSON.parse`, reduced to what the listener
      reads: the tag, the raw text, `transaction.txId` and
      `validationError.reason` (empty where the message has none). */
  datatype Inbound = Inbound(tag: string, raw: string, txId: string, reason: string)

  /** What one message does to a submission's promise. */
  datatype Reaction = Ignore | Resolve(txHash: string) | Reject(error: string)

  /** The `switch (msg.tag)` of the listener `submitTx` registers. */
  function Dispatch(msg: Inbound): (r: Reaction)
    ensures r.Ignore? <==> msg.tag == "Greetings" || msg.tag == "SnapshotConfirmed"
    ensures r.Resolve? <==> msg.tag == "TxValid"
    ensures r.Resolve? ==> r.txHash == msg.txId
    ensures msg.tag == "TxInvalid" ==> r == Reject("Transaction invalid: " + msg.reason)
    ensures msg.tag !in {"Greetings", "TxValid", "TxInvalid", "SnapshotConfirmed"} ==>
      r == Reject("Unexpected message: " + msg.raw)
  {
    match msg.tag
    case "Greetings" => Ignore
    case "TxValid" => Resolve(msg.txId)
    case "TxInvalid" => Reject("Transaction invalid: " + msg.reason)
    case "SnapshotConfirmed" => Ignore
    case _ => Reject("Unexpected message: " + msg.raw)
  }

  datatype PromiseState = Pending | Resolved(txHash: string) | Rejected(error: string)

  /** A promise settles once: `res`/`rej` on a settled promise do nothing. */
  function Settle(p: PromiseState, r: Reaction): PromiseState {
    if !p.Pending? then p
    else match r
      case Ignore => Pending
      case Resolve(h) => Resolved(h)
      case Reject(e) => Rejected(e)
  }

  /** The state of one submission's promise after its listener has seen `msgs`
      (the listener is never removed, so it sees every later message). */
  function SettleAll(p: PromiseState, msgs: seq<Inbound>): PromiseState
    decreases |msgs|
  {
    if msgs == [] then p else SettleAll(Settle(p, Dispatch(msgs[0])), msgs[1..])
  }

  lemma {:induction false} SettledStaysSettled(p: PromiseState, msgs: seq<Inbound>)
    requires !p.Pending?
    ensures SettleAll(p, msgs) == p
    decreases |msgs|
  {
    if msgs != [] {
      SettledStaysSettled(Settle(p, Dispatch(msgs[0])), msgs[1..]);
    }
  }

  /** Only the first settling message decides a submission: `Greetings` and
      `SnapshotConfirmed` before it change nothing, and nothing after it
      changes the outcome. */
  lemma {:induction false} FirstSettlingMessageDecides(msgs: seq<Inbound>, k: nat)
    requires k < |msgs| && !Dispatch(msgs[k]).Ignore?
    requires forall j | 0 <= j < k :: Dispatch(msgs[j]).Ignore?
    ensures SettleAll(Pending, msgs) == Settle(Pending, Dispatch(msgs[k]))
    decreases k
  {
    if k == 0 {
      SettledStaysSettled(Settle(Pending, Dispatch(msgs[0])), msgs[1..]);
    } else {
      FirstSettlingMessageDecides(msgs[1..], k - 1);
    }
  }

  /** A stream of `Greetings` and `SnapshotConfirmed` leaves a submission pending. */
  lemma {:induction false} IgnoredMessagesKeepPending(msgs: seq<Inbound>)
    requires forall j | 0 <= j < |msgs| :: Dispatch(msgs[j]).Ignore?
    ensures SettleAll(Pending, msgs) == Pending
    decreases |msgs|
  {
    if msgs != [] {
      IgnoredMessagesKeepPending(msgs[1..]);
    }
  }

  // ---------------------------------------------------------------------------
  // Protocol parameters

  datatype ExecutionUnitPrices = ExecutionUnitPrices(priceMemory: real, priceSteps: real)
  datatype ExecutionUnits = ExecutionUnits(memory: int, steps: int)
  type CostModels = map<string, seq<int>>

  /** The head's `/protocol-parameters` response, the fields read. */
  datatype HeadParameters = HeadParameters(
    txFeeFixed: int,
    txFeePerByte: int,
    maxTxSize: int,
    maxValueSize: int,
    stakeAddressDeposit: int,
    stakePoolDeposit: int,
    executionUnitPrices: ExecutionUnitPrices,
    maxTxExecutionUnits: ExecutionUnits,
    utxoCostPerByte: int,
    collateralPercentage: int,
    maxCollateralInputs: int,
    costModels: CostModels)

  /** lucid-cardano's `ProtocolParameters`. */
  datatype ProtocolParameters = ProtocolParameters(
    minFeeA: int,
    minFeeB: int,
    maxTxSize: int,
    maxValSize: int,
    keyDeposit: int,
    poolDeposit: int,
    priceMem: real,
    priceStep: real,
    maxTxExMem: int,
    maxTxExSteps: int,
    coinsPerUtxoByte: int,
    collateralPercentage: int,
    maxCollateralInputs: int,
    costModels: CostModels)

  /** The record built by `getProtocolParameters`. */
  function ToProtocolParameters(pp: HeadParameters): ProtocolParameters {
    ProtocolParameters(
      pp.txFeeFixed,
      pp.txFeePerByte,
      pp.maxTxSize,
      pp.maxValueSize,
      pp.stakeAddressDeposit,
      pp.stakePoolDeposit,
      pp.executionUnitPrices.priceMemory,
      pp.executionUnitPrices.priceSteps,
      pp.maxTxExecutionUnits.memory,
      pp.maxTxExecutionUnits.steps,
      pp.utxoCostPerByte,
      pp.collateralPercentage,
      pp.maxCollateralInputs,
      pp.costModels)
  }

  /** The renaming read backwards. */
  function FromProtocolParameters(p: ProtocolParameters): HeadParameters {
    HeadParameters(
      p.minFeeA,
      p.minFeeB,
      p.maxTxSize,
      p.maxValSize,
      p.keyDeposit,
      p.poolDeposit,
      ExecutionUnitPrices(p.priceMem, p.priceStep),
      ExecutionUnits(p.maxTxExMem, p.maxTxExSteps),
      p.coinsPerUtxoByte,
      p.collateralPercentage,
      p.maxCollateralInputs,
      p.costModels)
  }

  /** `getProtocolParameters` is a pure renaming: no value is computed, lost
      or invented, so reading the result backwards gives the response again. */
  lemma ProtocolParametersAreRenamed(pp: HeadParameters, p: ProtocolParameters)
    ensures FromProtocolParameters(ToProtocolParameters(pp)) == pp
    ensures ToProtocolParameters(FromProtocolParameters(p)) == p
    ensures ToProtocolParameters(pp).minFeeA == pp.txFeeFixed
    ensures ToProtocolParameters(pp).minFeeB == pp.txFeePerByte
    ensures ToProtocolParameters(pp).coinsPerUtxoByte == pp.utxoCostPerByte
    ensures ToProtocolParameters(pp).keyDeposit == pp.stakeAddressDeposit
    ensures ToProtocolParameters(pp).poolDeposit == pp.stakePoolDeposit
    ensures ToProtocolParameters(pp).maxValSize == pp.maxValueSize
  {
  }

  // ---------------------------------------------------------------------------
  // The provider object

  class HydraProvider {
    const apiUrl: string
    /** The address the WebSocket `conn` was opened with. */
    const wsUrl: string
    /** Messages sent on `conn`, in order. */
    var sent: seq<Outbound>
    /** The promise of every `submitTx` call so far, in call order. Each call's
        listener stays registered, so every later message reaches all of them. */
    var submissions: seq<PromiseState>

    constructor (apiUrl: string)
      ensures this.apiUrl == apiUrl && wsUrl == WebSocketUrl(apiUrl)
      ensures sent == [] && submissions == []
    {
      this.apiUrl := apiUrl;
      wsUrl := WebSocketUrl(apiUrl);
      sent := [];
      submissions := [];
    }

    /** `submitTx`: register a listener for a new pending promise, then send
        exactly one `NewTx` message carrying the transaction. */
    method SubmitTx(tx: string) returns (handle: nat)
      modifies this`sent, this`submissions
      ensures handle == |old(submissions)|
      ensures submissions == old(submissions) + [Pending]
      ensures sent == old(sent) + [NewTxMessage(tx)]
    {
      handle := |submissions|;
      submissions := submissions + [Pending];
      sent := sent + [NewTxMessage(tx)];
    }

    /** A message arrives on `conn`: every registered listener reacts to it. */
    method OnMessage(msg: Inbound)
      modifies this`submissions
      ensures |submissions| == |old(submissions)|
      ensures forall i | 0 <= i < |submissions| :: submissions[i] == Settle(old(submissions[i]), Dispatch(msg))
    {
      var reaction := Dispatch(msg);
      submissions := seq(|submissions|, i requires 0 <= i < |submissions| reads this => Settle(submissions[i], reaction));
    }
  }

  /** The listener does not check that a `TxValid` names the submitted
      transaction: with two submissions pending, the first `TxValid` resolves
      both with its own id. */
  method TxValidResolvesEveryPending(apiUrl: string, tx1: string, tx2: string, confirmed: Inbound)
    returns (first: PromiseState, second: PromiseState)
    requires confirmed.tag == "TxValid"
    ensures first == Resolved(confirmed.txId) && second == Resolved(confirmed.txId)
  {
    var provider := new HydraProvider(apiUrl);
    var h1 := provider.SubmitTx(tx1);
    var h2 := provider.SubmitTx(tx2);
    provider.OnMessage(confirmed);
    first, second := provider.submissions[h1], provider.submissions[h2];
  }
}
