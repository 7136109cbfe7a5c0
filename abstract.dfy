/**
 * The client of the sponsored-transaction protocol: the entry-point choice,
 * the four request builders and the `sendTransaction` orchestration.
 *
 * The JSON-RPC transport and the signer are oracles: the transport is one
 * function per remote method from the request sent to the response received,
 * and the signer a function from the message to an optional signature.
 * `SendTransaction` returns the trace of every call it made.
 */
module Abstract {
  import opened Wrappers
  import opened Js
  import opened Schema
  import Regex

  /** The default entry-point contract address. */
  const ENTRY_POINT: string := "0x5FF137D4b0FDCD49DcA30c7CF57E578a026d2789"

  /** `const value = "0"`: the value sent when the call carries no truthy one. */
  const DEFAULT_VALUE: Value := Str("0")

  /** The fields a widened (estimate or sponsor) call sets over the caller's call. */
  const WIDENED_KEYS: set<string> := {"value", "nonce", "maxFeePerGas", "maxPriorityFeePerGas"}

  const FEE_KEYS: set<string> := {"maxFeePerGas", "maxPriorityFeePerGas"}

  datatype RpcContext = RpcContext(chainId: int, owner: string)

  /** The context as it is sent, field for field. */
  function ContextValue(ctx: RpcContext): Value {
    Obj(map["chainId" := Num(ctx.chainId), "owner" := Str(ctx.owner)])
  }

  datatype FeeTier = FeeTier(maxFeePerGas: int, maxPriorityFeePerGas: int)

  /** The estimate: three fee tiers, of which `sendTransaction` reads only `fast`. */
  datatype EstimateUserOperationReturn = EstimateUserOperationReturn(fast: FeeTier, medium: FeeTier, slow: FeeTier)

  /** The sponsor's answer: the operation to sign and the hash to hand to the signer. */
  datatype SponsorUserOperationReturn = SponsorUserOperationReturn(
    userOperation: UnsignedUserOperation,
    userOperationHash: string)

  /** What a successful `sendTransaction` resolves to: `{ userOperationHash }`. */
  datatype SendTransactionReturn = SendTransactionReturn(userOperationHash: string)

  /** The four remote methods. */
  datatype RpcMethod = CcEstimateUserOperation | CcSponsorUserOperation | EthSendUserOperation | EthGetUserOperationByHash {

    /** The method's name on the wire. */
    function Name(): string {
      match this
      case CcEstimateUserOperation => "cc_estimateUserOperation"
      case CcSponsorUserOperation => "cc_sponsorUserOperation"
      case EthSendUserOperation => "eth_sendUserOperation"
      case EthGetUserOperationByHash => "eth_getUserOperationByHash"
    }
  }

  /** One `client.request({ method, params })`. */
  datatype RpcRequest = RpcRequest(rpcMethod: RpcMethod, params: seq<Value>)

  /** The JSON-RPC endpoint: the response each remote method gives to a request. */
  datatype Transport = Transport(
    estimate: RpcRequest -> EstimateUserOperationReturn,
    sponsor: RpcRequest -> SponsorUserOperationReturn,
    send: RpcRequest -> string,
    lookup: RpcRequest -> Value)

  datatype Options = Options(entryPoint: string)

  /** The optional hooks of `sendTransaction`: a sponsor to use instead of the default one, and a precomputed estimate. */
  datatype Override = Override(
    sponsorUserOperation: Option<(Object, RpcContext) -> SponsorUserOperationReturn>,
    estimatedFee: Option<EstimateUserOperationReturn>)

  /** One effect of `sendTransaction`, in the order it happens. */
  datatype Event =
    | Request(request: RpcRequest)                 // a remote call through the transport
    | OverrideSponsor(call: Object, ctx: RpcContext) // a call of the caller's sponsor hook
    | SignMessage(message: string)                 // a call of the signer

  datatype Step = Estimate | Sponsor | OverriddenSponsor | Sign | Submit | Lookup

  function StepOf(e: Event): Step {
    match e
    case Request(r) => (
      match r.rpcMethod
      case CcEstimateUserOperation => Estimate
      case CcSponsorUserOperation => Sponsor
      case EthSendUserOperation => Submit
      case EthGetUserOperationByHash => Lookup)
    case OverrideSponsor(_, _) => OverriddenSponsor
    case SignMessage(_) => Sign
  }

  /** The kinds of the events of a trace, in order. */
  function Steps(trace: seq<Event>): (r: seq<Step>)
    ensures |r| == |trace|
  {
    if trace == [] then [] else [StepOf(trace[0])] + Steps(trace[1..])
  }

  lemma {:induction false} StepsConcat(a: seq<Event>, b: seq<Event>)
    ensures Steps(a + b) == Steps(a) + Steps(b)
    decreases |a|
  {
    if a == [] {
      assert a + b == b;
    } else {
      assert (a + b)[1..] == a[1..] + b;
      StepsConcat(a[1..], b);
    }
  }

  lemma StepsSingle(e: Event)
    ensures Steps([e]) == [StepOf(e)]
  {
    assert [e][1..] == [];
  }

  lemma StepsPair(e: Event, e': Event)
    ensures Steps([e, e']) == [StepOf(e), StepOf(e')]
  {
    assert [e, e'][1..] == [e'];
    StepsSingle(e');
  }

  /** `contractCall.value || value`: the caller's value when truthy, else `"0"`. */
  function ValueOrDefault(call: Object): (v: Value)
    ensures Truthy(Some(v))
    ensures Truthy(Get(call, "value")) ==> v == call["value"]
    ensures !Truthy(Get(call, "value")) ==> v == DEFAULT_VALUE
  {
    Or(Get(call, "value"), DEFAULT_VALUE)
  }

  /** Whether the signer's answer is truthy: `undefined` and `""` both count as no signature. */
  predicate IsSignature(signature: Option<string>): (b: bool)
    ensures b <==> signature.Some? && signature.value != ""
  {
    Truthy(if signature.Some? then Some(Str(signature.value)) else None)
  }

  /**
   * The call `sendTransaction` hands to the sponsor: every field of the
   * caller's call, the value default, no nonce, and both fee fields from the
   * given tier, whatever the caller put there.
   */
  function SponsorCall(call: Object, fast: FeeTier): Object
  {
    call + map[
      "value" := ValueOrDefault(call),
      "nonce" := Null,
      "maxFeePerGas" := Num(fast.maxFeePerGas),
      "maxPriorityFeePerGas" := Num(fast.maxPriorityFeePerGas)
    ]
  }

  lemma SponsorCallFields(call: Object, fast: FeeTier)
    ensures var r := SponsorCall(call, fast);
      && r.Keys == call.Keys + WIDENED_KEYS
      && (forall k | k in call && k !in WIDENED_KEYS :: r[k] == call[k])
      && r["value"] == ValueOrDefault(call) && r["nonce"] == Null
      && r["maxFeePerGas"] == Num(fast.maxFeePerGas)
      && r["maxPriorityFeePerGas"] == Num(fast.maxPriorityFeePerGas)
      && ("ep" in r <==> "ep" in call)
  {
  }

  /** One instance of the client: its signer, its transport and the entry point chosen when it was made. */
  datatype CyberAbstract = CyberAbstract(
    signMessage: string -> Option<string>,
    transport: Transport,
    entryPoint: string)
  {
    /**
     * `estimateTransaction`: the caller's call widened with the value
     * default, no nonce, both fee fields null and the entry point, followed
     * by the context.
     */
    function EstimateRequest(call: Object, ctx: RpcContext): (r: RpcRequest)
      ensures r.rpcMethod == CcEstimateUserOperation && |r.params| == 2
      ensures r.params[0].Obj? && r.params[1] == ContextValue(ctx)
    {
      var sent := call + map[
        "value" := ValueOrDefault(call),
        "nonce" := Null,
        "maxFeePerGas" := Null,
        "maxPriorityFeePerGas" := Null,
        "ep" := Str(entryPoint)
      ];
      RpcRequest(CcEstimateUserOperation, [Obj(sent), ContextValue(ctx)])
    }

    /** `sponsorUserOperation`: the given call with only `ep` added, followed by the context. */
    function SponsorRequest(call: Object, ctx: RpcContext): (r: RpcRequest)
      ensures r.rpcMethod == CcSponsorUserOperation && |r.params| == 2
      ensures r.params[0].Obj? && r.params[1] == ContextValue(ctx)
    {
      RpcRequest(CcSponsorUserOperation, [Obj(call["ep" := Str(entryPoint)]), ContextValue(ctx)])
    }

    lemma EstimatePayload(call: Object, ctx: RpcContext)
      ensures var sent := EstimateRequest(call, ctx).params[0].fields;
        && sent.Keys == call.Keys + WIDENED_KEYS + {"ep"}
        && (forall k | k in call && k !in WIDENED_KEYS + {"ep"} :: sent[k] == call[k])
        && sent["value"] == ValueOrDefault(call)
        && sent["nonce"] == Null && sent["maxFeePerGas"] == Null && sent["maxPriorityFeePerGas"] == Null
        && sent["ep"] == Str(entryPoint)
    {
    }

    lemma SponsorPayload(call: Object, ctx: RpcContext)
      ensures var sent := SponsorRequest(call, ctx).params[0].fields;
        && sent.Keys == call.Keys + {"ep"}
        && (forall k | k in call && k != "ep" :: sent[k] == call[k])
        && sent["ep"] == Str(entryPoint)
    {
    }

    /** `sendUserOperation`: the tuple `[userOperation, entryPoint, ctx]`. */
    function SendRequest(op: UserOperation, ctx: RpcContext): (r: RpcRequest)
      ensures r.rpcMethod == EthSendUserOperation && |r.params| == 3
      ensures r.params[0] == Obj(ToObject(op)) && r.params[1] == Str(entryPoint) && r.params[2] == ContextValue(ctx)
    {
      RpcRequest(EthSendUserOperation, [Obj(ToObject(op)), Str(entryPoint), ContextValue(ctx)])
    }

    /** `getUserOperationByHash`: the tuple `[hash, { chainId }]`; the owner is not sent. */
    function LookupRequest(hash: string, ctx: RpcContext): (r: RpcRequest)
      ensures r.rpcMethod == EthGetUserOperationByHash && |r.params| == 2
      ensures r.params[0] == Str(hash) && r.params[1] == Obj(map["chainId" := Num(ctx.chainId)])
    {
      RpcRequest(EthGetUserOperationByHash, [Str(hash), Obj(map["chainId" := Num(ctx.chainId)])])
    }

    /** The record the lookup resolves to, as received. */
    function GetUserOperationByHash(hash: string, ctx: RpcContext): Value {
      transport.lookup(LookupRequest(hash, ctx))
    }

    /** The estimate `sendTransaction` works from: the supplied one, else the estimator's answer to the original call. */
    function EstimateUsed(call: Object, ctx: RpcContext, override: Override): EstimateUserOperationReturn {
      if override.estimatedFee.Some? then override.estimatedFee.value
      else transport.estimate(EstimateRequest(call, ctx))
    }

    /** The sponsor's answer `sendTransaction` works from: the hook's, else the default sponsor's. */
    function SponsorUsed(call: Object, ctx: RpcContext, override: Override): SponsorUserOperationReturn {
      var sponsorCall := SponsorCall(call, EstimateUsed(call, ctx, override).fast);
      if override.sponsorUserOperation.Some? then override.sponsorUserOperation.value(sponsorCall, ctx)
      else transport.sponsor(SponsorRequest(sponsorCall, ctx))
    }

    /**
     * `sendTransaction`: estimate (unless an estimate is supplied), sponsor
     * the call built from the `fast` tier (with the hook if one is supplied,
     * otherwise with the default sponsor), sign the sponsor's hash, stop if
     * there is no signature, otherwise submit the sponsor's operation with
     * the signature attached.
     */
    method SendTransaction(call: Object, ctx: RpcContext, override: Override)
      returns (trace: seq<Event>, result: Option<SendTransactionReturn>)
      // which calls are made, and in which order
      ensures Steps(trace) ==
        (if override.estimatedFee.Some? then [] else [Estimate])
        + [if override.sponsorUserOperation.Some? then OverriddenSponsor else Sponsor, Sign]
        + (if result.Some? then [Submit] else [])
      // what each call is given, in terms of what the calls before it returned
      ensures override.estimatedFee.None? ==> trace[0] == Request(EstimateRequest(call, ctx))
      ensures
        var k := if override.estimatedFee.Some? then 0 else 1;
        var sponsorCall := SponsorCall(call, EstimateUsed(call, ctx, override).fast);
        trace[k] == (
          if override.sponsorUserOperation.Some? then OverrideSponsor(sponsorCall, ctx)
          else Request(SponsorRequest(sponsorCall, ctx)))
      ensures
        var k := if override.estimatedFee.Some? then 0 else 1;
        trace[k + 1] == SignMessage(SponsorUsed(call, ctx, override).userOperationHash)
      // the flow stops exactly when the signer gives no signature
      ensures
        var signature := signMessage(SponsorUsed(call, ctx, override).userOperationHash);
        result.Some? <==> IsSignature(signature)
      ensures
        var k := if override.estimatedFee.Some? then 0 else 1;
        var sponsored := SponsorUsed(call, ctx, override);
        var signature := signMessage(sponsored.userOperationHash);
        result.Some? ==>
          && trace[k + 2] == Request(SendRequest(AddSignature(sponsored.userOperation, signature.value), ctx))
          && result.value.userOperationHash == transport.send(trace[k + 2].request)
    {
      var estimateEvents, estimatedGas := ObtainEstimate(call, ctx, override);
      var sponsorCall := SponsorCall(call, estimatedGas.fast);
      var sponsorEvent, sponsored := ObtainSponsorship(sponsorCall, ctx, override);
      var signature := signMessage(sponsored.userOperationHash);
      var signEvent := SignMessage(sponsored.userOperationHash);
      trace := estimateEvents + [sponsorEvent, signEvent];
      StepsPair(sponsorEvent, signEvent);
      StepsConcat(estimateEvents, [sponsorEvent, signEvent]);
      if !IsSignature(signature) {
        return trace, None;
      }

      var userOperation := AddSignature(sponsored.userOperation, signature.value);
      var request := SendRequest(userOperation, ctx);
      StepsSingle(Request(request));
      StepsConcat(trace, [Request(request)]);
      trace := trace + [Request(request)];
      var userOperationHash := transport.send(request);
      result := Some(SendTransactionReturn(userOperationHash));
    }

    /** `override?.estimatedFee || (await estimateTransaction(contractCall, ctx))`. */
    method ObtainEstimate(call: Object, ctx: RpcContext, override: Override)
      returns (events: seq<Event>, estimate: EstimateUserOperationReturn)
      ensures events == if override.estimatedFee.Some? then [] else [Request(EstimateRequest(call, ctx))]
      ensures Steps(events) == if override.estimatedFee.Some? then [] else [Estimate]
      ensures estimate == EstimateUsed(call, ctx, override)
    {
      if override.estimatedFee.Some? {
        events, estimate := [], override.estimatedFee.value;
      } else {
        var request := EstimateRequest(call, ctx);
        events, estimate := [Request(request)], transport.estimate(request);
      }
    }

    /** `await (override?.sponsorUserOperation || sponsorUserOperation)(sponsorContractCall, ctx)`. */
    method ObtainSponsorship(sponsorCall: Object, ctx: RpcContext, override: Override)
      returns (event: Event, sponsored: SponsorUserOperationReturn)
      ensures event == (
        if override.sponsorUserOperation.Some? then OverrideSponsor(sponsorCall, ctx)
        else Request(SponsorRequest(sponsorCall, ctx)))
      ensures StepOf(event) == if override.sponsorUserOperation.Some? then OverriddenSponsor else Sponsor
      ensures sponsored == (
        if override.sponsorUserOperation.Some? then override.sponsorUserOperation.value(sponsorCall, ctx)
        else transport.sponsor(SponsorRequest(sponsorCall, ctx)))
    {
      if override.sponsorUserOperation.Some? {
        event, sponsored := OverrideSponsor(sponsorCall, ctx), override.sponsorUserOperation.value(sponsorCall, ctx);
      } else {
        var request := SponsorRequest(sponsorCall, ctx);
        event, sponsored := Request(request), transport.sponsor(request);
      }
    }
  }

  /**
   * `CyberAbstract(signMessage, rpcUrl, options)`: the entry point is
   * `options?.entryPoint || ENTRY_POINT`, so a missing or empty one falls
   * back to the default; it is chosen here once and never changes.
   */
  function New(signMessage: string -> Option<string>, transport: Transport, options: Option<Options>): (c: CyberAbstract)
    ensures c.signMessage == signMessage && c.transport == transport
    ensures options.Some? && options.value.entryPoint != "" ==> c.entryPoint == options.value.entryPoint
    ensures options.None? || options.value.entryPoint == "" ==> c.entryPoint == ENTRY_POINT
  {
    var entryPoint := if options.Some? && options.value.entryPoint != "" then options.value.entryPoint else ENTRY_POINT;
    CyberAbstract(signMessage, transport, entryPoint)
  }

  /** The default entry point passes `hexString`. */
  lemma DefaultEntryPointIsHex()
    ensures IsHexString(ENTRY_POINT)
  {
    var s := ENTRY_POINT;
    assert |s| == 42;
    assert forall k | 2 <= k < 12 :: !Regex.IsLineTerminator(s[k]);
    assert forall k | 12 <= k < 22 :: !Regex.IsLineTerminator(s[k]);
    assert forall k | 22 <= k < 32 :: !Regex.IsLineTerminator(s[k]);
    assert forall k | 32 <= k < 42 :: !Regex.IsLineTerminator(s[k]);
    assert s[0] == '0' && s[1] == 'x';
    assert HasHexPrefix(s);
    HexStringIsPrefixCheck(s);
  }

  /** The chosen entry point passes `hexString` whenever a supplied one does. */
  lemma EntryPointIsHex(signMessage: string -> Option<string>, transport: Transport, options: Option<Options>)
    requires options.Some? ==> options.value.entryPoint == "" || IsHexString(options.value.entryPoint)
    ensures IsHexString(New(signMessage, transport, options).entryPoint)
  {
    DefaultEntryPointIsHex();
  }

  /**
   * The estimator and the sponsor are asked about the same call: the two
   * payloads have the same fields and agree on all of them except the two
   * fee fields, which the sponsor receives from the `fast` tier.
   */
  lemma EstimateAndSponsorAgree(c: CyberAbstract, call: Object, ctx: RpcContext, fast: FeeTier)
    ensures
      var estimated := c.EstimateRequest(call, ctx).params[0].fields;
      var sponsored := c.SponsorRequest(SponsorCall(call, fast), ctx).params[0].fields;
      && estimated.Keys == sponsored.Keys
      && (forall k | k in estimated && k !in FEE_KEYS :: estimated[k] == sponsored[k])
      && sponsored["maxFeePerGas"] == Num(fast.maxFeePerGas)
      && sponsored["maxPriorityFeePerGas"] == Num(fast.maxPriorityFeePerGas)
  {
    c.EstimatePayload(call, ctx);
    SponsorCallFields(call, fast);
    c.SponsorPayload(SponsorCall(call, fast), ctx);
  }

  /** The concrete case: a bare call and a fast tier of 100 / 10. */
  lemma SponsorCallExample()
    ensures
      var call := map["sender" := Str("0xA"), "to" := Str("0xB"), "callData" := Str("0xC")];
      SponsorCall(call, FeeTier(100, 10)) == call + map[
        "value" := Str("0"), "nonce" := Null, "maxFeePerGas" := Num(100), "maxPriorityFeePerGas" := Num(10)]
  {
  }

  /**
   * The lookup does not depend on the owner: contexts on the same chain give
   * the same request, and so, while the server's state is unchanged (the
   * transport is a fixed function of the request), the same record.
   */
  lemma LookupIgnoresOwner(c: CyberAbstract, hash: string, ctx: RpcContext, ctx': RpcContext)
    ensures c.LookupRequest(hash, ctx) == c.LookupRequest(hash, ctx') <==> ctx.chainId == ctx'.chainId
    ensures ctx.chainId == ctx'.chainId ==> c.GetUserOperationByHash(hash, ctx) == c.GetUserOperationByHash(hash, ctx')
  {
    if c.LookupRequest(hash, ctx) == c.LookupRequest(hash, ctx') {
      assert Obj(map["chainId" := Num(ctx.chainId)]).fields["chainId"] == Num(ctx.chainId);
    }
  }

  /** What `sendUserOperation` sends parses back, under `UserOperationSchema`, to the operation itself when it is valid. */
  lemma SubmittedOperationParses(c: CyberAbstract, op: UserOperation, ctx: RpcContext)
    requires ValidUserOperation(op)
    ensures ParseUserOperation(c.SendRequest(op, ctx).params[0].fields) == Some(op)
  {
    ParseRoundTrip(op);
  }
}
