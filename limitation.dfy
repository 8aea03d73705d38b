/**
 * The request admission validator (isValidCall). A request is classified
 * as Allowed, Denied or DecodeError from its method name, its first
 * parameter and two compiled sets of the running configuration: allowed
 * method names and allowed contract addresses (lower case). The Go code
 * turns every panic of a failed type assertion or index into a decode
 * error; here each decoding step returns a Fault and the validator maps
 * any Fault to DecodeError, so the function is total.
 */
module Limitation {
  import opened Wrappers
  import opened Values
  import Ascii
  import opened Builder

  /** A parsed JSON-RPC request envelope. */
  datatype RequestData = RequestData(jsonRpc: string, id: int, methodName: string, params: seq<Value>)

  /** The three outcomes: no error, the Denied error, the DecodeError error. */
  datatype Verdict = Allowed | Denied | DecodeError

  /** What hexutil.Decode returns: some bytes, and whether it reported an error. */
  datatype HexDecoded = HexDecoded(bytes: seq<bv8>, failed: bool)

  /**
   * One element of the list rlp.DecodeBytes produces into []interface{}.
   * Its Go type is fixed by the RLP library, whose code is not part of
   * this model, so it is left abstract.
   */
  type RlpItem

  /**
   * The library decoders the validator calls, whose code is not part of
   * this model: 0x-prefixed hex decoding, RLP decoding into a list of
   * items, and the assertion that an item is a Go string.
   */
  datatype Decoders = Decoders(
    hexDecode: string -> HexDecoded,
    rlpDecode: seq<bv8> -> Option<seq<RlpItem>>,
    itemAsString: RlpItem -> Option<string>)

  const EthGetBalance := "eth_getBalance"
  const EthGetTransactionReceipt := "eth_getTransactionReceipt"
  const EthCall := "eth_call"
  const EthEstimateGas := "eth_estimateGas"
  const EthSendRawTransaction := "eth_sendRawTransaction"

  /** The methods the validator treats specially; every other method is denied. */
  const SpecialMethods := {EthGetBalance, EthGetTransactionReceipt, EthCall, EthEstimateGas, EthSendRawTransaction}

  /** Exact, case-sensitive lookup in the compiled method set: no letter case is folded. */
  function IsAllowedMethod(rc: RunningConfig, methodName: string): (r: bool)
    ensures r <==> methodName in rc.allowedMethods
  {
    methodName in rc.allowedMethods
  }

  /**
   * Lookup of an address's lower-case form in the compiled contract set.
   * When every compiled entry is in lower case, as the builder makes them,
   * this is a case-insensitive match against some entry.
   */
  function InWhitelist(rc: RunningConfig, address: string): (r: bool)
    ensures (forall c :: c in rc.allowedCallContracts ==> Ascii.IsLower(c)) ==>
      (r <==> exists c :: c in rc.allowedCallContracts && Ascii.EqualFold(address, c))
  {
    var lower := Ascii.ToLower(address);
    Ascii.ToLowerIdempotent(address);
    assert (forall c :: c in rc.allowedCallContracts ==> Ascii.IsLower(c)) ==>
      forall c :: c in rc.allowedCallContracts && Ascii.EqualFold(address, c) ==> c == lower
    by {
      if forall c :: c in rc.allowedCallContracts ==> Ascii.IsLower(c) {
        forall c | c in rc.allowedCallContracts && Ascii.EqualFold(address, c)
          ensures c == lower
        {
          Ascii.EqualFoldIffSameLower(address, c);
          Ascii.LowerIsFixed(c);
        }
      }
    }
    lower in rc.allowedCallContracts
  }

  /** The `to` field of an eth_call / eth_estimateGas request's first parameter. */
  function CallTarget(params: seq<Value>): (r: Result<string, Fault>)
    ensures r.Success? <==>
      |params| > 0 && params[0].Object? && Member(params[0].fields, "to").Str?
    ensures r.Success? ==> r.value == Member(params[0].fields, "to").s
  {
    var p :- At(params, 0);
    var fields :- AsObject(p);
    AsString(Member(fields, "to"))
  }

  /**
   * The destination (item 3) of an eth_sendRawTransaction request's raw
   * transaction. The hex decoder's error flag is not looked at; the number
   * of RLP items is only required to reach index 3.
   */
  function RawTransactionTarget(dec: Decoders, params: seq<Value>): (r: Result<string, Fault>)
    ensures r.Success? <==>
      && |params| > 0 && params[0].Str?
      && dec.rlpDecode(dec.hexDecode(params[0].s).bytes).Some?
      && |dec.rlpDecode(dec.hexDecode(params[0].s).bytes).value| > 3
      && dec.itemAsString(dec.rlpDecode(dec.hexDecode(params[0].s).bytes).value[3]).Some?
    ensures r.Success? ==>
      Some(r.value) == dec.itemAsString(dec.rlpDecode(dec.hexDecode(params[0].s).bytes).value[3])
  {
    var p :- At(params, 0);
    var data :- AsString(p);
    var bytes := dec.hexDecode(data).bytes;
    var fields :- dec.rlpDecode(bytes).ToResult(Undecodable);
    var to :- At(fields, 3);
    dec.itemAsString(to).ToResult(NotAString)
  }

  /** A decoded destination is checked against the whitelist; a fault is a decode error. */
  function CheckTarget(rc: RunningConfig, target: Result<string, Fault>): (v: Verdict)
    ensures v == DecodeError <==> target.Failure?
    ensures v == Allowed <==> target.Success? && InWhitelist(rc, target.value)
  {
    match target
    case Failure(_) => DecodeError
    case Success(to) => if InWhitelist(rc, to) then Allowed else Denied
  }

  /** isValidCall: the admission decision for one request. */
  function IsValidCall(rc: RunningConfig, dec: Decoders, req: RequestData): (v: Verdict)
    ensures v != Denied ==> IsAllowedMethod(rc, req.methodName) && req.methodName in SpecialMethods
    ensures v == DecodeError ==> req.methodName in {EthCall, EthEstimateGas, EthSendRawTransaction}
  {
    if !IsAllowedMethod(rc, req.methodName) then Denied
    else if req.methodName == EthGetBalance || req.methodName == EthGetTransactionReceipt then Allowed
    else if req.methodName == EthCall || req.methodName == EthEstimateGas then CheckTarget(rc, CallTarget(req.params))
    else if req.methodName == EthSendRawTransaction then CheckTarget(rc, RawTransactionTarget(dec, req.params))
    else Denied
  }

  /** The method check comes first: an unlisted method is denied whatever its params. */
  lemma UnlistedMethodDenied(rc: RunningConfig, dec: Decoders, req: RequestData)
    requires req.methodName !in rc.allowedMethods
    ensures IsValidCall(rc, dec, req) == Denied
  {
  }

  /** The method-limitation flag is not consulted by the validator. */
  lemma FlagNotConsulted(rc: RunningConfig, dec: Decoders, req: RequestData, flag: bool)
    ensures IsValidCall(rc.(methodLimitationEnabled := flag), dec, req) == IsValidCall(rc, dec, req)
  {
  }

  /** eth_getBalance and eth_getTransactionReceipt pass without any look at their params. */
  lemma BalanceAndReceiptAllowed(rc: RunningConfig, dec: Decoders, req: RequestData)
    requires req.methodName == EthGetBalance || req.methodName == EthGetTransactionReceipt
    ensures IsValidCall(rc, dec, req) == Allowed <==> req.methodName in rc.allowedMethods
  {
  }

  /** eth_call / eth_estimateGas: a decode error exactly when `to` cannot be read, else the whitelist decides. */
  lemma CallVerdict(rc: RunningConfig, dec: Decoders, req: RequestData)
    requires req.methodName == EthCall || req.methodName == EthEstimateGas
    requires req.methodName in rc.allowedMethods
    ensures var p := req.params;
      IsValidCall(rc, dec, req) == DecodeError <==>
        |p| == 0 || !p[0].Object? || !Member(p[0].fields, "to").Str?
    ensures var p := req.params;
      IsValidCall(rc, dec, req) == Allowed <==>
        && |p| > 0 && p[0].Object? && Member(p[0].fields, "to").Str?
        && Ascii.ToLower(Member(p[0].fields, "to").s) in rc.allowedCallContracts
  {
  }

  /** The contract lookup ignores letter case. */
  lemma {:induction false} WhitelistIgnoresCase(rc: RunningConfig, a: string, b: string)
    requires Ascii.EqualFold(a, b)
    ensures InWhitelist(rc, a) == InWhitelist(rc, b)
  {
    Ascii.EqualFoldIffSameLower(a, b);
  }

  /** Two eth_call-like requests whose `to` differ only in letter case get the same verdict. */
  lemma {:induction false} CallIgnoresTargetCase(rc: RunningConfig, dec: Decoders, req: RequestData,
                                                   fields: map<string, Value>, a: string, b: string)
    requires Ascii.EqualFold(a, b)
    ensures
      var ra := req.(params := [Object(fields["to" := Str(a)])] + req.params);
      var rb := req.(params := [Object(fields["to" := Str(b)])] + req.params);
      IsValidCall(rc, dec, ra) == IsValidCall(rc, dec, rb)
  {
    WhitelistIgnoresCase(rc, a, b);
  }

  /** On a built configuration, a method name is allowed iff it is one of the configured names, exactly. */
  lemma BuiltMethodLookup(tag: string, upstreams: seq<string>, limitation: bool,
                          methods: seq<string>, contracts: seq<string>, name: string)
    requires Build(tag, upstreams, limitation, methods, contracts).Success?
    ensures IsAllowedMethod(Build(tag, upstreams, limitation, methods, contracts).value, name) <==>
      exists i :: 0 <= i < |methods| && methods[i] == name
  {
    CompiledMethods(tag, upstreams, limitation, methods, contracts, name);
  }

  /** With one allowed method, a name equal to it only up to letter case is denied. */
  lemma MethodCaseVariantDenied(rc: RunningConfig, dec: Decoders, req: RequestData, m: string)
    requires rc.allowedMethods == {m}
    requires Ascii.EqualFold(req.methodName, m) && req.methodName != m
    ensures !IsAllowedMethod(rc, req.methodName)
    ensures IsValidCall(rc, dec, req) == Denied
  {
  }

  /** The method lookup does not ignore case: a listed method in other letter case is denied. */
  lemma MethodLookupIsExact(dec: Decoders, params: seq<Value>)
    ensures var rc := RunningConfig(Naive, ["u"], true, {EthGetBalance}, {});
      && IsValidCall(rc, dec, RequestData("2.0", 1, EthGetBalance, params)) == Allowed
      && IsValidCall(rc, dec, RequestData("2.0", 1, "eth_getbalance", params)) == Denied
  {
  }

  /**
   * eth_sendRawTransaction: a decode error exactly when the first param is
   * missing or not a string, RLP decoding fails, there are fewer than four
   * items or item 3 is not a string; otherwise the whitelist decides.
   */
  lemma RawTransactionVerdict(rc: RunningConfig, dec: Decoders, req: RequestData)
    requires req.methodName == EthSendRawTransaction
    requires req.methodName in rc.allowedMethods
    ensures
      var p := req.params;
      var items := if |p| > 0 && p[0].Str? then dec.rlpDecode(dec.hexDecode(p[0].s).bytes) else None;
      var to := if items.Some? && |items.value| >= 4 then dec.itemAsString(items.value[3]) else None;
      && (IsValidCall(rc, dec, req) == DecodeError <==> to.None?)
      && (IsValidCall(rc, dec, req) == Allowed <==> to.Some? && Ascii.ToLower(to.value) in rc.allowedCallContracts)
  {
  }

  /** The hex decoder's error is discarded: only the bytes it returns matter. */
  lemma HexErrorDiscarded(rc: RunningConfig, d1: Decoders, d2: Decoders, req: RequestData)
    requires forall s :: d1.hexDecode(s).bytes == d2.hexDecode(s).bytes
    requires d1.rlpDecode == d2.rlpDecode && d1.itemAsString == d2.itemAsString
    ensures IsValidCall(rc, d1, req) == IsValidCall(rc, d2, req)
  {
  }

  /** Any allowed method outside the special cases is denied by default. */
  lemma DefaultDeny(rc: RunningConfig, dec: Decoders, req: RequestData)
    requires req.methodName !in SpecialMethods
    ensures IsValidCall(rc, dec, req) == Denied
  {
  }

  /** eth_blockNumber is denied even when it is the one allowed method. */
  lemma BlockNumberDenied(dec: Decoders, params: seq<Value>)
    ensures var rc := RunningConfig(Naive, ["u"], true, {"eth_blockNumber"}, {});
      IsValidCall(rc, dec, RequestData("2.0", 1, "eth_blockNumber", params)) == Denied
  {
  }

  /**
   * The quantifier over the abstract RlpItem in the requires is not
   * instantiated at a decoded term such as items.value[3]; passing that
   * term as `item` makes the instance available to the caller.
   */
  lemma NoStringItem(dec: Decoders, item: RlpItem)
    requires forall x: RlpItem :: dec.itemAsString(x).None?
    ensures dec.itemAsString(item).None?
  {
  }

  /**
   * If the RLP decoder never yields an item whose Go type is string (as when
   * it decodes byte strings into []byte), no raw transaction is ever allowed.
   */
  lemma RawTransactionNeverAllowedWithByteItems(rc: RunningConfig, dec: Decoders, req: RequestData)
    requires req.methodName == EthSendRawTransaction
    requires forall x: RlpItem :: dec.itemAsString(x).None?
    ensures IsValidCall(rc, dec, req) != Allowed
  {
    var p := req.params;
    if |p| > 0 && p[0].Str? {
      var items := dec.rlpDecode(dec.hexDecode(p[0].s).bytes);
      if items.Some? && |items.value| >= 4 {
        NoStringItem(dec, items.value[3]);
      }
    }
  }

  /**
   * Validator and builder together: on a built configuration, an eth_call
   * or eth_estimateGas whose method is configured is allowed exactly when
   * its `to` equals some configured contract address up to letter case.
   */
  lemma {:induction false} BuiltWhitelistAdmitsCall(tag: string, upstreams: seq<string>, limitation: bool,
                                                       methods: seq<string>, contracts: seq<string>,
                                                       dec: Decoders, req: RequestData, to: string)
    requires Build(tag, upstreams, limitation, methods, contracts).Success?
    requires req.methodName == EthCall || req.methodName == EthEstimateGas
    requires req.methodName in methods
    requires CallTarget(req.params) == Success(to)
    ensures IsValidCall(Build(tag, upstreams, limitation, methods, contracts).value, dec, req) == Allowed <==>
      exists i :: 0 <= i < |contracts| && Ascii.EqualFold(to, contracts[i])
  {
    var rc := Build(tag, upstreams, limitation, methods, contracts).value;
    CompiledMethods(tag, upstreams, limitation, methods, contracts, req.methodName);
    CompiledContracts(tag, upstreams, limitation, methods, contracts, Ascii.ToLower(to));
    forall i | 0 <= i < |contracts|
      ensures Ascii.EqualFold(to, contracts[i]) <==> Ascii.ToLower(contracts[i]) == Ascii.ToLower(to)
    {
      Ascii.EqualFoldIffSameLower(to, contracts[i]);
    }
  }
}
