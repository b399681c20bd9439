/**
 The values the Bitcoin command layer reads and writes: the decoded request and
 response structures (only the tags and fields this layer looks at), the result
 codes of the Bitcoin engine and the commander's own error codes.
 */
module BtcTypes {

  datatype Option<T> = None | Some(value: T)

  /** `unsigned long` is 32 bits wide on the firmware target. */
  const UnsignedLongModulus: int := 0x1_0000_0000

  /** A keypath element: an unsigned 32-bit derivation index. */
  type U32 = x: int | 0 <= x < 0x1_0000_0000

  /** Request or response fields this layer hands to the engine without reading them. */
  type Payload = seq<bv8>

  /** A coin identifier; which coins exist and are enabled is the engine's business. */
  datatype Coin = Coin(id: nat)

  /** The commander's error taxonomy (commander_error_t). */
  datatype CommanderError = Ok | UserAbort | InvalidInput | Duplicate | Disabled | Generic

  /** The engine's result codes (app_btc_result_t); every code without a case of its own is AppOtherError. */
  datatype AppBtcResult = AppOk | AppUserAbort | AppInvalidInput | AppDuplicate | AppOtherError(code: int)

  /** The result codes of the signing engine (app_btc_sign_error_t). */
  datatype SignResult = SignOk | SignUserAbort | SignOtherError(code: int)

  /** BTCPubRequest_XPubType: the eight encodings this layer can title, and any other. */
  datatype XPubType =
    | Tpub | Xpub | Ypub | Zpub | Vpub | Upub | CapitalVpub | CapitalZpub
    | OtherXPubType(code: int)

  /** BTCScriptConfig_SimpleType. */
  datatype SimpleType = P2wpkhP2sh | P2wpkh | OtherSimpleType(code: int)

  /** BTCScriptConfig_Multisig, passed to the engine unread. */
  datatype Multisig = Multisig(fields: Payload)

  /** BTCScriptConfig: the `which_config` tag with its member. */
  datatype ScriptConfig =
    | SimpleConfig(simpleType: SimpleType)
    | MultisigConfig(multisig: Multisig)
    | UnknownConfig(tag: nat)

  /** The `which_output` tag of BTCPubRequest with its member. */
  datatype PubOutput =
    | XPubOutput(xpubType: XPubType)
    | ScriptConfigOutput(scriptConfig: ScriptConfig)
    | UnknownOutput(tag: nat)

  /** BTCPubRequest; `keypath` holds the first `keypath_count` elements. */
  datatype PubRequest = PubRequest(coin: Coin, keypath: seq<U32>, display: bool, output: PubOutput)

  /** The three signing requests; all but the coin of sign_init is read only by the engine. */
  datatype SignInitRequest = SignInitRequest(coin: Coin, rest: Payload)
  datatype SignInputRequest = SignInputRequest(rest: Payload)
  datatype SignOutputRequest = SignOutputRequest(rest: Payload)

  /** The top-level Request union, with the variants this layer dispatches on. */
  datatype Request =
    | BtcSignInit(init: SignInitRequest)
    | BtcSignInput(input: SignInputRequest)
    | BtcSignOutput(output: SignOutputRequest)
    | OtherRequest(tag: nat)

  /** The request variant tags this layer gives commander_states_force_next. */
  datatype RequestTag = BtcSignInputTag | BtcSignOutputTag

  /** BTCSignNextResponse_Type: the engine's announcement of the next step. */
  datatype NextType = NextInput | NextOutput | NextOther(code: int)

  /** BTCSignNextResponse; only `type` is read here. */
  datatype SignNext = SignNext(nextType: NextType, rest: Payload)

  /** The top-level Response: its `which_response` tag and its btc_sign_next member. */
  datatype ResponseTag = BtcSignNextTag | OtherResponseTag(tag: nat)
  datatype Response = Response(which: ResponseTag, btcSignNext: SignNext)

  /** BTCScriptConfigRegistration. */
  datatype Registration = Registration(coin: Coin, scriptConfig: ScriptConfig, keypath: seq<U32>)

  /** BTCRequest: the script-config query and registration, and any other variant. */
  datatype BtcRequest =
    | IsScriptConfigRegistered(registration: Registration)
    | RegisterScriptConfig(registration: Registration, name: string)
    | OtherBtcRequest(tag: nat)

  /** BTCResponse: its `which_response` tag and the is_script_config_registered member. */
  datatype BtcResponseTag = IsScriptConfigRegisteredTag | SuccessTag | OtherBtcResponseTag(tag: nat)
  datatype BtcResponse = BtcResponse(which: BtcResponseTag, isRegistered: bool)
}
