/**
 The Bitcoin command layer of the commander: it takes an already decoded
 request, picks the handler, turns the engine's result codes into the
 commander's, builds the bounded confirmation titles of the public-key export,
 and records which signing request must come next.

 Every call into code outside this layer is an answer of an `Engine` value:
 coin policy, derivation, signing, the script-config store, the coin-name
 table and the user's decision on a confirmation screen. Each handler asks
 each of them at most once, so a function of the call's arguments stands for
 the engine's answer at that moment.
 */
module CommanderBtc {
  import opened BtcTypes
  import opened Titles

  /**
   The answers of the code this layer calls. A pair `(ok, value)` is the
   engine's success flag with what it left in the caller's output buffer.
   */
  datatype Engine = Engine(
    enabled: Coin -> bool,                                                // app_btc_enabled
    coinName: Coin -> string,                                             // btc_common_coin_name
    xpub: (Coin, XPubType, seq<U32>) -> (bool, string),                   // app_btc_xpub
    addressSimple: (Coin, SimpleType, seq<U32>) -> (bool, string),        // app_btc_address_simple
    addressMultisigP2wsh: (Coin, Multisig, seq<U32>, bool) -> (AppBtcResult, string),
    signInit: SignInitRequest -> (SignResult, SignNext),                  // app_btc_sign_init
    signInput: SignInputRequest -> (SignResult, SignNext),                // app_btc_sign_input
    signOutput: SignOutputRequest -> (SignResult, SignNext),              // app_btc_sign_output
    isScriptConfigRegistered: (Coin, ScriptConfig, seq<U32>) -> (bool, bool),
    registerScriptConfig: (Coin, ScriptConfig, seq<U32>, string) -> AppBtcResult,
    userApproves: (string, string) -> bool)                               // the user's choice in workflow_verify_pub

  // ---------------------------------------------------------------------------
  // Error translation

  /** `_result`: the commander code for an engine result code. */
  function ToCommanderError(r: AppBtcResult): (c: CommanderError)
    ensures c != Disabled
    ensures c == Generic <==> r.AppOtherError?
    ensures c != Generic ==> AppResultOf(c) == Some(r)
  {
    match r
    case AppOk => Ok
    case AppUserAbort => UserAbort
    case AppInvalidInput => InvalidInput
    case AppDuplicate => Duplicate
    case AppOtherError(_) => Generic
  }

  /** The engine code that each commander code other than DISABLED and GENERIC translates. */
  function AppResultOf(c: CommanderError): Option<AppBtcResult>
  {
    match c
    case Ok => Some(AppOk)
    case UserAbort => Some(AppUserAbort)
    case InvalidInput => Some(AppInvalidInput)
    case Duplicate => Some(AppDuplicate)
    case Disabled => None
    case Generic => None
  }

  /** Every code AppResultOf accepts is produced by `_result`, from that engine code. */
  lemma AppResultOfInverse(c: CommanderError)
    requires AppResultOf(c).Some?
    ensures ToCommanderError(AppResultOf(c).value) == c
  {
  }

  /** Two engine codes that `_result` does not fold into GENERIC keep their difference. */
  lemma ToCommanderErrorInjective(a: AppBtcResult, b: AppBtcResult)
    requires ToCommanderError(a) == ToCommanderError(b) != Generic
    ensures a == b
  {
    assert AppResultOf(ToCommanderError(a)) == Some(a);
  }

  // ---------------------------------------------------------------------------
  // Public-key export: what each path returns and what it shows

  /** One call of workflow_verify_pub: the title and the value put before the user. */
  datatype Confirmation = Confirmation(title: string, pub: string)

  /** Every title put before the user fits the 100-byte title buffer. */
  predicate TitlesBounded(shown: seq<Confirmation>)
  {
    forall i | 0 <= i < |shown| :: |shown[i].title| < TitleBufferSize
  }

  /** The result of an export: its code, the content of response->pub and the confirmations asked for. */
  datatype PubOutcome = PubOutcome(err: CommanderError, pub: string, shown: seq<Confirmation>)

  /**
   `keypath[2]`, the account level of a BIP 44 path. A keypath with fewer
   than three elements reads the decoder's zero-filled array slot.
   */
  function AccountIndex(keypath: seq<U32>): U32
  {
    if |keypath| > 2 then keypath[2] else 0
  }

  /** The display step shared by the xpub and simple exports, given the title built (or refused). */
  function DisplayOutcome(engine: Engine, title: Option<string>, pub: string): PubOutcome
  {
    match title
    case None => PubOutcome(Generic, pub, [])
    case Some(t) => PubOutcome(if engine.userApproves(t, pub) then Ok else UserAbort, pub, [Confirmation(t, pub)])
  }

  /** `_btc_pub_xpub` on an xpub request of type `t`. */
  function XPubOutcome(engine: Engine, request: PubRequest, t: XPubType): (o: PubOutcome)
    ensures o.pub == engine.xpub(request.coin, t, request.keypath).1
    ensures o.err == Ok || o.err == UserAbort || o.err == Generic
    ensures |o.shown| <= 1 && TitlesBounded(o.shown)
    ensures !engine.xpub(request.coin, t, request.keypath).0 ==> o.err == Generic && o.shown == []
    ensures !request.display ==> o.shown == [] && (o.err == Ok <==> engine.xpub(request.coin, t, request.keypath).0)
    ensures o.shown != [] ==>
      && engine.xpub(request.coin, t, request.keypath).0
      && request.display
      && XPubTitle(t, engine.coinName(request.coin), AccountIndex(request.keypath)) == Some(o.shown[0].title)
      && o.shown[0].pub == o.pub
      && (o.err == Ok <==> engine.userApproves(o.shown[0].title, o.pub))
    ensures request.display && XPubTitle(t, engine.coinName(request.coin), AccountIndex(request.keypath)).None? ==>
      o.err == Generic && o.shown == []
    ensures var title := XPubTitle(t, engine.coinName(request.coin), AccountIndex(request.keypath));
      engine.xpub(request.coin, t, request.keypath).0 && request.display && title.Some? ==>
        && o.shown == [Confirmation(title.value, o.pub)]
        && o.err == (if engine.userApproves(title.value, o.pub) then Ok else UserAbort)
  {
    var (derived, pub) := engine.xpub(request.coin, t, request.keypath);
    if !derived then PubOutcome(Generic, pub, [])
    else if !request.display then PubOutcome(Ok, pub, [])
    else DisplayOutcome(engine, XPubTitle(t, engine.coinName(request.coin), AccountIndex(request.keypath)), pub)
  }

  /**
   Two xpub exports of one coin that put the same title before the user were
   made at the same account index: the title cannot pass one account off as another.
   */
  lemma ShownXPubTitleDeterminesAccount(engine: Engine, r1: PubRequest, t1: XPubType, r2: PubRequest, t2: XPubType)
    requires r1.coin == r2.coin
    requires XPubOutcome(engine, r1, t1).shown != [] && XPubOutcome(engine, r2, t2).shown != []
    requires XPubOutcome(engine, r1, t1).shown[0].title == XPubOutcome(engine, r2, t2).shown[0].title
    ensures AccountIndex(r1.keypath) == AccountIndex(r2.keypath)
  {
    var name := engine.coinName(r1.coin);
    XPubTitleDeterminesIndex(t1, t2, name, AccountIndex(r1.keypath), AccountIndex(r2.keypath));
  }

  /** `_btc_pub_address_simple` on a simple script config of type `t`. */
  function SimpleAddressOutcome(engine: Engine, request: PubRequest, t: SimpleType): (o: PubOutcome)
    ensures o.pub == engine.addressSimple(request.coin, t, request.keypath).1
    ensures o.err == Ok || o.err == UserAbort || o.err == Generic
    ensures |o.shown| <= 1 && TitlesBounded(o.shown)
    ensures !engine.addressSimple(request.coin, t, request.keypath).0 ==> o.err == Generic && o.shown == []
    ensures !request.display ==> o.shown == [] && (o.err == Ok <==> engine.addressSimple(request.coin, t, request.keypath).0)
    ensures o.shown != [] ==>
      && engine.addressSimple(request.coin, t, request.keypath).0
      && request.display
      && SimpleTitle(t, engine.coinName(request.coin)) == Some(o.shown[0].title)
      && o.shown[0].pub == o.pub
      && (o.err == Ok <==> engine.userApproves(o.shown[0].title, o.pub))
    ensures request.display && SimpleTitle(t, engine.coinName(request.coin)).None? ==> o.err == Generic && o.shown == []
    ensures var title := SimpleTitle(t, engine.coinName(request.coin));
      engine.addressSimple(request.coin, t, request.keypath).0 && request.display && title.Some? ==>
        && o.shown == [Confirmation(title.value, o.pub)]
        && o.err == (if engine.userApproves(title.value, o.pub) then Ok else UserAbort)
  {
    var (derived, pub) := engine.addressSimple(request.coin, t, request.keypath);
    if !derived then PubOutcome(Generic, pub, [])
    else if !request.display then PubOutcome(Ok, pub, [])
    else DisplayOutcome(engine, SimpleTitle(t, engine.coinName(request.coin)), pub)
  }

  /** `commander_btc_pub`; `pubBefore` is what response->pub held before the call. */
  function PubOutcomeOf(engine: Engine, request: PubRequest, pubBefore: string): (o: PubOutcome)
    ensures o.err == Disabled <==> !engine.enabled(request.coin)
    ensures !engine.enabled(request.coin) ==> o.pub == pubBefore && o.shown == []
    ensures |o.shown| <= 1 && TitlesBounded(o.shown)
    ensures o.shown != [] ==> request.display && (o.err == Ok || o.err == UserAbort)
    ensures engine.enabled(request.coin) && request.output.UnknownOutput? ==>
      o == PubOutcome(InvalidInput, pubBefore, [])
    ensures engine.enabled(request.coin) && request.output.ScriptConfigOutput? && request.output.scriptConfig.UnknownConfig? ==>
      o == PubOutcome(InvalidInput, pubBefore, [])
    ensures engine.enabled(request.coin) && request.output.XPubOutput? ==>
      o == XPubOutcome(engine, request, request.output.xpubType)
    ensures engine.enabled(request.coin) && request.output.ScriptConfigOutput? && request.output.scriptConfig.SimpleConfig? ==>
      o == SimpleAddressOutcome(engine, request, request.output.scriptConfig.simpleType)
    ensures engine.enabled(request.coin) && request.output.ScriptConfigOutput? && request.output.scriptConfig.MultisigConfig? ==>
      var (result, pub) := engine.addressMultisigP2wsh(request.coin, request.output.scriptConfig.multisig, request.keypath, request.display);
      o == PubOutcome(ToCommanderError(result), pub, [])
  {
    if !engine.enabled(request.coin) then PubOutcome(Disabled, pubBefore, [])
    else
      match request.output
      case XPubOutput(t) => XPubOutcome(engine, request, t)
      case ScriptConfigOutput(SimpleConfig(t)) => SimpleAddressOutcome(engine, request, t)
      case ScriptConfigOutput(MultisigConfig(m)) =>
        var (result, pub) := engine.addressMultisigP2wsh(request.coin, m, request.keypath, request.display);
        PubOutcome(ToCommanderError(result), pub, [])
      case ScriptConfigOutput(UnknownConfig(_)) => PubOutcome(InvalidInput, pubBefore, [])
      case UnknownOutput(_) => PubOutcome(InvalidInput, pubBefore, [])
  }

  // ---------------------------------------------------------------------------
  // Signing steps

  /** The result of a signing step: its code, the response and the forced-next state after it. */
  datatype SignOutcome = SignOutcome(err: CommanderError, response: Response, forced: Option<RequestTag>)

  predicate IsSignStep(request: Request)
  {
    request.BtcSignInit? || request.BtcSignInput? || request.BtcSignOutput?
  }

  /** The engine call a signing request makes: its result and the btc_sign_next it leaves. */
  function SignCall(engine: Engine, request: Request): (SignResult, SignNext)
    requires IsSignStep(request)
  {
    match request
    case BtcSignInit(init) => engine.signInit(init)
    case BtcSignInput(input) => engine.signInput(input)
    case BtcSignOutput(output) => engine.signOutput(output)
  }

  /** `commander_btc_sign`, from the forced-next state `forced` and the response `prior` it writes into. */
  function SignOutcomeOf(engine: Engine, forced: Option<RequestTag>, request: Request, prior: Response): (o: SignOutcome)
    ensures o.response.which == BtcSignNextTag
    ensures o.err == Ok || o.err == UserAbort || o.err == Disabled || o.err == Generic
    ensures o.err == Disabled <==> request.BtcSignInit? && !engine.enabled(request.init.coin)
    ensures !IsSignStep(request) ==> o.err == Generic && o.response.btcSignNext == prior.btcSignNext
    ensures o.err == Disabled ==> o.response.btcSignNext == prior.btcSignNext
    ensures IsSignStep(request) && o.err != Disabled ==>
      && o.response.btcSignNext == SignCall(engine, request).1
      && (o.err == Ok <==> SignCall(engine, request).0 == SignOk)
      && (o.err == UserAbort <==> SignCall(engine, request).0 == SignUserAbort)
    ensures request.BtcSignInput? || request.BtcSignOutput? ==> o.err != Disabled
    ensures o.err != Ok ==> o.forced == forced
    ensures o.err == Ok && o.response.btcSignNext.nextType == NextInput ==> o.forced == Some(BtcSignInputTag)
    ensures o.err == Ok && o.response.btcSignNext.nextType == NextOutput ==> o.forced == Some(BtcSignOutputTag)
    ensures o.err == Ok && o.response.btcSignNext.nextType.NextOther? ==> o.forced == forced
  {
    var response := prior.(which := BtcSignNextTag);
    if !IsSignStep(request) then SignOutcome(Generic, response, forced)
    else if request.BtcSignInit? && !engine.enabled(request.init.coin) then SignOutcome(Disabled, response, forced)
    else
      var (result, next) := SignCall(engine, request);
      var response := response.(btcSignNext := next);
      match result
      case SignUserAbort => SignOutcome(UserAbort, response, forced)
      case SignOtherError(_) => SignOutcome(Generic, response, forced)
      case SignOk =>
        match next.nextType
        case NextInput => SignOutcome(Ok, response, Some(BtcSignInputTag))
        case NextOutput => SignOutcome(Ok, response, Some(BtcSignOutputTag))
        case NextOther(_) => SignOutcome(Ok, response, forced)
  }

  // ---------------------------------------------------------------------------
  // The command layer's state

  /**
   The state the Bitcoin command layer touches across calls: the request
   variant it last forced to come next (held by commander_states), and the
   log of confirmations it asked the user for.
   */
  class BtcCommander {
    var forcedNext: Option<RequestTag>
    var confirmations: seq<Confirmation>

    /** No title shown to the user was ever truncated: each fit the title buffer. */
    ghost predicate Valid()
      reads this
    {
      TitlesBounded(confirmations)
    }

    constructor ()
      ensures Valid() && forcedNext == None && confirmations == []
    {
      forcedNext := None;
      confirmations := [];
    }

    /** `workflow_verify_pub`: shows `title` and `pub` and returns the user's choice. */
    method VerifyPub(engine: Engine, title: string, pub: string) returns (approved: bool)
      requires Valid() && |title| < TitleBufferSize
      modifies this`confirmations
      ensures Valid()
      ensures confirmations == old(confirmations) + [Confirmation(title, pub)]
      ensures approved == engine.userApproves(title, pub)
    {
      confirmations := confirmations + [Confirmation(title, pub)];
      approved := engine.userApproves(title, pub);
    }

    /** `_btc_pub_xpub`. */
    method PubXPub(engine: Engine, request: PubRequest) returns (err: CommanderError, pub: string)
      requires Valid() && request.output.XPubOutput?
      modifies this`confirmations
      ensures Valid()
      ensures var o := XPubOutcome(engine, request, request.output.xpubType);
        err == o.err && pub == o.pub && confirmations == old(confirmations) + o.shown
    {
      var answer := engine.xpub(request.coin, request.output.xpubType, request.keypath);
      var derived := answer.0;
      pub := answer.1;
      if !derived {
        return Generic, pub;
      }
      if request.display {
        var title: string;
        match request.output.xpubType {
          case Tpub | Xpub | Ypub | Zpub | Vpub | Upub | CapitalVpub | CapitalZpub =>
            title := engine.coinName(request.coin) + AccountLabel
                     + Decimal(AccountNumber(AccountIndex(request.keypath)));
            if |title| >= TitleBufferSize {
              // Formatting would truncate the title: it is not shown at all.
              return Generic, pub;
            }
          case OtherXPubType(_) =>
            return Generic, pub;
        }
        var approved := VerifyPub(engine, title, pub);
        if !approved {
          return UserAbort, pub;
        }
      }
      return Ok, pub;
    }

    /** `_btc_pub_address_simple`. */
    method PubAddressSimple(engine: Engine, request: PubRequest) returns (err: CommanderError, pub: string)
      requires Valid() && request.output.ScriptConfigOutput? && request.output.scriptConfig.SimpleConfig?
      modifies this`confirmations
      ensures Valid()
      ensures var o := SimpleAddressOutcome(engine, request, request.output.scriptConfig.simpleType);
        err == o.err && pub == o.pub && confirmations == old(confirmations) + o.shown
    {
      var simpleType := request.output.scriptConfig.simpleType;
      var answer := engine.addressSimple(request.coin, simpleType, request.keypath);
      var derived := answer.0;
      pub := answer.1;
      if !derived {
        return Generic, pub;
      }
      if request.display {
        var coin := engine.coinName(request.coin);
        var title: string;
        match simpleType {
          case P2wpkhP2sh =>
            title := coin;
          case P2wpkh =>
            title := coin + Bech32Suffix;
          case OtherSimpleType(_) =>
            return Generic, pub;
        }
        if |title| >= TitleBufferSize {
          // Formatting would truncate the title: it is not shown at all.
          return Generic, pub;
        }
        var approved := VerifyPub(engine, title, pub);
        if !approved {
          return UserAbort, pub;
        }
      }
      return Ok, pub;
    }

    /**
     `_btc_pub_address_multisig`: the engine derives and, when asked, confirms
     in one call; this layer passes `display` through and translates the code.
     */
    method PubAddressMultisig(engine: Engine, request: PubRequest) returns (err: CommanderError, pub: string)
      requires request.output.ScriptConfigOutput? && request.output.scriptConfig.MultisigConfig?
      ensures var (result, written) := engine.addressMultisigP2wsh(
          request.coin, request.output.scriptConfig.multisig, request.keypath, request.display);
        err == ToCommanderError(result) && pub == written
    {
      var answer := engine.addressMultisigP2wsh(
        request.coin, request.output.scriptConfig.multisig, request.keypath, request.display);
      err, pub := ToCommanderError(answer.0), answer.1;
    }

    /** `commander_btc_pub`; `pubBefore` is what response->pub held before the call. */
    method Pub(engine: Engine, request: PubRequest, pubBefore: string) returns (err: CommanderError, pub: string)
      requires Valid()
      modifies this`confirmations
      ensures Valid()
      ensures var o := PubOutcomeOf(engine, request, pubBefore);
        err == o.err && pub == o.pub && confirmations == old(confirmations) + o.shown
    {
      pub := pubBefore;
      if !engine.enabled(request.coin) {
        return Disabled, pub;
      }
      match request.output {
        case XPubOutput(_) =>
          err, pub := PubXPub(engine, request);
        case ScriptConfigOutput(config) =>
          match config {
            case SimpleConfig(_) =>
              err, pub := PubAddressSimple(engine, request);
            case MultisigConfig(_) =>
              err, pub := PubAddressMultisig(engine, request);
            case UnknownConfig(_) =>
              err := InvalidInput;
          }
        case UnknownOutput(_) =>
          err := InvalidInput;
      }
    }

    /**
     `commander_btc_sign`: one step of a signing session. It is the only
     member that writes `forcedNext`, and only after a successful step.
     */
    method Sign(engine: Engine, request: Request, prior: Response) returns (err: CommanderError, response: Response)
      modifies this`forcedNext
      ensures var o := SignOutcomeOf(engine, old(forcedNext), request, prior);
        err == o.err && response == o.response && forcedNext == o.forced
    {
      response := prior.(which := BtcSignNextTag);
      var answer: (SignResult, SignNext);
      match request {
        case BtcSignInit(init) =>
          if !engine.enabled(init.coin) {
            return Disabled, response;
          }
          answer := engine.signInit(init);
        case BtcSignInput(input) =>
          answer := engine.signInput(input);
        case BtcSignOutput(output) =>
          answer := engine.signOutput(output);
        case OtherRequest(_) =>
          return Generic, response;
      }
      var (result, next) := answer;
      response := response.(btcSignNext := next);
      if result == SignUserAbort {
        return UserAbort, response;
      }
      if result != SignOk {
        return Generic, response;
      }
      match next.nextType {
        case NextInput =>
          forcedNext := Some(BtcSignInputTag);    // commander_states_force_next
        case NextOutput =>
          forcedNext := Some(BtcSignOutputTag);   // commander_states_force_next
        case NextOther(_) =>
      }
      return Ok, response;
    }
  }

  // ---------------------------------------------------------------------------
  // Script-config requests

  /** `_api_is_script_config_registered`: a failed lookup is GENERIC, "not registered" is OK with false. */
  method IsScriptConfigRegisteredHandler(engine: Engine, registration: Registration) returns (err: CommanderError, isRegistered: bool)
    ensures var (found, written) := engine.isScriptConfigRegistered(
        registration.coin, registration.scriptConfig, registration.keypath);
      && (err == Ok <==> found)
      && (err == Ok || err == Generic)
      && isRegistered == written
  {
    var answer := engine.isScriptConfigRegistered(registration.coin, registration.scriptConfig, registration.keypath);
    isRegistered := answer.1;
    if !answer.0 {
      return Generic, isRegistered;
    }
    return Ok, isRegistered;
  }

  /** `_api_register_script_config`: the engine's registration result, translated. */
  method RegisterScriptConfigHandler(engine: Engine, registration: Registration, name: string) returns (err: CommanderError)
    ensures err == ToCommanderError(engine.registerScriptConfig(
      registration.coin, registration.scriptConfig, registration.keypath, name))
  {
    var result := engine.registerScriptConfig(registration.coin, registration.scriptConfig, registration.keypath, name);
    err := ToCommanderError(result);
  }

  /** `commander_btc`; `prior` is the response structure before the call. */
  method Btc(engine: Engine, request: BtcRequest, prior: BtcResponse) returns (err: CommanderError, response: BtcResponse)
    ensures err != Disabled
    ensures request.IsScriptConfigRegistered? ==>
      var reg := request.registration;
      var (found, written) := engine.isScriptConfigRegistered(reg.coin, reg.scriptConfig, reg.keypath);
      && response == BtcResponse(IsScriptConfigRegisteredTag, written)
      && (err == Ok <==> found)
      && (err == Ok || err == Generic)
    ensures request.RegisterScriptConfig? ==>
      var reg := request.registration;
      && response == prior.(which := SuccessTag)
      && err == ToCommanderError(engine.registerScriptConfig(reg.coin, reg.scriptConfig, reg.keypath, request.name))
    ensures request.OtherBtcRequest? ==> err == Generic && response == prior
  {
    response := prior;
    match request {
      case IsScriptConfigRegistered(registration) =>
        response := response.(which := IsScriptConfigRegisteredTag);
        var isRegistered: bool;
        err, isRegistered := IsScriptConfigRegisteredHandler(engine, registration);
        response := response.(isRegistered := isRegistered);
      case RegisterScriptConfig(registration, name) =>
        response := response.(which := SuccessTag);
        err := RegisterScriptConfigHandler(engine, registration, name);
      case OtherBtcRequest(_) =>
        err := Generic;
    }
  }
}
