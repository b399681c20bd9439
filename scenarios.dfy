/**
 Two sessions driven through BtcCommander, proved from the members'
 contracts alone: an xpub export confirmed by the user, and a signing
 session of two inputs and one output.
 */
module Scenarios {
  import opened BtcTypes
  import opened Titles
  import opened CommanderBtc

  /** A Bitcoin-only engine whose user approves everything and whose signer answers with `next`. */
  function SampleEngine(next: SignInputRequest -> NextType): Engine
  {
    Engine(
      c => c == Coin(0),
      c => "Bitcoin",
      (c, t, k) => (true, "zpub-exported"),
      (c, t, k) => (true, "bc1-address"),
      (c, m, k, display) => (AppOk, "bc1-multisig"),
      init => (SignOk, SignNext(NextInput, [])),
      input => (SignOk, SignNext(next(input), [])),
      output => (SignOk, SignNext(NextOther(2), [])),
      (c, config, k) => (true, false),
      (c, config, k, name) => AppOk,
      (title, pub) => true)
  }

  const Hardened84: U32 := 0x8000_0054

  /** A zpub at m/84'/0'/0' with display: the user sees "Bitcoin\naccount #1". */
  method ExportScenario()
  {
    var engine := SampleEngine((input: SignInputRequest) => NextInput);
    var commander := new BtcCommander();
    var request := PubRequest(Coin(0), [Hardened84, HardenedOffset, HardenedOffset], true, XPubOutput(Zpub));
    assert AccountNumber(HardenedOffset) == 1;
    assert Decimal(1) == "1";
    assert "Bitcoin" + AccountLabel + "1" == "Bitcoin\naccount #1";
    assert XPubTitle(Zpub, "Bitcoin", HardenedOffset) == Some("Bitcoin\naccount #1");
    var err, pub := commander.Pub(engine, request, "");
    assert err == Ok && pub == "zpub-exported";
    assert commander.confirmations == [Confirmation("Bitcoin\naccount #1", "zpub-exported")];

    // Bitcoin testnet is not enabled in this engine: nothing is derived or shown.
    err, pub := commander.Pub(engine, request.(coin := Coin(1)), "before");
    assert err == Disabled && pub == "before";
    assert |commander.confirmations| == 1;
  }

  /** sign_init, two inputs and one output: each success forces the variant the engine announces. */
  method SignSessionScenario()
  {
    var engine := SampleEngine((input: SignInputRequest) => if input.rest == [1] then NextInput else NextOutput);
    var commander := new BtcCommander();
    var response := Response(OtherResponseTag(0), SignNext(NextOther(0), []));

    var err;
    err, response := commander.Sign(engine, BtcSignInit(SignInitRequest(Coin(0), [])), response);
    assert err == Ok && commander.forcedNext == Some(BtcSignInputTag);
    err, response := commander.Sign(engine, BtcSignInput(SignInputRequest([1])), response);
    assert err == Ok && commander.forcedNext == Some(BtcSignInputTag);
    err, response := commander.Sign(engine, BtcSignInput(SignInputRequest([2])), response);
    assert err == Ok && commander.forcedNext == Some(BtcSignOutputTag);
    err, response := commander.Sign(engine, BtcSignOutput(SignOutputRequest([])), response);
    assert err == Ok && response.btcSignNext.nextType == NextOther(2);
    // The final step forces nothing new.
    assert commander.forcedNext == Some(BtcSignOutputTag);

    // A disabled coin fails sign_init before the engine is asked, and leaves the state alone.
    err, response := commander.Sign(engine, BtcSignInit(SignInitRequest(Coin(1), [])), response);
    assert err == Disabled && commander.forcedNext == Some(BtcSignOutputTag);
    assert response.which == BtcSignNextTag && response.btcSignNext.nextType == NextOther(2);
  }
}
