# Bitcoin command layer of the BitBox02 firmware, in Dafny

This project models `src/commander/commander_btc.c`. That file is the layer
between the decoded host requests and the Bitcoin engine. It:

- picks the handler for a public-key export, a signing step or a
  script-config request;
- turns the engine's result codes into the commander's error codes;
- builds the confirmation titles of xpub and simple-address exports. A title
  that does not fit the 100-byte buffer is refused, never truncated;
- records, after each successful signing step, which request variant must
  come next.

Files:

- `btc_types.dfy` (module `BtcTypes`): the request and response structures,
  with only the tags and fields this layer reads or writes. Also the engine
  result codes and the commander's error codes.
- `titles.dfy` (module `Titles`): the pure part of the titles. This covers the
  `%lu` rendering (`Decimal`, with its reading `ParseDecimal`) and the account
  number `keypath[2] - 0x80000000 + 1` in 32-bit `unsigned long`. The hardened
  offset 0x80000000 comes from BIP 32, section "Extended keys", and index 2 is
  the account level of BIP 44. It also covers the bounded xpub and
  simple-address titles.
- `commander_btc.dfy` (module `CommanderBtc`): error translation, a
  specification function per handler, and the class `BtcCommander`. The class
  holds the forced-next state and the log of confirmation calls. Its methods
  follow the C handlers statement by statement and are proved equal to those
  functions. The script-config handlers are methods outside the class, because
  they touch neither field.
- `scenarios.dfy` (module `Scenarios`): two sessions proved from the
  contracts alone. One is an xpub export at m/84'/0'/0' whose title is
  "Bitcoin\naccount #1". The other is a signing session with two inputs and
  one output.

Every call into code outside this file is one field of the datatype `Engine`,
given to each handler as a parameter. These calls are `app_btc_enabled`,
`btc_common_coin_name`, `app_btc_xpub`, `app_btc_address_simple`,
`app_btc_address_multisig_p2wsh`, `app_btc_sign_init/input/output`,
`app_btc_is_script_config_registered`, `app_btc_register_script_config`, and
the user's choice in `workflow_verify_pub`. A handler asks each of them at most
once. So a function of the call's arguments stands for the engine's answer
during that call. An engine that writes into a caller buffer
(`response->pub`, `btc_sign_next`, `is_registered`) answers with its flag or
code together with what it left in the buffer.

`workflow_verify_pub` is `BtcCommander.VerifyPub`. It appends the title and
value to `confirmations` and returns the user's choice. Because of this log, a
contract can say that no confirmation happened on a path. The class invariant
`Valid()` says that every logged title is shorter than the 100-byte buffer,
and every export method keeps it.

Three behaviours of the code worth noting:

- A title that would overflow its buffer gives GENERIC, not INVALID_INPUT.
- An unknown variant gives GENERIC in `commander_btc` and
  `commander_btc_sign`. It gives INVALID_INPUT only in `commander_btc_pub`.
- This file only records the forced next variant. It neither rejects
  out-of-order requests nor resets the signing state to idle.

## Model

| member | source | states |
|---|---|---|
| CommanderBtc.ToCommanderError | src/commander/commander_btc.c:27-41 | OK, USER_ABORT, INVALID_INPUT and DUPLICATE map to the matching commander codes, one to one (`AppResultOf` recovers the engine code); every other engine code gives GENERIC; DISABLED is never produced |
| CommanderBtc.AppResultOfInverse | src/commander/commander_btc.c:27-41 | each commander code other than DISABLED and GENERIC comes from exactly the engine code `AppResultOf` names |
| CommanderBtc.ToCommanderErrorInjective | src/commander/commander_btc.c:27-41 | two engine codes that do not become GENERIC stay distinct after translation |
| Titles.Decimal | src/commander/commander_btc.c:69-71 | the `%lu` text is a non-empty string of decimal digits without a leading zero, one digit exactly for numbers below ten |
| Titles.DecimalRoundTrip | src/commander/commander_btc.c:69-71 | reading the printed digits back gives the number printed |
| Titles.DecimalLength | src/commander/commander_btc.c:69-71 | a number below 10^k prints in at most k digits |
| Titles.U32DecimalLength | src/commander/commander_btc.c:71 | a 32-bit account number prints in at most ten digits |
| Titles.AccountNumber | src/commander/commander_btc.c:71 | for a hardened index the account is index − 0x80000000 + 1, in 1..2^31; the result is in 1..2^31 exactly when the index is hardened; the 32-bit wrap is undone by `AccountIndexOf` |
| Titles.AccountNumberInjective | src/commander/commander_btc.c:71 | distinct keypath indices give distinct account numbers |
| Titles.XPubTitle | src/commander/commander_btc.c:55-83 | a title exists only for the eight listed xpub types; it is exactly coin name + "\naccount #" + decimal account number, shorter than 100 characters, and its digits read back as the account number; it exists exactly when the formatted text is shorter than 100 characters, so always for coin names under 80 characters and never for names of 89 or more |
| Titles.XPubTitleDeterminesIndex | src/commander/commander_btc.c:66-79 | under one coin name, equal xpub titles come from equal keypath indices, so no title is ambiguous |
| Titles.SimpleTitle | src/commander/commander_btc.c:104-125 | P2WPKH-P2SH gets the coin name and P2WPKH the coin name + " bech32", each only if shorter than 100 characters; any other simple type gets no title |
| Titles.SimpleTitlesDistinct | src/commander/commander_btc.c:108-114 | under one coin name the two simple types never show the same title |
| CommanderBtc.XPubOutcome | src/commander/commander_btc.c:43-89 | a failed derivation gives GENERIC and shows nothing; without display a derived xpub gives OK and shows nothing; with display and no fitting title it gives GENERIC and shows nothing; when derived with display requested and the title fits, it shows exactly the `XPubTitle` title with the derived xpub once, giving OK if the user approves and USER_ABORT if not |
| CommanderBtc.ShownXPubTitleDeterminesAccount | src/commander/commander_btc.c:54-86 | two xpub exports of one coin that show the same title were made at the same account index |
| CommanderBtc.SimpleAddressOutcome | src/commander/commander_btc.c:91-131 | a failed derivation gives GENERIC and shows nothing; without display a derived address gives OK and shows nothing; with display and no `SimpleTitle` title it gives GENERIC and shows nothing; when derived with display requested and the title fits, it shows exactly that title with the address once, giving OK if the user approves and USER_ABORT if not |
| CommanderBtc.PubOutcomeOf | src/commander/commander_btc.c:149-169 | DISABLED exactly when the coin is not enabled, with nothing derived or shown; an unknown output or config tag gives INVALID_INPUT with nothing shown; otherwise the xpub, simple or multisig handler's outcome; at most one confirmation, always with a bounded title, and only when display was requested |
| CommanderBtc.SignOutcomeOf | src/commander/commander_btc.c:171-211 | the response tag is btc_sign_next on every path; DISABLED exactly for a sign_init of a disabled coin; an unknown variant gives GENERIC without any engine call; engine USER_ABORT gives USER_ABORT and any other failure GENERIC; every failure leaves the forced-next state alone; after a success, INPUT forces sign_input, OUTPUT forces sign_output and any other next type forces nothing |
| CommanderBtc.BtcCommander.constructor | src/commander/commander_btc.c:171-211 | a fresh layer has forced nothing and shown nothing |
| CommanderBtc.BtcCommander.VerifyPub | src/commander/commander_btc.c:84-86 | each confirmation call is appended to the log and returns the user's choice; only a title that fits the buffer may be logged, so the log stays bounded |
| CommanderBtc.BtcCommander.PubXPub | src/commander/commander_btc.c:43-89 | returns and shows exactly what `XPubOutcome` says, and keeps every shown title bounded |
| CommanderBtc.BtcCommander.PubAddressSimple | src/commander/commander_btc.c:91-131 | returns and shows exactly what `SimpleAddressOutcome` says, and keeps every shown title bounded |
| CommanderBtc.BtcCommander.PubAddressMultisig | src/commander/commander_btc.c:133-147 | passes the caller's `display` flag to the engine unchanged and returns exactly the translation of its code; shows nothing through this layer |
| CommanderBtc.BtcCommander.Pub | src/commander/commander_btc.c:149-169 | returns and shows exactly what `PubOutcomeOf` says; it cannot change the forced-next state |
| CommanderBtc.BtcCommander.Sign | src/commander/commander_btc.c:171-211 | returns the code and response `SignOutcomeOf` gives and leaves the forced-next state it gives; it is the only writer of that state |
| CommanderBtc.IsScriptConfigRegisteredHandler | src/commander/commander_btc.c:213-227 | a failed lookup gives GENERIC; otherwise OK, with the engine's boolean as the answer |
| CommanderBtc.RegisterScriptConfigHandler | src/commander/commander_btc.c:229-238 | exactly the translation of the registration result |
| CommanderBtc.Btc | src/commander/commander_btc.c:240-255 | a registration query sets the response tag to is_script_config_registered and answers as the lookup does; a registration sets the tag to success and returns the translated result; any other variant gives GENERIC and leaves the response alone; DISABLED never occurs |

## Left out

- `src/rust/bitbox02-sys/wrapper.h` holds only includes and delay prototypes for the Rust bindings. It has no logic to model.
- Key derivation, address encoding and signing are not modelled. The model also leaves out the script-config store, the coin-name table and the confirmation screen. All of these live outside this file and appear only as `Engine` answers. So the registration round trip, and the engine's own check that a multisig config is registered, are not claims of this model.
- Enforcing the forced-next order and resetting the signing state to idle both belong to `commander_states`. That module is not part of this model. `forcedNext` holds the last variant this file forced. Whether the next request honours it is not modelled.
- Protobuf encoding is not modelled. Fields this layer passes to the engine without reading them are kept as opaque payloads.
- `snprintf` is modelled as string concatenation and a length check. Its negative-return error cannot arise there, so it falls under the same GENERIC outcome as a title that is too long. Characters stand for bytes, since the coin names are ASCII.
- `AccountIndex` reads a keypath shorter than three elements as index 0, the zero that decoding leaves in the unused array slot.
- `SignOutcomeOf`: the engine's answer does not depend on what `btc_sign_next` held before the call. A partial write by the engine is therefore not modelled.
- The user's confirmation has no timeout. A timeout is the confirmation screen's business and reaches this layer as a rejection.
