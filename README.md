# Pairing core of the Fission auth lobby, in Dafny

This project models the pairing logic inside the lobby's browser script
`src/Javascript/Main.js`. That logic has four parts:

- **Root-DID resolution** (`rootDid`). The DID is held in a write-once slot, `rootDidCache`. When the slot is empty, the DID comes from the first source that applies: the DNS TXT record `_did.<username>.fissionuser.net`, then the issuer of a UCAN stored in localStorage, then the device's own DID.
- **The secure channel** (`openSecureChannel`, `secureChannelMessage`, `gotSecureChannelMessage`). The lobby subscribes to the root DID as a pub/sub topic and, when it is given a username, starts a `PING` heartbeat every 500 ms. Every received frame is then classified:
  - our own echo is ignored;
  - `PING` is answered with `PONG`;
  - `PONG` clears the heartbeat in `pingInterval` and sends `secureChannelOpened`;
  - anything else is parsed as JSON, and if that fails it is decrypted with the topic DID as the passphrase and parsed again. The result goes to `gotSecureChannelMessage`, with `from` and `timestamp` added.

  Each `openSecureChannel` subscribes a new handler, and IPFS runs every handler subscribed to a frame's topic. A topic opened `n` times therefore handles each frame `n` times.
- **Placeholder expansion** (`prepareData`). A `did` key or a `signature` key that is present is a placeholder, whatever its value, `null` included. `did` becomes the device DID. `signature` becomes the signature of the input with `signature` removed.
- **The encrypted envelope** (`encrypt`, `decrypt`, `arrayBufferToBase64`, `base64ToArrayBuffer`). The envelope is `base64(iv) + base64(ciphertext)` with no separator, split at character 16. Base64 is written out concretely:
  - `btoa` is the encoding of section 4 of RFC 4648;
  - `atob` is the WHATWG "forgiving-base64 decode": it strips whitespace, allows missing padding, and ignores leftover bits.

Modules:

- `Wrappers`: `Option`.
- `Base64`: the base64 helpers.
- `Json`: JavaScript values, object spread, and the message augmentation.
- `Envelope`: `encrypt` and `decrypt`.
- `Payload`: `prepareData`.
- `Resolver`: one `rootDid` step, and successive calls.
- `Channel`: the reaction to one frame.
- `Lobby`: class `Lobby`. It holds the script's globals and the effects on the IPFS node and the Elm ports:
  - `rootDidCache`;
  - `pingInterval`;
  - the live `setInterval` timers;
  - the subscriptions;
  - the published frames;
  - the port events.

The collaborators are fields of type function: DNS lookup, `ucanRootIssuer`, device DID, `JSON.parse`/`JSON.stringify`, keystore `sign`, PBKDF2, AES-GCM and UTF-8.

Where the code and its documented intent differ, the model follows the code:

- **A PONG always opens.** Every `PONG` from another peer clears `pingInterval` and sends `secureChannelOpened`. It makes no check that a heartbeat was running and does not guard against a repeat (lines 199-201).
- **`pingInterval` keeps its handle.** `clearInterval` does not reset it, so a later `PONG` clears the same handle again.
- **A second open leaks the first heartbeat.** A second `openSecureChannel` with a username overwrites `pingInterval` without clearing the earlier timer, and that timer keeps pinging (see `Lobby.OverlappingHeartbeats`).
- **A second open doubles every reaction.** The second `openSecureChannel` registers a second handler on the same topic. Each later frame is handled twice: a `PING` gets two `PONG`s, and a `PONG` sends `secureChannelOpened` twice.
- **`secureChannelTimeout` is never sent.** The doc comment of `openSecureChannel` names this port (lines 163-164), but no code sends it.
- **A lookup result is stored even when empty.** A DNS lookup that finds no record leaves the slot without a DID, and the call returns none. No resolution error is raised.

## Model

| member | source | states |
|---|---|---|
| `Base64.Encode` | src/Javascript/Main.js:344-351 | the encoding of `n` bytes has `4*ceil(n/3)` characters, with no `=` when `n` is a multiple of 3 |
| `Base64.Btoa` | src/Javascript/Main.js:345-350 | `btoa` succeeds exactly on binary strings, where every code unit is below 256 |
| `Base64.ArrayBufferToBase64` | src/Javascript/Main.js:344-351 | `arrayBufferToBase64` never throws and yields the section 4 RFC 4648 encoding of the bytes |
| `Base64.Atob` | src/Javascript/Main.js:361 | whatever `atob` returns is a binary string, so `charCodeAt` gives bytes |
| `Base64.AtobOfEncode` | src/Javascript/Main.js:345-363 | `atob` inverts `btoa` on the binary string of any byte sequence, padding included |
| `Base64.RoundTrip` | src/Javascript/Main.js:344-365 | `base64ToArrayBuffer(arrayBufferToBase64(b)) == b` for every byte sequence `b` |
| `Base64.AtobRejectsForeign` | src/Javascript/Main.js:359-365 | `atob`, and so `base64ToArrayBuffer`, throws on any text holding a character that is not base64, ASCII whitespace or `=` |
| `Base64.IvEncoding` | src/Javascript/Main.js:270-282 | a 12-byte IV encodes to exactly 16 characters, none of them `=` |
| `Envelope.Split` | src/Javascript/Main.js:291-292 | `substring(0,16)` and `substring(16)` partition the envelope; the first part has 16 characters, or all of a shorter envelope |
| `Envelope.SplitJoin` | src/Javascript/Main.js:282-292 | splitting `a + b` at 16 gives back `a` and `b` when `a` has 16 characters |
| `Envelope.EnvelopeFormat` | src/Javascript/Main.js:269-295 | every envelope has at least 16 characters, and its first 16 decode to exactly the 12-byte IV |
| `Envelope.DecryptEncrypt` | src/Javascript/Main.js:269-312 | `decrypt(encrypt(s, p), p) == s`, given that AES-GCM opens what it sealed under the derived key and UTF-8 decoding inverts encoding |
| `Envelope.DecryptRejectsMalformed` | src/Javascript/Main.js:288-295 | an envelope holding, in either segment, a character that is not base64, ASCII whitespace or `=` fails to decrypt and never yields a plaintext |
| `Json.IndexedFieldsKeys` | src/Javascript/Main.js:221 | spreading a string or an array gives exactly the keys `"0"` .. `"n-1"` |
| `Json.SpreadArray` | src/Javascript/Main.js:221 | the spread of an array maps each index key to the element at that index |
| `Json.IndexKeyInjective` | src/Javascript/Main.js:221 | distinct indices have distinct decimal keys, so spreading loses no element |
| `Json.Augment` | src/Javascript/Main.js:220-224 | the port message has the parsed keys plus `from` and `timestamp`, which override same-named fields; every other field is unchanged |
| `Payload.PayloadToSign` | src/Javascript/Main.js:247-255 | the signed payload is the input with only `signature` removed |
| `Payload.Prepare` | src/Javascript/Main.js:244-265 | output has `did` iff the input has it, set to the device DID; output has `signature` iff the input has it, set to the signature of the input minus `signature`; every other field is unchanged and no field is added |
| `Payload.SignedPayloadKeepsPlaceholder` | src/Javascript/Main.js:248-261 | the signed payload carries the caller's original `did` placeholder, not the device DID |
| `Payload.SignaturePlaceholderExample` | src/Javascript/Main.js:244-265 | `{a: 1, signature: null}` becomes `{a: 1, signature: sign({a: 1})}` with no `did` |
| `Resolver.CachedValueWins` | src/Javascript/Main.js:88-98 | a truthy cached DID is returned whatever the argument, and no source is consulted |
| `Resolver.EmptyCachePrecedence` | src/Javascript/Main.js:90-96 | with an empty slot exactly one source is consulted: the username's DNS TXT record, else the stored UCAN's issuer, else the device DID; the slot takes its value |
| `Resolver.StaleForever` | src/Javascript/Main.js:73-98 | after the slot is filled, any sequence of calls returns the cached DID each time, consults no source and leaves the slot as it is |
| `Resolver.FirstFillFixesRootDid` | src/Javascript/Main.js:85-98 | the first call that fills the slot fixes the DID every later call returns (alice's DID for a later "bob"), with at most one lookup in all |
| `Channel.SelfEchoIgnored` | src/Javascript/Main.js:193-194 | a frame from the local peer id is ignored for any content, `PING` and `PONG` included |
| `Channel.PingAnswered` | src/Javascript/Main.js:196-197 | another peer's `PING` is answered with exactly one `PONG` |
| `Channel.PongOpens` | src/Javascript/Main.js:199-201 | every `PONG` from another peer opens the channel, with no check of heartbeat state |
| `Channel.PlainPayloadDelivered` | src/Javascript/Main.js:203-205 | a payload that parses as JSON is delivered without decryption: its spread fields, then `from` and `timestamp` overriding |
| `Channel.UndecodableDropped` | src/Javascript/Main.js:203-211 | a payload that is neither JSON nor an envelope that decrypts under the topic DID to JSON is dropped |
| `Channel.EncryptedPayloadDelivered` | src/Javascript/Main.js:203-211 | a JSON text encrypted with the topic DID is delivered decrypted, provided the envelope itself does not parse as JSON |
| `Lobby.Lobby.constructor` | src/Javascript/Main.js:73-156 | the script starts with an empty DID slot, no heartbeat, no subscription and nothing published or sent |
| `Lobby.Lobby.RootDid` | src/Javascript/Main.js:85-99 | the slot and the consulted sources follow one resolution step; the result is the slot; a truthy slot is returned unchanged without a lookup |
| `Lobby.Lobby.OpenSecureChannel` | src/Javascript/Main.js:166-181 | subscribes on the resolved DID; with a truthy username it adds a new timer on that topic and stores its handle in `pingInterval`, and earlier timers stay live; nothing is published or sent |
| `Lobby.Lobby.HeartbeatTick` | src/Javascript/Main.js:176-179 | a live heartbeat tick appends exactly one `PING` on its own topic |
| `Lobby.Lobby.SecureChannelMessage` | src/Javascript/Main.js:184-225 | publishes, sends and clears exactly what the frame's reaction calls for; a self frame changes nothing; after a `PONG` the `pingInterval` timer is not live |
| `Lobby.Lobby.Apply` | src/Javascript/Main.js:193-211 | one handler's reaction publishes its reply on the topic, sends its port event, and on `PONG` clears the `pingInterval` timer; nothing else changes |
| `Lobby.Lobby.FrameArrives` | src/Javascript/Main.js:170-214 | a frame on a topic runs every handler subscribed to it: with `n` subscriptions, the reaction's replies and port events are repeated `n` times, and the heartbeat is cleared when `n > 0` and the reaction opens the channel |
| `Lobby.Lobby.Dispatch` | src/Javascript/Main.js:170-173 | running the handlers one by one in subscription order adds `n` copies of one handler's effects, `n` being how often the topic was subscribed |
| `Lobby.HandlersZero` | src/Javascript/Main.js:170-173 | a frame reaches some handler exactly when its topic was subscribed to |
| `Lobby.Lobby.PublishOnSecureChannel` | src/Javascript/Main.js:228-233 | publishes the prepared JSON on the root DID that `rootDid(maybeUsername)` resolves |
| `Lobby.Lobby.PublishEncryptedOnSecureChannel` | src/Javascript/Main.js:236-241 | publishes the envelope of the prepared JSON under the caller's passphrase on the resolved root DID |
| `Lobby.PlainHandshake` | src/Javascript/Main.js:166-201 | opening once with a username subscribes one handler and starts one heartbeat; a tick publishes `PING`; another peer's `PONG` then sends `secureChannelOpened` once and leaves no timer live |
| `Lobby.OverlappingHeartbeats` | src/Javascript/Main.js:166-201 | opening twice with a username subscribes two handlers on the topic; one `PONG` then reaches both, so `secureChannelOpened` is sent twice; only the second heartbeat is cleared, and the first one stays live and pinging |

## Left out

- Elm boot and port wiring, and IPFS boot and swarm configuration (lines 19-66). These are runtime plumbing.
- Username availability, account creation and the `usedUsername` localStorage write (lines 105-133). These are network and SDK calls with only a branch on their result.
- UCAN issuance in `linkApp` (lines 139-149). It is a foreign SDK call, and it refers to an undefined `core`.
- AES-GCM and PBKDF2 (SHA-512, salt `fission`, 10000 iterations, 256-bit key, 128-bit tag) are collaborator functions. The model keeps these constants. The crypto round trip is a hypothesis of `Envelope.DecryptEncrypt`, not a theorem.
- Wrong-key rejection (decrypting under another passphrase always fails) is a property of AES-GCM that the model cannot state about an abstract function.
- `crypto.getRandomValues` is replaced by an IV parameter of exactly 12 bytes.
- `Date.now()` is replaced by the parameter `now`. On the decryption path the script reads the clock after decrypting; the model takes one reading per frame, shared by all the handlers that frame reaches.
- The `setInterval` timing is left out: each 500 ms tick is a call of `HeartbeatTick`.
- `TextEncoder`/`TextDecoder` are collaborator functions. Received frames are taken as already-decoded text, so the `arrayBufferToString` of the frame data is not modelled.
- `console.log` calls are left out.
- Asynchrony is left out. Each handler runs to completion, and a rejected promise (failed decryption, `atob` throwing, unparseable plaintext) is a dropped frame.
- A rejected DNS lookup and a lookup with no record are both modelled as no DID. `openSecureChannel` and the publish operations stop there; what IPFS does with a null topic is not part of this model.
- `ucanRootIssuer` is taken to be total on a stored token.
- The `ucan` localStorage item is fixed for the session, since nothing in the script writes it.
- `JSON.stringify` is a collaborator, so key order in the serialised text is not modelled.
- What the keystore's `sign` does with the payload object it is given is not modelled.
- JSON numbers are reals. IEEE-754 doubles are not modelled.
- Strings are sequences of Unicode scalar values, not UTF-16 code units. Spreading a parsed JSON string that holds a character above U+FFFF gives one key per character, where JavaScript gives one key per surrogate, two for that character. The `n` of `Json.IndexedFieldsKeys` counts characters.
