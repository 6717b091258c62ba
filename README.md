# WhatsApp session lifecycle and auth-state codec, in Dafny

This project models the two files that hold the session logic of the
atende-chat backend:

- `backend/src/helpers/authState.ts` holds the auth state of one WhatsApp
  connection. It has the byte helpers `toBuffer` and `toBufferDeep`. It has
  the `BufferJSON` replacer and reviver, which store a buffer as
  `{type: "Buffer", data: <base64>}`. It has the `KEY_MAP` table from key
  category to key bag. It loads the stored session, and it provides the raw
  key store whose `set` merges patches into the bags and calls `saveState`.
- `backend/src/libs/wbot.ts` holds the module-level `sessions` registry
  (`getWbot`, `removeWbot`), the QR counter map, `deepCoerce`, and the
  `connection.update` handler. That handler is a state machine over the
  tenant row, the QR counters, the registry and the side effects it starts.

Modules:

- `Wrappers` (wrappers.dfy): Option and Result.
- `JsValue` (js_value.dfy): the JavaScript values involved, as a datatype
  `Value` with a `Bytes` case for Buffer and Uint8Array. It also defines
  truthiness, ToNumber followed by ToUint8, and the numeric order of
  all-digit keys.
- `Base64` (base64.dfy): encoding as in section 4 of RFC 4648. Decoding
  follows Node's `Buffer.from(s, "base64")`. A lemma proves the round trip.
- `AuthCodec` (auth_codec.dfy): `toBuffer`, `toBufferDeep`, the replacer and
  reviver, and `JSON.parse`'s bottom-up use of the reviver.
- `AuthState` (auth_state.dfy): `KEY_MAP`, loading, and the class `KeyStore`
  with fields `creds`, `keys` and `saves`. `saves` logs every `saveState`
  call. `Get` is a function of `keys`. `Set` is a method with a loop, proved
  against the function `ApplyPatch`.
- `Wbot` (wbot.dfy): the registry functions and `DeepCoerce`. The handler is
  the specification function `Step` plus lemmas about it. The classes
  `Registry` (module state) and `ConnectionHandler` (one `initWASocket` call)
  change that state in place and are proved to follow `Step`.

Things the proofs show about the code as written:

- On this value model `toBufferDeep` is a structural copy
  (`ToBufferDeepIsCopy`). It calls `toBuffer` only on values that are
  already buffers, so a `{type:"Buffer"}` tag or an all-digit-keyed object
  nested inside credentials stays as it is (`ToBufferDeepSkipsConversions`).
  Tags with base64 string data in a stored session are converted by the
  reviver during `JSON.parse` instead (`ReviveDeep`, `ReviveDeepNoTags`). A
  tag whose `data` is an array of numbers is left as an object by both.
- The QR counter map outlives a socket, and neither open nor close clears
  it. After three QR codes, a restarted socket's first QR event hits the cap
  (`NewSocketCounter`).
- An event that carries both `close` and `qr` runs both branches. The QR
  branch registers the socket again right after the close branch removed it
  (`CloseWithQrReregisters`).
- The cap branch closes the socket but leaves it in `sessions` (`QrCap`).

The code has no reconnect backoff and no jitter: every restart is a fixed
2000 ms timer. It has no CONNECTING status lease. It never resets the QR
counter map on open. It has no recovery from a corrupt stored session: a
malformed one makes `JSON.parse` throw.

## Model

| member | source | states |
|---|---|---|
| JsValue.ByteOf | backend/src/helpers/authState.ts:15 | the byte an integral number becomes is congruent to it modulo 256 (ToUint8) |
| JsValue.SortedKeys | backend/src/helpers/authState.ts:14 | the keys of an all-digit-keyed object, each exactly once, in strictly ascending numeric order (ties of equal value: shorter key first) |
| JsValue.ToByte | backend/src/helpers/authState.ts:15 | `Uint8Array.from` on one element: a number modulo 256, a string of decimal digits as its value modulo 256, true/false as 1/0, null, undefined, arrays, objects and buffers as 0 |
| Base64.Encode | backend/src/helpers/authState.ts:36 | `toString("base64")` gives 4 characters per started group of 3 bytes, each from the alphabet or `=` |
| Base64.Decode | backend/src/helpers/authState.ts:42 | `Buffer.from(s, "base64")` accepts any text and never fails; the output is no longer than the input |
| Base64.DecodeEncode | backend/src/helpers/authState.ts:36-42 | decoding what the encoder produced gives back the same bytes |
| AuthCodec.ToBuffer | backend/src/helpers/authState.ts:7-18 | the result is bytes exactly for buffers, Buffer tags with string data, arrays and all-digit-keyed objects (including `{}`); anything else is returned unchanged; a buffer is kept; a tag gives the base64 decoding of its data; an array gives one byte per element, in order |
| AuthCodec.ToBufferDigitKeys | backend/src/helpers/authState.ts:13-15 | for an all-digit-keyed object, the byte at position i comes from the key that exactly i other keys precede in numeric order |
| AuthCodec.ToBufferEmptyObject | backend/src/helpers/authState.ts:13-15 | `toBuffer({})` is the empty buffer, because `every` is vacuously true |
| AuthCodec.ToBufferReplacer | backend/src/helpers/authState.ts:10-11 | the tag branch of `toBuffer` inverts the replacer |
| AuthCodec.ToBufferDeep | backend/src/helpers/authState.ts:20-30 | keeps the shape: arrays stay arrays of the same length, objects keep their key set, buffers keep their bytes, null, undefined and scalars are unchanged |
| AuthCodec.ToBufferDeepIsCopy | backend/src/helpers/authState.ts:20-30 | the result equals the input: the rebuild only copies |
| AuthCodec.ToBufferDeepIdempotent | backend/src/helpers/authState.ts:20-30 | applying `toBufferDeep` twice equals applying it once |
| AuthCodec.ToBufferDeepSkipsConversions | backend/src/helpers/authState.ts:22 | a Buffer tag or all-digit-keyed object is left as it is by `toBufferDeep`, though `toBuffer` would turn it into bytes |
| AuthCodec.Replacer | backend/src/helpers/authState.ts:34-39 | a buffer becomes a two-key tag `{type: "Buffer", data}` whose data decodes to the same bytes; any other value is unchanged |
| AuthCodec.Reviver | backend/src/helpers/authState.ts:40-45 | a tag with string data becomes the bytes its data decodes to; anything else is unchanged |
| AuthCodec.ReviverReplacer | backend/src/helpers/authState.ts:33-46 | `reviver(replacer(b)) == b` for every byte value b |
| AuthCodec.ReviveDeep | backend/src/helpers/authState.ts:74 | `JSON.parse` with the reviver: scalars are unchanged; every array element and every field of a non-tag object is revived in place, keeping length and key set; an object that is a tag with string data becomes the bytes its data decodes to |
| AuthCodec.ReviveDeepFixes | backend/src/helpers/authState.ts:74 | a parsed tree with no tag with string data comes out of the reviver walk unchanged |
| AuthCodec.ReviveDeepNoTags | backend/src/helpers/authState.ts:74 | after `JSON.parse` with the reviver, no Buffer tag with string data is left anywhere in the tree (a tag with array data stays an object) |
| AuthState.BagOf | backend/src/helpers/authState.ts:48-55 | the six categories map to named bags; any other category gives the bag "undefined", shared by all of them |
| AuthState.BagOfInjective | backend/src/helpers/authState.ts:48-55 | distinct known categories map to distinct bags |
| AuthState.Normalise | backend/src/helpers/authState.ts:100-103 | the value stored or returned for any category, raw or passed through `toBufferDeep`, equals the given value |
| AuthState.GetFrom | backend/src/helpers/authState.ts:85-94 | the reduce adds exactly the requested ids whose stored value is not undefined, each with its category's normalised value, and keeps the accumulator's other entries |
| AuthState.KeyStore.Get | backend/src/helpers/authState.ts:83-95 | returns exactly the requested ids whose stored value is not undefined (a stored null is returned), each with its stored value, for raw and normalised categories alike |
| AuthState.KeyStore.Set | backend/src/helpers/authState.ts:96-107 | the bags become `ApplyPatch` of the old bags, the credentials are unchanged, and exactly one save of the new state is recorded |
| AuthState.PatchFrame | backend/src/helpers/authState.ts:97-105 | a bag that no category of the patch maps to is unchanged, and exists afterwards exactly when it existed before |
| AuthState.MergeEntry | backend/src/helpers/authState.ts:98-104 | one round of `set`: the category's bag exists afterwards, created when missing, and holds exactly its old ids plus the payload's ids; no bag is removed |
| AuthState.MergeEntryWrites | backend/src/helpers/authState.ts:100-104 | after `Object.assign` every id of the payload holds the payload's value, for raw and normalised categories alike |
| AuthState.MergeEntryKeeps | backend/src/helpers/authState.ts:104 | an entry the payload does not write keeps its value |
| AuthState.ApplyPatch | backend/src/helpers/authState.ts:96-105 | after `set` the bags are exactly the old ones plus one per category of the patch, created when missing |
| AuthState.PatchNeverRemoves | backend/src/helpers/authState.ts:99-104 | `set` never removes an id from a bag |
| AuthState.PatchOverwrites | backend/src/helpers/authState.ts:100-104 | the last payload that writes an id into a bag decides its value, which is the patched value itself |
| AuthState.PatchKnownCategories | backend/src/helpers/authState.ts:96-105 | with distinct known categories, every patched id holds its patched value afterwards |
| AuthState.PatchKeepsOthers | backend/src/helpers/authState.ts:104 | an id that no payload writes into a bag keeps its presence and value |
| AuthState.KeysOf | backend/src/helpers/authState.ts:76 | the `parsed.keys` fallback to `{}`: a falsy value gives no bags; an object gives one bag per key, holding that key's object |
| AuthState.Load | backend/src/helpers/authState.ts:73-80 | an empty session gives the fresh credentials and no bags; unparsable text fails with SyntaxError; a session that parses to null fails with TypeError, and only then; any other parsable session loads, with creds the revived `creds` property, free of tags, and keys the revived `keys` property or no bags when it is falsy |
| AuthState.KeyStore.constructor | backend/src/helpers/authState.ts:60-61 | the store starts with the loaded creds and keys and no saves |
| AuthState.KeyStore.ExposedCreds | backend/src/helpers/authState.ts:112 | `state.creds`, i.e. `toBufferDeep(creds)`, equals as a value the credentials at the time `authState` returns; it is a separate object, see "## Left out" |
| Wbot.FindIndex | backend/src/libs/wbot.ts:34 | -1 exactly when no entry has the id; otherwise the index of the first entry with it |
| Wbot.Registry.GetWbot | backend/src/libs/wbot.ts:33-37 | fails with ERR_WAPP_NOT_INITIALIZED exactly when no socket has the id; otherwise returns the first socket registered with it |
| Wbot.RemoveFirst | backend/src/libs/wbot.ts:44-58 | the splice: nothing changes when no entry has the id; otherwise exactly the first entry with it is taken out and the rest are kept |
| Wbot.RemoveFirstSpec | backend/src/libs/wbot.ts:44-59 | removal takes out exactly one entry with the id when there is one, keeps the other tenants' entries in order, and is a no-op when the id is absent |
| Wbot.RemoveFirstUnique | backend/src/libs/wbot.ts:58 | with distinct ids, removal keeps them distinct and leaves no entry with the id |
| Wbot.Registry.RemoveWbot | backend/src/libs/wbot.ts:39-63 | splices out the first entry with the id; with `isLogout` false nothing is logged out or closed; with true and a registered socket, logout then close of that socket; never fails |
| Wbot.Register | backend/src/libs/wbot.ts:182-186 | after the guarded push the id is registered, an existing entry is kept, a new one is appended, and no duplicate id is created |
| Wbot.Registry.RegisterSocket | backend/src/libs/wbot.ts:214-218 | the guarded push on the registry: sessions become `Register` of the old ones; the QR counters and effect log are unchanged |
| Wbot.Registry.constructor | backend/src/libs/wbot.ts:30-31 | the registry and the QR counter map start empty |
| Wbot.DeepCoerce | backend/src/libs/wbot.ts:93-101 | null, undefined, buffers and scalars are unchanged; arrays of numbers only (the empty one too) become buffers of the numbers modulo 256; every element of another array and every field of an object is replaced by its coerced value, keeping length and key set |
| Wbot.DeepCoerceCoerces | backend/src/libs/wbot.ts:96-99 | no array of numbers only is left anywhere in the result |
| Wbot.DeepCoerceFixes | backend/src/libs/wbot.ts:93-101 | a tree with no number-only array is left unchanged |
| Wbot.DeepCoerceIdempotent | backend/src/libs/wbot.ts:93-101 | coercing twice equals coercing once |
| Wbot.CloseCode | backend/src/libs/wbot.ts:151-153 | the status code, or else `code`: a nonzero status code wins; a missing or zero status code falls through to `code`, so a zero status code never becomes the close code |
| Wbot.OnClose | backend/src/libs/wbot.ts:150-168 | the close branch: the tenant's first entry is removed, the QR counters and listener are untouched, the row becomes PENDING with an empty session exactly when the code is 403 or loggedOut, and the last effect is a 2000 ms restart; nothing is logged out or closed |
| Wbot.OnOpen | backend/src/libs/wbot.ts:170-188 | the open branch: CONNECTED with empty QR code and 0 retries, the session kept, persisted, then notified, then resolved; the registry becomes the guarded push of this socket (kept as is when an entry has the id, this socket appended otherwise); QR counters untouched |
| Wbot.QrCapReached | backend/src/libs/wbot.ts:191 | the cap test holds exactly when the tenant's counter is present and at least 3; the truthiness test on it adds nothing |
| Wbot.OnQr | backend/src/libs/wbot.ts:190-225 | at the cap: listening stops, the tenant's counter is dropped, the local counter, row retries and registry are unchanged, the row is DISCONNECTED with no code, and the effects are persist, delete Baileys data, emit the bare "whatsappSession", close the socket, in that order; below it: the local and stored counters become one more than the local one, the registry becomes the guarded push of this socket, the row holds the code with status "qrcode", and it is persisted before the notification |
| Wbot.Step | backend/src/libs/wbot.ts:145-226 | a handler that stopped listening, or an event with no close, open or QR, changes nothing; the effect log only grows; other tenants' QR counters are untouched |
| Wbot.RegisterKeepsOthers | backend/src/libs/wbot.ts:182-186 | the guarded push keeps every other tenant's entry, in order |
| Wbot.StepKeepsOtherTenants | backend/src/libs/wbot.ts:145-226 | no event changes another tenant's registry entries or their order |
| Wbot.StepKeepsIdsUnique | backend/src/libs/wbot.ts:145-226 | no connection event makes the registry hold two sockets with one tenant id |
| Wbot.CloseLoggedOut | backend/src/libs/wbot.ts:155-163 | close with 403 or loggedOut: status PENDING and empty session, then in order persist, delete Baileys data, notify, restart in 2000 ms; the tenant is deregistered without logout, other entries and the QR counters are untouched |
| Wbot.CloseTransient | backend/src/libs/wbot.ts:164-166 | any other close code: the row is unchanged, the tenant is deregistered without logout, and the only effect is a restart in 2000 ms |
| Wbot.OpenConnects | backend/src/libs/wbot.ts:170-187 | open: status CONNECTED, empty QR code and retries 0 are persisted before the notification and before the resolve; this socket is appended when no entry had the tenant id, and the registry is unchanged otherwise; a QR in the same event is ignored; the QR counters are not cleared |
| Wbot.QrCap | backend/src/libs/wbot.ts:190-224 | from no counter entry: QR events 1-3 set status "qrcode", store the code and count 1, 2, 3; the 4th sets DISCONNECTED with no code, deletes Baileys data once, emits the bare "whatsappSession", closes the socket, stops listening, drops the counter and leaves the socket registered |
| Wbot.NewSocketCounter | backend/src/libs/wbot.ts:191-207 | a new socket's first QR overwrites a leftover count below 3 with 1, and hits the cap at once on a leftover count of 3 or more |
| Wbot.CloseWithQrReregisters | backend/src/libs/wbot.ts:150-218 | an event with both close and qr schedules a restart, removes the tenant's entry and then appends this socket under the tenant id |
| Wbot.ConnectionHandler.constructor | backend/src/libs/wbot.ts:81 | each socket's handler starts with local QR counter 0 and listening |
| Wbot.ConnectionHandler.OnConnectionUpdate | backend/src/libs/wbot.ts:145-226 | the row, counters, listener, registry and effect log after an event are `Step` of those before it |
| Wbot.ConnectionHandler.HandleClose | backend/src/libs/wbot.ts:150-168 | the close branch leaves the state `OnClose` defines, whose outcomes CloseLoggedOut and CloseTransient state |
| Wbot.ConnectionHandler.HandleOpen | backend/src/libs/wbot.ts:170-188 | the open branch leaves the state `OnOpen` defines, whose outcome OpenConnects states |
| Wbot.ConnectionHandler.HandleQr | backend/src/libs/wbot.ts:190-225 | the QR branch leaves the state `OnQr` defines, effect order in both branches included; QrCap and NewSocketCounter state its outcomes over several events |

## Left out

- JSON text parsing and printing are not modelled. `Load` takes the parse result as a parameter. The `JSON.stringify` inside `saveState` (authState.ts:66) is reduced to a snapshot of `creds` and `keys` in `saves`.
- AuthState.KeyStore.Set: what `saveState` stores (authState.ts:66) is not the model's snapshot. In Node, `JSON.stringify` calls `Buffer.prototype.toJSON` before `BufferJSON.replacer` runs. So every Buffer in `creds` and `keys` is written as `{type: "Buffer", data: [numbers]}`, and only a Uint8Array that is not a Buffer becomes a base64 tag. On load the reviver converts only tags with string data, and `toBufferDeep` does not convert the array form either. So a session this code saved loads back with plain objects where the Buffers were. The model does not show this.
- The JSON round trip at wbot.ts:103-126 is left out, including the write-back of `deepCoerce` into the library's state. In Node, `JSON.stringify` calls `Buffer.prototype.toJSON` before the replacer, so buffers come out as `{type: "Buffer", data: [numbers]}`. The reviver then leaves those as objects. `state.keys` there is the library's key-store object, whose function fields are dropped.
- The I/O and library calls are not modelled: `Whatsapp.findOne`, `fetchLatestBaileysVersion`, `makeInMemoryStore`, `makeWASocket`, `makeCacheableSignalKeyStore`, `initAuthCreds`. Fresh credentials are a parameter of `Load`.
- `DeleteBaileysService`, the socket.io emit, the row update and `StartWhatsAppSession` become effect-log entries. Logger and Sentry calls are dropped.
- The `initWASocket` rejection path is left out, as are the `creds.update` and store wiring.
- Timing and interleaving are left out. `setTimeout(…, 2000)` is a `ScheduleRestart` effect, and events are handled one at a time, each completely.
- A failure of the row update or of `DeleteBaileysService` inside the handler is not modelled. In the source it rejects the listener's promise.
- Failed logout, close or persistence is not modelled separately. Each is only an effect, since the source ignores or logs these failures.
- `logout()` is asynchronous. A rejection of its promise is not caught by the `try` at wbot.ts:47-51, and the model does not show this.
- Buffer and Uint8Array are one `Bytes` case. The model does not capture object identity or aliasing: `toBufferDeep` builds fresh objects but shares buffers with its input.
- AuthState.KeyStore.ExposedCreds: `state.creds` (authState.ts:112) is a fresh object built by `toBufferDeep`. wbot.ts:105 coerces that same object in place, and wbot.ts:122 replaces it with a fresh parse when `JSON.stringify` does not throw, before `makeWASocket` gets it (wbot.ts:139). `saveState` serialises the closure variable `creds` (authState.ts:60, 66). So nothing the library later writes into the credentials object it holds ever reaches a save. The model does not show this: `ExposedCreds` is a function of the store's current `creds`, and no operation changes `creds`.
- Wbot.DeepCoerce: `deepCoerce` (wbot.ts:93-101) updates objects in place. `DeepCoerce` gives the resulting tree as a value, so it does not capture the in-place update or an object shared by two references being updated once.
- Numbers are integers. NaN, Infinity, -0 and fractions are not modelled.
- JsValue.ToByte: JavaScript's ToNumber on other kinds of string is not modelled. This covers signs, whitespace, hex and exponents. Digit strings above 2^53 are rounded by ToNumber, so `"9007199254740993"` gives 0 in JavaScript but 1 here. A one-element array reads through its element in JavaScript, but the model gives 0. A Buffer element is read through its UTF-8 text, so `Buffer.from("12")` gives 12 in JavaScript but 0 here. `toBuffer`'s only caller, `toBufferDeep`, calls it only on buffers, so these branches are not reached from the rest of the code.
- JsValue.SortedKeys: keys of equal value with leading zeros (such as "01" and "001") are ordered shorter first. In JavaScript, insertion order decides between them. Keys beyond 2^53 lose precision in `+a` in JavaScript but are exact here.
- These JavaScript details are not modelled: sparse arrays, `__proto__` keys, and properties inherited from `Object.prototype` (for example a category named "constructor" in `KEY_MAP`, or an id named "toString").
- AuthState.KeysOf: a stored bag that is not an object reads as an empty bag. A truthy `parsed.keys` that is not an object reads as no bags. The model's `KeyStore.Set` then stores the payload in both cases, where the source does not. With a truthy primitive `parsed.keys`, the assignment `keys[bag] = …` at authState.ts:99 throws a TypeError, since the compiled module runs in strict mode. With a truthy primitive bag, `Object.assign` at authState.ts:104 writes into a throw-away wrapper object, so the payload is lost; for a string bag, writing an index id throws.
- AuthState.KeyStore.Set: payloads that are not plain objects are not modelled. `Object.assign` would copy the indices of strings and arrays.
- A null `session` column is treated as the empty string.
- Base64.Decode: this follows Node's classic decoder. It accepts both alphabets, skips foreign characters, stops at the first `=`, and decodes trailing groups of 2 or 3 characters. Malformed text may decode differently on Node versions with another decoder.
