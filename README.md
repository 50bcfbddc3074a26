# Passkey demo server: ceremony bookkeeping in Dafny

This project models the server side of a WebAuthn passkey demo. The server has
four HTTP handlers: `/register-options`, `/register`, `/auth-options` and
`/authenticate`. They share two pieces of mutable state:

- the in-memory `challenges` object, keyed by username;
- the `users` collection, which maps each username to a list of credential
  records `{credentialID, publicKey, counter}`.

Each handler runs a series of guard checks with early returns. After the guards,
it either issues a fresh challenge or asks the WebAuthn library to verify the
client's response. It updates the collection only when that verification
succeeds.

Files:

- `wrappers.dfy` (module `Wrappers`): `Option`, used for missing body fields and
  for `undefined` read from `challenges`.
- `registry.dfy` (module `Registry`): the credential record and the list
  operations the handlers use. These are the `map` that builds the exclusion and
  allow lists, the `find` by credential id, the `$push` upsert, and the
  positional `$set` of one counter. The module also holds the lemmas about them.
- `handlers.dfy` (module `Handlers`): class `Server` with fields `challenges` and
  `users`, one method per handler, and the relying-party constants (`rpName`,
  `rpID`, `origin`).
- `scenarios.dfy` (module `Scenarios`): client code that runs the handlers.
  `AliceEndToEnd` is a full registration and authentication. `ReplayedAssertion`
  sends the same assertion twice.

The library calls are oracles:

- The challenge produced by `generateRegistrationOptions` and
  `generateAuthenticationOptions` is a method parameter.
- `verifyRegistrationResponse` and `verifyAuthenticationResponse` are function
  parameters. Each maps the request the handler builds (response, expected
  challenge, origin, RP id and, for authentication, the stored authenticator) to
  one of three outcomes: verified with its data, not verified, or a thrown error.

This lets the contracts state exactly which request the verifier receives. That
request always carries `challenges[username]` as the expected challenge. The
handlers also return a ghost `sent` value recording that request, or `None` when
a guard returned before the verifier was called.

Every handler keeps the invariant `Server.Valid()`. It says:

- every challenge key and every user key is a non-empty username;
- every user document holds at least one credential;
- no stored credential has transport hints, because registration never stores
  `transports`.

In several places the code does less than a hardened relying party would. The
model follows the code:

- A finish handler reads the challenge but never removes it, and challenges never
  expire. Replay protection therefore rests entirely on the verifier.
- Registration appends the credential without checking that its id is new,
  either for this user or for any other user. A re-registered id is shadowed by
  the earlier record (`FindAfterAppend`).
- The server does not detect cloned authenticators. After a successful
  verification, the stored counter is overwritten with whatever count the
  verifier reports. Any counter check happens inside the library.
- `/auth-options` checks only that a user document exists, not that the user
  holds any credentials. It has no guard on the username field. A missing
  username is looked up as `undefined`, which matches no stored document, so the
  handler answers "User not found".

## Model

| member | source | states |
|---|---|---|
| Registry.Descriptors | server.js:89-92 | the exclusion/allow list has one entry per stored credential, in stored order, carrying that credential's id and its stored transports |
| Registry.FindCredential | server.js:189 | `find` returns the first credential whose id equals the asserted id; it returns nothing exactly when no credential in the list has that id |
| Registry.SetCounter | server.js:219-222 | the positional `$set` changes the counter of the first credential with the id (the one `find` returns) to `n` and leaves every other field and element unchanged; with no match the list is unchanged |
| Registry.AddCredential | server.js:122-134 | the `$push` upsert appends the record to the user's list, or creates the user with a one-element list; no other user changes and no duplicate-id check is made |
| Registry.UpdateCounter | server.js:219-222 | the counter update replaces the named user's list by its `SetCounter` (only the first credential with the id gets the new counter), keeps the same usernames and every other user, and changes nothing when no document has the username |
| Registry.FirstMatchIsFound | server.js:189 | any index whose record has the id, with no earlier record having it, is the one `find` returns |
| Registry.OfferedIffFound | server.js:157-160 | an id appears in the allow list built from a user's credentials exactly when `/authenticate`'s `find` resolves it among those credentials |
| Registry.DescriptorsWithoutTransports | server.js:89-92 | lists built from records without transport hints have `transports` undefined in every entry |
| Registry.FindAfterAppend | server.js:125-131 | after a registration's append, `find` keeps returning the earlier first match for every id; the new record is found only for an id the user did not already hold |
| Registry.SetCounterReadBack | server.js:219-222 | after the counter update, `find` resolves the id to the same position, and that record now has the new counter with its id, key and transports unchanged |
| Registry.UpdatesKeepNoTransports | server.js:126-130 | neither the append of a record without transports nor a counter update introduces transport hints |
| Handlers.Server.constructor | server.js:63 | the server starts with no challenges and an empty collection, satisfying the invariant |
| Handlers.Server.RegisterOptions | server.js:69-102 | a missing or empty username gives 400 "Username is required" and changes nothing; otherwise `challenges[username]` becomes the new challenge (other usernames unchanged) and the options carry the RP constants, `attestationType` "none", "preferred" selection and an exclusion list that is exactly the user's stored credentials (empty for an unknown user), none of them with transport hints when the invariant held; the collection never changes |
| Handlers.Server.Register | server.js:104-143 | a missing username or attestation gives 400 and no verifier call; otherwise the verifier receives `challenges[username]`, origin and RP id; on success exactly one record `{id, key, counter}` from the verifier (no transports) is upserted-appended; on rejection (400) or a thrown error (500) the collection is unchanged; `challenges` never changes |
| Handlers.Server.AuthOptions | server.js:145-172 | an unknown (or absent) username gives 400 "User not found" and issues no challenge; otherwise `challenges[username]` becomes the new challenge (other usernames unchanged) and the allow list is exactly the user's stored credentials, none of them with transport hints when the invariant held; the collection never changes |
| Handlers.Server.Authenticate | server.js:174-232 | the guards give 400 in order (missing field, "User not found", "Credential not found"), with no state change and no verifier call; an id held only by another user is not found; otherwise the verifier receives `challenges[username]` and the first matching record; on success only that record's counter becomes the reported `newSignCount`; on rejection or a thrown error nothing changes; `challenges` never changes |
| Scenarios.AliceEndToEnd | server.js:69-232 | from a fresh server, alice gets challenge c1 with an empty exclusion list, registers one credential with counter 0, gets challenge c2 with an allow list holding that credential, and authenticates, leaving counter 1 |
| Scenarios.ReplayedAssertion | server.js:195-222 | a second identical assertion is verified against the same expected challenge as the first, on the same credential, now carrying the counter reported by the first verification |

## Left out

- HTTP plumbing: the Express, body-parser and cors wiring, `app.listen`, and the JSON encoding of responses. A response is a small datatype holding a status code and a message, or a success body.
- MongoDB: the connection and driver semantics beyond `findOne` and the two `updateOne` calls. The collection is an in-memory map, and each handler runs atomically. The source `await`s between its read and its write, so interleavings of concurrent requests are not modelled.
- The `Promise.any` polyfill, the `@peculiar/webcrypto` global and all `console.log` output. They play no part in the ceremonies.
- `@simplewebauthn/server` internals: challenge generation, attestation and signature checks, CBOR/COSE parsing, and the library's own counter checks. All of them are oracle inputs. A body with options holds the arguments the handler passes to the generator plus the issued challenge, and not the extra fields the library adds (key algorithms, timeout, encodings).
- The UTF-8 conversion of the username into `userID`. The model carries the username itself.
- Base64 and Buffer conversions of the stored id and key before verification. The authenticator passed to the verifier carries the stored values as they are.
- Credential ids are compared as opaque values. Any mismatch between the stored encoding and the base64url string in an assertion is not modelled.
- The 500 paths from database errors, from a failing options generator, and from a user document without a `credentials` array. Only a verifier that throws is modelled, and it yields 500 with no state change.
- Body fields of non-string JSON types. Also JavaScript's inherited keys on the `challenges` object (such as `constructor`), which read as a value rather than `undefined`. Usernames are strings, and an unset key reads as `undefined`.
- `client/src/App.js`: a React user interface and its network calls, with no server logic.
