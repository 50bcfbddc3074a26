/**
 * The four ceremony handlers of server.js over the server's two pieces of mutable
 * state: the in-memory `challenges` object, keyed by username, and the `users`
 * collection. Each handler runs atomically. The @simplewebauthn/server calls are
 * oracles: the fresh challenge of the options generators is a parameter, and the
 * two response verifiers are functions from the request the handler builds to
 * the outcome the library reports.
 */
module Handlers {
  import opened Wrappers
  import opened Registry

  type Challenge = string

  const RpName := "SimpleWebAuthn Example"
  const RpId := "localhost"
  const ExpectedOrigin := "http://" + RpId + ":3000"

  /** The client's attestation JSON, opaque here. */
  datatype AttestationResponse = AttestationResponse(raw: string)

  /** The client's assertion JSON: only its `id` is read by this server. */
  datatype AssertionResponse = AssertionResponse(id: CredentialId, raw: string)

  /** What `/register` hands to `verifyRegistrationResponse`. */
  datatype RegistrationRequest = RegistrationRequest(
    response: AttestationResponse,
    expectedChallenge: Option<Challenge>,
    expectedOrigin: string,
    expectedRPID: string)

  /** What `verifyRegistrationResponse` reports: verified with the new key material, not verified, or a thrown error. */
  datatype RegistrationOutcome =
    | Registered(credentialID: CredentialId, credentialPublicKey: PublicKey, counter: nat)
    | NotRegistered
    | RegistrationThrew

  /** The stored record `/authenticate` passes as `authenticator`. */
  datatype Authenticator = Authenticator(credentialID: CredentialId, credentialPublicKey: PublicKey, counter: nat)

  /** What `/authenticate` hands to `verifyAuthenticationResponse`. */
  datatype AuthenticationRequest = AuthenticationRequest(
    response: AssertionResponse,
    expectedChallenge: Option<Challenge>,
    expectedOrigin: string,
    expectedRPID: string,
    authenticator: Authenticator)

  /** What `verifyAuthenticationResponse` reports; its own counter checks happen inside it. */
  datatype AuthenticationOutcome =
    | Authenticated(newSignCount: nat)
    | NotAuthenticated
    | AuthenticationThrew

  datatype AuthenticatorSelection = AuthenticatorSelection(userVerification: string, residentKey: string)

  /** The arguments `/register-options` gives `generateRegistrationOptions`. */
  datatype RegistrationOptions = RegistrationOptions(
    rpName: string,
    rpID: string,
    userID: string,
    userName: string,
    attestationType: string,
    authenticatorSelection: AuthenticatorSelection,
    excludeCredentials: seq<Descriptor>)

  /** The arguments `/auth-options` gives `generateAuthenticationOptions`. */
  datatype AuthenticationOptions = AuthenticationOptions(
    rpID: string,
    allowCredentials: seq<Descriptor>,
    userVerification: string)

  /** A success body: generated options with their challenge, or `{ verified: true }`. */
  datatype Body =
    | RegistrationOptionsIssued(registration: RegistrationOptions, challenge: Challenge)
    | AuthenticationOptionsIssued(authentication: AuthenticationOptions, challenge: Challenge)
    | Verified

  datatype Response = Ok(body: Body) | Fail(status: nat, message: string)

  /** JavaScript truthiness of a string body field: present and non-empty. */
  predicate Given(field: Option<string>) {
    field.Some? && field.value != ""
  }

  /** `challenges[username]`: `undefined` when nothing was ever issued for that username. */
  function Lookup(challenges: map<string, Challenge>, username: string): Option<Challenge> {
    if username in challenges then Some(challenges[username]) else None
  }

  function RegistrationOptionsFor(users: Users, username: string): RegistrationOptions {
    RegistrationOptions(
      RpName, RpId, username, username, "none",
      AuthenticatorSelection("preferred", "preferred"),
      Descriptors(Stored(users, username)))
  }

  function AuthenticationOptionsFor(creds: seq<Credential>): AuthenticationOptions {
    AuthenticationOptions(RpId, Descriptors(creds), "preferred")
  }

  class Server {
    /** The module-level `challenges` object. */
    var challenges: map<string, Challenge>
    /** The `users` collection. */
    var users: Users

    /**
     * What the four handlers keep true from the empty start: challenges and user
     * documents are keyed by non-empty usernames, every user document holds at
     * least one credential, and no stored credential has transport hints.
     */
    ghost predicate Valid()
      reads this
    {
      && (forall u :: u in challenges ==> u != "")
      && (forall u :: u in users ==> u != "" && users[u] != [] && NoTransports(users[u]))
    }

    /** A freshly started server: no challenges and an empty collection. */
    constructor ()
      ensures Valid()
      ensures challenges == map[] && users == map[]
    {
      challenges := map[];
      users := map[];
    }

    /** `POST /register-options` */
    method RegisterOptions(username: Option<string>, challenge: Challenge) returns (res: Response)
      modifies this
      ensures old(Valid()) ==> Valid()
      ensures users == old(users)
      ensures !Given(username) ==>
                res == Fail(400, "Username is required") && challenges == old(challenges)
      ensures Given(username) ==>
                && challenges == old(challenges)[username.value := challenge]
                && res == Ok(RegistrationOptionsIssued(RegistrationOptionsFor(old(users), username.value), challenge))
                && res.body.registration.excludeCredentials == Descriptors(Stored(old(users), username.value))
      ensures old(Valid()) && Given(username) ==>
                forall d :: d in res.body.registration.excludeCredentials ==> d.transports.None?
    {
      if !Given(username) {
        return Fail(400, "Username is required");
      }
      var name := username.value;
      if Valid() {
        DescriptorsWithoutTransports(Stored(users, name));
      }
      var options := RegistrationOptionsFor(users, name);
      challenges := challenges[name := challenge];
      res := Ok(RegistrationOptionsIssued(options, challenge));
    }

    /**
     * `POST /register`. The challenge last issued for the username is read, never
     * removed; the registry changes only when the verifier reports success. The
     * ghost `sent` is the request the verifier was called with, if it was called.
     */
    method Register(username: Option<string>, attestation: Option<AttestationResponse>,
                    verify: RegistrationRequest -> RegistrationOutcome)
      returns (res: Response, ghost sent: Option<RegistrationRequest>)
      modifies this
      ensures old(Valid()) ==> Valid()
      ensures challenges == old(challenges)
      ensures !(Given(username) && attestation.Some?) ==>
                && res == Fail(400, "Username and attestation response are required")
                && users == old(users) && sent == None
      ensures Given(username) && attestation.Some? ==>
                && sent == Some(RegistrationRequest(attestation.value, Lookup(challenges, username.value), ExpectedOrigin, RpId))
                && match verify(sent.value)
                   case Registered(id, key, counter) =>
                     && users == AddCredential(old(users), username.value, Credential(id, key, counter, None))
                     && res == Ok(Verified)
                   case NotRegistered =>
                     users == old(users) && res == Fail(400, "Verification failed")
                   case RegistrationThrew =>
                     users == old(users) && res == Fail(500, "Error verifying attestation")
    {
      if !(Given(username) && attestation.Some?) {
        return Fail(400, "Username and attestation response are required"), None;
      }
      var name := username.value;
      var expectedChallenge := Lookup(challenges, name);
      var request := RegistrationRequest(attestation.value, expectedChallenge, ExpectedOrigin, RpId);
      sent := Some(request);
      var verification := verify(request);
      match verification
      case Registered(id, key, counter) =>
        ghost var before := users;
        users := AddCredential(users, name, Credential(id, key, counter, None));
        UpdatesKeepNoTransports(Stored(before, name), id, 0, Credential(id, key, counter, None));
        res := Ok(Verified);
      case NotRegistered =>
        res := Fail(400, "Verification failed");
      case RegistrationThrew =>
        res := Fail(500, "Error verifying attestation");
    }

    /**
     * `POST /auth-options`. A username that is absent from the body is looked up
     * as `undefined`, which matches no stored user.
     */
    method AuthOptions(username: Option<string>, challenge: Challenge) returns (res: Response)
      modifies this
      ensures old(Valid()) ==> Valid()
      ensures users == old(users)
      ensures !(username.Some? && username.value in old(users)) ==>
                res == Fail(400, "User not found") && challenges == old(challenges)
      ensures username.Some? && username.value in old(users) ==>
                && challenges == old(challenges)[username.value := challenge]
                && res == Ok(AuthenticationOptionsIssued(AuthenticationOptionsFor(old(users)[username.value]), challenge))
                && res.body.authentication.allowCredentials == Descriptors(old(users)[username.value])
      ensures old(Valid()) && username.Some? && username.value in old(users) ==>
                forall d :: d in res.body.authentication.allowCredentials ==> d.transports.None?
    {
      if !(username.Some? && username.value in users) {
        return Fail(400, "User not found");
      }
      var name := username.value;
      if Valid() {
        DescriptorsWithoutTransports(users[name]);
      }
      var options := AuthenticationOptionsFor(users[name]);
      challenges := challenges[name := challenge];
      res := Ok(AuthenticationOptionsIssued(options, challenge));
    }

    /**
     * `POST /authenticate`. The credential must be among the named user's own
     * records (the first with the asserted id); the challenge is read, never
     * removed; on success the counter becomes whatever the verifier reports.
     */
    method Authenticate(username: Option<string>, assertion: Option<AssertionResponse>,
                        verify: AuthenticationRequest -> AuthenticationOutcome)
      returns (res: Response, ghost sent: Option<AuthenticationRequest>)
      modifies this
      ensures old(Valid()) ==> Valid()
      ensures challenges == old(challenges)
      ensures !(Given(username) && assertion.Some?) ==>
                && res == Fail(400, "Username and assertion response are required")
                && users == old(users) && sent == None
      ensures Given(username) && assertion.Some? && username.value !in old(users) ==>
                res == Fail(400, "User not found") && users == old(users) && sent == None
      ensures Given(username) && assertion.Some? && username.value in old(users)
              && FindCredential(old(users)[username.value], assertion.value.id).None? ==>
                res == Fail(400, "Credential not found") && users == old(users) && sent == None
      ensures Given(username) && assertion.Some? && username.value in old(users)
              && FindCredential(old(users)[username.value], assertion.value.id).Some? ==>
                var creds := old(users)[username.value];
                var i := FindCredential(creds, assertion.value.id).value;
                && sent == Some(AuthenticationRequest(
                     assertion.value, Lookup(challenges, username.value), ExpectedOrigin, RpId,
                     Authenticator(creds[i].credentialID, creds[i].publicKey, creds[i].counter)))
                && match verify(sent.value)
                   case Authenticated(n) =>
                     && users == old(users)[username.value := creds[i := creds[i].(counter := n)]]
                     && res == Ok(Verified)
                   case NotAuthenticated =>
                     users == old(users) && res == Fail(400, "Verification failed")
                   case AuthenticationThrew =>
                     users == old(users) && res == Fail(500, "Error verifying assertion")
    {
      if !(Given(username) && assertion.Some?) {
        return Fail(400, "Username and assertion response are required"), None;
      }
      var name := username.value;
      if name !in users {
        return Fail(400, "User not found"), None;
      }
      var creds := users[name];
      var found := FindCredential(creds, assertion.value.id);
      if found.None? {
        return Fail(400, "Credential not found"), None;
      }
      var credential := creds[found.value];
      var expectedChallenge := Lookup(challenges, name);
      var request := AuthenticationRequest(
        assertion.value, expectedChallenge, ExpectedOrigin, RpId,
        Authenticator(credential.credentialID, credential.publicKey, credential.counter));
      sent := Some(request);
      var verification := verify(request);
      match verification
      case Authenticated(n) =>
        // The update's query names the found credential's id, so its positional
        // match is the same record `find` returned.
        users := UpdateCounter(users, name, credential.credentialID, n);
        UpdatesKeepNoTransports(creds, credential.credentialID, n, credential);
        res := Ok(Verified);
      case NotAuthenticated =>
        res := Fail(400, "Verification failed");
      case AuthenticationThrew =>
        res := Fail(500, "Error verifying assertion");
    }
  }
}
