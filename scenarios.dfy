/**
 * Client-side runs of the handlers, showing what callers can conclude from the
 * handlers' contracts alone.
 */
module Scenarios {
  import opened Wrappers
  import opened Registry
  import opened Handlers

  /**
   * A fresh server; "alice" registers with challenge `c1` and authenticates with
   * challenge `c2`. The verifier stand-ins accept exactly the requests bound to
   * the challenge last issued for alice; the authenticator reports counter 0 at
   * registration and 1 at the assertion.
   */
  method AliceEndToEnd(id: CredentialId, key: PublicKey, c1: Challenge, c2: Challenge)
    returns (regOptions: Response, reg: Response, authOptions: Response, auth: Response, stored: seq<Credential>)
    ensures regOptions.Ok? && regOptions.body.RegistrationOptionsIssued?
    ensures regOptions.body.challenge == c1 && regOptions.body.registration.excludeCredentials == []
    ensures reg == Ok(Verified)
    ensures authOptions.Ok? && authOptions.body.AuthenticationOptionsIssued?
    ensures authOptions.body.challenge == c2
    ensures authOptions.body.authentication.allowCredentials == [Descriptor(id, None)]
    ensures auth == Ok(Verified)
    ensures stored == [Credential(id, key, 1, None)]
  {
    var server := new Server();
    var alice := Some("alice");
    regOptions := server.RegisterOptions(alice, c1);
    var attest := (req: RegistrationRequest) =>
      if req.expectedChallenge == Some(c1) then Registered(id, key, 0) else NotRegistered;
    ghost var registrationSent;
    reg, registrationSent := server.Register(alice, Some(AttestationResponse("attestation")), attest);
    assert server.users["alice"] == [Credential(id, key, 0, None)];
    authOptions := server.AuthOptions(alice, c2);
    assert Descriptors([Credential(id, key, 0, None)])[0] == Descriptor(id, None);
    var assertion := AssertionResponse(id, "assertion");
    var check := (req: AuthenticationRequest) =>
      if req.expectedChallenge == Some(c2) then Authenticated(1) else NotAuthenticated;
    ghost var authenticationSent;
    auth, authenticationSent := server.Authenticate(alice, Some(assertion), check);
    stored := server.users["alice"];
  }

  /**
   * The same assertion sent twice. The finish handler never removes the
   * challenge, so the second verification is asked to check against the same
   * expected challenge as the first; after a successful first attempt the same
   * credential is resolved again, now carrying the counter the verifier reported.
   * Whether the replay is refused rests entirely on the verifier.
   */
  method ReplayedAssertion(server: Server, username: string, assertion: AssertionResponse,
                           verify: AuthenticationRequest -> AuthenticationOutcome)
    returns (first: Response, second: Response,
             ghost sent1: Option<AuthenticationRequest>, ghost sent2: Option<AuthenticationRequest>)
    requires username != ""
    modifies server
    ensures server.challenges == old(server.challenges)
    ensures sent1.Some? ==> sent1.value.expectedChallenge == Lookup(old(server.challenges), username)
    ensures sent1.Some? ==> sent2.Some? && sent2.value.expectedChallenge == sent1.value.expectedChallenge
    ensures sent1.Some? ==> sent2.value.authenticator.credentialID == sent1.value.authenticator.credentialID
    ensures sent1.Some? && verify(sent1.value).Authenticated? ==>
              sent2.value.authenticator.counter == verify(sent1.value).newSignCount
  {
    first, sent1 := server.Authenticate(Some(username), Some(assertion), verify);
    if sent1.Some? {
      var creds := old(server.users)[username];
      if verify(sent1.value).Authenticated? {
        SetCounterReadBack(creds, assertion.id, verify(sent1.value).newSignCount);
      }
    }
    second, sent2 := server.Authenticate(Some(username), Some(assertion), verify);
  }
}
