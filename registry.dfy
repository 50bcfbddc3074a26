/**
 * The credential registry of server.js: the `users` collection, one document per
 * username holding the list `credentials` of `{credentialID, publicKey, counter}`
 * records. The collection is modelled as a map from username to that list; the
 * functions below are the list operations the handlers use (the `map` that builds
 * exclusion and allow lists, the `find` by credential id, the `$push` upsert and
 * the positional `$set` of one counter).
 */
module Registry {
  import opened Wrappers

  /** Credential ids and public keys are opaque to this server. */
  type CredentialId = string
  type PublicKey = seq<bv8>

  /** One element of a user's `credentials` list. */
  datatype Credential = Credential(
    credentialID: CredentialId,
    publicKey: PublicKey,
    counter: nat,
    transports: Option<seq<string>>)

  /** One `{id, transports}` entry of an exclusion list or an allow list. */
  datatype Descriptor = Descriptor(id: CredentialId, transports: Option<seq<string>>)

  /** The `users` collection: username to that user's credentials, in stored order. */
  type Users = map<string, seq<Credential>>

  /** The credentials of `username`, or none when no document has that username. */
  function Stored(users: Users, username: string): seq<Credential> {
    if username in users then users[username] else []
  }

  /** No record carries transport hints (the registration handler never stores any). */
  predicate NoTransports(creds: seq<Credential>) {
    forall c :: c in creds ==> c.transports.None?
  }

  /** `credentials.map(cred => ({ id: cred.credentialID, transports: cred.transports }))` */
  function Descriptors(creds: seq<Credential>): (r: seq<Descriptor>)
    ensures |r| == |creds|
    ensures forall i :: 0 <= i < |creds| ==>
              r[i].id == creds[i].credentialID && r[i].transports == creds[i].transports
  {
    if creds == [] then []
    else [Descriptor(creds[0].credentialID, creds[0].transports)] + Descriptors(creds[1..])
  }

  /**
   * `credentials.find(cred => cred.credentialID === id)`, given as the position of
   * the credential it returns: the first one whose id is `id`, if any.
   */
  function FindCredential(creds: seq<Credential>, id: CredentialId): (r: Option<nat>)
    ensures r.Some? ==> r.value < |creds| && creds[r.value].credentialID == id
    ensures forall j :: 0 <= j < |creds| && (r.None? || j < r.value) ==> creds[j].credentialID != id
  {
    if creds == [] then None
    else if creds[0].credentialID == id then Some(0)
    else match FindCredential(creds[1..], id)
      case None => None
      case Some(k) => Some(k + 1)
  }

  /**
   * `{ $set: { 'credentials.$.counter': n } }` under a query on
   * `'credentials.credentialID': id`: the positional operator updates the first
   * element whose id matches, and only its counter; no match leaves the list alone.
   */
  function SetCounter(creds: seq<Credential>, id: CredentialId, n: nat): (r: seq<Credential>)
    ensures FindCredential(creds, id).None? ==> r == creds
    ensures FindCredential(creds, id).Some? ==>
              var i := FindCredential(creds, id).value;
              r == creds[i := creds[i].(counter := n)]
  {
    if creds == [] then []
    else if creds[0].credentialID == id then [creds[0].(counter := n)] + creds[1..]
    else [creds[0]] + SetCounter(creds[1..], id, n)
  }

  /**
   * `updateOne({ username }, { $push: { credentials: c } }, { upsert: true })`:
   * appends `c` to the user's list, creating the user with `[c]` when absent. No
   * check is made that the id is new, for this user or any other.
   */
  function AddCredential(users: Users, username: string, c: Credential): (r: Users)
    ensures r.Keys == users.Keys + {username}
    ensures username !in users ==> r[username] == [c]
    ensures username in users ==> r[username] == users[username] + [c]
    ensures forall v :: v in users && v != username ==> r[v] == users[v]
  {
    users[username := Stored(users, username) + [c]]
  }

  /**
   * `updateOne({ username, 'credentials.credentialID': id }, { $set: ... })`: the
   * counter of the user's first credential with that id becomes `n`; a query that
   * matches no document changes nothing.
   */
  function UpdateCounter(users: Users, username: string, id: CredentialId, n: nat): (r: Users)
    ensures r.Keys == users.Keys
    ensures forall v :: v in users && v != username ==> r[v] == users[v]
    ensures username !in users ==> r == users
    ensures username in users ==> r[username] == SetCounter(users[username], id, n)
    ensures username in users ==> |r[username]| == |users[username]|
  {
    if username in users then users[username := SetCounter(users[username], id, n)] else users
  }

  /** Only the first match is ever found: any index with the first-match property is it. */
  lemma FirstMatchIsFound(creds: seq<Credential>, id: CredentialId, i: nat)
    requires i < |creds| && creds[i].credentialID == id
    requires forall j :: 0 <= j < i ==> creds[j].credentialID != id
    ensures FindCredential(creds, id) == Some(i)
  {
  }

  /**
   * A credential id is offered in the list built from `creds` exactly when the
   * authentication handler's `find` resolves it among the same `creds`.
   */
  lemma OfferedIffFound(creds: seq<Credential>, id: CredentialId)
    ensures (exists k :: 0 <= k < |creds| && Descriptors(creds)[k].id == id)
            <==> FindCredential(creds, id).Some?
  {
    if FindCredential(creds, id).Some? {
      var k := FindCredential(creds, id).value;
      assert Descriptors(creds)[k].id == id;
    }
  }

  /** Lists built from records without transport hints carry none. */
  lemma DescriptorsWithoutTransports(creds: seq<Credential>)
    requires NoTransports(creds)
    ensures forall d :: d in Descriptors(creds) ==> d.transports.None?
  {
  }

  /**
   * After the append of a registration, `find` by any id still returns the old
   * first match when there was one; the new record is found only for an id the
   * user did not hold before. A re-registered id is therefore shadowed by the
   * earlier record.
   */
  lemma {:induction false} FindAfterAppend(creds: seq<Credential>, c: Credential, id: CredentialId)
    ensures FindCredential(creds + [c], id) ==
              match FindCredential(creds, id)
              case Some(i) => Some(i)
              case None => if c.credentialID == id then Some(|creds|) else None
  {
    var s := creds + [c];
    match FindCredential(creds, id)
    case Some(i) =>
      FirstMatchIsFound(s, id, i);
    case None =>
      if c.credentialID == id {
        FirstMatchIsFound(s, id, |creds|);
      } else {
        assert forall j :: 0 <= j < |s| ==> s[j].credentialID != id by {
          forall j | 0 <= j < |s| ensures s[j].credentialID != id {
            if j < |creds| { assert s[j] == creds[j]; }
          }
        }
      }
  }

  /**
   * After the counter update, `find` resolves the same id to the same position,
   * whose record now has counter `n` and the same id, key and transports.
   */
  lemma SetCounterReadBack(creds: seq<Credential>, id: CredentialId, n: nat)
    requires FindCredential(creds, id).Some?
    ensures var i := FindCredential(creds, id).value;
            var r := SetCounter(creds, id, n);
            && FindCredential(r, id) == Some(i)
            && r[i].counter == n
            && r[i].credentialID == creds[i].credentialID
            && r[i].publicKey == creds[i].publicKey
            && r[i].transports == creds[i].transports
  {
  }

  /** Neither list update introduces transport hints. */
  lemma UpdatesKeepNoTransports(creds: seq<Credential>, id: CredentialId, n: nat, c: Credential)
    ensures NoTransports(creds) ==> NoTransports(SetCounter(creds, id, n))
    ensures NoTransports(creds) && c.transports.None? ==> NoTransports(creds + [c])
  {
  }
}
