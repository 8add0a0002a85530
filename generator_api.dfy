/** The generator's records (keys, applications and their payloads), the DID
    documents it builds from a key, and the lookups its handlers share. */
module GeneratorApi {
  import opened Common
  import opened Arrays
  import DidWeb

  /** The one signature suite the key payload schema admits. */
  datatype KeyType = Ed25519VerificationKey2020

  /** A stored key: `{id, name, type, created, public, private}`. */
  datatype Key = Key(id: string, name: string, keyType: KeyType, created: string,
                     publicKey: string, privateKey: string)

  /** A key as the handlers reply with it: every member except `private`. */
  datatype KeyDetails = KeyDetails(id: string, name: string, keyType: KeyType,
                                   created: string, publicKey: string)

  datatype KeyPair = KeyPair(publicKey: string, privateKey: string)
  datatype KeyDto = KeyDto(name: string, keyType: KeyType)
  datatype UpdateKeyDto = UpdateKeyDto(name: string)

  datatype TemplateConfiguration = TemplateConfiguration(id: string)
  datatype Endpoint = Endpoint(api: string)

  /** `registry` is the one optional member of an application's payload. */
  datatype Application = Application(id: string, name: string, template: TemplateConfiguration,
                                     renderer: Endpoint, registry: Option<Endpoint>, keys: seq<string>)

  datatype ApplicationDto = ApplicationDto(name: string, template: TemplateConfiguration,
                                           renderer: Endpoint, registry: Option<Endpoint>, keys: seq<string>)

  /** A partial update: only the members that are present are applied. */
  datatype UpdateApplicationDto = UpdateApplicationDto(
    name: Option<string>, template: Option<TemplateConfiguration>,
    renderer: Option<Endpoint>, registry: Option<Endpoint>, keys: Option<seq<string>>)

  /** The body of an issue request. `holder` is optional in its schema. */
  datatype PresentationDto = PresentationDto(credentials: seq<Record>, output: string,
                                             holder: Option<string>)

  const KeyNotFound: string := "A key with the specified ID does not exist."
  const ApplicationNotFound: string := "A application with the specified ID does not exist."

  function MissingKeypair(keyId: string): string
  {
    "A keypair with the ID " + keyId + " was not found."
  }

  function KeyInUse(applicationName: string): string
  {
    "This key is being used by the application " + applicationName +
    ". Please unlink the key from the application before deleting it."
  }

  /** `const { private: _, ...details } = key`. */
  function Details(key: Key): (r: KeyDetails)
    ensures r.id == key.id && r.publicKey == key.publicKey
  {
    KeyDetails(key.id, key.name, key.keyType, key.created, key.publicKey)
  }

  /** Dropping `private` loses nothing else: the key's other members can be
      read back from its details. */
  lemma DetailsKeepPublicMembers(a: Key, b: Key)
    requires Details(a) == Details(b)
    ensures a == b.(privateKey := a.privateKey)
  {
  }

  // ---------------------------------------------------------------- lookups

  predicate HasKey(keys: seq<Key>, id: string)
  {
    exists i :: 0 <= i < |keys| && keys[i].id == id
  }

  /** `keys.findIndex((key) => key.id === id)`. */
  function KeyIndex(keys: seq<Key>, id: string): (i: int)
    ensures -1 <= i < |keys|
    ensures i == -1 <==> !HasKey(keys, id)
    ensures 0 <= i ==> keys[i].id == id && forall j :: 0 <= j < i ==> keys[j].id != id
  {
    FindIndex(keys, (k: Key) => k.id == id)
  }

  /** `keys.find((key) => key.id === id)`. */
  function FindKey(keys: seq<Key>, id: string): (r: Option<Key>)
    ensures r.None? <==> !HasKey(keys, id)
    ensures r.Some? ==> r.value.id == id && r.value == keys[KeyIndex(keys, id)]
  {
    var i := KeyIndex(keys, id);
    if i == -1 then None else Some(keys[i])
  }

  /** `keys.filter((key) => key.name === name)`. */
  function KeysNamed(keys: seq<Key>, name: string): (r: seq<Key>)
    ensures forall i :: 0 <= i < |r| ==> r[i] in keys && r[i].name == name
    ensures forall i :: 0 <= i < |keys| && keys[i].name == name ==> keys[i] in r
  {
    Filter(keys, (k: Key) => k.name == name)
  }

  /** `keys.filter((key) => key.id !== id)`. */
  function KeysWithout(keys: seq<Key>, id: string): (r: seq<Key>)
    ensures !HasKey(r, id)
    ensures forall i :: 0 <= i < |keys| && keys[i].id != id ==> keys[i] in r
    ensures forall i :: 0 <= i < |r| ==> r[i] in keys
  {
    Filter(keys, (k: Key) => k.id != id)
  }

  /** The name filter keeps store order: a store that grew by one key gives
      the old answer followed by that key when it has the name. */
  lemma KeysNamedAppend(keys: seq<Key>, key: Key, name: string)
    ensures KeysNamed([], name) == []
    ensures KeysNamed(keys + [key], name) == KeysNamed(keys, name) + (if key.name == name then [key] else [])
  {
    FilterSnoc(keys, key, (k: Key) => k.name == name);
  }

  /** Deleting keeps the other keys in store order: a store that grew by one
      key gives the old answer followed by that key unless it has the id. */
  lemma KeysWithoutAppend(keys: seq<Key>, key: Key, id: string)
    ensures KeysWithout([], id) == []
    ensures KeysWithout(keys + [key], id) == KeysWithout(keys, id) + (if key.id != id then [key] else [])
  {
    FilterSnoc(keys, key, (k: Key) => k.id != id);
  }

  /** Deleting an id that is not there changes nothing. */
  lemma KeysWithoutAbsent(keys: seq<Key>, id: string)
    requires !HasKey(keys, id)
    ensures KeysWithout(keys, id) == keys
  {
    FilterKeepsAll(keys, (k: Key) => k.id != id);
  }

  predicate HasApplication(applications: seq<Application>, id: string)
  {
    exists i :: 0 <= i < |applications| && applications[i].id == id
  }

  /** `applications.findIndex((app) => app.id === id)`. */
  function ApplicationIndex(applications: seq<Application>, id: string): (i: int)
    ensures -1 <= i < |applications|
    ensures i == -1 <==> !HasApplication(applications, id)
    ensures 0 <= i ==> applications[i].id == id &&
                       forall j :: 0 <= j < i ==> applications[j].id != id
  {
    FindIndex(applications, (a: Application) => a.id == id)
  }

  /** `applications.find((app) => app.id === id)`. */
  function FindApplication(applications: seq<Application>, id: string): (r: Option<Application>)
    ensures r.None? <==> !HasApplication(applications, id)
    ensures r.Some? ==> r.value.id == id && r.value == applications[ApplicationIndex(applications, id)]
  {
    var i := ApplicationIndex(applications, id);
    if i == -1 then None else Some(applications[i])
  }

  /** `applications.filter((app) => app.name === name)`. */
  function ApplicationsNamed(applications: seq<Application>, name: string): (r: seq<Application>)
    ensures forall i :: 0 <= i < |r| ==> r[i] in applications && r[i].name == name
    ensures forall i :: 0 <= i < |applications| && applications[i].name == name ==> applications[i] in r
  {
    Filter(applications, (a: Application) => a.name == name)
  }

  /** `applications.filter((app) => app.id !== id)`. */
  function ApplicationsWithout(applications: seq<Application>, id: string): (r: seq<Application>)
    ensures !HasApplication(r, id)
    ensures forall i :: 0 <= i < |applications| && applications[i].id != id ==> applications[i] in r
    ensures forall i :: 0 <= i < |r| ==> r[i] in applications
  {
    Filter(applications, (a: Application) => a.id != id)
  }

  /** The name filter keeps store order. */
  lemma ApplicationsNamedAppend(applications: seq<Application>, app: Application, name: string)
    ensures ApplicationsNamed([], name) == []
    ensures ApplicationsNamed(applications + [app], name) ==
            ApplicationsNamed(applications, name) + (if app.name == name then [app] else [])
  {
    FilterSnoc(applications, app, (a: Application) => a.name == name);
  }

  /** Deleting keeps the other applications in store order. */
  lemma ApplicationsWithoutAppend(applications: seq<Application>, app: Application, id: string)
    ensures ApplicationsWithout([], id) == []
    ensures ApplicationsWithout(applications + [app], id) ==
            ApplicationsWithout(applications, id) + (if app.id != id then [app] else [])
  {
    FilterSnoc(applications, app, (a: Application) => a.id != id);
  }

  /** Deleting an application id that is not there changes nothing. */
  lemma ApplicationsWithoutAbsent(applications: seq<Application>, id: string)
    requires !HasApplication(applications, id)
    ensures ApplicationsWithout(applications, id) == applications
  {
    FilterKeepsAll(applications, (a: Application) => a.id != id);
  }

  /** `applications.find((app) => app.keys.includes(keyId))`. */
  function ApplicationUsing(applications: seq<Application>, keyId: string): (r: Option<Application>)
    ensures r.None? <==> forall i :: 0 <= i < |applications| ==> keyId !in applications[i].keys
    ensures r.Some? ==> exists i :: 0 <= i < |applications| && applications[i] == r.value &&
                                    keyId in r.value.keys &&
                                    forall j :: 0 <= j < i ==> keyId !in applications[j].keys
  {
    Find(applications, (a: Application) => keyId in a.keys)
  }

  /** The index of the first id in `ids` that names no key, or -1: the id the
      key-existence loop of application create and update stops at. */
  function MissingKeyIndex(keys: seq<Key>, ids: seq<string>): (i: int)
    ensures -1 <= i < |ids|
    ensures i == -1 <==> forall j :: 0 <= j < |ids| ==> HasKey(keys, ids[j])
    ensures 0 <= i ==> !HasKey(keys, ids[i]) && forall j :: 0 <= j < i ==> HasKey(keys, ids[j])
  {
    FindIndex(ids, (id: string) => !HasKey(keys, id))
  }

  /** `{...app, ...payload}`. */
  function Patch(app: Application, payload: UpdateApplicationDto): (r: Application)
    ensures r.id == app.id
  {
    Application(
      app.id,
      if payload.name.Some? then payload.name.value else app.name,
      if payload.template.Some? then payload.template.value else app.template,
      if payload.renderer.Some? then payload.renderer.value else app.renderer,
      if payload.registry.Some? then payload.registry else app.registry,
      if payload.keys.Some? then payload.keys.value else app.keys)
  }

  /** A patch overwrites exactly the members it carries: patching with an
      empty payload is the identity, and each present member wins. */
  lemma PatchOverwritesSuppliedOnly(app: Application, payload: UpdateApplicationDto)
    ensures Patch(app, UpdateApplicationDto(None, None, None, None, None)) == app
    ensures Patch(app, payload).id == app.id
    ensures payload.keys.Some? ==> Patch(app, payload).keys == payload.keys.value
    ensures payload.keys.None? ==> Patch(app, payload).keys == app.keys
    ensures payload.name.Some? ==> Patch(app, payload).name == payload.name.value
    ensures payload.name.None? ==> Patch(app, payload).name == app.name
    ensures payload.template.Some? ==> Patch(app, payload).template == payload.template.value
    ensures payload.template.None? ==> Patch(app, payload).template == app.template
    ensures payload.renderer.Some? ==> Patch(app, payload).renderer == payload.renderer.value
    ensures payload.renderer.None? ==> Patch(app, payload).renderer == app.renderer
    ensures payload.registry.Some? ==> Patch(app, payload).registry == payload.registry
    ensures payload.registry.None? ==> Patch(app, payload).registry == app.registry
  {
  }

  // ------------------------------------------------ cross-collection invariant

  /** Every key id listed by an application names a stored key. */
  ghost predicate ReferencesResolve(keys: seq<Key>, applications: seq<Application>)
  {
    forall a, kid :: a in applications && kid in a.keys ==> HasKey(keys, kid)
  }

  lemma AppendKeyKeepsReferences(keys: seq<Key>, applications: seq<Application>, key: Key)
    requires ReferencesResolve(keys, applications)
    ensures ReferencesResolve(keys + [key], applications)
  {
    forall a, kid | a in applications && kid in a.keys
      ensures HasKey(keys + [key], kid)
    {
      assert HasKey(keys, kid);
      var i :| 0 <= i < |keys| && keys[i].id == kid;
      assert (keys + [key])[i] == keys[i];
    }
  }

  /** Renaming a key keeps its id, so no reference can break. */
  lemma RenameKeyKeepsReferences(keys: seq<Key>, applications: seq<Application>, i: nat, name: string)
    requires i < |keys|
    requires ReferencesResolve(keys, applications)
    ensures ReferencesResolve(keys[i := keys[i].(name := name)], applications)
  {
    var keys' := keys[i := keys[i].(name := name)];
    forall a, kid | a in applications && kid in a.keys
      ensures HasKey(keys', kid)
    {
      assert HasKey(keys, kid);
      var j :| 0 <= j < |keys| && keys[j].id == kid;
      assert keys'[j].id == kid;
    }
  }

  /** Deleting a key that no application lists keeps every reference. */
  lemma DeleteUnusedKeyKeepsReferences(keys: seq<Key>, applications: seq<Application>, id: string)
    requires ReferencesResolve(keys, applications)
    requires ApplicationUsing(applications, id).None?
    ensures ReferencesResolve(KeysWithout(keys, id), applications)
  {
    var keys' := KeysWithout(keys, id);
    forall a, kid | a in applications && kid in a.keys
      ensures HasKey(keys', kid)
    {
      assert HasKey(keys, kid);
      var j :| 0 <= j < |keys| && keys[j].id == kid;
      var ai :| 0 <= ai < |applications| && applications[ai] == a;
      assert kid != id;
      assert keys[j] in keys';
      var k :| 0 <= k < |keys'| && keys'[k] == keys[j];
    }
  }

  /** An application whose key ids all resolve can be appended. */
  lemma AppendApplicationKeepsReferences(keys: seq<Key>, applications: seq<Application>, app: Application)
    requires ReferencesResolve(keys, applications)
    requires MissingKeyIndex(keys, app.keys) == -1
    ensures ReferencesResolve(keys, applications + [app])
  {
    forall a, kid | a in applications + [app] && kid in a.keys
      ensures HasKey(keys, kid)
    {
      if a == app {
        var j :| 0 <= j < |app.keys| && app.keys[j] == kid;
      }
    }
  }

  /** A patch whose key ids (if any) all resolve keeps every reference. */
  lemma PatchApplicationKeepsReferences(keys: seq<Key>, applications: seq<Application>, i: nat,
                                        payload: UpdateApplicationDto)
    requires i < |applications|
    requires ReferencesResolve(keys, applications)
    requires payload.keys.Some? ==> MissingKeyIndex(keys, payload.keys.value) == -1
    ensures ReferencesResolve(keys, applications[i := Patch(applications[i], payload)])
  {
    var apps' := applications[i := Patch(applications[i], payload)];
    forall a, kid | a in apps' && kid in a.keys
      ensures HasKey(keys, kid)
    {
      var j :| 0 <= j < |apps'| && apps'[j] == a;
      if j != i {
        assert applications[j] == a;
      } else if payload.keys.Some? {
        var m :| 0 <= m < |payload.keys.value| && payload.keys.value[m] == kid;
      } else {
        assert applications[i] in applications;
      }
    }
  }

  /** Removing applications never breaks a reference. */
  lemma DeleteApplicationKeepsReferences(keys: seq<Key>, applications: seq<Application>, id: string)
    requires ReferencesResolve(keys, applications)
    ensures ReferencesResolve(keys, ApplicationsWithout(applications, id))
  {
    var apps' := ApplicationsWithout(applications, id);
    forall a, kid | a in apps' && kid in a.keys
      ensures HasKey(keys, kid)
    {
      var j :| 0 <= j < |apps'| && apps'[j] == a;
      assert a in applications;
    }
  }

  // ------------------------------------------------------- DID key documents

  const DidContext: string := "https://www.w3.org/ns/did/v1"
  const Ed25519Context: string := "https://w3id.org/security/suites/ed25519-2020/v1"

  /** An entry of `authentication` or `assertionMethod`. */
  datatype VerificationMethod = VerificationMethod(
    id: string, methodType: KeyType, controller: string,
    publicKeyMultibase: string, privateKeyMultibase: Option<string>)

  datatype KeyDocument = KeyDocument(
    context: seq<string>, id: string,
    authentication: seq<VerificationMethod>, assertionMethod: seq<VerificationMethod>)

  function Method(domain: string, key: Key, withPrivate: bool): VerificationMethod
  {
    VerificationMethod(DidWeb.KeyDid(domain, key.id), key.keyType, DidWeb.DomainDid(domain),
                       key.publicKey, if withPrivate then Some(key.privateKey) else None)
  }

  /** The document `GET /keys/{id}/did.json` serves: the private material is
      in the `authentication` entry only. */
  function ExportedKeyDocument(domain: string, key: Key): (d: KeyDocument)
    ensures DidWeb.ParseResourceDid(domain, "keys", d.id) == Some(key.id)
    ensures |d.authentication| == 1 && |d.assertionMethod| == 1
    ensures d.authentication[0].id == d.id && d.assertionMethod[0].id == d.id
    ensures d.authentication[0].controller == d.assertionMethod[0].controller == DidWeb.DomainDid(domain)
    ensures d.authentication[0].privateKeyMultibase == Some(key.privateKey)
    ensures d.assertionMethod[0].privateKeyMultibase.None?
  {
    DidWeb.ParseResourceDidRoundTrip(domain, "keys", key.id);
    KeyDocument([DidContext, Ed25519Context], DidWeb.KeyDid(domain, key.id),
                [Method(domain, key, true)], [Method(domain, key, false)])
  }

  /** The in-memory document the issuer signs with: both entries carry the
      public and the private material. */
  function SigningKeyDocument(domain: string, key: Key): (d: KeyDocument)
    ensures DidWeb.ParseResourceDid(domain, "keys", d.id) == Some(key.id)
    ensures |d.authentication| == 1 && |d.assertionMethod| == 1
    ensures d.authentication[0] == d.assertionMethod[0]
    ensures d.authentication[0].id == d.id && d.authentication[0].controller == DidWeb.DomainDid(domain)
    ensures d.authentication[0].publicKeyMultibase == key.publicKey
    ensures d.authentication[0].privateKeyMultibase == Some(key.privateKey)
  {
    DidWeb.ParseResourceDidRoundTrip(domain, "keys", key.id);
    KeyDocument([DidContext, Ed25519Context], DidWeb.KeyDid(domain, key.id),
                [Method(domain, key, true)], [Method(domain, key, true)])
  }

  /** The exported document is the signing document with the private
      material taken out of `assertionMethod`. */
  lemma ExportedIsSigningWithoutAssertionSecret(domain: string, key: Key)
    ensures var s := SigningKeyDocument(domain, key);
            ExportedKeyDocument(domain, key) ==
            s.(assertionMethod := [s.assertionMethod[0].(privateKeyMultibase := None)])
  {
  }
}
