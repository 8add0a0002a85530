/** The generator's in-memory database and the handlers of its `/keys` and
    `/applications` routes. Each handler runs atomically; writing the database
    back to its file is not modelled. */
module Generator {
  import opened Common
  import opened GeneratorApi
  import Issuer

  class Database {
    var keys: seq<Key>
    var applications: seq<Application>

    constructor ()
      ensures keys == [] && applications == []
      ensures Consistent()
    {
      keys := [];
      applications := [];
    }

    /** The cross-collection invariant every handler keeps. */
    ghost predicate Consistent()
      reads this
    {
      ReferencesResolve(keys, applications)
    }

    // ------------------------------------------------------------- keys

    /** `GET /keys`: the keys with the given name, or all of them. */
    function ListKeys(name: Option<string>): (r: seq<Key>)
      reads this
      ensures name.None? ==> r == keys
      ensures name.Some? ==> r == KeysNamed(keys, name.value)
      ensures name.Some? ==> (forall i :: 0 <= i < |r| ==> r[i] in keys && r[i].name == name.value) &&
                             (forall i :: 0 <= i < |keys| && keys[i].name == name.value ==> keys[i] in r)
    {
      if name.Some? then KeysNamed(keys, name.value) else keys
    }

    /** `POST /keys`: stores the key built from the fresh `id`, the payload,
        the timestamp `created` and the generated `pair`; replies without the
        private material. */
    method CreateKey(id: string, payload: KeyDto, created: string, pair: KeyPair) returns (details: KeyDetails)
      modifies this
      ensures keys == old(keys) + [Key(id, payload.name, payload.keyType, created, pair.publicKey, pair.privateKey)]
      ensures applications == old(applications)
      ensures details == Details(keys[|keys| - 1])
      ensures old(Consistent()) ==> Consistent()
    {
      var key := Key(id, payload.name, payload.keyType, created, pair.publicKey, pair.privateKey);
      if Consistent() {
        AppendKeyKeepsReferences(keys, applications, key);
      }
      keys := keys + [key];
      details := Details(key);
    }

    /** `GET /keys/{id}`: the first key with the id, without `private`. */
    function GetKey(id: string): (r: Result<KeyDetails>)
      reads this
      ensures r.Ok? <==> HasKey(keys, id)
      ensures r.Ok? ==> r.value == Details(keys[KeyIndex(keys, id)]) && r.value.id == id
      ensures r.Err? ==> r.error == ServerError(EntityNotFound, KeyNotFound)
    {
      match FindKey(keys, id)
      case None => Err(ServerError(EntityNotFound, KeyNotFound))
      case Some(key) => Ok(Details(key))
    }

    /** `PATCH /keys/{id}`: renames the first key with the id in place. */
    method UpdateKey(id: string, payload: UpdateKeyDto) returns (r: Result<KeyDetails>)
      modifies this
      ensures applications == old(applications)
      ensures !HasKey(old(keys), id) ==>
                r == Err(ServerError(EntityNotFound, KeyNotFound)) && keys == old(keys)
      ensures HasKey(old(keys), id) ==>
                var i := KeyIndex(old(keys), id);
                && keys == old(keys)[i := old(keys)[i].(name := payload.name)]
                && r == Ok(Details(keys[i]))
      ensures old(Consistent()) ==> Consistent()
    {
      var i := KeyIndex(keys, id);
      if i == -1 {
        return Err(ServerError(EntityNotFound, KeyNotFound));
      }
      var key := keys[i].(name := payload.name);
      if Consistent() {
        RenameKeyKeepsReferences(keys, applications, i, payload.name);
      }
      keys := keys[i := key];
      r := Ok(Details(key));
    }

    /** `DELETE /keys/{id}`: refused while an application lists the key;
        otherwise every key with the id is removed. */
    method DeleteKey(id: string) returns (r: Result<()>)
      modifies this
      ensures applications == old(applications)
      ensures ApplicationUsing(old(applications), id).Some? ==>
                && r == Err(ServerError(PreconditionFailed,
                                        KeyInUse(ApplicationUsing(old(applications), id).value.name)))
                && keys == old(keys)
      ensures ApplicationUsing(old(applications), id).None? ==>
                r == Ok(()) && keys == KeysWithout(old(keys), id)
      ensures old(Consistent()) ==> Consistent()
    {
      var user := ApplicationUsing(applications, id);
      if user.Some? {
        return Err(ServerError(PreconditionFailed, KeyInUse(user.value.name)));
      }
      if Consistent() {
        DeleteUnusedKeyKeepsReferences(keys, applications, id);
      }
      keys := KeysWithout(keys, id);
      r := Ok(());
    }

    /** `GET /keys/{id}/did.json`: the key exported as a DID document. */
    function KeyDid(domain: string, id: string): (r: Result<KeyDocument>)
      reads this
      ensures r.Ok? <==> HasKey(keys, id)
      ensures r.Ok? ==> r.value == ExportedKeyDocument(domain, keys[KeyIndex(keys, id)])
      ensures r.Ok? ==> r.value.id == r.value.authentication[0].id == r.value.assertionMethod[0].id &&
                        DidWeb.ParseResourceDid(domain, "keys", r.value.id) == Some(id)
      ensures r.Err? ==> r.error == ServerError(EntityNotFound, KeyNotFound)
    {
      match FindKey(keys, id)
      case None => Err(ServerError(EntityNotFound, KeyNotFound))
      case Some(key) => Ok(ExportedKeyDocument(domain, key))
    }

    // ------------------------------------------------------ applications

    /** `GET /applications`: the applications with the given name, or all. */
    function ListApplications(name: Option<string>): (r: seq<Application>)
      reads this
      ensures name.None? ==> r == applications
      ensures name.Some? ==> r == ApplicationsNamed(applications, name.value)
      ensures name.Some? ==>
                (forall i :: 0 <= i < |r| ==> r[i] in applications && r[i].name == name.value) &&
                (forall i :: 0 <= i < |applications| && applications[i].name == name.value ==> applications[i] in r)
    {
      if name.Some? then ApplicationsNamed(applications, name.value) else applications
    }

    /** `POST /applications`: every listed key id must name a key (the first
        one that does not is reported) before the application, with the
        fresh `id`, is appended. */
    method CreateApplication(id: string, payload: ApplicationDto) returns (r: Result<Application>)
      modifies this
      ensures keys == old(keys)
      ensures var m := MissingKeyIndex(keys, payload.keys);
              0 <= m ==> r == Err(ServerError(EntityNotFound, MissingKeypair(payload.keys[m]))) &&
                         applications == old(applications)
      ensures MissingKeyIndex(keys, payload.keys) == -1 ==>
                var app := Application(id, payload.name, payload.template, payload.renderer,
                                       payload.registry, payload.keys);
                applications == old(applications) + [app] && r == Ok(app)
      ensures old(Consistent()) ==> Consistent()
    {
      var i := 0;
      while i < |payload.keys|
        invariant 0 <= i <= |payload.keys|
        invariant forall j :: 0 <= j < i ==> HasKey(keys, payload.keys[j])
      {
        if FindKey(keys, payload.keys[i]).None? {
          return Err(ServerError(EntityNotFound, MissingKeypair(payload.keys[i])));
        }
        i := i + 1;
      }
      var app := Application(id, payload.name, payload.template, payload.renderer,
                             payload.registry, payload.keys);
      if Consistent() {
        AppendApplicationKeepsReferences(keys, applications, app);
      }
      applications := applications + [app];
      r := Ok(app);
    }

    /** `GET /applications/{id}`. */
    function GetApplication(id: string): (r: Result<Application>)
      reads this
      ensures r.Ok? <==> HasApplication(applications, id)
      ensures r.Ok? ==> r.value == applications[ApplicationIndex(applications, id)] && r.value.id == id
      ensures r.Err? ==> r.error == ServerError(EntityNotFound, ApplicationNotFound)
    {
      match FindApplication(applications, id)
      case None => Err(ServerError(EntityNotFound, ApplicationNotFound))
      case Some(app) => Ok(app)
    }

    /** `PATCH /applications/{id}`: the supplied key ids are checked first,
        then the application is looked up, then the supplied members are
        written over it in place. */
    method UpdateApplication(id: string, payload: UpdateApplicationDto) returns (r: Result<Application>)
      modifies this
      ensures keys == old(keys)
      ensures payload.keys.Some? && 0 <= MissingKeyIndex(keys, payload.keys.value) ==>
                && r == Err(ServerError(EntityNotFound,
                                        MissingKeypair(payload.keys.value[MissingKeyIndex(keys, payload.keys.value)])))
                && applications == old(applications)
      ensures (payload.keys.None? || MissingKeyIndex(keys, payload.keys.value) == -1) ==>
                var i := ApplicationIndex(old(applications), id);
                && (i == -1 ==> r == Err(ServerError(EntityNotFound, ApplicationNotFound)) &&
                                applications == old(applications))
                && (0 <= i ==> applications == old(applications)[i := Patch(old(applications)[i], payload)] &&
                               r == Ok(applications[i]))
      ensures old(Consistent()) ==> Consistent()
    {
      if payload.keys.Some? {
        var ids := payload.keys.value;
        var j := 0;
        while j < |ids|
          invariant 0 <= j <= |ids|
          invariant forall m :: 0 <= m < j ==> HasKey(keys, ids[m])
        {
          if FindKey(keys, ids[j]).None? {
            return Err(ServerError(EntityNotFound, MissingKeypair(ids[j])));
          }
          j := j + 1;
        }
      }
      var i := ApplicationIndex(applications, id);
      if i == -1 {
        return Err(ServerError(EntityNotFound, ApplicationNotFound));
      }
      var app := Patch(applications[i], payload);
      if Consistent() {
        PatchApplicationKeepsReferences(keys, applications, i, payload);
      }
      applications := applications[i := app];
      r := Ok(app);
    }

    /** `DELETE /applications/{id}`: removes every application with the id;
        succeeds whether or not there was one. */
    method DeleteApplication(id: string) returns (r: Result<()>)
      modifies this
      ensures keys == old(keys)
      ensures applications == ApplicationsWithout(old(applications), id)
      ensures r == Ok(())
      ensures old(Consistent()) ==> Consistent()
    {
      if Consistent() {
        DeleteApplicationKeepsReferences(keys, applications, id);
      }
      applications := ApplicationsWithout(applications, id);
      r := Ok(());
    }

    /** `POST /applications/{id}/issue`: an unknown application fails before
        any issuance step; a known one runs the issuance pipeline with the
        stored keys. */
    method Issue(applicationId: string, payload: PresentationDto, domain: string,
                 presentationId: string, challenge: string, services: Issuer.Services)
      returns (run: Issuer.Run)
      ensures FindApplication(applications, applicationId).None? ==>
                run == Issuer.Run(Err(ServerError(EntityNotFound, ApplicationNotFound)), [])
      ensures FindApplication(applications, applicationId).Some? ==>
                run == Issuer.Issuance(keys, FindApplication(applications, applicationId).value,
                                       payload.credentials, payload.output, payload.holder,
                                       domain, presentationId, challenge, services)
    {
      var app := FindApplication(applications, applicationId);
      if app.None? {
        return Issuer.Run(Err(ServerError(EntityNotFound, ApplicationNotFound)), []);
      }
      run := Issuer.IssuePresentation(keys, app.value, payload.credentials, payload.output,
                                      payload.holder, domain, presentationId, challenge, services);
    }
  }
}
