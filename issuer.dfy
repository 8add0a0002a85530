/** The generator's issuer: DID resolution with its error translation, and the
    issuance pipeline sign -> resolve template -> render -> register. The
    signing library, the DID resolver and the two HTTP services are oracles
    (the `Services` fields); every call made to one is recorded in a trace. */
module Issuer {
  import opened Common
  import opened GeneratorApi
  import DidWeb

  // ------------------------------------------------------------ resolveDid

  /** The `notFound` error of DID resolution metadata. */
  const NotFound: string := "notFound"

  /** What the DID resolver returns: a document, resolution error metadata,
      or both absent. */
  datatype Resolution = Resolution(didDocument: Option<Json>, error: Option<string>)

  function CouldNotResolve(did: string): string
  {
    "Could not resolve DID " + did + "."
  }

  /** `resolveDid`: only a missing document reported as `notFound` becomes an
      error; otherwise the document is returned as it is, absent or not. */
  function ResolveDid(did: string, resolution: Resolution): (r: Result<Option<Json>>)
    ensures r.Err? <==> resolution.didDocument.None? && resolution.error == Some(NotFound)
    ensures r.Ok? ==> r.value == resolution.didDocument
    ensures r.Err? ==> r.error.ServerError? && r.error.code == EntityNotFound &&
                       OccursAt(did, r.error.message, |"Could not resolve DID "|)
  {
    if resolution.didDocument.None? && resolution.error == Some(NotFound) then
      Err(ServerError(EntityNotFound, CouldNotResolve(did)))
    else
      Ok(resolution.didDocument)
  }

  /** The translation tests for an absent document only: a document reported
      as `null` together with `notFound` is passed on as it is. */
  lemma NullDocumentIsPassedOn(did: string)
    ensures ResolveDid(did, Resolution(Some(Null), Some(NotFound))) == Ok(Some(Null))
  {
  }

  // ------------------------------------------------------- key selection

  /** The signing key: the stored key whose id is the application's first
      key id. `None` where the source's `find(...)!` yields `undefined`. */
  function SigningKey(keys: seq<Key>, app: Application): (r: Option<Key>)
    ensures r.Some? <==> |app.keys| > 0 && HasKey(keys, app.keys[0])
    ensures r.Some? ==> r.value.id == app.keys[0] &&
                        exists i :: 0 <= i < |keys| && keys[i] == r.value &&
                                    forall j :: 0 <= j < i ==> keys[j].id != app.keys[0]
  {
    if |app.keys| == 0 then None else FindKey(keys, app.keys[0])
  }

  /** In a store whose references resolve, every stored application with at
      least one key has a signing key. */
  lemma StoredApplicationHasSigningKey(keys: seq<Key>, applications: seq<Application>, app: Application)
    requires ReferencesResolve(keys, applications)
    requires app in applications && |app.keys| > 0
    ensures SigningKey(keys, app).Some?
  {
    assert app.keys[0] in app.keys;
  }

  // ------------------------------------------------------ render data

  /** `credential.credentialSubject` spread into an object: the members of an
      object subject, nothing otherwise. */
  function Subject(credential: Record): Record
  {
    if "credentialSubject" in credential && credential["credentialSubject"].Obj? then
      credential["credentialSubject"].fields
    else map[]
  }

  /** The render data: the subjects folded left to right, each one's members
      overwriting those already present. */
  function MergeSubjects(credentials: seq<Record>): (r: Record)
    ensures credentials == [] ==> r == map[]
    ensures credentials != [] ==>
              forall k :: k in Subject(credentials[|credentials| - 1]) ==>
                            k in r && r[k] == Subject(credentials[|credentials| - 1])[k]
  {
    if credentials == [] then map[]
    else MergeSubjects(credentials[..|credentials| - 1]) + Subject(credentials[|credentials| - 1])
  }

  /** The members of the render data are those of all subjects together. */
  lemma {:induction false} MergeSubjectsKeys(credentials: seq<Record>, k: string)
    ensures k in MergeSubjects(credentials) <==>
            exists i :: 0 <= i < |credentials| && k in Subject(credentials[i])
  {
    if credentials != [] {
      var n := |credentials| - 1;
      var init := credentials[..n];
      MergeSubjectsKeys(init, k);
      if k in MergeSubjects(init) {
        var i :| 0 <= i < |init| && k in Subject(init[i]);
        assert credentials[i] == init[i];
      }
      if exists i :: 0 <= i < |credentials| && k in Subject(credentials[i]) {
        var i :| 0 <= i < |credentials| && k in Subject(credentials[i]);
        if i < n {
          assert init[i] == credentials[i];
        }
      }
    }
  }

  /** Last write wins: a member's value is the one of the last credential
      whose subject has that member. */
  lemma {:induction false} MergeSubjectsLastWins(credentials: seq<Record>, i: nat, k: string)
    requires i < |credentials| && k in Subject(credentials[i])
    requires forall j :: i < j < |credentials| ==> k !in Subject(credentials[j])
    ensures k in MergeSubjects(credentials)
    ensures MergeSubjects(credentials)[k] == Subject(credentials[i])[k]
  {
    var n := |credentials| - 1;
    if i < n {
      var init := credentials[..n];
      assert init[i] == credentials[i];
      MergeSubjectsLastWins(init, i, k);
    }
  }

  /** Later subjects override earlier ones: `[{a: 1}, {a: 2, b: 3}]` renders
      with `{a: 2, b: 3}`. */
  lemma MergeSubjectsExample()
    ensures var first := map["credentialSubject" := Obj(map["a" := Number(1)])];
            var second := map["credentialSubject" := Obj(map["a" := Number(2), "b" := Number(3)])];
            MergeSubjects([first, second]) == map["a" := Number(2), "b" := Number(3)]
  {
    var first := map["credentialSubject" := Obj(map["a" := Number(1)])];
    var second := map["credentialSubject" := Obj(map["a" := Number(2), "b" := Number(3)])];
    assert [first, second][..1] == [first];
    assert [first][..0] == [];
    assert MergeSubjects([first]) == map["a" := Number(1)];
    assert MergeSubjects([first, second]) == map["a" := Number(1)] + map["a" := Number(2), "b" := Number(3)];
  }

  // ------------------------------------------------------- the pipeline

  /** The arguments of `createAndSignPresentation`, with the key document the
      issuer was created from. */
  datatype SignRequest = SignRequest(
    credentials: seq<Record>, id: string, holder: Option<string>,
    verificationMethod: string, challenge: string, issuerDocument: KeyDocument)

  /** The body posted to the renderer. */
  datatype RenderBody = RenderBody(template: Option<Json>, data: Record, output: string)

  /** The `error` member of a downstream reply envelope. */
  datatype ErrorBody = ErrorBody(code: string, message: string)

  /** A downstream reply envelope: `{data?, error?}`. */
  datatype Reply = Reply(data: Option<Json>, error: Option<ErrorBody>)

  /** The foreign collaborators. Each yields `None` when the call throws
      instead of returning: the signing library failing, the resolver
      failing, or an HTTP call rejected (a network error, or a reply body
      that is not JSON; HTTP error statuses do not throw). */
  datatype Services = Services(
    sign: SignRequest -> Option<Json>,
    resolve: string -> Option<Resolution>,
    render: (string, RenderBody) -> Option<Reply>,
    register: (string, Json) -> Option<Reply>)

  /** One call made to a collaborator. */
  datatype Call =
    | Sign(request: SignRequest)
    | Resolve(did: string)
    | PostRender(endpoint: string, body: RenderBody)
    | PostRegistry(endpoint: string, presentation: Json)

  /** `{certificate, presentation}`. */
  datatype Issued = Issued(certificate: Option<Json>, presentation: Json)

  /** What an issuance returns, with the calls it made in order. */
  datatype Run = Run(result: Result<Issued>, calls: seq<Call>)

  /** A downstream error re-thrown with its own code and message. */
  function Proxy(e: ErrorBody): Failure
  {
    ServerError(e.code, e.message)
  }

  function RenderEndpoint(app: Application): string
  {
    app.renderer.api + "/render"
  }

  function RegistryEndpoint(registry: Endpoint): string
  {
    registry.api + "/presentations"
  }

  /** The signing step's request for `key`. */
  function SignRequestFor(domain: string, key: Key, credentials: seq<Record>, holder: Option<string>,
                          presentationId: string, challenge: string): SignRequest
  {
    SignRequest(credentials, DidWeb.PresentationDid(domain, presentationId), holder,
                DidWeb.KeyDid(domain, key.id), challenge, SigningKeyDocument(domain, key))
  }

  /** The outcome of a downstream reply: a thrown call is uncaught, an error
      envelope is re-thrown, anything else lets the pipeline go on. */
  predicate Replied(reply: Option<Reply>)
  {
    reply.Some? && reply.value.error.None?
  }

  function Failed(reply: Option<Reply>): Failure
    requires !Replied(reply)
  {
    if reply.None? then Uncaught else Proxy(reply.value.error.value)
  }

  /** The issuance pipeline as a specification. `presentationId` and
      `challenge` are the two freshly generated ids. */
  function Issuance(keys: seq<Key>, app: Application, credentials: seq<Record>, output: string,
                    holder: Option<string>, domain: string, presentationId: string,
                    challenge: string, services: Services): (run: Run)
    ensures |run.calls| <= 4
    ensures run.result.Ok? ==> |run.calls| == 4
  {
    match SigningKey(keys, app)
    case None => Run(Err(Uncaught), [])
    case Some(key) =>
      var request := SignRequestFor(domain, key, credentials, holder, presentationId, challenge);
      match services.sign(request)
      case None => Run(Err(Uncaught), [Sign(request)])
      case Some(presentation) =>
        var did := app.template.id;
        var calls := [Sign(request), Resolve(did)];
        match services.resolve(did)
        case None => Run(Err(Uncaught), calls)
        case Some(resolution) =>
          var template := ResolveDid(did, resolution);
          if template.Err? then Run(Err(template.error), calls)
          else if app.registry.None? then Run(Err(Uncaught), calls)
          else
            var registry := RegistryEndpoint(app.registry.value);
            var body := RenderBody(template.value, MergeSubjects(credentials), output);
            var rendered := services.render(RenderEndpoint(app), body);
            var calls := calls + [PostRender(RenderEndpoint(app), body)];
            if !Replied(rendered) then Run(Err(Failed(rendered)), calls)
            else
              var registered := services.register(registry, presentation);
              var calls := calls + [PostRegistry(registry, presentation)];
              if !Replied(registered) then Run(Err(Failed(registered)), calls)
              else Run(Ok(Issued(rendered.value.data, presentation)), calls)
  }

  /** `issuePresentation`: the same steps, with the render data assembled by
      the source's `for` loop over the credentials. */
  method IssuePresentation(keys: seq<Key>, app: Application, credentials: seq<Record>, output: string,
                           holder: Option<string>, domain: string, presentationId: string,
                           challenge: string, services: Services) returns (run: Run)
    ensures run == Issuance(keys, app, credentials, output, holder, domain, presentationId,
                            challenge, services)
  {
    var found := SigningKey(keys, app);
    if found.None? {
      return Run(Err(Uncaught), []);
    }
    var key := found.value;
    var request := SignRequestFor(domain, key, credentials, holder, presentationId, challenge);
    var calls := [Sign(request)];
    var signed := services.sign(request);
    if signed.None? {
      return Run(Err(Uncaught), calls);
    }
    var presentation := signed.value;

    var did := app.template.id;
    var resolution := services.resolve(did);
    calls := calls + [Resolve(did)];
    if resolution.None? {
      return Run(Err(Uncaught), calls);
    }
    var template := ResolveDid(did, resolution.value);
    if template.Err? {
      return Run(Err(template.error), calls);
    }
    if app.registry.None? {
      return Run(Err(Uncaught), calls);
    }
    var registry := RegistryEndpoint(app.registry.value);

    var data: Record := map[];
    for i := 0 to |credentials|
      invariant data == MergeSubjects(credentials[..i])
    {
      assert credentials[..i + 1][..i] == credentials[..i];
      data := data + Subject(credentials[i]);
    }
    assert credentials[..|credentials|] == credentials;

    var body := RenderBody(template.value, data, output);
    var rendered := services.render(RenderEndpoint(app), body);
    calls := calls + [PostRender(RenderEndpoint(app), body)];
    if !Replied(rendered) {
      return Run(Err(Failed(rendered)), calls);
    }

    var registered := services.register(registry, presentation);
    calls := calls + [PostRegistry(registry, presentation)];
    if !Replied(registered) {
      return Run(Err(Failed(registered)), calls);
    }
    run := Run(Ok(Issued(rendered.value.data, presentation)), calls);
  }

  // ------------------------------------------------ pipeline properties

  /** The position a call takes in the fixed order sign, resolve, render,
      register. */
  function Stage(c: Call): nat
  {
    match c
    case Sign(_) => 0
    case Resolve(_) => 1
    case PostRender(_, _) => 2
    case PostRegistry(_, _) => 3
  }

  /** Every run makes a prefix of sign -> resolve -> render -> register, each
      step at most once, and stops at the first failure: a step that went
      through is always followed by the next one, and a run succeeds exactly
      when all four were made and the registry replied without error. */
  lemma IssuanceCallOrder(keys: seq<Key>, app: Application, credentials: seq<Record>, output: string,
                          holder: Option<string>, domain: string, presentationId: string,
                          challenge: string, services: Services)
    ensures var run := Issuance(keys, app, credentials, output, holder, domain, presentationId,
                                challenge, services);
            && (forall i :: 0 <= i < |run.calls| ==> Stage(run.calls[i]) == i)
            && (SigningKey(keys, app).Some? ==> |run.calls| >= 1)
            && (|run.calls| >= 1 && services.sign(run.calls[0].request).Some? ==> |run.calls| >= 2)
            && ((|run.calls| >= 2 && services.resolve(run.calls[1].did).Some? &&
                 ResolveDid(run.calls[1].did, services.resolve(run.calls[1].did).value).Ok? &&
                 app.registry.Some?) ==> |run.calls| >= 3)
            && ((|run.calls| >= 3 && Replied(services.render(run.calls[2].endpoint, run.calls[2].body)))
                ==> |run.calls| == 4)
            && (run.result.Ok? <==>
                |run.calls| == 4 && Replied(services.register(run.calls[3].endpoint, run.calls[3].presentation)))
  {
  }

  /** A render that throws ends the run uncaught, and an error reply is
      re-thrown with the renderer's own code and message; either way the
      registry is never called. */
  lemma RenderFailureSkipsRegistry(keys: seq<Key>, app: Application, credentials: seq<Record>,
                                   output: string, holder: Option<string>, domain: string,
                                   presentationId: string, challenge: string, services: Services)
    requires var run := Issuance(keys, app, credentials, output, holder, domain, presentationId,
                                 challenge, services);
             |run.calls| >= 3 && !Replied(services.render(run.calls[2].endpoint, run.calls[2].body))
    ensures var run := Issuance(keys, app, credentials, output, holder, domain, presentationId,
                                challenge, services);
            var reply := services.render(run.calls[2].endpoint, run.calls[2].body);
            && (reply.None? ==> run.result == Err(Uncaught))
            && (reply.Some? ==> run.result == Err(ServerError(reply.value.error.value.code,
                                                              reply.value.error.value.message)))
            && |run.calls| == 3
            && forall i :: 0 <= i < |run.calls| ==> !run.calls[i].PostRegistry?
  {
  }

  /** A registration that throws ends the run uncaught, and an error reply is
      re-thrown with the registry's own code and message. */
  lemma RegistryFailureProxied(keys: seq<Key>, app: Application, credentials: seq<Record>,
                               output: string, holder: Option<string>, domain: string,
                               presentationId: string, challenge: string, services: Services)
    requires var run := Issuance(keys, app, credentials, output, holder, domain, presentationId,
                                 challenge, services);
             |run.calls| == 4 && !Replied(services.register(run.calls[3].endpoint, run.calls[3].presentation))
    ensures var run := Issuance(keys, app, credentials, output, holder, domain, presentationId,
                                challenge, services);
            var reply := services.register(run.calls[3].endpoint, run.calls[3].presentation);
            && (reply.None? ==> run.result == Err(Uncaught))
            && (reply.Some? ==> run.result == Err(ServerError(reply.value.error.value.code,
                                                              reply.value.error.value.message)))
  {
  }

  /** A template the resolver reports as `notFound` fails the run with
      `entity-not-found`, before anything is rendered. */
  lemma UnresolvedTemplateIsNotFound(keys: seq<Key>, app: Application, credentials: seq<Record>,
                                     output: string, holder: Option<string>, domain: string,
                                     presentationId: string, challenge: string, services: Services)
    requires SigningKey(keys, app).Some?
    requires services.sign(SignRequestFor(domain, SigningKey(keys, app).value, credentials, holder,
                                           presentationId, challenge)).Some?
    requires services.resolve(app.template.id) == Some(Resolution(None, Some(NotFound)))
    ensures var run := Issuance(keys, app, credentials, output, holder, domain, presentationId,
                                challenge, services);
            && run.result == Err(ServerError(EntityNotFound, CouldNotResolve(app.template.id)))
            && |run.calls| == 2
  {
  }

  /** What a successful run returns and what it sent: the presentation is
      signed with the signing document of the key named by the application's
      first key id, under the presentation's did:web id, and wraps the
      credentials for the holder; the resolved template and the merged
      subjects go to the application's renderer; the signed presentation is
      the one posted to the registry and returned; the certificate is the
      renderer's `data`. */
  lemma IssuanceSuccess(keys: seq<Key>, app: Application, credentials: seq<Record>, output: string,
                        holder: Option<string>, domain: string, presentationId: string,
                        challenge: string, services: Services)
    requires Issuance(keys, app, credentials, output, holder, domain, presentationId,
                      challenge, services).result.Ok?
    ensures var run := Issuance(keys, app, credentials, output, holder, domain, presentationId,
                                challenge, services);
            var issued := run.result.value;
            && |run.calls| == 4
            && SigningKey(keys, app).Some?
            && run.calls[0].request.credentials == credentials
            && run.calls[0].request.holder == holder
            && run.calls[0].request.id == DidWeb.PresentationDid(domain, presentationId)
            && run.calls[0].request.issuerDocument == SigningKeyDocument(domain, SigningKey(keys, app).value)
            && run.calls[0].request.verificationMethod == run.calls[0].request.issuerDocument.id
            && DidWeb.ParseResourceDid(domain, "keys", run.calls[0].request.verificationMethod) == Some(app.keys[0])
            && services.sign(run.calls[0].request) == Some(issued.presentation)
            && run.calls[1] == Resolve(app.template.id)
            && services.resolve(app.template.id).Some?
            && run.calls[2].endpoint == RenderEndpoint(app)
            && run.calls[2].body.template == services.resolve(app.template.id).value.didDocument
            && run.calls[2].body.data == MergeSubjects(credentials)
            && run.calls[2].body.output == output
            && services.render(RenderEndpoint(app), run.calls[2].body).Some?
            && issued.certificate == services.render(RenderEndpoint(app), run.calls[2].body).value.data
            && app.registry.Some?
            && run.calls[3] == PostRegistry(RegistryEndpoint(app.registry.value), issued.presentation)
  {
    var key := SigningKey(keys, app).value;
    DidWeb.ParseResourceDidRoundTrip(domain, "keys", key.id);
  }

  /** An application without a registry fails right after the template is
      resolved, before anything is rendered or registered. */
  lemma MissingRegistryStopsAfterResolve(keys: seq<Key>, app: Application, credentials: seq<Record>,
                                         output: string, holder: Option<string>, domain: string,
                                         presentationId: string, challenge: string, services: Services)
    requires SigningKey(keys, app).Some?
    requires services.sign(SignRequestFor(domain, SigningKey(keys, app).value, credentials, holder,
                                           presentationId, challenge)).Some?
    requires services.resolve(app.template.id).Some?
    requires ResolveDid(app.template.id, services.resolve(app.template.id).value).Ok?
    requires app.registry.None?
    ensures var run := Issuance(keys, app, credentials, output, holder, domain, presentationId,
                                challenge, services);
            run.result == Err(Uncaught) && |run.calls| == 2 && run.calls[1] == Resolve(app.template.id)
  {
  }

  /** A missing signing key fails the run before any collaborator is called. */
  lemma MissingSigningKeyCallsNothing(keys: seq<Key>, app: Application, credentials: seq<Record>,
                                      output: string, holder: Option<string>, domain: string,
                                      presentationId: string, challenge: string, services: Services)
    requires SigningKey(keys, app).None?
    ensures Issuance(keys, app, credentials, output, holder, domain, presentationId, challenge,
                     services) == Run(Err(Uncaught), [])
  {
  }
}
