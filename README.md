# verifiable-presentation — a Dafny model of the handlers and the issuance pipeline

This project models the request handlers of the four services of the
verifiable-presentation system and the generator's issuance pipeline:

- **generator**: keys and applications in one database. The key handlers are
  list, create, get, rename, delete and export as a DID document. The
  application handlers are list, create, get, patch, delete and issue.
  Keys and applications are tied by one cross-collection invariant: every key
  id an application lists names a stored key.
- **issuer** (inside the generator): `resolveDid`, which turns resolution
  metadata into an error, and `issuePresentation`. The pipeline goes sign →
  resolve template → render → register, and the render data is the
  credential subjects merged left to right.
- **registry**: presentations, with list filtered by subject, create, get
  and update in place.
- **template store**: templates, with list, create, get and the template's
  DID document. The DID document handler exists in the source, but no route
  serves it.
- **renderer**: `render`. It checks the data against the schema and builds
  the `precondition-failed` message from the first validation error. Only
  data that passed is compiled.

Each service's in-memory database is a Dafny `class` with `seq` fields, and
the handlers that change it are methods with `modifies this`. Read-only
handlers are functions that `reads this`. The issuance pipeline has two
forms:

- a specification function, `Issuer.Issuance`;
- a method, `Issuer.IssuePresentation`, which merges the subjects with the
  source's loop and is proved equal to it.

The foreign collaborators are fields of `Issuer.Services` and
`Renderer.Collaborators`: the signing library, the DID resolver, the
renderer and registry endpoints, the JSON-schema validator and the template
engine. Each run of the pipeline records the calls it made, so call order
and "nothing after a failure" can be stated.

Fresh ids, the creation timestamp, generated key pairs and the configured
domain are parameters.

A thrown `ServerError` is `Err(ServerError(code, message))`. Any other
exception is `Err(Uncaught)`. That covers a `TypeError` from reading a member
of `undefined`. It also covers a collaborator of the issuer that throws
instead of returning: the signing library, the DID resolver, or an HTTP call
that is rejected (a network error, or a reply body that is not JSON). Each
issuer collaborator returns an `Option`, with `None` for a throw. So does the
renderer's template engine, which throws on a template syntax error or on an
error while evaluating the template against the data. HTTP error
statuses do not throw, because the HTTP client is created with
`throwHttpErrors: false`.

Modules: `Common` (JSON, `Option`, `Result`, error codes), `Arrays` (the
array methods the handlers use), `DidWeb` (did:web path identifiers and
their parser), `GeneratorApi`, `Issuer`, `Generator`, `Registry`,
`TemplateStore` and `Renderer`.

Four behaviours of the code may be unexpected:

- **Issuing with a missing signing key.** One might expect this to fail with
  `entity-not-found`. In the code, `find(...)!` yields `undefined` and the
  next `key.id` throws a `TypeError`. This happens, for example, when the
  application lists no keys. The model gives `Err(Uncaught)` before any
  collaborator is called.
- **`registry` is optional.** The application payload schema does not
  require it, so the model keeps it optional. Issuing for an application
  without one fails with `Err(Uncaught)` right after the template is
  resolved.
- **Listing keys exposes private keys.** `GET /keys` replies with the stored
  keys as they are, `private` included. Get, create and rename strip it. The
  model's `Generator.Database.ListKeys` returns whole `Key` values accordingly.
- **The registry list query.** Its declared type names `holder`, but the
  handler filters by `subject`. The model follows the handler.

## Model

| member | source | states |
|---|---|---|
| DidWeb.ParseResourceDid | modules/generator/source/handlers/keys.ts:213 | a DID it accepts is exactly the did:web path id of the returned resource id |
| DidWeb.ParseResourceDidRoundTrip | modules/generator/source/handlers/keys.ts:213 | parsing `did:web:<domain>:<collection>:<id>` gives back `id` |
| DidWeb.ResourceDidInjective | modules/template-store/source/handlers/templates.ts:113 | two resources of one collection get one DID only when their ids are equal |
| DidWeb.KeyDidIsNotPresentationDid | modules/generator/source/provider/issuer.ts:108-114 | a key's DID and a presentation's DID never coincide |
| DidWeb.ControllerPrefixesResourceDid | modules/generator/source/handlers/keys.ts:213-218 | the controller DID followed by `:` starts every resource DID |
| GeneratorApi.Details | modules/generator/source/handlers/keys.ts:61 | the reply keeps the key's id and public key; DetailsKeepPublicMembers shows nothing but `private` is dropped |
| GeneratorApi.DetailsKeepPublicMembers | modules/generator/source/handlers/keys.ts:61 | dropping `private` loses no other member of the key |
| GeneratorApi.KeyIndex | modules/generator/source/handlers/keys.ts:115 | first index of a key with the id, -1 exactly when there is none |
| GeneratorApi.FindKey | modules/generator/source/handlers/keys.ts:83 | `None` exactly when no key has the id, else the key at the first such index |
| GeneratorApi.KeysNamed | modules/generator/source/handlers/keys.ts:25 | keeps exactly the stored keys with the name; order and multiplicity by KeysNamedAppend |
| GeneratorApi.KeysNamedAppend | modules/generator/source/handlers/keys.ts:25 | empty for an empty store; one more key appends it exactly when it has the name, so matches come in store order |
| GeneratorApi.KeysWithout | modules/generator/source/handlers/keys.ts:172-174 | no key with the id is left, every other key is kept, nothing new appears; order by KeysWithoutAppend |
| GeneratorApi.KeysWithoutAppend | modules/generator/source/handlers/keys.ts:172-174 | empty for an empty store; one more key is kept at the end exactly when its id differs, so the rest stay in order |
| GeneratorApi.KeysWithoutAbsent | modules/generator/source/handlers/keys.ts:172-174 | removing an id that is not stored changes nothing |
| GeneratorApi.ApplicationIndex | modules/generator/source/handlers/applications.ts:146-148 | first index of an application with the id, -1 exactly when there is none |
| GeneratorApi.FindApplication | modules/generator/source/handlers/applications.ts:97-99 | `None` exactly when no application has the id, else the first one |
| GeneratorApi.ApplicationsNamed | modules/generator/source/handlers/applications.ts:29-31 | keeps exactly the stored applications with the name; order by ApplicationsNamedAppend |
| GeneratorApi.ApplicationsNamedAppend | modules/generator/source/handlers/applications.ts:29-31 | empty for an empty store; one more application is appended exactly when it has the name |
| GeneratorApi.ApplicationsWithout | modules/generator/source/handlers/applications.ts:188-189 | no application with the id is left, every other one is kept; order by ApplicationsWithoutAppend |
| GeneratorApi.ApplicationsWithoutAppend | modules/generator/source/handlers/applications.ts:188-189 | empty for an empty store; one more application is kept at the end exactly when its id differs |
| GeneratorApi.ApplicationsWithoutAbsent | modules/generator/source/handlers/applications.ts:188-189 | deleting an id that is not stored changes nothing |
| GeneratorApi.ApplicationUsing | modules/generator/source/handlers/keys.ts:155-157 | `None` exactly when no application lists the key, else the first that does |
| GeneratorApi.MissingKeyIndex | modules/generator/source/handlers/applications.ts:52-60 | the first listed key id that names no key, -1 exactly when all resolve |
| GeneratorApi.Patch | modules/generator/source/handlers/applications.ts:155-158 | the id is never patched; PatchOverwritesSuppliedOnly states the members |
| GeneratorApi.PatchOverwritesSuppliedOnly | modules/generator/source/handlers/applications.ts:155-158 | an empty patch is the identity, the id is kept, and for each of name, template, renderer, registry and keys a supplied value wins and an absent one keeps the old value |
| GeneratorApi.AppendKeyKeepsReferences | modules/generator/source/handlers/keys.ts:57 | storing a new key keeps every application's key references resolvable |
| GeneratorApi.RenameKeyKeepsReferences | modules/generator/source/handlers/keys.ts:122-126 | renaming a key in place keeps every reference resolvable |
| GeneratorApi.DeleteUnusedKeyKeepsReferences | modules/generator/source/handlers/keys.ts:155-174 | deleting a key no application lists keeps every reference resolvable |
| GeneratorApi.AppendApplicationKeepsReferences | modules/generator/source/handlers/applications.ts:52-70 | appending an application whose key ids all resolve keeps the invariant |
| GeneratorApi.PatchApplicationKeepsReferences | modules/generator/source/handlers/applications.ts:132-159 | a patch whose key ids resolve keeps the invariant |
| GeneratorApi.DeleteApplicationKeepsReferences | modules/generator/source/handlers/applications.ts:188-189 | removing applications keeps the invariant |
| GeneratorApi.ExportedKeyDocument | modules/generator/source/handlers/keys.ts:207-231 | document id parses back to the key id, one entry per section with that id, controller is the domain DID, private key only under `authentication` |
| GeneratorApi.SigningKeyDocument | modules/generator/source/provider/issuer.ts:77-102 | id parses back to the key id, both entries identical and carrying public and private material |
| GeneratorApi.ExportedIsSigningWithoutAssertionSecret | modules/generator/source/handlers/keys.ts:223-230 | the exported document is the signing document minus the private key of `assertionMethod` |
| Generator.Database.ListKeys | modules/generator/source/handlers/keys.ts:22-27 | all keys without a name query, else the name filter of the store (exactly those with the name, in store order) |
| Generator.Database.CreateKey | modules/generator/source/handlers/keys.ts:45-61 | appends the key built from id, payload, timestamp and pair; replies without `private`; keeps the invariant |
| Generator.Database.GetKey | modules/generator/source/handlers/keys.ts:83-91 | the first key with the id without `private`, or `entity-not-found` with the source's message |
| Generator.Database.UpdateKey | modules/generator/source/handlers/keys.ts:115-132 | renames the first key with the id at its position and replies with it, or `entity-not-found` with nothing changed |
| Generator.Database.DeleteKey | modules/generator/source/handlers/keys.ts:155-175 | `precondition-failed` naming the first application using the key with nothing changed, else removes every key with the id |
| Generator.Database.KeyDid | modules/generator/source/handlers/keys.ts:196-231 | the exported document of the first key with the id, or `entity-not-found` |
| Generator.Database.ListApplications | modules/generator/source/handlers/applications.ts:26-33 | all applications without a name query, else the name filter of the store (exactly those with the name, in store order) |
| Generator.Database.CreateApplication | modules/generator/source/handlers/applications.ts:52-70 | reports the first unknown key id with nothing stored, else appends `{id, ...payload}`; keeps the invariant |
| Generator.Database.GetApplication | modules/generator/source/handlers/applications.ts:97-104 | the first application with the id, or `entity-not-found` |
| Generator.Database.UpdateApplication | modules/generator/source/handlers/applications.ts:132-159 | key ids checked before the lookup; patches the first application with the id in place; keeps the invariant |
| Generator.Database.DeleteApplication | modules/generator/source/handlers/applications.ts:188-189 | removes every application with the id, succeeds either way, keeps the invariant |
| Generator.Database.Issue | modules/generator/source/handlers/applications.ts:215-229 | unknown application: `entity-not-found` and no call made; else exactly the issuance pipeline's run |
| Issuer.ResolveDid | modules/generator/source/provider/issuer.ts:40-53 | fails exactly when the document is absent and the error is `notFound`, then with `entity-not-found` naming the DID; else returns the document |
| Issuer.NullDocumentIsPassedOn | modules/generator/source/provider/issuer.ts:45-52 | a `null` document reported with `notFound` is not translated into an error |
| Issuer.SigningKey | modules/generator/source/provider/issuer.ts:74-75 | present exactly when the application's first key id names a stored key, and then the first such key |
| Issuer.StoredApplicationHasSigningKey | modules/generator/source/provider/issuer.ts:74-75 | under the invariant, every stored application with a key has a signing key |
| Issuer.MergeSubjects | modules/generator/source/provider/issuer.ts:128-134 | no credentials give `{}`; the last subject's members always survive; MergeSubjectsKeys and MergeSubjectsLastWins state the rest |
| Issuer.MergeSubjectsKeys | modules/generator/source/provider/issuer.ts:128-134 | the render data has exactly the members of all credential subjects |
| Issuer.MergeSubjectsLastWins | modules/generator/source/provider/issuer.ts:128-134 | each member's value comes from the last credential whose subject has it |
| Issuer.MergeSubjectsExample | modules/generator/source/provider/issuer.ts:128-134 | subjects `{a:1}` then `{a:2,b:3}` give `{a:2,b:3}` |
| Issuer.Issuance | modules/generator/source/provider/issuer.ts:65-163 | at most four calls, and all four on success; the lemmas below state the rest |
| Issuer.IssuePresentation | modules/generator/source/provider/issuer.ts:65-163 | the method with its merge loop computes exactly the specified issuance run |
| Issuer.IssuanceCallOrder | modules/generator/source/provider/issuer.ts:104-156 | calls are a prefix of sign, resolve, render, register; every step that went through is followed by the next; success exactly when all four ran and the registry replied without error |
| Issuer.RenderFailureSkipsRegistry | modules/generator/source/provider/issuer.ts:137-148 | a thrown render is uncaught, a render error is re-thrown with its own code and message, and either way the registry is never called |
| Issuer.RegistryFailureProxied | modules/generator/source/provider/issuer.ts:151-156 | a thrown registration is uncaught, a registry error is re-thrown with its own code and message |
| Issuer.UnresolvedTemplateIsNotFound | modules/generator/source/provider/issuer.ts:119-121 | a template resolved as `notFound` fails with `entity-not-found` after only sign and resolve |
| Issuer.MissingRegistryStopsAfterResolve | modules/generator/source/provider/issuer.ts:122-125 | an application without a registry fails right after resolve, before render |
| Issuer.IssuanceSuccess | modules/generator/source/provider/issuer.ts:104-162 | a successful run signed the credentials for the holder under the presentation DID with the signing document of the application's first key, posted the resolved template and the merged subjects to the application's renderer, registered and returned the signed presentation, and returned the renderer's data |
| Issuer.MissingSigningKeyCallsNothing | modules/generator/source/provider/issuer.ts:74-75 | without a signing key the run fails uncaught before any call |
| Registry.MentionsSubject | modules/registry/source/handlers/presentations.ts:28-31 | true exactly when some embedded credential's subject id is the subject |
| Registry.PresentationIndex | modules/registry/source/handlers/presentations.ts:111-114 | first index of a presentation with the id, -1 exactly when there is none |
| Registry.AboutSubject | modules/registry/source/handlers/presentations.ts:27-32 | keeps exactly the presentations mentioning the subject |
| Registry.AboutSubjectAfterAppend | modules/registry/source/handlers/presentations.ts:27-32 | the filter keeps store order |
| Registry.AboutUnknownSubjectIsEmpty | modules/registry/source/handlers/presentations.ts:27-32 | a subject nobody mentions gives an empty list |
| Registry.Database.List | modules/registry/source/handlers/presentations.ts:24-34 | all presentations without a subject, else the subject filter of the store (exactly those mentioning it, in store order) |
| Registry.Database.Create | modules/registry/source/handlers/presentations.ts:52-65 | appends the payload and echoes it |
| Registry.Database.Get | modules/registry/source/handlers/presentations.ts:79-86 | the first presentation with the id, or `entity-not-found` |
| Registry.Database.Update | modules/registry/source/handlers/presentations.ts:105-122 | replaces the first presentation with the path id at its position, or `entity-not-found` with nothing changed |
| Registry.UpdateCanRenamePresentation | modules/registry/source/handlers/presentations.ts:105-122 | an update whose payload has another id moves the entry away from the path id |
| TemplateStore.TemplateIndex | modules/template-store/source/handlers/templates.ts:67-69 | first index of a template with the id, -1 exactly when there is none |
| TemplateStore.Document | modules/template-store/source/handlers/templates.ts:109-114 | DID context added, id parses back to the template id, other members kept |
| TemplateStore.DocumentDeterminesTemplate | modules/template-store/source/handlers/templates.ts:109-114 | two templates with one document are the same template |
| TemplateStore.Database.List | modules/template-store/source/handlers/templates.ts:21 | a copy of the stored templates, in order |
| TemplateStore.Database.Create | modules/template-store/source/handlers/templates.ts:39-44 | appends `{id, ...payload}` and returns it |
| TemplateStore.Database.Get | modules/template-store/source/handlers/templates.ts:67-74 | the first template with the id, or `entity-not-found` |
| TemplateStore.Database.Did | modules/template-store/source/handlers/templates.ts:96-114 | the document of the first template with the id, or `entity-not-found` |
| Renderer.Join | modules/renderer/source/handlers/render.ts:33 | empty for no values, the value for one, starting with the first value otherwise |
| Renderer.JoinSnoc | modules/renderer/source/handlers/render.ts:33 | one more value appends the separator and that value |
| Renderer.Addendum | modules/renderer/source/handlers/render.ts:28-34 | empty exactly without allowed values, else ` (`, the joined values and `)`, with nothing else |
| Renderer.FailureMessage | modules/renderer/source/handlers/render.ts:27-37 | the fixed prefix, then the validator's message, then the addendum, with nothing else |
| Renderer.FailureMessageSaysInsufficient | modules/renderer/source/handlers/render.ts:27 | every such message says the data was insufficient |
| Renderer.Render | modules/renderer/source/handlers/render.ts:18-58 | fails with `precondition-failed` and the first error's message exactly when there is a schema and the validator reports errors; otherwise fails uncaught exactly when the engine throws, and else replies status 200 with the engine's output |
| Renderer.RejectedDataIsNotCompiled | modules/renderer/source/handlers/render.ts:22-45 | the outcome of rejected data does not depend on the engine |
| Renderer.NoSchemaNoValidation | modules/renderer/source/handlers/render.ts:18-50 | without a schema the validator is not consulted, and rendering succeeds exactly when the engine does not throw |

## Left out

- Writing each database back to its JSON file is not modelled, and neither is the logger. Each handler runs atomically, and requests are not concurrent.
- Request-schema validation by the web framework, and its `improper-payload` replies, are left out. A payload's type admits only what the schema accepts, such as the single key type `Ed25519VerificationKey2020` and the `ejs` engine. So the key-type check in the key-pair provider is unreachable and left out.
- Payload members that the schemas do not declare are not modelled. They are allowed and spread into the stored record, and an extra `id` would override the fresh id.
- Key-pair generation, id generation, timestamps, DID resolution, signing, the HTTP calls and template compilation are not modelled. Their results are parameters or oracles.
- Generator.Database.Issue: the reply envelope and status codes are not modelled. Neither is the case where the signing library throws something other than a `ServerError`: it is `Err(Uncaught)` without detail.
- Issuer.Subject: a `credentialSubject` that is present but not an object contributes nothing. The source's spread would add a string's characters or an array's indices.
- Renderer.Render: schema compilation errors and a validator that fails with an empty error list are not modelled. The validator is an oracle returning a list of errors.
- Issuer.ResolveDid: the error translation fires only for an absent document. A resolver that reports a failure with a `null` document yields that `null` unchanged (Issuer.NullDocumentIsPassedOn). Which form the DID resolver library uses is outside this model.
- JSON numbers are integers and no arithmetic is done on them. Floating point is not modelled.
- Registry.Database.List: the query member is modelled as the handler reads it (`subject`), not as the query's declared type names it (`holder`).
