/** The template store's in-memory database and the handlers of its
    `/templates` routes, with the DID document it serves for a template. */
module TemplateStore {
  import opened Common
  import opened Arrays
  import DidWeb

  /** The one template engine the payload schema admits. */
  datatype Engine = Ejs

  datatype Template = Template(id: string, template: string, renderer: Engine, schema: Option<Record>)

  datatype TemplateDto = TemplateDto(template: string, renderer: Engine, schema: Option<Record>)

  /** `{'@context': [...], ...template, id: did}`. */
  datatype TemplateDocument = TemplateDocument(context: seq<string>, id: string, template: string,
                                               renderer: Engine, schema: Option<Record>)

  const DidContext: string := "https://www.w3.org/ns/did/v1"
  const TemplateNotFound: string := "A template with the specified ID does not exist."

  predicate HasTemplate(templates: seq<Template>, id: string)
  {
    exists i :: 0 <= i < |templates| && templates[i].id == id
  }

  /** `templates.findIndex((template) => template.id === id)`. */
  function TemplateIndex(templates: seq<Template>, id: string): (i: int)
    ensures -1 <= i < |templates|
    ensures i == -1 <==> !HasTemplate(templates, id)
    ensures 0 <= i ==> templates[i].id == id && forall j :: 0 <= j < i ==> templates[j].id != id
  {
    FindIndex(templates, (t: Template) => t.id == id)
  }

  /** The DID document of a stored template: every member kept, the DID
      context added, and `id` replaced by the template's did:web id. */
  function Document(domain: string, t: Template): (d: TemplateDocument)
    ensures d.context == [DidContext]
    ensures DidWeb.ParseResourceDid(domain, "templates", d.id) == Some(t.id)
    ensures d.template == t.template && d.renderer == t.renderer && d.schema == t.schema
  {
    DidWeb.ParseResourceDidRoundTrip(domain, "templates", t.id);
    TemplateDocument([DidContext], DidWeb.TemplateDid(domain, t.id), t.template, t.renderer, t.schema)
  }

  /** The document determines the template: the stored id is recovered from
      the document's id. */
  lemma DocumentDeterminesTemplate(domain: string, a: Template, b: Template)
    requires Document(domain, a) == Document(domain, b)
    ensures a == b
  {
    DidWeb.ResourceDidInjective(domain, "templates", a.id, b.id);
  }

  class Database {
    var templates: seq<Template>

    constructor ()
      ensures templates == []
    {
      templates := [];
    }

    /** `GET /templates`: a copy of the stored list. */
    function List(): (r: seq<Template>)
      reads this
      ensures r == templates
    {
      templates[..]
    }

    /** `POST /templates`: stores and returns `{id, ...payload}` with the
        fresh `id`. */
    method Create(id: string, payload: TemplateDto) returns (r: Template)
      modifies this
      ensures r == Template(id, payload.template, payload.renderer, payload.schema)
      ensures templates == old(templates) + [r]
    {
      r := Template(id, payload.template, payload.renderer, payload.schema);
      templates := templates + [r];
    }

    /** `GET /templates/{id}`: the first template with the id. */
    function Get(id: string): (r: Result<Template>)
      reads this
      ensures r.Ok? <==> HasTemplate(templates, id)
      ensures r.Ok? ==> r.value == templates[TemplateIndex(templates, id)] && r.value.id == id
      ensures r.Err? ==> r.error == ServerError(EntityNotFound, TemplateNotFound)
    {
      var i := TemplateIndex(templates, id);
      if i == -1 then Err(ServerError(EntityNotFound, TemplateNotFound)) else Ok(templates[i])
    }

    /** `did`: the DID document of the first template with the id. */
    function Did(domain: string, id: string): (r: Result<TemplateDocument>)
      reads this
      ensures r.Ok? <==> HasTemplate(templates, id)
      ensures r.Ok? ==> r.value == Document(domain, templates[TemplateIndex(templates, id)]) &&
                        DidWeb.ParseResourceDid(domain, "templates", r.value.id) == Some(id)
      ensures r.Err? ==> r.error == ServerError(EntityNotFound, TemplateNotFound)
    {
      var i := TemplateIndex(templates, id);
      if i == -1 then Err(ServerError(EntityNotFound, TemplateNotFound)) else Ok(Document(domain, templates[i]))
    }
  }
}
