/** Identifiers in the colon-separated path form of the did:web method
    ("did:web:<domain>:<collection>:<id>"), as the generator and the template
    store build them, and the parser that takes one apart again. */
module DidWeb {
  import opened Common

  /** The DID of the service itself, the controller of its keys. */
  function DomainDid(domain: string): string
  {
    "did:web:" + domain
  }

  /** The DID of the resource `id` in `collection` ("keys", "presentations",
      "templates") hosted at `domain`. */
  function ResourceDid(domain: string, collection: string, id: string): string
  {
    DomainDid(domain) + ":" + collection + ":" + id
  }

  function KeyDid(domain: string, id: string): string
  {
    ResourceDid(domain, "keys", id)
  }

  function PresentationDid(domain: string, id: string): string
  {
    ResourceDid(domain, "presentations", id)
  }

  function TemplateDid(domain: string, id: string): string
  {
    ResourceDid(domain, "templates", id)
  }

  /** The id part of `did` when it names a resource of `collection` at
      `domain`, and `None` when it does not. */
  function ParseResourceDid(domain: string, collection: string, did: string): (r: Option<string>)
    ensures r.Some? ==> ResourceDid(domain, collection, r.value) == did
  {
    var prefix := ResourceDid(domain, collection, "");
    if |prefix| <= |did| && did[..|prefix|] == prefix then
      assert did == did[..|prefix|] + did[|prefix|..];
      Some(did[|prefix|..])
    else None
  }

  /** Parsing a constructed DID gives back the id it was built from. */
  lemma ParseResourceDidRoundTrip(domain: string, collection: string, id: string)
    ensures ParseResourceDid(domain, collection, ResourceDid(domain, collection, id)) == Some(id)
  {
    var did := ResourceDid(domain, collection, id);
    var prefix := ResourceDid(domain, collection, "");
    assert did == prefix + id;
    assert did[..|prefix|] == prefix;
    assert did[|prefix|..] == id;
  }

  /** Two resources of one collection at one domain get the same DID only
      when they have the same id. */
  lemma ResourceDidInjective(domain: string, collection: string, a: string, b: string)
    requires ResourceDid(domain, collection, a) == ResourceDid(domain, collection, b)
    ensures a == b
  {
    ParseResourceDidRoundTrip(domain, collection, a);
    ParseResourceDidRoundTrip(domain, collection, b);
  }

  /** A key's DID never names a presentation: the two collections part ways
      right after the domain. */
  lemma KeyDidIsNotPresentationDid(domain: string, a: string, b: string)
    ensures KeyDid(domain, a) != PresentationDid(domain, b)
  {
    var n := |DomainDid(domain) + ":"|;
    assert KeyDid(domain, a)[n] == 'k';
    assert PresentationDid(domain, b)[n] == 'p';
  }

  /** The controller DID followed by ':' starts every resource DID. */
  lemma ControllerPrefixesResourceDid(domain: string, collection: string, id: string)
    ensures OccursAt(DomainDid(domain) + ":", ResourceDid(domain, collection, id), 0)
  {
    var p := DomainDid(domain) + ":";
    assert ResourceDid(domain, collection, id) == p + (collection + ":" + id);
  }
}
