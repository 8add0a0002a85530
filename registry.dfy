/** The registry's in-memory database and the handlers of its
    `/presentations` routes. The request schema guarantees a string `id`, an
    array `verifiableCredential` and an object `credentialSubject` in each
    credential; every other member is carried along untouched. */
module Registry {
  import opened Common
  import opened Arrays

  datatype Credential = Credential(credentialSubject: Record, otherMembers: Record)

  datatype Presentation = Presentation(id: string, verifiableCredential: seq<Credential>,
                                       otherMembers: Record)

  const PresentationNotFound: string := "A presentation with the specified ID does not exist."

  /** `credential.credentialSubject.id === subject`. */
  predicate SubjectIs(credential: Credential, subject: string)
  {
    "id" in credential.credentialSubject && credential.credentialSubject["id"] == Str(subject)
  }

  /** `presentation.verifiableCredential.some(...)`: some embedded credential
      is about `subject`. */
  function MentionsSubject(presentation: Presentation, subject: string): (b: bool)
    ensures b <==> exists i :: 0 <= i < |presentation.verifiableCredential| &&
                              SubjectIs(presentation.verifiableCredential[i], subject)
  {
    AnyMatch(presentation.verifiableCredential, (c: Credential) => SubjectIs(c, subject))
  }

  predicate HasPresentation(presentations: seq<Presentation>, id: string)
  {
    exists i :: 0 <= i < |presentations| && presentations[i].id == id
  }

  /** `presentations.findIndex((presentation) => presentation.id === id)`. */
  function PresentationIndex(presentations: seq<Presentation>, id: string): (i: int)
    ensures -1 <= i < |presentations|
    ensures i == -1 <==> !HasPresentation(presentations, id)
    ensures 0 <= i ==> presentations[i].id == id && forall j :: 0 <= j < i ==> presentations[j].id != id
  {
    FindIndex(presentations, (p: Presentation) => p.id == id)
  }

  /** The subject filter of `list`. */
  function AboutSubject(presentations: seq<Presentation>, subject: string): (r: seq<Presentation>)
    ensures forall i :: 0 <= i < |r| ==> r[i] in presentations && MentionsSubject(r[i], subject)
    ensures forall i :: 0 <= i < |presentations| && MentionsSubject(presentations[i], subject) ==>
                        presentations[i] in r
  {
    Filter(presentations, (p: Presentation) => MentionsSubject(p, subject))
  }

  /** The filter keeps store order: filtering a store that grew by one
      presentation gives the old answer followed by that presentation when
      it is about the subject. */
  lemma AboutSubjectAfterAppend(presentations: seq<Presentation>, p: Presentation, subject: string)
    ensures AboutSubject(presentations + [p], subject) ==
            AboutSubject(presentations, subject) + (if MentionsSubject(p, subject) then [p] else [])
  {
    var f := (q: Presentation) => MentionsSubject(q, subject);
    FilterAppend(presentations, [p], f);
    assert [p][1..] == [];
  }

  /** A subject no stored presentation mentions gives an empty list, not an
      error. */
  lemma AboutUnknownSubjectIsEmpty(presentations: seq<Presentation>, subject: string)
    requires forall i :: 0 <= i < |presentations| ==> !MentionsSubject(presentations[i], subject)
    ensures AboutSubject(presentations, subject) == []
  {
    FilterDropsAll(presentations, (p: Presentation) => MentionsSubject(p, subject));
  }

  class Database {
    var presentations: seq<Presentation>

    constructor ()
      ensures presentations == []
    {
      presentations := [];
    }

    /** `GET /presentations?subject=`: the stored presentations about the
        subject, or all of them when there is no subject. */
    function List(subject: Option<string>): (r: seq<Presentation>)
      reads this
      ensures subject.None? ==> r == presentations
      ensures subject.Some? ==> r == AboutSubject(presentations, subject.value)
      ensures subject.Some? ==>
                (forall i :: 0 <= i < |r| ==> r[i] in presentations && MentionsSubject(r[i], subject.value)) &&
                (forall i :: 0 <= i < |presentations| && MentionsSubject(presentations[i], subject.value) ==>
                             presentations[i] in r)
    {
      if subject.Some? then AboutSubject(presentations, subject.value) else presentations
    }

    /** `POST /presentations`: appends the payload and echoes it. */
    method Create(payload: Presentation) returns (r: Presentation)
      modifies this
      ensures presentations == old(presentations) + [payload]
      ensures r == payload
    {
      presentations := presentations + [payload];
      r := payload;
    }

    /** `GET /presentations/{id}`: the first presentation with the id. */
    function Get(id: string): (r: Result<Presentation>)
      reads this
      ensures r.Ok? <==> HasPresentation(presentations, id)
      ensures r.Ok? ==> r.value == presentations[PresentationIndex(presentations, id)] && r.value.id == id
      ensures r.Err? ==> r.error == ServerError(EntityNotFound, PresentationNotFound)
    {
      var i := PresentationIndex(presentations, id);
      if i == -1 then Err(ServerError(EntityNotFound, PresentationNotFound)) else Ok(presentations[i])
    }

    /** `PUT /presentations/{id}`: the payload replaces the first presentation
        with the path id, at its position, and is echoed; the payload's own
        `id` is not compared with the path id. */
    method Update(id: string, payload: Presentation) returns (r: Result<Presentation>)
      modifies this
      ensures !HasPresentation(old(presentations), id) ==>
                r == Err(ServerError(EntityNotFound, PresentationNotFound)) && presentations == old(presentations)
      ensures HasPresentation(old(presentations), id) ==>
                presentations == old(presentations)[PresentationIndex(old(presentations), id) := payload] &&
                r == Ok(payload)
    {
      var i := PresentationIndex(presentations, id);
      if i == -1 {
        return Err(ServerError(EntityNotFound, PresentationNotFound));
      }
      presentations := presentations[i := payload];
      r := Ok(payload);
    }
  }

  /** Because `update` does not compare ids, an update can store a
      presentation under a different id, after which the path id is no
      longer found. */
  lemma UpdateCanRenamePresentation(p: Presentation, q: Presentation)
    requires p.id != q.id
    ensures var store := [p][PresentationIndex([p], p.id) := q];
            !HasPresentation(store, p.id) && HasPresentation(store, q.id)
  {
    var store := [p][PresentationIndex([p], p.id) := q];
    assert store == [q];
    assert store[0].id == q.id;
  }
}
