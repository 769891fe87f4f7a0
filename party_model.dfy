/** The `Party` schema (server/models/Party.js) and the collection that holds
    its documents. */
module PartyModel {
  import opened Common

  datatype Party = Party(id: Id, name: string, phoneNumber: string, place: string, createdAt: int)

  /** A request body for creating or updating a party; absent fields are `None`. */
  datatype PartyFields = PartyFields(name: Option<string>, phoneNumber: Option<string>, place: Option<string>)

  /** `name`, `phoneNumber` and `place` are required, and a required string may not be empty. */
  predicate ValidParty(p: Party)
  {
    p.name != "" && p.phoneNumber != "" && p.place != ""
  }

  /** `new Party({...body})`: an absent string is stored as nothing, which the
      required validator rejects exactly like an empty one. */
  function NewParty(body: PartyFields, id: Id, now: int): Party
  {
    Party(id, Get(body.name, ""), Get(body.phoneNumber, ""), Get(body.place, ""), now)
  }

  /** The fields an update sets: each one present in the body replaces the stored value. */
  function PatchParty(p: Party, body: PartyFields): (r: Party)
    ensures r.id == p.id && r.createdAt == p.createdAt
    ensures r.name == Get(body.name, p.name)
    ensures r.phoneNumber == Get(body.phoneNumber, p.phoneNumber)
    ensures r.place == Get(body.place, p.place)
  {
    p.(name := Get(body.name, p.name),
       phoneNumber := Get(body.phoneNumber, p.phoneNumber),
       place := Get(body.place, p.place))
  }

  function PartyIds(docs: seq<Party>): (r: seq<Id>)
    ensures |r| == |docs| && forall i :: 0 <= i < |docs| ==> r[i] == docs[i].id
  {
    seq(|docs|, i requires 0 <= i < |docs| => docs[i].id)
  }

  /** `Party.findById(id)`: the stored party with that id, if any. */
  function FindParty(docs: seq<Party>, id: Id): (r: Option<Party>)
    ensures r.Some? ==> r.value in docs && r.value.id == id
    ensures r.None? <==> id !in PartyIds(docs)
  {
    match IndexOf(PartyIds(docs), id)
    case None => None
    case Some(k) => Some(docs[k])
  }

  class PartyCollection {
    var docs: seq<Party>

    /** `_id` is a unique key. */
    ghost predicate Valid()
      reads this
    {
      NoDuplicates(PartyIds(docs))
    }

    constructor()
      ensures Valid() && docs == []
    {
      docs := [];
    }
  }
}
