/** The party handlers (server/controllers/partyController.js) over the party
    collection. Each handler's catch answers 400 with the error's message. */
module PartyController {
  import opened Common
  import opened PartyModel

  const PartyNotFound: string := "Party not found"
  const PartyDeleted: string := "Party deleted successfully"

  /** `createParty`: stores the body fields with a fresh `_id` and the creation
      time, and answers 201 with the new record. */
  method CreateParty(parties: PartyCollection, body: PartyFields, newId: Id, now: int)
    returns (res: Response<Party>)
    requires parties.Valid()
    modifies parties
    ensures parties.Valid()
    ensures var p := NewParty(body, newId, now);
      && (!ValidParty(p) ==> res == Fail(400, ValidationMessage("Party")))
      && (ValidParty(p) && newId in PartyIds(old(parties.docs)) ==> res == Fail(400, DuplicateKeyMessage))
      && (ValidParty(p) && newId !in PartyIds(old(parties.docs)) ==> res == Ok(201, p))
    ensures parties.docs == if res.Ok? then old(parties.docs) + [res.body] else old(parties.docs)
  {
    var p := NewParty(body, newId, now);
    if !ValidParty(p) {
      return Fail(400, ValidationMessage("Party"));
    }
    if newId in PartyIds(parties.docs) {
      return Fail(400, DuplicateKeyMessage);
    }
    assert PartyIds(parties.docs + [p]) == PartyIds(parties.docs) + [newId];
    NoDuplicatesAppend(PartyIds(parties.docs), newId);
    parties.docs := parties.docs + [p];
    res := Ok(201, p);
  }

  /** `getParties`: every stored party, in storage order. */
  function GetParties(parties: PartyCollection): (r: Response<seq<Party>>)
    reads parties
    ensures r.Ok? && r.status == 200 && |r.body| == |parties.docs|
    ensures forall i :: 0 <= i < |r.body| ==> r.body[i] == parties.docs[i]
  {
    Ok(200, parties.docs)
  }

  /** `getPartyById`: the id comes from the request body; a missing id finds
      nothing, like an unknown one. */
  function GetPartyById(parties: PartyCollection, bodyId: Option<Id>): (r: Response<Party>)
    reads parties
    ensures bodyId.None? ==> r == Fail(404, PartyNotFound)
    ensures bodyId.Some? && !IsObjectId(bodyId.value) ==> r == Fail(400, CastErrorMessage(bodyId.value, "_id"))
    ensures bodyId.Some? && IsObjectId(bodyId.value) ==>
      (r.Ok? <==> bodyId.value in PartyIds(parties.docs))
    ensures r.Fail? ==> r.status == 400 || r == Fail(404, PartyNotFound)
    ensures r.Ok? ==> r.status == 200 && r.body in parties.docs && Some(r.body.id) == bodyId
  {
    match bodyId
    case None => Fail(404, PartyNotFound)
    case Some(id) =>
      if !IsObjectId(id) then Fail(400, CastErrorMessage(id, "_id"))
      else match FindParty(parties.docs, id)
        case None => Fail(404, PartyNotFound)
        case Some(p) => Ok(200, p)
  }

  /** `updateParty`: the fields in the body overwrite the stored ones; an
      unknown id answers `null`, not 404. Update validators are off, so the
      new values are stored as given. */
  method UpdateParty(parties: PartyCollection, id: Id, body: PartyFields)
    returns (res: Response<Option<Party>>)
    requires parties.Valid()
    modifies parties
    ensures parties.Valid()
    ensures !IsObjectId(id) ==> res == Fail(400, CastErrorMessage(id, "_id")) && parties.docs == old(parties.docs)
    ensures IsObjectId(id) && id !in PartyIds(old(parties.docs)) ==>
      res == Ok(200, None) && parties.docs == old(parties.docs)
    ensures IsObjectId(id) && id in PartyIds(old(parties.docs)) ==>
      exists k :: 0 <= k < |old(parties.docs)| && old(parties.docs)[k].id == id
        && parties.docs == old(parties.docs)[k := PatchParty(old(parties.docs)[k], body)]
        && res == Ok(200, Some(parties.docs[k]))
  {
    if !IsObjectId(id) {
      return Fail(400, CastErrorMessage(id, "_id"));
    }
    var k := IndexOf(PartyIds(parties.docs), id);
    if k.None? {
      return Ok(200, None);
    }
    var p := PatchParty(parties.docs[k.value], body);
    parties.docs := parties.docs[k.value := p];
    assert PartyIds(parties.docs) == PartyIds(old(parties.docs));
    res := Ok(200, Some(p));
  }

  /** Removing the party at `k` drops exactly the parties with its id, since ids are unique. */
  lemma RemovesOnlyThatId(before: seq<Party>, k: nat, id: Id)
    requires k < |before| && before[k].id == id && NoDuplicates(PartyIds(before))
    ensures forall x :: x in RemoveAt(before, k) <==> x in before && x.id != id
    ensures id !in PartyIds(RemoveAt(before, k))
  {
    var after := RemoveAt(before, k);
    forall j | 0 <= j < |after| ensures after[j].id != id {
      if j < k {
        assert PartyIds(before)[j] != PartyIds(before)[k];
      } else {
        assert PartyIds(before)[j + 1] != PartyIds(before)[k];
      }
    }
    forall x | x in before ensures x in after <==> x.id != id {
      var j :| 0 <= j < |before| && before[j] == x;
      if j < k {
        assert after[j] == x;
      } else if j > k {
        assert after[j - 1] == x;
      }
    }
  }

  /** `deleteParty`: removes the party if present and reports success either
      way; invoices that name the party are left as they are. */
  method DeleteParty(parties: PartyCollection, id: Id) returns (res: Response<string>)
    requires parties.Valid()
    modifies parties
    ensures parties.Valid()
    ensures !IsObjectId(id) ==> res == Fail(400, CastErrorMessage(id, "_id")) && parties.docs == old(parties.docs)
    ensures IsObjectId(id) ==> res == Ok(200, PartyDeleted)
    ensures IsObjectId(id) ==> id !in PartyIds(parties.docs)
    ensures forall p :: p in parties.docs <==> p in old(parties.docs) && (IsObjectId(id) ==> p.id != id)
    ensures IsObjectId(id) && id !in PartyIds(old(parties.docs)) ==> parties.docs == old(parties.docs)
    ensures IsObjectId(id) && id in PartyIds(old(parties.docs)) ==>
      parties.docs == RemoveAt(old(parties.docs), IndexOf(PartyIds(old(parties.docs)), id).value)
  {
    if !IsObjectId(id) {
      return Fail(400, CastErrorMessage(id, "_id"));
    }
    var k := IndexOf(PartyIds(parties.docs), id);
    if k.Some? {
      ghost var before := parties.docs;
      assert PartyIds(RemoveAt(before, k.value)) == RemoveAt(PartyIds(before), k.value);
      NoDuplicatesRemoveAt(PartyIds(before), k.value);
      parties.docs := RemoveAt(parties.docs, k.value);
      RemovesOnlyThatId(before, k.value, id);
    }
    res := Ok(200, PartyDeleted);
  }
}
