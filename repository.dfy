/**
 * `SignatureEventRepository`, as a store of rows keyed by event id. A save
 * writes the entity's current column values; a lookup builds a new entity
 * object from the stored row.
 */
module Repository {
  import opened Wrappers
  import opened Domain
  import opened Entity

  class EventRepository {
    var rows: map<Uuid, EventRow>
    /** The number of saves performed so far. */
    ghost var writes: nat

    /** Every row is stored under its own id. */
    ghost predicate Valid()
      reads this
    {
      forall id :: id in rows ==> rows[id].id == Some(id)
    }

    constructor ()
      ensures Valid() && rows == map[] && writes == 0
    {
      rows := map[];
      writes := 0;
    }

    /**
     * `save` of a new entity: the generated id is assigned, the creation and
     * update timestamps are set, and the row is inserted.
     */
    method Insert(event: SignatureEvent, newId: Uuid, now: Instant)
      requires Valid() && event.id == None && newId !in rows
      modifies this, event
      ensures Valid()
      ensures event.Row() == Inserted(old(event.Row()), newId, now)
      ensures rows == old(rows)[newId := event.Row()]
      ensures writes == old(writes) + 1
    {
      event.id := Some(newId);
      event.createdAt := now;
      event.updatedAt := now;
      rows := rows[newId := event.Row()];
      writes := writes + 1;
    }

    /** `save` of a persisted entity: `updatedAt` is refreshed and the row overwritten. */
    method Save(event: SignatureEvent, now: Instant)
      requires Valid() && event.id.Some?
      modifies this, event
      ensures Valid()
      ensures event.Row() == Saved(old(event.Row()), now)
      ensures rows == old(rows)[event.id.value := event.Row()]
      ensures writes == old(writes) + 1
    {
      event.updatedAt := now;
      rows := rows[event.id.value := event.Row()];
      writes := writes + 1;
    }

    /** `findById(id)`: a fresh entity holding the stored row, or nothing. */
    method FindById(id: Uuid) returns (found: Option<SignatureEvent>)
      ensures found.Some? <==> id in rows
      ensures found.Some? ==> fresh(found.value) && found.value.Row() == rows[id]
    {
      if id in rows {
        var event := new SignatureEvent(rows[id]);
        found := Some(event);
      } else {
        found := None;
      }
    }
  }
}
