/** The canister's state and its mutating operations. */
module Store {
  import opened Types
  import opened Guards
  import opened Queries

  /**
   * The three thread-local cells of the canister as fields of one object:
   * the resource map, the id counter and the optional admin.
   */
  class ResourceStore {
    var resources: map<nat, Resource>
    var nextId: nat
    var admin: Option<Principal>
    /** Every id handed out so far, including those of deleted resources. */
    ghost var issued: set<nat>

    ghost predicate Valid()
      reads this
    {
      && nextId >= 1
      && (forall i :: i in issued <==> 1 <= i < nextId)
      && KeysAreIds(resources)
      && resources.Keys <= issued
    }

    /** The initial state: no resources, counter at 1, no admin. */
    constructor ()
      ensures Valid()
      ensures resources == map[] && nextId == 1 && admin == None
    {
      resources := map[];
      nextId := 1;
      admin := None;
      issued := {};
    }

    /** Overwrites the admin with no authorization check of its own. */
    method SetAdmin(caller: Principal) returns (r: Result<()>)
      requires Valid()
      modifies this
      ensures Valid()
      ensures r == Ok(())
      ensures admin == Some(caller)
      ensures resources == old(resources) && nextId == old(nextId) && issued == old(issued)
    {
      admin := Some(caller);
      r := Ok(());
    }

    method CreateResource(payload: Payload, now: nat) returns (r: Result<Resource>)
      requires Valid()
      modifies this
      ensures Valid()
      ensures admin == old(admin)
      // a rejected payload consumes no id and stores nothing
      ensures !WellFormed(payload.title, payload.description) ==>
                && r == Err(ValidateInput(payload.title, payload.description).error)
                && resources == old(resources) && nextId == old(nextId) && issued == old(issued)
      // an accepted one gets the old counter as a never-issued id and is stored under it
      ensures WellFormed(payload.title, payload.description) ==>
                && r == Ok(Resource(old(nextId), payload.title, payload.description, payload.category, now, now, false))
                && old(nextId) !in old(issued)
                && old(nextId) !in old(resources)
                && resources == old(resources)[old(nextId) := r.value]
                && nextId == old(nextId) + 1
                && issued == old(issued) + {old(nextId)}
                && GetResource(resources, r.value.id) == Ok(r.value)
    {
      var _ :- ValidateInput(payload.title, payload.description);
      var id := nextId;
      var resource := Resource(id, payload.title, payload.description, payload.category, now, now, false);
      resources := resources[id := resource];
      nextId := nextId + 1;
      issued := issued + {id};
      r := Ok(resource);
    }

    /** Validates first and looks up second; on success rewrites the editable fields only. */
    method UpdateResource(id: nat, payload: Payload, now: nat) returns (r: Result<Resource>)
      requires Valid()
      modifies this
      ensures Valid()
      ensures nextId == old(nextId) && issued == old(issued) && admin == old(admin)
      ensures !WellFormed(payload.title, payload.description) ==>
                r == Err(ValidateInput(payload.title, payload.description).error) && resources == old(resources)
      ensures WellFormed(payload.title, payload.description) && id !in old(resources) ==>
                r == Err(NotFound) && resources == old(resources)
      ensures WellFormed(payload.title, payload.description) && id in old(resources) ==>
                && r.Ok?
                && r.value == old(resources)[id].(title := payload.title, description := payload.description,
                                                  category := payload.category, updatedAt := now)
                && r.value.id == id
                && r.value.createdAt == old(resources)[id].createdAt
                && r.value.verified == old(resources)[id].verified
                && resources == old(resources)[id := r.value]
    {
      var _ :- ValidateInput(payload.title, payload.description);
      if id in resources {
        var updated := resources[id].(title := payload.title, description := payload.description,
                                      category := payload.category, updatedAt := now);
        resources := resources[id := updated];
        r := Ok(updated);
      } else {
        r := Err(NotFound);
      }
    }

    /** Removes exactly the named entry; the counter is left alone, so the id is never issued again. */
    method DeleteResource(id: nat) returns (r: Result<()>)
      requires Valid()
      modifies this
      ensures Valid()
      ensures r == if id in old(resources) then Ok(()) else Err(NotFound)
      ensures resources == old(resources) - {id}
      ensures nextId == old(nextId) && issued == old(issued) && admin == old(admin)
    {
      if id in resources {
        resources := resources - {id};
        r := Ok(());
      } else {
        r := Err(NotFound);
      }
    }

    /** Only the admin may verify; the admin test comes before the lookup. */
    method VerifyResource(id: nat, caller: Principal, now: nat) returns (r: Result<Resource>)
      requires Valid()
      modifies this
      ensures Valid()
      ensures nextId == old(nextId) && issued == old(issued) && admin == old(admin)
      ensures old(admin) != Some(caller) ==> r == Err(Unauthorized) && resources == old(resources)
      ensures old(admin) == Some(caller) && id !in old(resources) ==>
                r == Err(NotFound) && resources == old(resources)
      ensures old(admin) == Some(caller) && id in old(resources) ==>
                && r.Ok?
                && r.value == old(resources)[id].(verified := true, updatedAt := now)
                && r.value.title == old(resources)[id].title
                && r.value.description == old(resources)[id].description
                && r.value.category == old(resources)[id].category
                && r.value.createdAt == old(resources)[id].createdAt
                && resources == old(resources)[id := r.value]
    {
      if !IsAdmin(admin, caller) {
        return Err(Unauthorized);
      }
      if id in resources {
        var verified := resources[id].(verified := true, updatedAt := now);
        resources := resources[id := verified];
        r := Ok(verified);
      } else {
        r := Err(NotFound);
      }
    }
  }

  /** The payloads of the walk-through are valid (ASCII, within both limits). */
  lemma ScenarioCreateInputValid()
    ensures WellFormed("Moisturizer basics", "Daily routine")
  {
  }

  lemma ScenarioUpdateInputValid()
    ensures WellFormed("Moisturizer basics v2", "Daily routine updated")
  {
  }

  /**
   * A walk-through: create, update, a verify refused before any admin is
   * set, then set the admin and verify. t0, t1, t2 are the clock readings of the three writes.
   */
  method Scenario(adminX: Principal, t0: nat, t1: nat, t2: nat)
    returns (created: Result<Resource>, updated: Result<Resource>, refused: Result<Resource>, final: Result<Resource>)
    ensures created == Ok(Resource(1, "Moisturizer basics", "Daily routine", Treatment, t0, t0, false))
    ensures updated == Ok(Resource(1, "Moisturizer basics v2", "Daily routine updated", Prevention, t0, t1, false))
    ensures refused == Err(Unauthorized)
    ensures final == Ok(Resource(1, "Moisturizer basics v2", "Daily routine updated", Prevention, t0, t2, true))
  {
    var store := new ResourceStore();
    ScenarioCreateInputValid();
    created := store.CreateResource(Payload("Moisturizer basics", "Daily routine", Treatment), t0);
    ScenarioUpdateInputValid();
    updated := store.UpdateResource(1, Payload("Moisturizer basics v2", "Daily routine updated", Prevention), t1);
    refused := store.VerifyResource(1, adminX, t2);
    var _ := store.SetAdmin(adminX);
    final := store.VerifyResource(1, adminX, t2);
  }

  /**
   * Create, delete, create again: the second resource gets a new id, and the deleted
   * id stays absent, because deletion never moves the counter back.
   */
  method DeleteThenCreate(p1: Payload, p2: Payload, t0: nat, t1: nat)
    returns (first: Result<Resource>, deleted: Result<()>, second: Result<Resource>, lookup: Result<Resource>)
    requires WellFormed(p1.title, p1.description) && WellFormed(p2.title, p2.description)
    ensures first.Ok? && first.value.id == 1
    ensures deleted == Ok(())
    ensures second.Ok? && second.value.id == 2 && second.value.id != first.value.id
    ensures lookup == Err(NotFound)
  {
    var store := new ResourceStore();
    first := store.CreateResource(p1, t0);
    deleted := store.DeleteResource(first.value.id);
    second := store.CreateResource(p2, t1);
    lookup := GetResource(store.resources, first.value.id);
  }
}
