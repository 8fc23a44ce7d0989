/** The item request handlers of controllers/itemController.js over a store
    of item records keyed by id: fetching one record, creating a record owned
    by the caller, and updating or deleting a record, which only its owner or
    an administrator may do. Each handler answers either a status with a
    payload (`{ success: true, data }`) or the error it forwards to the error
    middleware.

    The functions below give each handler's outcome (its answer and the store
    afterwards) as a function of the store before; the lemmas state what the
    handlers promise about those outcomes; the class `ItemStore` holds the
    store and runs the handlers step by step, proved to produce exactly those
    outcomes. */
module ItemController {
  import opened Results
  import opened JsString
  import opened ItemModel

  /** A record's id (an ObjectId in its string form). */
  type ItemId = string

  /** The item collection: each id names at most one record. */
  type Store = map<ItemId, Item>

  /** The authenticated user the `protect` middleware attaches to a request. */
  datatype Caller = Caller(id: UserId, role: string)

  /** The `data` of a successful answer: a record with its id, or `{}`. */
  datatype Payload = Record(id: ItemId, item: Item) | NoData

  /** A successful answer: its HTTP status and `data`. */
  datatype Reply = Reply(status: int, data: Payload)

  /** What a handler forwards to the error middleware: an error it builds
      itself with a message and a status, the validation error of the schema,
      or the store's refusal of an id that is already taken. */
  datatype HandlerError =
    | ErrorResponse(message: string, statusCode: int)
    | ValidationError(errors: seq<FieldError>)
    | DuplicateKey(id: ItemId)

  type Response = Result<Reply, HandlerError>

  /** A handler's answer together with the store it leaves behind. */
  datatype Outcome = Outcome(response: Response, store: Store)

  /** Every stored record satisfies the schema. */
  predicate StoreValid(store: Store) {
    forall id :: id in store ==> Valid(store[id])
  }

  /** The error for an id with no record. */
  function NotFound(id: ItemId): HandlerError {
    ErrorResponse("Item not found with id of " + id, 404)
  }

  /** The error for a caller who may not `action` ("update" or "delete") the record. */
  function NotAuthorized(caller: Caller, action: string): HandlerError {
    ErrorResponse("User " + caller.id + " is not authorized to " + action + " this item", 403)
  }

  /** The ownership rule shared by update and delete: the caller owns the
      record or is an administrator. */
  predicate MayModify(it: Item, caller: Caller) {
    it.owner == caller.id || caller.role == "admin"
  }

  /** `r` is a 403 error. */
  predicate IsForbidden(r: Response) {
    r.Failure? && r.error.ErrorResponse? && r.error.statusCode == 403
  }

  /** `r` is a 404 error. */
  predicate IsNotFound(r: Response) {
    r.Failure? && r.error.ErrorResponse? && r.error.statusCode == 404
  }

  /** getItem: the record under `id`, or a 404 error. */
  function GetResponse(store: Store, id: ItemId): Response {
    if id !in store then Failure(NotFound(id))
    else Success(Reply(200, Record(id, store[id])))
  }

  /** createItem: the body's `owner` is overwritten with the caller's id, the
      body is validated, and the record is inserted under the id the store
      generated for it (`newId`). */
  function CreateOutcome(store: Store, caller: Caller, body: ItemInput, newId: ItemId): Outcome {
    var created := Validate(body.(owner := Some(caller.id)));
    if created.Failure? then Outcome(Failure(ValidationError(created.error)), store)
    else if newId in store then Outcome(Failure(DuplicateKey(newId)), store)
    else Outcome(Success(Reply(201, Record(newId, created.value))), store[newId := created.value])
  }

  /** The paths an update body supplies, laid over those of the stored record. */
  function Overlay(base: ItemInput, patch: ItemInput): ItemInput {
    ItemInput(
      if patch.title.Some? then patch.title else base.title,
      if patch.description.Some? then patch.description else base.description,
      if patch.category.Some? then patch.category else base.category,
      if patch.price.Some? then patch.price else base.price,
      if patch.deposit.Some? then patch.deposit else base.deposit,
      if patch.location.Some? then patch.location else base.location,
      if patch.images.Some? then patch.images else base.images,
      if patch.availability.Some? then patch.availability else base.availability,
      if patch.rating.Some? then patch.rating else base.rating,
      if patch.owner.Some? then patch.owner else base.owner)
  }

  /** updateItem: 404 when there is no record, 403 when the caller may not
      modify it, otherwise the body is laid over the record and validated, and
      the updated record replaces the old one and is answered. */
  function UpdateOutcome(store: Store, id: ItemId, caller: Caller, patch: ItemInput): Outcome {
    if id !in store then Outcome(Failure(NotFound(id)), store)
    else if !MayModify(store[id], caller) then Outcome(Failure(NotAuthorized(caller, "update")), store)
    else
      var updated := Validate(Overlay(AsInput(store[id]), patch));
      if updated.Failure? then Outcome(Failure(ValidationError(updated.error)), store)
      else Outcome(Success(Reply(200, Record(id, updated.value))), store[id := updated.value])
  }

  /** deleteItem: 404 when there is no record, 403 when the caller may not
      modify it, otherwise the record is removed and `{}` is answered. */
  function DeleteOutcome(store: Store, id: ItemId, caller: Caller): Outcome {
    if id !in store then Outcome(Failure(NotFound(id)), store)
    else if !MayModify(store[id], caller) then Outcome(Failure(NotAuthorized(caller, "delete")), store)
    else Outcome(Success(Reply(200, NoData)), store - {id})
  }

  /** getItem answers 200 with the record under a present id and 404 for an
      absent one. */
  lemma GetAnswers(store: Store, id: ItemId)
    ensures GetResponse(store, id).Success? <==> id in store
    ensures id in store ==> GetResponse(store, id) == Success(Reply(200, Record(id, store[id])))
    ensures id !in store <==> IsNotFound(GetResponse(store, id))
  {
  }

  /** Whatever `owner` the body names, the created record belongs to the caller. */
  lemma CreateOwnerIsCaller(store: Store, caller: Caller, body: ItemInput, newId: ItemId, claimed: Option<UserId>)
    ensures CreateOutcome(store, caller, body.(owner := claimed), newId) == CreateOutcome(store, caller, body, newId)
    ensures var r := CreateOutcome(store, caller, body, newId).response;
      r.Success? ==> r.value.data.Record? && r.value.data.item.owner == caller.id
  {
    var created := Validate(body.(owner := Some(caller.id)));
    if created.Success? {
      ValidateKeepsPaths(body.(owner := Some(caller.id)));
    }
  }

  /** A successful create answers 201 with the new record, which the store
      gains under one new key and nothing else; a failed one leaves the store
      as it was. A body that breaks the schema is refused with its errors. */
  lemma CreateAddsOneRecord(store: Store, caller: Caller, body: ItemInput, newId: ItemId)
    ensures var o := CreateOutcome(store, caller, body, newId);
      && (o.response.Success? <==> Conforms(body.(owner := Some(caller.id))) && newId !in store)
      && (o.response.Success? ==>
            && o.response.value.status == 201
            && o.response.value.data == Record(newId, o.store[newId])
            && o.store[newId] == Build(body.(owner := Some(caller.id)))
            && newId in o.store && newId !in store
            && o.store.Keys == store.Keys + {newId}
            && |o.store| == |store| + 1
            && (forall k :: k in store ==> o.store[k] == store[k]))
      && (o.response.Failure? ==> o.store == store)
      && (!Conforms(body.(owner := Some(caller.id))) ==>
            o.response == Failure(ValidationError(Errors(body.(owner := Some(caller.id))))))
  {
    var doc := body.(owner := Some(caller.id));
    var o := CreateOutcome(store, caller, body, newId);
    if Conforms(doc) && newId !in store {
      var it := Validate(doc).value;
      assert o == Outcome(Success(Reply(201, Record(newId, it))), store[newId := it]);
      assert o.store.Keys == store.Keys + {newId};
    } else {
      assert o.store == store;
    }
  }

  /** For an id with no record, update and delete answer 404 whoever asks:
      absence is checked before ownership. */
  lemma AbsentIsNotFound(store: Store, id: ItemId, caller: Caller, patch: ItemInput)
    requires id !in store
    ensures UpdateOutcome(store, id, caller, patch) == Outcome(Failure(NotFound(id)), store)
    ensures DeleteOutcome(store, id, caller) == Outcome(Failure(NotFound(id)), store)
    ensures IsNotFound(UpdateOutcome(store, id, caller, patch).response)
    ensures IsNotFound(DeleteOutcome(store, id, caller).response)
  {
  }

  /** For a present record, update and delete answer 403 exactly when the
      caller is neither its owner nor an administrator, and a refused request
      leaves the store as it was. */
  lemma ForbiddenUnlessOwnerOrAdmin(store: Store, id: ItemId, caller: Caller, patch: ItemInput)
    requires id in store
    ensures IsForbidden(UpdateOutcome(store, id, caller, patch).response) <==> !MayModify(store[id], caller)
    ensures IsForbidden(DeleteOutcome(store, id, caller).response) <==> !MayModify(store[id], caller)
    ensures !MayModify(store[id], caller) ==>
      && UpdateOutcome(store, id, caller, patch).store == store
      && DeleteOutcome(store, id, caller).store == store
  {
  }

  /** A permitted update answers 200 with the record as it is after the
      update, which satisfies the schema and replaces the old one; every path
      the body supplies takes effect (the title trimmed), including `owner`,
      and every other path keeps its stored value. A body that makes the
      record break the schema is refused and the store is left as it was. */
  lemma UpdateAnswersNewRecord(store: Store, id: ItemId, caller: Caller, patch: ItemInput)
    requires id in store && MayModify(store[id], caller)
    ensures var o := UpdateOutcome(store, id, caller, patch);
      && (o.response.Success? <==> Conforms(Overlay(AsInput(store[id]), patch)))
      && (o.response.Failure? ==> o.response.error.ValidationError? && o.store == store)
      && (o.response.Success? ==>
            && o.response.value == Reply(200, Record(id, o.store[id]))
            && o.store == store[id := o.store[id]]
            && Valid(o.store[id])
            && o.store[id].owner == patch.owner.GetOr(store[id].owner)
            && o.store[id].title == (if patch.title.Some? then Trim(patch.title.value) else Trim(store[id].title))
            && o.store[id].price == patch.price.GetOr(store[id].price)
            && o.store[id].deposit == patch.deposit.GetOr(store[id].deposit)
            && o.store[id].availability == patch.availability.GetOr(store[id].availability)
            && o.store[id].rating == (if patch.rating.Some? then patch.rating else store[id].rating)
            && o.store[id].description == patch.description.GetOr(store[id].description)
            && o.store[id].category == patch.category.GetOr(store[id].category)
            && o.store[id].location == (if patch.location.Some? then patch.location else store[id].location)
            && o.store[id].images == patch.images.GetOr(store[id].images))
  {
    var merged := Overlay(AsInput(store[id]), patch);
    if Validate(merged).Success? {
      ValidateKeepsPaths(merged);
    }
  }

  /** An update whose body supplies no path answers the stored record and
      changes nothing. */
  lemma EmptyUpdateKeepsRecord(store: Store, id: ItemId, caller: Caller)
    requires id in store && Valid(store[id]) && MayModify(store[id], caller)
    ensures UpdateOutcome(store, id, caller, NoFields) == Outcome(Success(Reply(200, Record(id, store[id]))), store)
  {
    var it := store[id];
    assert Validate(Overlay(AsInput(it), NoFields)) == Success(it) by {
      assert Overlay(AsInput(it), NoFields) == AsInput(it);
      AsInputConforms(it);
    }
    PutStoredKeepsStore(store, id);
  }

  /** Writing a record back under its own id leaves the store as it was. */
  lemma PutStoredKeepsStore(store: Store, id: ItemId)
    requires id in store
    ensures store[id := store[id]] == store
  {
  }

  /** A permitted delete answers 200 with `{}` and removes exactly that id:
      every other entry is kept as it was. */
  lemma DeleteRemovesExactlyId(store: Store, id: ItemId, caller: Caller)
    requires id in store && MayModify(store[id], caller)
    ensures var o := DeleteOutcome(store, id, caller);
      && o.response == Success(Reply(200, NoData))
      && id !in o.store
      && o.store.Keys == store.Keys - {id}
      && |o.store| == |store| - 1
      && (forall k :: k in o.store ==> o.store[k] == store[k])
  {
    var o := DeleteOutcome(store, id, caller);
    assert o.store.Keys == store.Keys - {id};
  }

  /** Putting a record that satisfies the schema into a valid store keeps it valid. */
  lemma PutKeepsStoreValid(store: Store, id: ItemId, it: Item)
    requires StoreValid(store) && Valid(it)
    ensures StoreValid(store[id := it])
  {
  }

  /** Creating never leaves a record in the store that breaks the schema. */
  lemma CreateKeepsStoreValid(store: Store, caller: Caller, body: ItemInput, newId: ItemId)
    requires StoreValid(store)
    ensures StoreValid(CreateOutcome(store, caller, body, newId).store)
  {
    var created := Validate(body.(owner := Some(caller.id)));
    if created.Success? && newId !in store {
      PutKeepsStoreValid(store, newId, created.value);
    }
  }

  /** Updating never leaves a record in the store that breaks the schema. */
  lemma UpdateKeepsStoreValid(store: Store, id: ItemId, caller: Caller, patch: ItemInput)
    requires StoreValid(store)
    ensures StoreValid(UpdateOutcome(store, id, caller, patch).store)
  {
    if id in store && MayModify(store[id], caller) {
      var updated := Validate(Overlay(AsInput(store[id]), patch));
      if updated.Success? {
        PutKeepsStoreValid(store, id, updated.value);
      }
    }
  }

  /** Deleting keeps a valid store valid. */
  lemma DeleteKeepsStoreValid(store: Store, id: ItemId, caller: Caller)
    requires StoreValid(store)
    ensures StoreValid(DeleteOutcome(store, id, caller).store)
  {
  }

  /** Creating the drill of the scenario below stores exactly this record. */
  lemma DrillCreated(owner: Caller, id: ItemId, body: ItemInput)
    requires body == NoFields.(title := Some("Drill"), description := Some("Cordless drill"),
      category := Some("tools"), price := Some(10.0), deposit := Some(50.0))
    ensures var it := Item("Drill", "Cordless drill", "tools", 10.0, 50.0, None, [], true, None, owner.id);
      CreateOutcome(map[], owner, body, id) == Outcome(Success(Reply(201, Record(id, it))), map[id := it])
  {
    var withOwner := body.(owner := Some(owner.id));
    assert Trim("Drill") == "Drill" by {
      assert Trimmed("Drill");
      TrimFixedPoints("Drill");
    }
    assert Conforms(withOwner);
    assert Validate(withOwner) == Success(Build(withOwner));
  }

  /** A request sequence: an owner creates a drill, another
      non-administrator fails to update it, the owner deletes it, and
      fetching it then answers 404. */
  lemma DrillScenario(owner: Caller, other: Caller, id: ItemId, patch: ItemInput)
    requires other.id != owner.id && other.role != "admin"
    ensures
      var body := NoFields.(title := Some("Drill"), description := Some("Cordless drill"),
        category := Some("tools"), price := Some(10.0), deposit := Some(50.0));
      var created := CreateOutcome(map[], owner, body, id);
      var refused := UpdateOutcome(created.store, id, other, patch);
      var deleted := DeleteOutcome(refused.store, id, owner);
      && created.response.Success? && created.response.value.status == 201
      && created.response.value.data.Record? && created.response.value.data.item.owner == owner.id
      && created.response.value.data.item.availability
      && IsForbidden(refused.response) && refused.store == created.store
      && deleted.response == Success(Reply(200, NoData))
      && IsNotFound(GetResponse(deleted.store, id))
  {
    var body := NoFields.(title := Some("Drill"), description := Some("Cordless drill"),
      category := Some("tools"), price := Some(10.0), deposit := Some(50.0));
    var it := Item("Drill", "Cordless drill", "tools", 10.0, 50.0, None, [], true, None, owner.id);
    DrillCreated(owner, id, body);
    var created := CreateOutcome(map[], owner, body, id);
    var refused := UpdateOutcome(created.store, id, other, patch);
    assert refused == Outcome(Failure(NotAuthorized(other, "update")), created.store);
    var deleted := DeleteOutcome(refused.store, id, owner);
    assert deleted.store == map[id := it] - {id};
  }

  /** The item collection, updated in place by the handlers. */
  class ItemStore {
    var items: Store

    /** Every record in the collection satisfies the schema. */
    ghost predicate Valid()
      reads this
    {
      StoreValid(items)
    }

    constructor ()
      ensures Valid() && items == map[]
    {
      items := map[];
    }

    /** getItem (GET /api/items/:id). */
    method GetItem(id: ItemId) returns (r: Response)
      ensures r == GetResponse(items, id)
    {
      if id !in items {
        return Failure(NotFound(id));
      }
      r := Success(Reply(200, Record(id, items[id])));
    }

    /** createItem (POST /api/items, after `protect`); `newId` is the id the
        store generates for the new record. */
    method CreateItem(caller: Caller, body: ItemInput, newId: ItemId) returns (r: Response)
      requires Valid()
      modifies this
      ensures Valid()
      ensures Outcome(r, items) == CreateOutcome(old(items), caller, body, newId)
    {
      var doc := body.(owner := Some(caller.id));
      var created := Validate(doc);
      if created.Failure? {
        return Failure(ValidationError(created.error));
      }
      if newId in items {
        return Failure(DuplicateKey(newId));
      }
      items := items[newId := created.value];
      r := Success(Reply(201, Record(newId, created.value)));
    }

    /** updateItem (PUT /api/items/:id, after `protect`). */
    method UpdateItem(id: ItemId, caller: Caller, patch: ItemInput) returns (r: Response)
      requires Valid()
      modifies this
      ensures Valid()
      ensures Outcome(r, items) == UpdateOutcome(old(items), id, caller, patch)
    {
      if id !in items {
        return Failure(NotFound(id));
      }
      var item := items[id];
      if !MayModify(item, caller) {
        return Failure(NotAuthorized(caller, "update"));
      }
      var updated := Validate(Overlay(AsInput(item), patch));
      if updated.Failure? {
        return Failure(ValidationError(updated.error));
      }
      items := items[id := updated.value];
      r := Success(Reply(200, Record(id, updated.value)));
    }

    /** deleteItem (DELETE /api/items/:id, after `protect`). */
    method DeleteItem(id: ItemId, caller: Caller) returns (r: Response)
      requires Valid()
      modifies this
      ensures Valid()
      ensures Outcome(r, items) == DeleteOutcome(old(items), id, caller)
    {
      if id !in items {
        return Failure(NotFound(id));
      }
      var item := items[id];
      if !MayModify(item, caller) {
        return Failure(NotAuthorized(caller, "delete"));
      }
      items := items - {id};
      r := Success(Reply(200, NoData));
    }
  }
}
