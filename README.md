# Item records of a peer-to-peer rental marketplace

This project models the item resource of a rental marketplace's REST backend:
the Mongoose schema that every item record must satisfy (models/Item.js) and
the four handlers that fetch, create, update and delete one record
(controllers/itemController.js).

- `JsString` is ECMAScript's `String.prototype.trim`, which the schema's
  `trim: true` option applies to the title.
- `ItemModel` covers the schema. It has the stored record (`Item`), the
  request body (`ItemInput`, in which every path may be missing) and the
  schema's constraint table, written row by row as `Meets`/`Conforms`.
  `Validate` casts a body as the document layer does: it trims the title,
  fills in the defaults (`availability` true, `images` empty) and reports one
  error per failing path. The `required` check comes first on each path, and
  an empty string fails it. `Message` gives the text reported for each
  failure the schema can report (`Reportable`): the schema's own message
  where it sets one, the document layer's default wording otherwise.
  `RefusalMessages` lists the messages of a refused body.
- Trimming is written over indices: `ContentStart` and `ContentEnd` find the
  two ends of the content, and `Trim` is the slice between them.
- `ItemController` covers the handlers. Each one is a function from the
  store before (`map<ItemId, Item>`) to an `Outcome`: the answer plus the
  store afterwards. The class `ItemStore` holds the collection and runs the
  handlers step by step, like the source does. Each of its methods is proved
  to produce exactly that function's outcome, and to keep every stored record
  valid. The ownership rule `MayModify` (the owner or an `"admin"`) is one
  predicate, shared by update and delete.

Modelling decisions:

- The id a new record gets comes from the document store. `CreateItem` takes
  it as the parameter `newId`. If that id is already taken, the insert fails
  with `DuplicateKey`, as the store's unique-id index makes it fail.
- An update body is laid over the stored record path by path (`Overlay`).
  The result is validated again in full, so a supplied title is trimmed
  again.
- Handler errors are a plain datatype. `ErrorResponse` carries the message
  and status that the handler builds (404, 403). `ValidationError` carries
  the schema's failing paths. The status that the error middleware reports
  for the last two kinds is not part of this model.
- One might expect `owner` to stay fixed once a record is created. The code
  does not do that: `updateItem` passes the body through unfiltered, so an
  owner or an admin can change `owner`. The model follows the code, and
  `UpdateAnswersNewRecord` states that a supplied `owner` takes effect. Only
  creation forces the owner.

## Model

| member | source | states |
|---|---|---|
| `JsString.ContentStart` | models/Item.js:8 | the content of a string starts after its longest white-space prefix: every character before that index is white space, and the one at it is not |
| `JsString.ContentEnd` | models/Item.js:8 | the content ends before the longest white-space suffix that does not overlap the leading white space: every character from that index on is white space, and the one before it is not |
| `JsString.Trim` | models/Item.js:8 | a trimmed title has no white space at either end and is no longer than the input |
| `JsString.TrimFixedPoints` | models/Item.js:8 | trimming leaves a string unchanged exactly when neither of its ends is white space |
| `JsString.TrimIdempotent` | models/Item.js:8 | trimming twice gives the same result as trimming once |
| `JsString.TrimDropsOnlyEdgeWhitespace` | models/Item.js:8 | the trimmed title is a contiguous slice of the input, and everything dropped before and after it is white space |
| `JsString.TrimUnique` | models/Item.js:8 | any slice of the input that has only white space outside it and none at its own ends is the trimmed title, so trimming has exactly one answer |
| `ItemModel.ErrorsOnMembers` | models/Item.js:3-67 | an error is in the collected list exactly when its own path is among the checked paths and that path's check reports it |
| `ItemModel.ErrorsOnEmpty` | models/Item.js:3-67 | the collected list is empty exactly when every checked path passes |
| `ItemModel.PathCheck` | models/Item.js:5-66 | each path's check passes exactly when the body meets that path's row of the constraint table |
| `ItemModel.NoErrorsIffConforms` | models/Item.js:3-67 | no path fails exactly when the body meets the whole constraint table |
| `ItemModel.Validate` | models/Item.js:3-67 | a body is accepted exactly when it meets the constraint table, an accepted body yields a record satisfying `Valid`, and a refused body yields a non-empty error list |
| `ItemModel.ValidateKeepsPaths` | models/Item.js:52-56 | an accepted body is stored with its paths as given, except that the title is trimmed and `images`/`availability` default to empty and true |
| `ItemModel.RejectsByPath` | models/Item.js:3-67 | a validation error lists an entry exactly when the check of that entry's own path reports it |
| `ItemModel.TitleConstraint` | models/Item.js:5-10 | `title` is refused as required exactly when it is missing or blank after trimming, and as too long exactly when more than 100 characters remain after trimming |
| `ItemModel.DescriptionConstraint` | models/Item.js:11-15 | `description` is refused as required exactly when it is missing or empty, and as too long exactly when it exceeds 1000 characters |
| `ItemModel.CategoryConstraint` | models/Item.js:16-28 | a non-empty `category` is refused as outside the enumeration exactly when it is not one of the seven listed values |
| `ItemModel.PriceAndDepositUnbounded` | models/Item.js:29-36 | `price` and `deposit` are required, and any numbers are accepted for them in an otherwise valid body |
| `ItemModel.RatingConstraint` | models/Item.js:57-61 | a rating is refused below 1 and above 5, and a rated body is accepted exactly when the same body without a rating is accepted and the rating is between 1 and 5 |
| `ItemModel.AvailabilityDefault` | models/Item.js:53-56 | `availability` is stored as true when the body leaves it out, and as given otherwise |
| `ItemModel.OwnerRequired` | models/Item.js:62-66 | a body is refused with the `owner` required error exactly when it names no owner |
| `ItemModel.LocationTypeConstraint` | models/Item.js:38-41 | a given `location.type` is refused exactly when it is not `"Point"` |
| `ItemModel.MessageReported` | models/Item.js:3-67 | every failure the validator reports is one the schema can report, and its message is among the messages of the refusal |
| `ItemModel.RequiredMessages` | models/Item.js:5-66 | a body missing a required path (or giving an empty string for it, or a blank title) is refused with that path's message: "Please add a title", "Please add a description", "Please select a category", "Please add a daily rental price", "Please add a security deposit amount", and the default "Path `owner` is required." |
| `ItemModel.BoundMessages` | models/Item.js:9-60 | a title over 100 characters after trimming, a description over 1000, a rating below 1 or above 5, and a non-empty category outside the list are each refused with the schema's message for that failure (the default enumeration message for the category) |
| `ItemModel.AsInputConforms` | models/Item.js:3-67 | a record that satisfies the schema, offered again as a body, meets every row of the constraint table and casts back to the same record |
| `ItemModel.ValidRoundTrip` | models/Item.js:3-67 | validating a stored record's own paths gives the record back exactly when the record satisfies the schema |
| `ItemController.GetAnswers` | controllers/itemController.js:19-35 | getItem succeeds exactly for a present id, with 200 and that record; for an absent id it answers 404 |
| `ItemController.CreateOwnerIsCaller` | controllers/itemController.js:42-46 | the outcome of createItem does not depend on the `owner` the body names, and a created record's owner is the caller's id |
| `ItemController.CreateAddsOneRecord` | controllers/itemController.js:46-51 | createItem succeeds exactly when the caller-owned body meets the schema and the new id is free; it then answers 201 with the new record, which is the caller-owned body as validation casts it, and the store gains exactly that key with every other entry kept; on failure the store is unchanged, and a body that breaks the schema is refused with its errors |
| `ItemController.AbsentIsNotFound` | controllers/itemController.js:59-101 | for an absent id, updateItem and deleteItem answer 404 and change nothing, whoever the caller is and whatever their role |
| `ItemController.ForbiddenUnlessOwnerOrAdmin` | controllers/itemController.js:68-111 | for a present record, updateItem and deleteItem answer 403 exactly when the caller is neither the owner nor an admin, and then leave the store unchanged |
| `ItemController.UpdateAnswersNewRecord` | controllers/itemController.js:78-86 | a permitted update succeeds exactly when the merged record meets the schema; it answers 200 with the post-update record, which is valid and replaces the old one, with every supplied path (the `owner` included) taking effect; otherwise a validation error leaves the store unchanged |
| `ItemController.EmptyUpdateKeepsRecord` | controllers/itemController.js:78-81 | a permitted update of a valid record whose body supplies no path answers the stored record and leaves the store as it was |
| `ItemController.DeleteRemovesExactlyId` | controllers/itemController.js:113-118 | a permitted delete answers 200 with `{}`, removes that id, keeps every other entry unchanged and shrinks the store by one |
| `ItemController.CreateKeepsStoreValid` | controllers/itemController.js:42-46 | createItem never stores a record that breaks the schema |
| `ItemController.UpdateKeepsStoreValid` | controllers/itemController.js:78-81 | updateItem never stores a record that breaks the schema, because validators run on the update |
| `ItemController.DeleteKeepsStoreValid` | controllers/itemController.js:113 | deleteItem keeps a valid store valid |
| `ItemController.DrillCreated` | controllers/itemController.js:42-52 | creating a drill with title, description, category, price and deposit stores exactly that record, with the caller as owner, no images and `availability` true |
| `ItemController.DrillScenario` | controllers/itemController.js:42-118 | an owner creates a drill (201, owned by them, available); another non-admin caller's update gets 403 and changes nothing; the owner's delete answers 200 with `{}`; a later fetch answers 404 |
| `ItemController.ItemStore.GetItem` | controllers/itemController.js:19-35 | returns exactly the getItem answer for the current collection and changes nothing |
| `ItemController.ItemStore.CreateItem` | controllers/itemController.js:42-52 | answers and updates the collection exactly as createItem's outcome says, and keeps every record valid |
| `ItemController.ItemStore.UpdateItem` | controllers/itemController.js:59-87 | answers and updates the collection exactly as updateItem's outcome says (404 before 403 before validation), and keeps every record valid |
| `ItemController.ItemStore.DeleteItem` | controllers/itemController.js:94-119 | answers and updates the collection exactly as deleteItem's outcome says, and keeps every record valid |

## Left out

- `getItems` only forwards a result that the query-shaping middleware computes. That middleware is not part of this model.
- `getItemsInRadius` is left out. It calls an external geocoder, which the file never imports. It divides floating-point numbers. Its result depends on the database's spherical containment query.
- getItem's `populate` of the owner's name, email and phone is a join with the user collection. `GetItem` answers the record with `owner` as an id.
- The `2dsphere` indexes, the `timestamps` and the `reviews` virtual are left out. They are storage and indexing features of the document store.
- Write refusals by the geospatial index are not modelled. `coordinates` (models/Item.js:42-45) defaults to an empty array, so a body without a `location` is stored with `location: { coordinates: [] }`. The `2dsphere` index on `location` can refuse such a document. The model accepts these creates and updates.
- Casting is left out: a non-numeric price, a non-boolean availability, or an id that is not a well-formed ObjectId. The error middleware handles cast failures. The model's bodies already carry typed values, and a malformed id is simply absent.
- A body path set to `null` is treated like a missing path. So an update cannot clear `rating` or `location`.
- Ids are always chosen by the store. A create body that names its own `_id` is not modelled.
- The exact set of paths that the update validators check is not modelled. An update re-validates the whole merged record.
- `ItemModel.Validate`: lengths are counted in Unicode scalar values. JavaScript counts UTF-16 code units, so a title containing characters outside the Basic Multilingual Plane can be up to twice as long in the source's count.
- Prices, deposits, ratings and coordinates are exact reals. NaN, infinities and rounding of JavaScript numbers are left out.
- Asynchrony, concurrent requests on the same record (last write wins in the store), HTTP plumbing and the `success` flag of the envelope are left out. The `protect` middleware is modelled only as the authenticated `Caller` that it supplies.
