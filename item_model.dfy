/** The item schema of models/Item.js: the shape of a stored item, the shape of
    a request body that is cast into one, and the declarative constraints
    (required paths, trim and maximum length, the category enumeration, the
    rating bounds, the `location.type` enumeration, the `availability`
    default) as a validator that either builds the stored record or reports
    one error per failing path. */
module ItemModel {
  import opened Results
  import opened JsString

  /** A user reference (an ObjectId in its string form). */
  type UserId = string

  /** The values the `category` path accepts, as the schema lists them. */
  const CategoryNames: seq<string> :=
    ["electronics", "furniture", "clothing", "sports", "tools", "vehicles", "other"]

  const MaxTitleLength := 100
  const MaxDescriptionLength := 1000
  const MinRating: real := 1.0
  const MaxRating: real := 5.0

  /** The `location` sub-document; `kind` is its `type` path. */
  datatype Location = Location(
    kind: Option<string>,
    coordinates: seq<real>,
    address: Option<string>,
    city: Option<string>,
    state: Option<string>,
    zipcode: Option<string>,
    country: Option<string>)

  /** A stored item, after casting, trimming and defaulting. */
  datatype Item = Item(
    title: string,
    description: string,
    category: string,
    price: real,
    deposit: real,
    location: Option<Location>,
    images: seq<string>,
    availability: bool,
    rating: Option<real>,
    owner: UserId)

  /** A request body: every schema path may be missing. */
  datatype ItemInput = ItemInput(
    title: Option<string>,
    description: Option<string>,
    category: Option<string>,
    price: Option<real>,
    deposit: Option<real>,
    location: Option<Location>,
    images: Option<seq<string>>,
    availability: Option<bool>,
    rating: Option<real>,
    owner: Option<UserId>)

  /** A body that supplies no path at all. */
  const NoFields := ItemInput(None, None, None, None, None, None, None, None, None, None)

  /** The schema paths that carry a constraint. */
  datatype Path = Title | Description | CategoryPath | Price | Deposit | LocationType | Rating | Owner

  /** The name a validation error reports a path under. */
  function PathName(p: Path): string {
    match p
    case Title => "title"
    case Description => "description"
    case CategoryPath => "category"
    case Price => "price"
    case Deposit => "deposit"
    case LocationType => "location.type"
    case Rating => "rating"
    case Owner => "owner"
  }

  /** Which validator of a path failed; an enumeration failure carries the
      offending value. */
  datatype Violation = Required | MaxLength | NotInEnum(value: string) | BelowMin | AboveMax

  /** One failing path of a validation error. */
  datatype FieldError = FieldError(path: Path, violation: Violation)

  /** The validator failures the schema can report: `required` on every
      required path, `maxlength` on `title` and `description`, the
      enumerations of `category` and `location.type`, and the bounds of
      `rating`. */
  predicate Reportable(e: FieldError) {
    match e.path
    case Title => e.violation == Required || e.violation == MaxLength
    case Description => e.violation == Required || e.violation == MaxLength
    case CategoryPath => e.violation == Required || e.violation.NotInEnum?
    case LocationType => e.violation.NotInEnum?
    case Rating => e.violation == BelowMin || e.violation == AboveMax
    case _ => e.violation == Required
  }

  // The schema's own validation messages, and the document layer's default
  // `required` message for `owner`, which sets none.
  const TitleRequiredMessage := "Please add a title"
  const TitleTooLongMessage := "Title cannot be more than 100 characters"
  const DescriptionRequiredMessage := "Please add a description"
  const DescriptionTooLongMessage := "Description cannot be more than 1000 characters"
  const CategoryRequiredMessage := "Please select a category"
  const PriceRequiredMessage := "Please add a daily rental price"
  const DepositRequiredMessage := "Please add a security deposit amount"
  const RatingTooLowMessage := "Rating must be at least 1"
  const RatingTooHighMessage := "Rating cannot be more than 5"
  const OwnerRequiredMessage := "Path `owner` is required."

  /** The document layer's default message for a value outside a path's
      enumeration. */
  function EnumMessage(value: string, p: Path): string {
    "`" + value + "` is not a valid enum value for path `" + PathName(p) + "`."
  }

  /** The message a validation error reports for a failing path: the
      schema's own message where it gives one, the document layer's default
      wording otherwise. */
  function Message(e: FieldError): string
    requires Reportable(e)
  {
    match e
    case FieldError(Title, Required) => TitleRequiredMessage
    case FieldError(Title, MaxLength) => TitleTooLongMessage
    case FieldError(Description, Required) => DescriptionRequiredMessage
    case FieldError(Description, MaxLength) => DescriptionTooLongMessage
    case FieldError(CategoryPath, Required) => CategoryRequiredMessage
    case FieldError(Price, Required) => PriceRequiredMessage
    case FieldError(Deposit, Required) => DepositRequiredMessage
    case FieldError(Rating, BelowMin) => RatingTooLowMessage
    case FieldError(Rating, AboveMax) => RatingTooHighMessage
    case FieldError(p, NotInEnum(v)) => EnumMessage(v, p)
    case FieldError(Owner, Required) => OwnerRequiredMessage
    case _ => assert false; ""
  }

  /** `location.type` may be left out; when given it must be "Point". */
  predicate LocationTypeOk(loc: Location) {
    loc.kind.Some? ==> loc.kind.value == "Point"
  }

  /** The constraints every stored item satisfies. */
  predicate Valid(it: Item) {
    && Trimmed(it.title) && 0 < |it.title| <= MaxTitleLength
    && 0 < |it.description| <= MaxDescriptionLength
    && it.category in CategoryNames
    && (it.location.Some? ==> LocationTypeOk(it.location.value))
    && (it.rating.Some? ==> MinRating <= it.rating.value <= MaxRating)
  }

  /** The schema's constraint table, row by row: what a request body must
      meet at path `q`. This is the reference the validator is proved against. */
  predicate Meets(b: ItemInput, q: Path) {
    match q
    case Title => b.title.Some? && 0 < |Trim(b.title.value)| <= MaxTitleLength
    case Description => b.description.Some? && 0 < |b.description.value| <= MaxDescriptionLength
    case CategoryPath => b.category.Some? && b.category.value in CategoryNames
    case Price => b.price.Some?
    case Deposit => b.deposit.Some?
    case LocationType => b.location.Some? ==> LocationTypeOk(b.location.value)
    case Rating => b.rating.Some? ==> MinRating <= b.rating.value <= MaxRating
    case Owner => b.owner.Some?
  }

  /** A body meets every row of the table. */
  predicate Conforms(b: ItemInput) {
    && Meets(b, Title) && Meets(b, Description) && Meets(b, CategoryPath) && Meets(b, Price)
    && Meets(b, Deposit) && Meets(b, LocationType) && Meets(b, Rating) && Meets(b, Owner)
  }

  // One check per schema path, in schema order. Each reports at most one
  // error: the `required` validator runs first, and a string path holding
  // the empty string fails it.

  function TitleErrors(title: Option<string>): seq<FieldError> {
    if title.None? || Trim(title.value) == [] then
      [FieldError(Title, Required)]
    else if |Trim(title.value)| > MaxTitleLength then
      [FieldError(Title, MaxLength)]
    else []
  }

  function DescriptionErrors(description: Option<string>): seq<FieldError> {
    if description.None? || description.value == [] then
      [FieldError(Description, Required)]
    else if |description.value| > MaxDescriptionLength then
      [FieldError(Description, MaxLength)]
    else []
  }

  function CategoryErrors(category: Option<string>): seq<FieldError> {
    if category.None? || category.value == [] then
      [FieldError(CategoryPath, Required)]
    else if category.value !in CategoryNames then
      [FieldError(CategoryPath, NotInEnum(category.value))]
    else []
  }

  function PriceErrors(price: Option<real>): seq<FieldError> {
    if price.None? then [FieldError(Price, Required)] else []
  }

  function DepositErrors(deposit: Option<real>): seq<FieldError> {
    if deposit.None? then [FieldError(Deposit, Required)] else []
  }

  function LocationErrors(location: Option<Location>): seq<FieldError> {
    if location.Some? && !LocationTypeOk(location.value) then
      [FieldError(LocationType, NotInEnum(location.value.kind.value))]
    else []
  }

  function RatingErrors(rating: Option<real>): seq<FieldError> {
    if rating.Some? && rating.value < MinRating then
      [FieldError(Rating, BelowMin)]
    else if rating.Some? && rating.value > MaxRating then
      [FieldError(Rating, AboveMax)]
    else []
  }

  function OwnerErrors(owner: Option<UserId>): seq<FieldError> {
    if owner.None? then [FieldError(Owner, Required)] else []
  }

  /** The errors the check of path `p` reports for `b`. */
  function PathErrors(b: ItemInput, p: Path): seq<FieldError> {
    match p
    case Title => TitleErrors(b.title)
    case Description => DescriptionErrors(b.description)
    case CategoryPath => CategoryErrors(b.category)
    case Price => PriceErrors(b.price)
    case Deposit => DepositErrors(b.deposit)
    case LocationType => LocationErrors(b.location)
    case Rating => RatingErrors(b.rating)
    case Owner => OwnerErrors(b.owner)
  }

  /** The constrained paths, in schema order. */
  const Paths: seq<Path> :=
    [Title, Description, CategoryPath, Price, Deposit, LocationType, Rating, Owner]

  lemma EveryPathListed(q: Path)
    ensures q in Paths
  {
  }

  /** The errors the checks of the paths `ps` report, in the order of `ps`. */
  function ErrorsOn(b: ItemInput, ps: seq<Path>): seq<FieldError> {
    if ps == [] then [] else PathErrors(b, ps[0]) + ErrorsOn(b, ps[1..])
  }

  /** Every failing path of `b`, in schema order. */
  function Errors(b: ItemInput): seq<FieldError> {
    ErrorsOn(b, Paths)
  }

  /** The check of a path reports errors on that path only. */
  lemma PathErrorsOnPath(b: ItemInput, q: Path, f: FieldError)
    requires f in PathErrors(b, q)
    ensures f.path == q
  {
  }

  /** An error is in the list for `ps` exactly when its own path is one of
      `ps` and that path's check reports it. */
  lemma {:induction false} ErrorsOnMembers(b: ItemInput, ps: seq<Path>, e: FieldError)
    ensures e in ErrorsOn(b, ps) <==> e.path in ps && e in PathErrors(b, e.path)
  {
    if ps != [] {
      ErrorsOnMembers(b, ps[1..], e);
      if e in PathErrors(b, ps[0]) {
        PathErrorsOnPath(b, ps[0], e);
      }
    }
  }

  /** The list for `ps` is empty exactly when every check in `ps` passes. */
  lemma {:induction false} ErrorsOnEmpty(b: ItemInput, ps: seq<Path>)
    ensures ErrorsOn(b, ps) == [] <==> forall q :: q in ps ==> PathErrors(b, q) == []
  {
    if ps != [] {
      ErrorsOnEmpty(b, ps[1..]);
    }
  }

  /** Each path's check passes exactly when the body meets that path's row
      of the constraint table. */
  lemma PathCheck(b: ItemInput, q: Path)
    ensures PathErrors(b, q) == [] <==> Meets(b, q)
  {
  }

  /** No path fails exactly when the body meets the schema's constraint table. */
  lemma NoErrorsIffConforms(b: ItemInput)
    ensures Errors(b) == [] <==> Conforms(b)
  {
    assert Errors(b) == [] <==>
      && PathErrors(b, Title) == [] && PathErrors(b, Description) == []
      && PathErrors(b, CategoryPath) == [] && PathErrors(b, Price) == []
      && PathErrors(b, Deposit) == [] && PathErrors(b, LocationType) == []
      && PathErrors(b, Rating) == [] && PathErrors(b, Owner) == []
    by {
      ErrorsOnEmpty(b, Paths);
    }
    PathCheck(b, Title);
    PathCheck(b, Description);
    PathCheck(b, CategoryPath);
    PathCheck(b, Price);
    PathCheck(b, Deposit);
    PathCheck(b, LocationType);
    PathCheck(b, Rating);
    PathCheck(b, Owner);
  }

  /** The stored record a conforming body casts to: the title trimmed,
      `images` defaulting to the empty list and `availability` to true. */
  function Build(b: ItemInput): Item
    requires Conforms(b)
  {
    Item(
      Trim(b.title.value), b.description.value, b.category.value,
      b.price.value, b.deposit.value, b.location, b.images.GetOr([]),
      b.availability.GetOr(true), b.rating, b.owner.value)
  }

  /** Casting and validating a body: the stored record when no path fails,
      otherwise the list of failing paths. */
  function Validate(b: ItemInput): (r: Result<Item, seq<FieldError>>)
    ensures r.Success? <==> Conforms(b)
    ensures r.Success? ==> Valid(r.value)
    ensures r.Failure? ==> r.error == Errors(b) && r.error != []
  {
    NoErrorsIffConforms(b);
    var errors := Errors(b);
    if errors == [] then Success(Build(b)) else Failure(errors)
  }

  /** An accepted body is stored with its paths as given, except that the
      title is trimmed and the two defaults fill in what is missing. */
  lemma ValidateKeepsPaths(b: ItemInput)
    requires Validate(b).Success?
    ensures var it := Validate(b).value;
      && b.title.Some? && it.title == Trim(b.title.value)
      && b.description == Some(it.description)
      && b.category == Some(it.category)
      && b.price == Some(it.price)
      && b.deposit == Some(it.deposit)
      && it.location == b.location
      && it.images == b.images.GetOr([])
      && it.availability == b.availability.GetOr(true)
      && it.rating == b.rating
      && b.owner == Some(it.owner)
  {
  }

  /** `b` is rejected and its error list holds `e`. */
  predicate Rejects(b: ItemInput, e: FieldError) {
    Validate(b).Failure? && e in Validate(b).error
  }

  /** An error is reported exactly when the check of its own path reports it. */
  lemma RejectsByPath(b: ItemInput, e: FieldError)
    ensures Rejects(b, e) <==> e in PathErrors(b, e.path)
  {
    ErrorsOnMembers(b, Paths, e);
    EveryPathListed(e.path);
    NoErrorsIffConforms(b);
  }

  /** `title` is required, and after trimming holds at most 100 characters;
      surrounding white space does not count towards the limit. */
  lemma TitleConstraint(b: ItemInput)
    ensures Rejects(b, FieldError(Title, Required))
        <==> b.title.None? || Trim(b.title.value) == []
    ensures Rejects(b, FieldError(Title, MaxLength))
        <==> b.title.Some? && |Trim(b.title.value)| > MaxTitleLength
    ensures Validate(b).Success? ==> |Validate(b).value.title| <= MaxTitleLength
  {
    RejectsByPath(b, FieldError(Title, Required));
    RejectsByPath(b, FieldError(Title, MaxLength));
  }

  /** `description` is required and holds at most 1000 characters. */
  lemma DescriptionConstraint(b: ItemInput)
    ensures Rejects(b, FieldError(Description, Required))
        <==> b.description.None? || b.description.value == []
    ensures Rejects(b, FieldError(Description, MaxLength))
        <==> b.description.Some? && |b.description.value| > MaxDescriptionLength
  {
    RejectsByPath(b, FieldError(Description, Required));
    RejectsByPath(b, FieldError(Description, MaxLength));
  }

  /** `category` is required and must be one of the seven listed values. */
  lemma CategoryConstraint(b: ItemInput, s: string)
    requires b.category == Some(s) && s != []
    ensures Rejects(b, FieldError(CategoryPath, NotInEnum(s)))
        <==> s !in CategoryNames
  {
    RejectsByPath(b, FieldError(CategoryPath, NotInEnum(s)));
  }

  /** `price` and `deposit` are required and carry no bound: in a body that
      is otherwise accepted, any two numbers are accepted. */
  lemma PriceAndDepositUnbounded(b: ItemInput, price: real, deposit: real)
    requires Validate(b).Success?
    ensures Validate(b.(price := Some(price), deposit := Some(deposit))).Success?
    ensures Rejects(b.(price := None), FieldError(Price, Required))
    ensures Rejects(b.(deposit := None), FieldError(Deposit, Required))
  {
    var c := b.(price := Some(price), deposit := Some(deposit));
    assert Conforms(c) by {
      assert Conforms(b);
      assert Meets(c, Title) == Meets(b, Title);
      assert Meets(c, Description) == Meets(b, Description);
      assert Meets(c, CategoryPath) == Meets(b, CategoryPath);
      assert Meets(c, LocationType) == Meets(b, LocationType);
      assert Meets(c, Rating) == Meets(b, Rating);
      assert Meets(c, Owner) == Meets(b, Owner);
    }
    assert Rejects(b.(price := None), FieldError(Price, Required)) by {
      RejectsByPath(b.(price := None), FieldError(Price, Required));
    }
    assert Rejects(b.(deposit := None), FieldError(Deposit, Required)) by {
      RejectsByPath(b.(deposit := None), FieldError(Deposit, Required));
    }
  }

  /** `rating` may be left out; when given it lies between 1 and 5. */
  lemma RatingConstraint(b: ItemInput, v: real)
    requires b.rating == Some(v)
    ensures Rejects(b, FieldError(Rating, BelowMin)) <==> v < MinRating
    ensures Rejects(b, FieldError(Rating, AboveMax)) <==> v > MaxRating
    ensures Validate(b).Success? <==> Validate(b.(rating := None)).Success? && MinRating <= v <= MaxRating
  {
    RejectsByPath(b, FieldError(Rating, BelowMin));
    RejectsByPath(b, FieldError(Rating, AboveMax));
    var c := b.(rating := None);
    assert Meets(c, Title) == Meets(b, Title);
    assert Meets(c, Description) == Meets(b, Description);
    assert Meets(c, CategoryPath) == Meets(b, CategoryPath);
    assert Meets(c, Price) == Meets(b, Price);
    assert Meets(c, Deposit) == Meets(b, Deposit);
    assert Meets(c, LocationType) == Meets(b, LocationType);
    assert Meets(c, Owner) == Meets(b, Owner);
  }

  /** `availability` is true unless the body says otherwise. */
  lemma AvailabilityDefault(b: ItemInput)
    requires Validate(b).Success?
    ensures b.availability.None? ==> Validate(b).value.availability
    ensures b.availability.Some? ==> Validate(b).value.availability == b.availability.value
  {
  }

  /** `owner` is required. */
  lemma OwnerRequired(b: ItemInput)
    ensures Rejects(b, FieldError(Owner, Required)) <==> b.owner.None?
  {
    RejectsByPath(b, FieldError(Owner, Required));
  }

  /** `location.type`, when given, must be "Point". */
  lemma LocationTypeConstraint(b: ItemInput, loc: Location, kind: string)
    requires b.location == Some(loc) && loc.kind == Some(kind)
    ensures Rejects(b, FieldError(LocationType, NotInEnum(kind)))
        <==> kind != "Point"
  {
    RejectsByPath(b, FieldError(LocationType, NotInEnum(kind)));
  }

  /** A stored record seen as a body that supplies every path. */
  function AsInput(it: Item): ItemInput {
    ItemInput(Some(it.title), Some(it.description), Some(it.category),
      Some(it.price), Some(it.deposit), it.location, Some(it.images),
      Some(it.availability), it.rating, Some(it.owner))
  }

  /** A valid record, seen as a body, meets every row of the table and casts
      back to itself. */
  lemma AsInputConforms(it: Item)
    requires Valid(it)
    ensures Conforms(AsInput(it)) && Build(AsInput(it)) == it
  {
    var b := AsInput(it);
    assert Meets(b, Title) by { TrimFixedPoints(it.title); }
    assert Meets(b, Description);
    assert Meets(b, CategoryPath);
    assert Meets(b, LocationType);
    assert Meets(b, Rating);
    assert Build(b).title == it.title by { TrimFixedPoints(it.title); }
  }

  /** Validating a record's own paths gives the record back exactly when the
      record satisfies the constraints. */
  lemma ValidRoundTrip(it: Item)
    ensures Validate(AsInput(it)) == Success(it) <==> Valid(it)
  {
    if Valid(it) {
      AsInputConforms(it);
    }
  }

  /** Every error a path's check reports is one the schema can report. */
  lemma PathErrorsReportable(b: ItemInput, q: Path, e: FieldError)
    requires e in PathErrors(b, q)
    ensures Reportable(e)
  {
  }

  /** The messages of a refused body, one per failing path in schema order;
      none for an accepted body. */
  function RefusalMessages(b: ItemInput): (ms: seq<string>)
    ensures Validate(b).Success? ==> ms == []
    ensures Validate(b).Failure? ==> |ms| == |Validate(b).error|
  {
    var r := Validate(b);
    if r.Success? then []
    else
      var errs := r.error;
      assert forall e :: e in errs ==> Reportable(e) by {
        forall e | e in errs
          ensures Reportable(e)
        {
          RejectsByPath(b, e);
          PathErrorsReportable(b, e.path, e);
        }
      }
      seq(|errs|, i requires 0 <= i < |errs| => Message(errs[i]))
  }

  /** Each reported failure shows up in the refusal with its message. */
  lemma MessageReported(b: ItemInput, e: FieldError)
    requires Rejects(b, e)
    ensures Reportable(e) && Message(e) in RefusalMessages(b)
  {
    RejectsByPath(b, e);
    PathErrorsReportable(b, e.path, e);
    var errs := Validate(b).error;
    var i :| 0 <= i < |errs| && errs[i] == e;
    assert RefusalMessages(b)[i] == Message(e);
  }

  /** A body missing a required path is refused with that path's message. */
  lemma RequiredMessages(b: ItemInput)
    ensures b.title.None? || Trim(b.title.value) == [] ==> TitleRequiredMessage in RefusalMessages(b)
    ensures b.description.None? || b.description.value == [] ==> DescriptionRequiredMessage in RefusalMessages(b)
    ensures b.category.None? || b.category.value == [] ==> CategoryRequiredMessage in RefusalMessages(b)
    ensures b.price.None? ==> PriceRequiredMessage in RefusalMessages(b)
    ensures b.deposit.None? ==> DepositRequiredMessage in RefusalMessages(b)
    ensures b.owner.None? ==> OwnerRequiredMessage in RefusalMessages(b)
  {
    if b.title.None? || Trim(b.title.value) == [] {
      assert TitleRequiredMessage in RefusalMessages(b) by {
        RejectsByPath(b, FieldError(Title, Required));
        MessageReported(b, FieldError(Title, Required));
      }
    }
    if b.description.None? || b.description.value == [] {
      assert DescriptionRequiredMessage in RefusalMessages(b) by {
        RejectsByPath(b, FieldError(Description, Required));
        MessageReported(b, FieldError(Description, Required));
      }
    }
    if b.category.None? || b.category.value == [] {
      assert CategoryRequiredMessage in RefusalMessages(b) by {
        RejectsByPath(b, FieldError(CategoryPath, Required));
        MessageReported(b, FieldError(CategoryPath, Required));
      }
    }
    if b.price.None? {
      assert PriceRequiredMessage in RefusalMessages(b) by {
        RejectsByPath(b, FieldError(Price, Required));
        MessageReported(b, FieldError(Price, Required));
      }
    }
    if b.deposit.None? {
      assert DepositRequiredMessage in RefusalMessages(b) by {
        RejectsByPath(b, FieldError(Deposit, Required));
        MessageReported(b, FieldError(Deposit, Required));
      }
    }
    if b.owner.None? {
      assert OwnerRequiredMessage in RefusalMessages(b) by {
        RejectsByPath(b, FieldError(Owner, Required));
        MessageReported(b, FieldError(Owner, Required));
      }
    }
  }

  /** A body that breaks a bound or an enumeration is refused with the
      schema's message for it. */
  lemma BoundMessages(b: ItemInput)
    ensures b.title.Some? && |Trim(b.title.value)| > MaxTitleLength ==>
      TitleTooLongMessage in RefusalMessages(b)
    ensures b.description.Some? && |b.description.value| > MaxDescriptionLength ==>
      DescriptionTooLongMessage in RefusalMessages(b)
    ensures b.rating.Some? && b.rating.value < MinRating ==>
      RatingTooLowMessage in RefusalMessages(b)
    ensures b.rating.Some? && b.rating.value > MaxRating ==>
      RatingTooHighMessage in RefusalMessages(b)
    ensures b.category.Some? && b.category.value != [] && b.category.value !in CategoryNames ==>
      EnumMessage(b.category.value, CategoryPath) in RefusalMessages(b)
  {
    if b.title.Some? && |Trim(b.title.value)| > MaxTitleLength {
      assert TitleTooLongMessage in RefusalMessages(b) by {
        RejectsByPath(b, FieldError(Title, MaxLength));
        MessageReported(b, FieldError(Title, MaxLength));
      }
    }
    if b.description.Some? && |b.description.value| > MaxDescriptionLength {
      assert DescriptionTooLongMessage in RefusalMessages(b) by {
        RejectsByPath(b, FieldError(Description, MaxLength));
        MessageReported(b, FieldError(Description, MaxLength));
      }
    }
    if b.rating.Some? && b.rating.value < MinRating {
      assert RatingTooLowMessage in RefusalMessages(b) by {
        RejectsByPath(b, FieldError(Rating, BelowMin));
        MessageReported(b, FieldError(Rating, BelowMin));
      }
    }
    if b.rating.Some? && b.rating.value > MaxRating {
      assert RatingTooHighMessage in RefusalMessages(b) by {
        RejectsByPath(b, FieldError(Rating, AboveMax));
        MessageReported(b, FieldError(Rating, AboveMax));
      }
    }
    if b.category.Some? && b.category.value != [] && b.category.value !in CategoryNames {
      var v := b.category.value;
      assert EnumMessage(v, CategoryPath) in RefusalMessages(b) by {
        RejectsByPath(b, FieldError(CategoryPath, NotInEnum(v)));
        MessageReported(b, FieldError(CategoryPath, NotInEnum(v)));
      }
    }
  }
}
