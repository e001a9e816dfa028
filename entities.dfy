/** The two records of the Event/Organiser API, the values that arrive in the
    loosely typed argument maps, and the casts the resolvers apply to them. */
module Entities {

  datatype Option<+T> = None | Some(value: T) {
    /** `optional.orElse(default)` */
    function GetOr(default: T): T {
      if Some? then value else default
    }
  }

  /** Identifier assigned by the persistence layer (a Java `Long`). */
  type Id = int

  /** A Java `Double` that the resolvers only copy: kept as its IEEE-754 bits. */
  type Price = bv64

  /** A Java `String` field, which may be null. */
  type Str = Option<string>

  datatype Organiser = Organiser(id: Id, name: Str, logo: Str, description: Str)

  /** An event refers to its organiser by the organiser's id (the foreign key). */
  datatype Event = Event(
    id: Id,
    name: Str,
    organiser: Id,
    description: Str,
    venue: Str,
    venueLocation: Str,
    availability: Option<int>,
    date: Str,
    image: Str,
    price: Option<Price>)

  /** The ways an operation fails. */
  datatype NotFound = EventNotFound | OrganiserNotFound

  /** The message the failure carries to the caller: it names the kind of
      record that was not found. */
  function Message(e: NotFound): (m: string)
    ensures |m| >= 11 && m[|m| - 11..] == " not found!"
    ensures e.EventNotFound? ==> m[..5] == "Event"
    ensures e.OrganiserNotFound? ==> m[..9] == "Organiser"
  {
    match e
    case EventNotFound => "Event not found!"
    case OrganiserNotFound => "Organiser not found!"
  }

  datatype Result<+T> = Success(value: T) | Failure(error: NotFound)

  /** One value of an argument map; `Null` is an explicit null. */
  datatype Value = Null | Text(text: string) | Number(number: int) | Decimal(decimal: Price)

  /** The `input` argument of a mutation. A key that is absent is distinct
      from a key that is present with `Null`. */
  type Input = map<string, Value>

  /** `input.get(key)`: an absent key reads as null. */
  function Get(input: Input, key: string): Value {
    if key in input then input[key] else Null
  }

  /** The keys an event input may carry besides `id` and `organiser`. */
  const EventFieldKeys: set<string> :=
    {"name", "description", "venue", "venue_location", "availability", "date", "image", "price"}

  /** The keys an organiser input may carry besides `id`. */
  const OrganiserFieldKeys: set<string> := {"name", "logo", "description"}

  // Casts: `(String) v`, `(Integer) v` and `(Double) v` succeed on null and on
  // a value of the right type.

  predicate IsText(v: Value) { v.Null? || v.Text? }
  predicate IsNumber(v: Value) { v.Null? || v.Number? }
  predicate IsDecimal(v: Value) { v.Null? || v.Decimal? }

  function AsText(v: Value): Str
    requires IsText(v)
  {
    if v.Text? then Some(v.text) else None
  }

  function AsNumber(v: Value): Option<int>
    requires IsNumber(v)
  {
    if v.Number? then Some(v.number) else None
  }

  function AsDecimal(v: Value): Option<Price>
    requires IsDecimal(v)
  {
    if v.Decimal? then Some(v.decimal) else None
  }

  // The reverse direction: a record field seen as an argument value.

  function TextValue(s: Str): Value {
    if s.Some? then Text(s.value) else Null
  }

  function NumberValue(n: Option<int>): Value {
    if n.Some? then Number(n.value) else Null
  }

  function DecimalValue(p: Option<Price>): Value {
    if p.Some? then Decimal(p.value) else Null
  }

  /** The value of the event field an input key names. */
  function EventField(e: Event, key: string): Value {
    match key
    case "name" => TextValue(e.name)
    case "description" => TextValue(e.description)
    case "venue" => TextValue(e.venue)
    case "venue_location" => TextValue(e.venueLocation)
    case "availability" => NumberValue(e.availability)
    case "date" => TextValue(e.date)
    case "image" => TextValue(e.image)
    case "price" => DecimalValue(e.price)
    case _ => Null
  }

  /** The value of the organiser field an input key names. */
  function OrganiserField(o: Organiser, key: string): Value {
    match key
    case "name" => TextValue(o.name)
    case "logo" => TextValue(o.logo)
    case "description" => TextValue(o.description)
    case _ => Null
  }

  /** Every value of an event input has the type its field casts it to; the
      schema of the API guarantees this before a resolver runs. */
  predicate EventInputTyped(input: Input) {
    && IsText(Get(input, "name"))
    && IsText(Get(input, "description"))
    && IsText(Get(input, "venue"))
    && IsText(Get(input, "venue_location"))
    && IsNumber(Get(input, "availability"))
    && IsText(Get(input, "date"))
    && IsText(Get(input, "image"))
    && IsDecimal(Get(input, "price"))
  }

  /** An event update additionally unboxes `availability` to an `int`, so a
      present availability must not be null. */
  predicate EventPatchTyped(input: Input) {
    && EventInputTyped(input)
    && ("availability" in input ==> input["availability"].Number?)
  }

  predicate OrganiserInputTyped(input: Input) {
    && IsText(Get(input, "name"))
    && IsText(Get(input, "logo"))
    && IsText(Get(input, "description"))
  }
}
