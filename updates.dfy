/** What the create and update mutations make of a record: a new event from
    its input, the field-by-field merge of an event update, and the full
    overwrite of an organiser update. */
module Updates {
  import opened Entities

  /** The event that `createEvent` saves: it has the given id and organiser,
      and each field reads back as the input value for its key, or null when
      the key is absent. */
  function NewEvent(id: Id, organiser: Id, input: Input): (r: Event)
    requires EventInputTyped(input)
    ensures r.id == id && r.organiser == organiser
    ensures forall k :: k in EventFieldKeys ==> EventField(r, k) == Get(input, k)
  {
    Event(
      id,
      AsText(Get(input, "name")),
      organiser,
      AsText(Get(input, "description")),
      AsText(Get(input, "venue")),
      AsText(Get(input, "venue_location")),
      AsNumber(Get(input, "availability")),
      AsText(Get(input, "date")),
      AsText(Get(input, "image")),
      AsDecimal(Get(input, "price")))
  }

  /** The event that `updateEvent` returns. The partial-update law: the id is
      kept, the organiser is always reassigned, and each field reads back as
      the input value when its key is present (even when that value is null)
      and as the old value otherwise. */
  function Patched(e: Event, organiser: Id, input: Input): (r: Event)
    requires EventPatchTyped(input)
    ensures r.id == e.id && r.organiser == organiser
    ensures forall k :: k in EventFieldKeys ==> EventField(r, k) == if k in input then input[k] else EventField(e, k)
  {
    e.(
      organiser := organiser,
      name := PatchText(e.name, input, "name"),
      description := PatchText(e.description, input, "description"),
      venue := PatchText(e.venue, input, "venue"),
      venueLocation := PatchText(e.venueLocation, input, "venue_location"),
      availability := if "availability" in input then Some(input["availability"].number) else e.availability,
      date := PatchText(e.date, input, "date"),
      image := PatchText(e.image, input, "image"),
      price := if "price" in input then AsDecimal(input["price"]) else e.price)
  }

  /** One text field of an event update: replaced by the input value, null
      included, exactly when the key is present. */
  function PatchText(field: Str, input: Input, key: string): (r: Str)
    requires IsText(Get(input, key))
    ensures TextValue(r) == if key in input then input[key] else TextValue(field)
  {
    if key in input then AsText(input[key]) else field
  }

  /** The organiser that `createOrganiser` saves: each field reads back as the
      input value, or null when the key is absent. */
  function NewOrganiser(id: Id, input: Input): (r: Organiser)
    requires OrganiserInputTyped(input)
    ensures r.id == id
    ensures forall k :: k in OrganiserFieldKeys ==> OrganiserField(r, k) == Get(input, k)
  {
    Organiser(id, AsText(Get(input, "name")), AsText(Get(input, "logo")), AsText(Get(input, "description")))
  }

  /** The organiser that `updateOrganiser` saves: the id is kept and all three
      fields read back as the input values, null for an absent key. */
  function Overwritten(o: Organiser, input: Input): (r: Organiser)
    requires OrganiserInputTyped(input)
    ensures r.id == o.id
    ensures forall k :: k in OrganiserFieldKeys ==> OrganiserField(r, k) == Get(input, k)
  {
    o.(name := AsText(Get(input, "name")),
       logo := AsText(Get(input, "logo")),
       description := AsText(Get(input, "description")))
  }

  /** An update that names no field other than `id` and `organiser` changes
      nothing but the organiser. */
  lemma PatchWithoutFieldsKeepsEvent(e: Event, organiser: Id, input: Input)
    requires EventPatchTyped(input)
    requires forall k :: k in EventFieldKeys ==> k !in input
    ensures Patched(e, organiser, input) == e.(organiser := organiser)
  {
  }

  /** Applying the same update twice is the same as applying it once. */
  lemma PatchIdempotent(e: Event, organiser: Id, input: Input)
    requires EventPatchTyped(input)
    ensures Patched(Patched(e, organiser, input), organiser, input) == Patched(e, organiser, input)
  {
  }

  /** Overwriting forgets the old record: the result is what creating an
      organiser under the same id from the same input gives. */
  lemma OverwriteIsRecreate(o: Organiser, input: Input)
    requires OrganiserInputTyped(input)
    ensures Overwritten(o, input) == NewOrganiser(o.id, input)
  {
  }

  /** The asymmetry between the two updates: for a key shared by both records
      that the input leaves out, an event update keeps the old value while an
      organiser update sets it to null. */
  lemma UpdateAsymmetry(e: Event, o: Organiser, organiser: Id, input: Input, key: string)
    requires EventPatchTyped(input) && OrganiserInputTyped(input)
    requires key == "name" || key == "description"
    requires key !in input
    ensures EventField(Patched(e, organiser, input), key) == EventField(e, key)
    ensures OrganiserField(Overwritten(o, input), key) == Null
  {
  }
}
