# Event/Organiser API resolvers, modelled in Dafny

This project models the resolver layer of a small API over two records:
an Organiser (name, logo, description) and an Event (name, description,
venue, venue location, availability, date, image, price, and the organiser
it belongs to). The resolvers read a record by id, list the records that
match a sparse filter map, and create, update and delete records.

The two persistence repositories are replaced by a `Store` object that holds
one map from id to record per entity and a counter for new ids. Each
resolver becomes a method of `Store` that takes its arguments already
extracted from the request.

- `entities.dfy` (module `Entities`): the records, the loosely typed argument
  values (`Null`, text, number, decimal), the casts the resolvers apply to
  them, and the two "not found" failures with their messages
  (`"Event not found!"`, `"Organiser not found!"`).
- `filters.dfy` (module `Filters`): the filter predicate builder. Each
  recognised key with a non-null value becomes a `Like` condition. The
  conditions are AND-ed in order onto the always-true `IsNotNull` base. The
  meaning of a filter is also given independently by `Matches`.
- `updates.dfy` (module `Updates`): what create and update make of a record.
  `NewEvent` and `NewOrganiser` read every field from the input. `Patched`
  is the partial merge of an event update. `Overwritten` is the full
  overwrite of an organiser update. Their contracts and the lemmas beside
  them state the laws that tie them to their input.
- `data_fetchers.dfy` (module `DataFetchers`): the `Store` class and its
  resolver methods. Reads are lenient: an unknown id gives `None`. Create
  (event), update and delete are strict: an unknown id gives a `Failure` and
  leaves the store unchanged.

Modelling choices:

- An event refers to its organiser by id, the way the relational store keeps
  the foreign key. `OrganiserOf` (the organiser-of-an-event resolver) looks
  that id up in the store. `Linked()` states that every stored event refers
  to a stored organiser. Every operation keeps it, except that deleting an
  organiser keeps it only when no event refers to that organiser.
- The input of a mutation is a `map<string, Value>`. A key that is absent
  differs from a key present with `Null`. The event update replaces a field
  when its key is present, even with `Null`. The organiser update reads
  every key, so an absent key gives null.
- The event update returns the merged event and does not change the store,
  because the resolver issues no save (`GraphQLDataFetchers.java` line 200;
  the organiser update saves at line 245). Whether the persistence layer
  writes back the changed managed entity anyway is not visible in this
  code.
- New ids come from one counter shared by both maps. Every stored id is
  below the counter, so a new id is never in use.
- The list resolvers return a set: the order of the stored query's results
  is not modelled.

## Model

| member | source | states |
|---|---|---|
| `Entities.Message` | src/main/java/com/wiktorio/events/GraphQLDataFetchers.java:164-171 | each failure message names the kind of record not found, `Event` or `Organiser`, followed by ` not found!` |
| `DataFetchers.Store.ReadEvent` | src/main/java/com/wiktorio/events/GraphQLDataFetchers.java:29-36 | an event is returned exactly when its id is stored, and it is the stored one with that id; an unknown id gives an absent result, not a failure |
| `DataFetchers.Store.ReadOrganiser` | src/main/java/com/wiktorio/events/GraphQLDataFetchers.java:45-51 | an organiser is returned exactly when its id is stored, and it is the stored one with that id; an unknown id gives an absent result |
| `DataFetchers.Store.OrganiserOf` | src/main/java/com/wiktorio/events/GraphQLDataFetchers.java:38-43 | the result is the stored organiser whose id the event refers to, and it is absent exactly when no organiser is stored under that id; every stored event of a linked store has one |
| `DataFetchers.Store.ListEvents` | src/main/java/com/wiktorio/events/GraphQLDataFetchers.java:60-101 | the result is exactly the stored events that the filter matches; an absent filter counts as an empty one |
| `DataFetchers.Store.ListOrganisers` | src/main/java/com/wiktorio/events/GraphQLDataFetchers.java:103-132 | the result is exactly the stored organisers that the filter matches; an absent filter counts as an empty one |
| `DataFetchers.Store.CreateEvent` | src/main/java/com/wiktorio/events/GraphQLDataFetchers.java:134-156 | an unknown organiser fails with OrganiserNotFound and saves nothing; otherwise the event built from the input is saved under a fresh id, can be read back, and its organiser is the requested one |
| `DataFetchers.Store.UpdateEvent` | src/main/java/com/wiktorio/events/GraphQLDataFetchers.java:158-202 | an unknown event fails with EventNotFound even when the organiser is unknown too; otherwise an unknown organiser fails with OrganiserNotFound; otherwise the result is the stored event merged with the input |
| `DataFetchers.Store.DeleteEvent` | src/main/java/com/wiktorio/events/GraphQLDataFetchers.java:204-216 | an unknown id fails with EventNotFound and changes nothing; otherwise only that event is removed, the organisers are untouched, and the requested id is returned |
| `DataFetchers.Store.CreateOrganiser` | src/main/java/com/wiktorio/events/GraphQLDataFetchers.java:218-228 | the organiser built from the input is saved under a fresh id and can be read back; events are untouched |
| `DataFetchers.Store.UpdateOrganiser` | src/main/java/com/wiktorio/events/GraphQLDataFetchers.java:230-247 | an unknown id fails with OrganiserNotFound and changes nothing; otherwise the overwritten organiser is saved under the same id and returned |
| `DataFetchers.Store.DeleteOrganiser` | src/main/java/com/wiktorio/events/GraphQLDataFetchers.java:249-261 | an unknown id fails with OrganiserNotFound and changes nothing; otherwise only that organiser is removed, events are untouched, the requested id is returned, and events stay linked when none referred to it |
| `Filters.Conjoin` | src/main/java/com/wiktorio/events/GraphQLDataFetchers.java:92-97 | starting from the always-true base and AND-ing each condition in turn gives a query that holds of a record exactly when every condition does |
| `Filters.AddCondition` | src/main/java/com/wiktorio/events/GraphQLDataFetchers.java:68-72 | adding the condition for one key makes the condition list hold exactly when it held before and that key's condition holds; a null or absent value adds nothing |
| `Filters.EventConditions` | src/main/java/com/wiktorio/events/GraphQLDataFetchers.java:62-90 | the conditions built from an event filter hold of a record exactly when the filter matches it on `name`, `description`, `venue` and `venue_location` |
| `Filters.OrganiserConditions` | src/main/java/com/wiktorio/events/GraphQLDataFetchers.java:105-121 | the conditions built from an organiser filter hold of a record exactly when the filter matches it on `name` and `description` |
| `Filters.FilterOf` | src/main/java/com/wiktorio/events/GraphQLDataFetchers.java:62-63 | a given filter argument is used as it is; an absent one becomes a filter that every record matches |
| `Filters.NoFilterMatchesAll` | src/main/java/com/wiktorio/events/GraphQLDataFetchers.java:62-63 | an absent or empty filter matches every record |
| `Filters.IgnoredEntryIrrelevant` | src/main/java/com/wiktorio/events/GraphQLDataFetchers.java:68-90 | an entry with an unrecognised key or a null value does not change what the filter matches |
| `Filters.EventMatchesFields` | src/main/java/com/wiktorio/events/GraphQLDataFetchers.java:68-97 | an event matches exactly when each of its four filterable fields contains the filter text for that key, wherever that text is not null |
| `Filters.OrganiserMatchesFields` | src/main/java/com/wiktorio/events/GraphQLDataFetchers.java:111-128 | an organiser matches exactly when its name and description contain the filter texts for those keys; the logo is never filtered on |
| `Filters.EmptyTextMatchesNonNull` | src/main/java/com/wiktorio/events/GraphQLDataFetchers.java:70 | an empty filter text matches every non-null column and no null one |
| `Filters.LongerTextNarrows` | src/main/java/com/wiktorio/events/GraphQLDataFetchers.java:68-97 | replacing a key's filter text by a text that contains it can only drop records from the result |
| `Updates.NewEvent` | src/main/java/com/wiktorio/events/GraphQLDataFetchers.java:144-154 | a created event has the given id and organiser, and each field reads back as the input value for its key, or null when the key is absent |
| `Updates.Patched` | src/main/java/com/wiktorio/events/GraphQLDataFetchers.java:173-198 | an event update keeps the id, always reassigns the organiser, and sets each field to the input value exactly when its key is present (even when that value is null), leaving it unchanged otherwise; `PatchWithoutFieldsKeepsEvent` and `PatchIdempotent` state its consequences |
| `Updates.PatchWithoutFieldsKeepsEvent` | src/main/java/com/wiktorio/events/GraphQLDataFetchers.java:173-198 | an update naming no field besides the id and organiser changes nothing but the organiser |
| `Updates.PatchIdempotent` | src/main/java/com/wiktorio/events/GraphQLDataFetchers.java:173-198 | applying the same event update twice gives the same event as applying it once |
| `Updates.Overwritten` | src/main/java/com/wiktorio/events/GraphQLDataFetchers.java:241-243 | an organiser update keeps the id and sets each of name, logo and description to the input value, or to null when the key is absent; `OverwriteIsRecreate` states that nothing of the old fields survives |
| `Updates.NewOrganiser` | src/main/java/com/wiktorio/events/GraphQLDataFetchers.java:222-226 | a created organiser has the given id, and each of name, logo and description reads back as the input value, or null when the key is absent |
| `Updates.OverwriteIsRecreate` | src/main/java/com/wiktorio/events/GraphQLDataFetchers.java:222-243 | an organiser update forgets the old fields: it equals creating an organiser under the same id from the same input |
| `Updates.UpdateAsymmetry` | src/main/java/com/wiktorio/events/GraphQLDataFetchers.java:175-243 | for a name or description left out of the input, the event update keeps the old value while the organiser update sets it to null |

## Left out

- The GraphQL and Spring plumbing: building the resolver closures, reading
  arguments from the request, component wiring, and carrying failures as
  exceptions. Each resolver is a method taking its arguments directly.
- Parsing ids from text with `Long.parseLong`: ids are integers, so
  malformed id text and 64-bit bounds are not modelled.
- The repositories' query execution. `LIKE '%value%'` is approximated by
  plain substring containment. `%` and `_` inside the filter text are not
  treated as wildcards. Case sensitivity, which depends on the database
  collation, is not modelled: matching is case sensitive. A null column
  matches no filter, as a SQL `LIKE` on null does.
- Filter values are taken as the text their `toString()` gives.
- The events-of-an-organiser resolver (`readEventsByOrganiserDataFetcher`):
  the back-reference it reads is defined by entity mappings that are not
  part of this model.
- What deleting an organiser does to the events that refer to it (a foreign
  key failure or a cascade) depends on entity mappings that are not part of
  this model. The model removes the organiser and leaves those events in
  place.
- How the persistence layer assigns ids is not modelled beyond "a fresh id".
- `price` is a Java `Double` that is only copied, so it is kept as 64 opaque
  bits with no floating-point meaning.
- Failed casts of argument values: every operation requires the input's
  values to have the types the API schema declares (`EventInputTyped`,
  `EventPatchTyped`, `OrganiserInputTyped`).
- DataFetchers.Store.UpdateEvent: a present but null `availability` makes the
  source fail while unboxing it to `int`; the model's requires excludes that
  input instead of modelling the failure.
- DataFetchers.Store.UpdateEvent: the changed event is returned but not
  written back to the store, because the source issues no save; a write-back
  of the managed entity by the persistence layer is not modelled.
- Concurrent requests: each operation runs alone against the store.
