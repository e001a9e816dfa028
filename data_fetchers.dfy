/** The resolvers of the API over an in-memory store: one map from id to
    record per entity, and the counter from which new ids are drawn. */
module DataFetchers {
  import opened Entities
  import opened Filters
  import opened Updates

  class Store {
    var events: map<Id, Event>
    var organisers: map<Id, Organiser>
    /** The id the next saved record receives. */
    var nextId: Id

    /** Every record is stored under its own id, and every id is below the
        next one to be handed out. */
    ghost predicate Valid()
      reads this
    {
      && (forall id :: id in events ==> events[id].id == id && id < nextId)
      && (forall id :: id in organisers ==> organisers[id].id == id && id < nextId)
    }

    /** Every stored event refers to a stored organiser. */
    ghost predicate Linked()
      reads this
    {
      forall e :: e in events.Values ==> e.organiser in organisers
    }

    constructor ()
      ensures Valid() && Linked()
      ensures events == map[] && organisers == map[]
    {
      events, organisers, nextId := map[], map[], 1;
    }

    /** `readEvent`: a lenient lookup; an unknown id gives an absent result. */
    function ReadEvent(id: Id): (r: Option<Event>)
      reads this
      ensures r.Some? <==> id in events
      ensures r.Some? ==> r.value == events[id]
      ensures Valid() && r.Some? ==> r.value.id == id
    {
      if id in events then Some(events[id]) else None
    }

    /** `readOrganiser`: a lenient lookup; an unknown id gives an absent result. */
    function ReadOrganiser(id: Id): (r: Option<Organiser>)
      reads this
      ensures r.Some? <==> id in organisers
      ensures r.Some? ==> r.value == organisers[id]
      ensures Valid() && r.Some? ==> r.value.id == id
    {
      if id in organisers then Some(organisers[id]) else None
    }

    /** `readOrganiserByEvent`: the organiser an event refers to. A stored
        event of a linked store always has one. */
    function OrganiserOf(e: Event): (r: Option<Organiser>)
      reads this
      ensures r.Some? <==> e.organiser in organisers
      ensures r.Some? ==> r.value == organisers[e.organiser]
      ensures Linked() && e in events.Values ==> r.Some?
      ensures Valid() && r.Some? ==> r.value.id == e.organiser
    {
      ReadOrganiser(e.organiser)
    }

    /** `listEvents`: every stored event that the filter matches. */
    method ListEvents(filter: Option<FilterMap>) returns (result: set<Event>)
      ensures forall e :: e in result <==> e in events.Values && EventMatches(FilterOf(filter), e)
    {
      var filterMap := FilterOf(filter);
      var conditions := EventConditions(filterMap);
      var query := Conjoin(conditions);
      result := set e | e in events.Values && Eval(query, EventRow(e));
    }

    /** `listOrganisers`: every stored organiser that the filter matches. */
    method ListOrganisers(filter: Option<FilterMap>) returns (result: set<Organiser>)
      ensures forall o :: o in result <==> o in organisers.Values && OrganiserMatches(FilterOf(filter), o)
    {
      var filterMap := FilterOf(filter);
      var conditions := OrganiserConditions(filterMap);
      var query := Conjoin(conditions);
      result := set o | o in organisers.Values && Eval(query, OrganiserRow(o));
    }

    /** `createEvent`: fails without saving when the organiser is unknown;
        otherwise saves the event built from the input under a fresh id. */
    method CreateEvent(organiser: Id, input: Input) returns (r: Result<Event>)
      requires Valid() && EventInputTyped(input)
      modifies this
      ensures Valid()
      ensures organiser !in organisers ==>
        r == Failure(OrganiserNotFound) && events == old(events) && nextId == old(nextId)
      ensures organiser in organisers ==>
        && r.Success?
        && r.value == NewEvent(old(nextId), organiser, input)
        && r.value.id !in old(events)
        && events == old(events)[r.value.id := r.value]
        && ReadEvent(r.value.id) == Some(r.value)
        && OrganiserOf(r.value) == Some(organisers[organiser])
      ensures organisers == old(organisers)
      ensures old(Linked()) ==> Linked()
    {
      var owner := ReadOrganiser(organiser);
      if owner.None? {
        return Failure(OrganiserNotFound);
      }
      var e := NewEvent(nextId, owner.value.id, input);
      events := events[e.id := e];
      nextId := nextId + 1;
      r := Success(e);
    }

    /** `updateEvent`: both records are looked up, the event first; the merged
        event is returned. The store is left as it is, since no save is
        issued. */
    method UpdateEvent(id: Id, organiser: Id, input: Input) returns (r: Result<Event>)
      requires Valid() && EventPatchTyped(input)
      ensures id !in events ==> r == Failure(EventNotFound)
      ensures id in events && organiser !in organisers ==> r == Failure(OrganiserNotFound)
      ensures id in events && organiser in organisers ==> r == Success(Patched(events[id], organiser, input))
    {
      var event := ReadEvent(id);
      var owner := ReadOrganiser(organiser);
      if event.None? {
        return Failure(EventNotFound);
      }
      if owner.None? {
        return Failure(OrganiserNotFound);
      }
      var e := event.value;
      e := e.(organiser := owner.value.id);
      if "name" in input {
        e := e.(name := AsText(input["name"]));
      }
      if "description" in input {
        e := e.(description := AsText(input["description"]));
      }
      if "venue" in input {
        e := e.(venue := AsText(input["venue"]));
      }
      if "venue_location" in input {
        e := e.(venueLocation := AsText(input["venue_location"]));
      }
      if "availability" in input {
        e := e.(availability := Some(input["availability"].number));
      }
      if "date" in input {
        e := e.(date := AsText(input["date"]));
      }
      if "image" in input {
        e := e.(image := AsText(input["image"]));
      }
      if "price" in input {
        e := e.(price := AsDecimal(input["price"]));
      }
      r := Success(e);
    }

    /** `deleteEvent`: fails and changes nothing when the id is unknown;
        otherwise removes that event alone and returns its id. */
    method DeleteEvent(id: Id) returns (r: Result<Id>)
      requires Valid()
      modifies this
      ensures Valid()
      ensures id !in old(events) ==> r == Failure(EventNotFound) && events == old(events)
      ensures id in old(events) ==>
        r == Success(id) && events == old(events) - {id} && ReadEvent(id).None?
      ensures organisers == old(organisers) && nextId == old(nextId)
      ensures old(Linked()) ==> Linked()
    {
      var event := ReadEvent(id);
      if event.None? {
        return Failure(EventNotFound);
      }
      events := events - {event.value.id};
      r := Success(id);
    }

    /** `createOrganiser`: saves the organiser built from the input under a
        fresh id. */
    method CreateOrganiser(input: Input) returns (o: Organiser)
      requires Valid() && OrganiserInputTyped(input)
      modifies this
      ensures Valid()
      ensures o == NewOrganiser(old(nextId), input) && o.id !in old(organisers)
      ensures organisers == old(organisers)[o.id := o] && ReadOrganiser(o.id) == Some(o)
      ensures events == old(events)
      ensures old(Linked()) ==> Linked()
    {
      o := NewOrganiser(nextId, input);
      organisers := organisers[o.id := o];
      nextId := nextId + 1;
    }

    /** `updateOrganiser`: fails and changes nothing when the id is unknown;
        otherwise overwrites all three fields and saves under the same id. */
    method UpdateOrganiser(id: Id, input: Input) returns (r: Result<Organiser>)
      requires Valid() && OrganiserInputTyped(input)
      modifies this
      ensures Valid()
      ensures id !in old(organisers) ==> r == Failure(OrganiserNotFound) && organisers == old(organisers)
      ensures id in old(organisers) ==>
        && r == Success(Overwritten(old(organisers)[id], input))
        && organisers == old(organisers)[id := r.value]
      ensures events == old(events) && nextId == old(nextId)
      ensures old(Linked()) ==> Linked()
    {
      var found := ReadOrganiser(id);
      if found.None? {
        return Failure(OrganiserNotFound);
      }
      var o := found.value;
      o := o.(name := AsText(Get(input, "name")));
      o := o.(logo := AsText(Get(input, "logo")));
      o := o.(description := AsText(Get(input, "description")));
      organisers := organisers[o.id := o];
      r := Success(o);
    }

    /** `deleteOrganiser`: fails and changes nothing when the id is unknown;
        otherwise removes that organiser alone and returns its id. Stored
        events stay linked when none of them refers to it. */
    method DeleteOrganiser(id: Id) returns (r: Result<Id>)
      requires Valid()
      modifies this
      ensures Valid()
      ensures id !in old(organisers) ==> r == Failure(OrganiserNotFound) && organisers == old(organisers)
      ensures id in old(organisers) ==>
        r == Success(id) && organisers == old(organisers) - {id} && ReadOrganiser(id).None?
      ensures events == old(events) && nextId == old(nextId)
      ensures old(Linked()) && (forall e :: e in events.Values ==> e.organiser != id) ==> Linked()
    {
      var found := ReadOrganiser(id);
      if found.None? {
        return Failure(OrganiserNotFound);
      }
      organisers := organisers - {found.value.id};
      r := Success(id);
    }
  }
}
