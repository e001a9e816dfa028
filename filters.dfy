/** The filter predicate builder of the two list queries. A filter argument is
    a sparse map from field name to text; every recognised field with a
    non-null value becomes a condition "the column contains this text", and
    the conditions are AND-ed onto an always-true base condition. */
module Filters {
  import opened Entities

  /** The `filter` argument: field name to the text of its value, `None` for
      an explicit null. */
  type FilterMap = map<string, Option<string>>

  /** A record seen as its filterable columns, by field name. */
  type Row = map<string, Str>

  /** An absent filter argument is treated as an empty map, which every
      record matches. */
  function FilterOf(arg: Option<FilterMap>): (f: FilterMap)
    ensures arg.Some? ==> f == arg.value
    ensures arg.None? ==> forall keys, row :: Matches(f, keys, row)
  {
    arg.GetOr(map[])
  }

  /** `filterMap.get(key)`: null when the key is absent or mapped to null. */
  function Lookup(f: FilterMap, key: string): Option<string> {
    if key in f then f[key] else None
  }

  const EventKeys: set<string> := {"name", "description", "venue", "venue_location"}
  const OrganiserKeys: set<string> := {"name", "description"}

  function EventRow(e: Event): Row {
    map["name" := e.name, "description" := e.description, "venue" := e.venue, "venue_location" := e.venueLocation]
  }

  function OrganiserRow(o: Organiser): Row {
    map["name" := o.name, "description" := o.description]
  }

  predicate OccursAt(needle: string, hay: string, i: nat) {
    i + |needle| <= |hay| && hay[i..i + |needle|] == needle
  }

  predicate IsSubstring(needle: string, hay: string) {
    exists i :: 0 <= i <= |hay| && OccursAt(needle, hay, i)
  }

  /** `column LIKE '%value%'`, approximated by substring containment. A null
      column matches nothing. */
  predicate ContainsText(column: Str, value: string) {
    column.Some? && IsSubstring(value, column.value)
  }

  /** A query condition over one record. */
  datatype Expr =
    | IsNotNull
    | Like(column: string, value: string)
    | And(left: Expr, right: Expr)

  function Eval(q: Expr, row: Row): bool {
    match q
    case IsNotNull => true
    case Like(c, v) => c in row && ContainsText(row[c], v)
    case And(l, r) => Eval(l, row) && Eval(r, row)
  }

  predicate AllHold(filters: seq<Expr>, row: Row) {
    forall i :: 0 <= i < |filters| ==> Eval(filters[i], row)
  }

  /** The reference meaning of a filter: for every recognised key whose value
      is not null, the row's column contains that value. */
  ghost predicate Matches(f: FilterMap, keys: set<string>, row: Row) {
    forall k :: k in keys ==> KeyHolds(f, k, row)
  }

  /** The condition one key of the filter imposes on a row. */
  ghost predicate KeyHolds(f: FilterMap, key: string, row: Row) {
    Lookup(f, key).Some? ==> key in row && ContainsText(row[key], Lookup(f, key).value)
  }

  ghost predicate EventMatches(f: FilterMap, e: Event) {
    Matches(f, EventKeys, EventRow(e))
  }

  ghost predicate OrganiserMatches(f: FilterMap, o: Organiser) {
    Matches(f, OrganiserKeys, OrganiserRow(o))
  }

  /** Starts from the always-true condition and AND-s each filter onto it in
      order; the result holds of a row exactly when every filter does. */
  method Conjoin(filters: seq<Expr>) returns (query: Expr)
    ensures forall row :: Eval(query, row) <==> AllHold(filters, row)
  {
    query := IsNotNull;
    for i := 0 to |filters|
      invariant forall row :: Eval(query, row) <==> AllHold(filters[..i], row)
    {
      query := And(query, filters[i]);
      assert forall row :: AllHold(filters[..i + 1], row) <==> AllHold(filters[..i], row) && Eval(filters[i], row);
    }
    assert filters[..|filters|] == filters;
  }

  /** One condition per recognised event key whose value is not null. */
  method EventConditions(f: FilterMap) returns (filters: seq<Expr>)
    ensures forall row :: AllHold(filters, row) <==> Matches(f, EventKeys, row)
  {
    filters := [];
    filters := AddCondition(f, "name", filters);
    filters := AddCondition(f, "description", filters);
    filters := AddCondition(f, "venue", filters);
    filters := AddCondition(f, "venue_location", filters);
  }

  /** `if (filterMap.get(key) != null) filters.add(column LIKE %value%)` */
  method AddCondition(f: FilterMap, key: string, filters: seq<Expr>) returns (filters': seq<Expr>)
    ensures forall row :: AllHold(filters', row) <==> AllHold(filters, row) && KeyHolds(f, key, row)
  {
    filters' := filters;
    if Lookup(f, key).Some? {
      var condition := Like(key, Lookup(f, key).value);
      filters' := filters + [condition];
      forall row ensures AllHold(filters', row) <==> AllHold(filters, row) && Eval(condition, row) {
        assert filters'[|filters|] == condition;
        assert forall i :: 0 <= i < |filters| ==> filters'[i] == filters[i];
      }
    }
  }

  /** One condition per recognised organiser key whose value is not null. */
  method OrganiserConditions(f: FilterMap) returns (filters: seq<Expr>)
    ensures forall row :: AllHold(filters, row) <==> Matches(f, OrganiserKeys, row)
  {
    filters := [];
    filters := AddCondition(f, "name", filters);
    filters := AddCondition(f, "description", filters);
  }

  /** With no filter argument, or an empty one, every record matches. */
  lemma NoFilterMatchesAll(arg: Option<FilterMap>, keys: set<string>, row: Row)
    requires arg.None? || arg == Some(map[])
    ensures Matches(FilterOf(arg), keys, row)
  {
  }

  /** An entry whose key is not recognised, or whose value is null, has no
      effect on the filter. */
  lemma IgnoredEntryIrrelevant(f: FilterMap, keys: set<string>, key: string, value: Option<string>, row: Row)
    requires key !in keys || value.None?
    ensures Matches(f[key := value], keys, row) <==> Matches(f - {key}, keys, row)
  {
  }

  /** The event filter spelled out field by field. */
  lemma EventMatchesFields(f: FilterMap, e: Event)
    ensures EventMatches(f, e) <==>
      && (Lookup(f, "name").Some? ==> ContainsText(e.name, Lookup(f, "name").value))
      && (Lookup(f, "description").Some? ==> ContainsText(e.description, Lookup(f, "description").value))
      && (Lookup(f, "venue").Some? ==> ContainsText(e.venue, Lookup(f, "venue").value))
      && (Lookup(f, "venue_location").Some? ==> ContainsText(e.venueLocation, Lookup(f, "venue_location").value))
  {
  }

  /** The organiser filter spelled out field by field: the logo is never
      filtered on. */
  lemma OrganiserMatchesFields(f: FilterMap, o: Organiser)
    ensures OrganiserMatches(f, o) <==>
      && (Lookup(f, "name").Some? ==> ContainsText(o.name, Lookup(f, "name").value))
      && (Lookup(f, "description").Some? ==> ContainsText(o.description, Lookup(f, "description").value))
  {
  }

  /** An empty filter text matches every non-null column and no null one. */
  lemma EmptyTextMatchesNonNull(column: Str)
    ensures ContainsText(column, "") <==> column.Some?
  {
    if column.Some? {
      assert OccursAt("", column.value, 0);
    }
  }

  /** Containment is transitive. */
  lemma SubstringTransitive(a: string, b: string, c: string)
    requires IsSubstring(a, b) && IsSubstring(b, c)
    ensures IsSubstring(a, c)
  {
    var i :| 0 <= i <= |b| && OccursAt(a, b, i);
    var j :| 0 <= j <= |c| && OccursAt(b, c, j);
    assert c[j..j + |b|] == b;
    forall k | 0 <= k < |a|
      ensures c[j + i..j + i + |a|][k] == a[k]
    {
      assert a[k] == b[i + k] == c[j + i + k];
    }
    assert OccursAt(a, c, j + i);
  }

  /** Lengthening the text a key filters on can only drop records. */
  lemma LongerTextNarrows(f: FilterMap, keys: set<string>, key: string, shorter: string, longer: string, row: Row)
    requires IsSubstring(shorter, longer)
    requires Matches(f[key := Some(longer)], keys, row)
    ensures Matches(f[key := Some(shorter)], keys, row)
  {
    if key in keys {
      assert KeyHolds(f[key := Some(longer)], key, row);
      SubstringTransitive(shorter, longer, row[key].value);
    }
    forall k | k in keys
      ensures KeyHolds(f[key := Some(shorter)], k, row)
    {
      assert KeyHolds(f[key := Some(longer)], k, row);
    }
  }
}
