/** The read-only operations over the resource map: lookup, listing, filtering by category and search. */
module Queries {
  import opened Types
  import opened Text

  /** The store's invariant on the map alone: every key is its value's id. */
  ghost predicate KeysAreIds(resources: map<nat, Resource>) {
    forall k :: k in resources ==> resources[k].id == k
  }

  function GetResource(resources: map<nat, Resource>, id: nat): (r: Result<Resource>)
    ensures r.Ok? <==> id in resources
    ensures r.Ok? ==> r.value == resources[id]
    ensures r.Err? ==> r.error == NotFound
  {
    if id in resources then Ok(resources[id]) else Err(NotFound)
  }

  /** Some key of a non-empty map; which one is left unspecified, like a hash map's iteration order. */
  ghost function PickKey(resources: map<nat, Resource>): (k: nat)
    requires resources != map[]
    ensures k in resources
  {
    var k :| k in resources; k
  }

  /** The values of the map, each entry once, in an unspecified but fixed order. */
  ghost function ListResources(resources: map<nat, Resource>): (r: seq<Resource>)
    ensures |r| == |resources|
    ensures forall x :: x in r <==> x in resources.Values
    decreases |resources|
  {
    if resources == map[] then []
    else
      var k := PickKey(resources);
      var rest := resources - {k};
      assert rest.Keys == resources.Keys - {k};
      assert forall x :: x in resources.Values <==> x == resources[k] || x in rest.Values by {
        forall x | x in resources.Values ensures x == resources[k] || x in rest.Values {
          var j :| j in resources && resources[j] == x;
          if j != k {
            assert j in rest;
          }
        }
      }
      [resources[k]] + ListResources(rest)
  }

  /** The elements of vs that satisfy keep, every occurrence kept and order preserved. */
  function Filter(vs: seq<Resource>, keep: Resource -> bool): (r: seq<Resource>)
    ensures forall x :: multiset(r)[x] == if keep(x) then multiset(vs)[x] else 0
    ensures forall x :: x in r <==> x in vs && keep(x)
  {
    if vs == [] then []
    else
      assert vs == [vs[0]] + vs[1..];
      (if keep(vs[0]) then [vs[0]] else []) + Filter(vs[1..], keep)
  }

  /** The stored resources of one category. */
  ghost function ListResourcesByCategory(resources: map<nat, Resource>, category: Category): (r: seq<Resource>)
    ensures forall x :: x in r <==> x in resources.Values && x.category == category
    ensures forall x :: multiset(r)[x] <= multiset(ListResources(resources))[x]
  {
    Filter(ListResources(resources), (x: Resource) => x.category == category)
  }

  /** Whether a resource matches an already lowercased query. */
  predicate Matches(x: Resource, loweredQuery: string) {
    Contains(Lower(x.title), loweredQuery) || Contains(Lower(x.description), loweredQuery)
  }

  /** The stored resources whose lowercased title or description contains the lowercased query. */
  ghost function SearchResources(resources: map<nat, Resource>, query: string): (r: seq<Resource>)
    ensures forall x :: x in r <==>
              && x in resources.Values
              && ((exists i :: OccursAt(Lower(query), Lower(x.title), i))
                  || (exists i :: OccursAt(Lower(query), Lower(x.description), i)))
    ensures forall x :: multiset(r)[x] <= multiset(ListResources(resources))[x]
  {
    var q := Lower(query);
    Filter(ListResources(resources), (x: Resource) => Matches(x, q))
  }

  /** Under the key invariant no resource is listed twice. */
  lemma {:induction false} ListResourcesDistinct(resources: map<nat, Resource>)
    requires KeysAreIds(resources)
    ensures forall i, j :: 0 <= i < j < |ListResources(resources)| ==>
              ListResources(resources)[i] != ListResources(resources)[j]
    decreases |resources|
  {
    if resources != map[] {
      var k := PickKey(resources);
      var rest := resources - {k};
      assert rest.Keys == resources.Keys - {k};
      ListResourcesDistinct(rest);
      var r := ListResources(resources);
      assert r == [resources[k]] + ListResources(rest);
      assert resources[k] !in ListResources(rest);
    }
  }

  /** A filter that keeps everything returns its input unchanged. */
  lemma {:induction false} FilterKeepsAll(vs: seq<Resource>, keep: Resource -> bool)
    requires forall x :: x in vs ==> keep(x)
    ensures Filter(vs, keep) == vs
  {
    if vs != [] {
      FilterKeepsAll(vs[1..], keep);
    }
  }

  /** The empty query matches everything: search returns the full listing. */
  lemma {:induction false} SearchEmptyQuery(resources: map<nat, Resource>)
    ensures SearchResources(resources, "") == ListResources(resources)
  {
    var q := Lower("");
    assert q == "";
    FilterKeepsAll(ListResources(resources), (x: Resource) => Matches(x, q));
  }

  /** A query that differs only in letter case from a piece of a stored title finds that resource. */
  lemma SearchFindsTitleCaseVariant(resources: map<nat, Resource>, id: nat, query: string, piece: string, i: int)
    requires id in resources
    requires Lower(query) == Lower(piece)
    requires OccursAt(piece, resources[id].title, i)
    ensures resources[id] in SearchResources(resources, query)
  {
    OccursLower(piece, resources[id].title, i);
  }
}
