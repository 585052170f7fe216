/** RescueService: the operations of the service layer over the store.

    Each operation is given twice. A function `...On(s, ...)` states what the
    operation does to a store value `s` and what it returns; the properties
    the service promises are proved about these functions. The class
    `RescueService` holds the tables as fields and runs the operations step by
    step, and each of its methods is proved to agree with its function. */
module Service {
  import opened Wrappers
  import opened Entities
  import opened JavaString
  import opened LocationDataConversion
  import opened DogInfoConversion
  import opened LocationOrder
  import opened RescueStore
  import opened Sequences

  // ---------------------------------------------------------------------
  // retrieveLocationById

  /** `retrieveLocationById`: the DTO of the location with that id, or the
      location-not-found failure. */
  function RetrieveLocationById(s: Store, id: int): (r: Result<LocationData, NotFound>)
    requires Consistent(s)
    ensures r.Success? <==> id in s.locations
    ensures r.Failure? ==> r.error == LocationNotFound(id)
    ensures r.Success? ==> r.value.locationId == Some(id)
                           && r.value.businessName == s.locations[id].businessName
                           && r.value.streetAddress == s.locations[id].streetAddress
                           && r.value.city == s.locations[id].city
                           && r.value.state == s.locations[id].state
                           && r.value.zip == s.locations[id].zip
                           && r.value.phone == s.locations[id].phone
    ensures r.Success? ==> forall k :: k in s.dogs && s.dogs[k].locationId == id ==>
                             DogDataOf(DogEntity(s, k)) in r.value.dogs
    ensures r.Success? ==> forall dd :: dd in r.value.dogs ==>
                             && dd.dogId.Some? && dd.dogId.value in s.dogs
                             && s.dogs[dd.dogId.value].locationId == id
                             && dd == DogDataOf(DogEntity(s, dd.dogId.value))
  {
    match FindLocationById(s, id)
    case Failure(e) => Failure(e)
    case Success(location) =>
      var r := FromLocation(location);
      assert location == LocationEntity(s, id);
      forall k | k in s.dogs && s.dogs[k].locationId == id ensures DogDataOf(DogEntity(s, k)) in r.dogs {
        assert location.dogs[Some(k)] in location.dogs.Values;
      }
      forall dd | dd in r.dogs
        ensures && dd.dogId.Some? && dd.dogId.value in s.dogs
                && s.dogs[dd.dogId.value].locationId == id
                && dd == DogDataOf(DogEntity(s, dd.dogId.value))
      {
        var dog :| dog in location.dogs.Values && dd == DogDataOf(dog);
        var key :| key in location.dogs && location.dogs[key] == dog;
        assert key.Some?;
      }
      Success(r)
  }

  // ---------------------------------------------------------------------
  // retrieveAllLocations

  /** `retrieveAllLocations`: one DTO per stored location, in ascending order
      of business name under `String.compareTo`. */
  function RetrieveAllLocations(s: Store): (r: seq<LocationData>)
    requires Consistent(s)
    ensures |r| == |s.locations|
    ensures forall i, j :: 0 <= i < j < |r| ==> NotAfter(r[i].businessName, r[j].businessName)
    ensures multiset(r) == multiset(Map(FromLocation, FindAllLocations(s)))
    ensures forall id :: id in s.locations ==> FromLocation(LocationEntity(s, id)) in r
    ensures forall dto :: dto in r ==> dto.locationId.Some? && dto.locationId.value in s.locations
                                       && dto == FromLocation(LocationEntity(s, dto.locationId.value))
  {
    var all := FindAllLocations(s);
    var sorted := SortByBusinessName(all);
    var r := Map(FromLocation, sorted);
    MapPermutation(FromLocation, sorted, all);
    LocationDtosOfStore(s);
    SameMembers(r, Map(FromLocation, all));
    r
  }

  /** Two permutations have the same elements. */
  lemma SameMembers(a: seq<LocationData>, b: seq<LocationData>)
    requires multiset(a) == multiset(b)
    ensures |a| == |b| && forall x :: x in a <==> x in b
  {
    assert |a| == |multiset(a)|;
    forall x ensures x in a <==> x in b {
      assert x in a <==> x in multiset(a);
    }
  }

  /** The DTOs of `findAll`: one for each stored location and no other. */
  lemma LocationDtosOfStore(s: Store)
    requires Consistent(s)
    ensures var dtos := Map(FromLocation, FindAllLocations(s));
            && (forall id :: id in s.locations ==> FromLocation(LocationEntity(s, id)) in dtos)
            && (forall dto :: dto in dtos ==>
                  && dto.locationId.Some? && dto.locationId.value in s.locations
                  && dto == FromLocation(LocationEntity(s, dto.locationId.value)))
  {
    var all := FindAllLocations(s);
    MapMembers(FromLocation, all);
    forall dto | dto in Map(FromLocation, all)
      ensures dto.locationId.Some? && dto.locationId.value in s.locations
              && dto == FromLocation(LocationEntity(s, dto.locationId.value))
    {
      var l :| l in all && dto == FromLocation(l);
    }
  }

  // ---------------------------------------------------------------------
  // saveDog

  /** `extractBreedNames`: the names of the DTO's breeds; their ids play no
      part. */
  function ExtractBreedNames(info: DogInfo): (r: set<string>)
    ensures forall n :: n in r <==> exists ib :: ib in info.breeds && ib.name == n
  {
    set ib | ib in info.breeds :: ib.name
  }

  /** `copyDogFields`: age, color and name come from the DTO; the id, the
      owner and the breeds are left as they were. */
  function CopyDogFields(dog: Dog, info: DogInfo): (r: Dog)
    ensures r.name == info.name && r.age == info.age && r.color == info.color
    ensures SameDog(r, dog) && r.location == dog.location && r.breeds == dog.breeds
  {
    dog.(age := info.age, color := info.color, name := info.name)
  }

  /** `findOrCreateDog`: the stored dog when an id is given, a blank dog
      otherwise. */
  function FindOrCreateDog(s: Store, dogId: Option<int>): (r: Result<Dog, NotFound>)
    requires Consistent(s)
    ensures dogId.None? ==> r == Success(NewDog())
    ensures dogId.Some? ==> (r.Success? <==> dogId.value in s.dogs)
    ensures dogId.Some? && r.Success? ==> r.value == DogEntity(s, dogId.value)
    ensures dogId.Some? && r.Failure? ==> r.error == DogNotFound(dogId.value)
  {
    match dogId
    case None => Success(NewDog())
    case Some(k) => FindDogById(s, k)
  }

  /** `saveDog(locationId, dogInfo)`: look the location up, resolve the breed
      names against the catalogue, find or create the dog, copy the DTO's
      fields onto it, replace its breeds, wire it to the location in both
      directions, save it and return its DTO. */
  function SaveDogOn(s: Store, locationId: int, info: DogInfo): (r: (Store, Result<DogInfo, NotFound>))
    requires Consistent(s)
    ensures Consistent(r.0)
    ensures r.1.Success? <==> locationId in s.locations && (info.dogId.None? || info.dogId.value in s.dogs)
    ensures locationId !in s.locations ==> r == (s, Failure(LocationNotFound(locationId)))
    ensures locationId in s.locations && info.dogId.Some? && info.dogId.value !in s.dogs ==>
              r == (s, Failure(DogNotFound(info.dogId.value)))
    ensures r.1.Success? ==>
      && r.1.value.dogId.Some?
      && var k := r.1.value.dogId.value;
      && (info.dogId.Some? ==> k == info.dogId.value && r.0.dogOrder == s.dogOrder
                               && r.0.nextId == s.nextId)
      && (info.dogId.None? ==> k == s.nextId && k !in s.dogs
                               && r.0.dogOrder == s.dogOrder + [k] && r.0.nextId == s.nextId + 1)
      && r.0.dogs == s.dogs[k := DogRow(info.name, info.age, info.color, locationId,
                                        NamedBreedIds(s, ExtractBreedNames(info)))]
      && r.0.locations == s.locations && r.0.locationOrder == s.locationOrder
      && r.0.breeds == s.breeds
      && k in r.0.dogs && r.1.value == DogInfoOf(DogEntity(r.0, k))
  {
    match FindLocationById(s, locationId)
    case Failure(e) => (s, Failure(e))
    case Success(location) =>
      var breedIds := NamedBreedIds(s, ExtractBreedNames(info));
      match FindOrCreateDog(s, info.dogId)
      case Failure(e) => (s, Failure(e))
      case Success(found) =>
        var dog := CopyDogFields(found, info);
        var saved := SaveDogRow(s, dog.dogId, DogRow(dog.name, dog.age, dog.color, locationId, breedIds));
        (saved.0, Success(DogInfoOf(DogEntity(saved.0, saved.1))))
  }

  /** After a successful `saveDog` the stored dog carries the DTO's name, age
      and color, and the DTO it returns carries them too. */
  lemma SaveDogCopiesFields(s: Store, locationId: int, info: DogInfo)
    requires Consistent(s) && locationId in s.locations
    requires info.dogId.None? || info.dogId.value in s.dogs
    ensures var (t, r) := SaveDogOn(s, locationId, info);
            var dog := DogEntity(t, r.value.dogId.value);
            && dog.name == info.name && dog.age == info.age && dog.color == info.color
            && r.value.name == info.name && r.value.age == info.age && r.value.color == info.color
  {
  }

  /** After a successful `saveDog` the dog's breeds are exactly the catalogue
      breeds whose name the DTO lists: the old breeds are replaced, the DTO's
      breed ids are ignored and names the catalogue lacks are dropped. */
  lemma SaveDogReplacesBreeds(s: Store, locationId: int, info: DogInfo)
    requires Consistent(s) && locationId in s.locations
    requires info.dogId.None? || info.dogId.value in s.dogs
    ensures var (t, r) := SaveDogOn(s, locationId, info);
            DogEntity(t, r.value.dogId.value).breeds
              == set b | b in Catalogue(s) && b.name in ExtractBreedNames(info)
  {
    var (t, r) := SaveDogOn(s, locationId, info);
    NamedBreedsAreCatalogueBreeds(s, ExtractBreedNames(info));
    assert CatalogueBreeds(t, NamedBreedIds(s, ExtractBreedNames(info)))
        == CatalogueBreeds(s, NamedBreedIds(s, ExtractBreedNames(info)));
  }

  /** After a successful `saveDog` the dog and the location point at each
      other: the dog's owner is the location, the location's dog set holds the
      dog, and no other location holds it. */
  lemma SaveDogWiresBothSides(s: Store, locationId: int, info: DogInfo)
    requires Consistent(s) && locationId in s.locations
    requires info.dogId.None? || info.dogId.value in s.dogs
    ensures var (t, r) := SaveDogOn(s, locationId, info);
            var k := r.value.dogId.value;
            && locationId in t.locations
            && DogEntity(t, k).location == Some(OwnerOf(t, locationId))
            && Some(k) in LocationEntity(t, locationId).dogs
            && LocationEntity(t, locationId).dogs[Some(k)] == DogEntity(t, k)
            && (forall other :: other in t.locations && other != locationId ==>
                  Some(k) !in LocationEntity(t, other).dogs)
            && r.value.location == Some(DogInfoLocationOf(OwnerOf(t, locationId)))
  {
  }

  /** Only the breed names of the DTO matter: two DTOs that differ only in
      their breed ids, or in breeds that name the same set of names, save the
      same dog. */
  lemma SaveDogIgnoresBreedIds(s: Store, locationId: int, a: DogInfo, b: DogInfo)
    requires Consistent(s)
    requires a.(breeds := {}) == b.(breeds := {})
    requires ExtractBreedNames(a) == ExtractBreedNames(b)
    ensures SaveDogOn(s, locationId, a) == SaveDogOn(s, locationId, b)
  {
    assert a.dogId == b.dogId && a.name == b.name && a.age == b.age && a.color == b.color;
  }

  /** Saving the DTO that `saveDog` returned, at the same location, changes
      nothing and returns the same DTO. */
  lemma SaveDogIdempotent(s: Store, locationId: int, info: DogInfo)
    requires Consistent(s) && locationId in s.locations
    requires info.dogId.None? || info.dogId.value in s.dogs
    ensures var (t, r) := SaveDogOn(s, locationId, info);
            SaveDogOn(t, locationId, r.value) == (t, r)
  {
    var (t, r) := SaveDogOn(s, locationId, info);
    var k := r.value.dogId.value;
    assert NamedBreedIds(t, ExtractBreedNames(info)) == NamedBreedIds(s, ExtractBreedNames(info));
    SavedBreedNames(t, k, ExtractBreedNames(info));
    ResaveUnchanged(t, locationId, r.value, k);
  }

  /** Saving a dog's own DTO at its own location, when its row already holds
      what the DTO says, changes nothing. */
  lemma ResaveUnchanged(t: Store, locationId: int, dto: DogInfo, k: int)
    requires Consistent(t) && k in t.dogs && locationId in t.locations
    requires dto.dogId == Some(k) && dto == DogInfoOf(DogEntity(t, k))
    requires t.dogs[k] == DogRow(dto.name, dto.age, dto.color, locationId,
                                 NamedBreedIds(t, ExtractBreedNames(dto)))
    ensures SaveDogOn(t, locationId, dto) == (t, Success(dto))
  {
    assert t.dogs[k := t.dogs[k]] == t.dogs;
  }

  /** A dog whose breeds were resolved from names keeps the same breeds when
      the names of its own DTO are resolved again. */
  lemma SavedBreedNames(t: Store, k: int, names: set<string>)
    requires Consistent(t) && k in t.dogs && t.dogs[k].breedIds == NamedBreedIds(t, names)
    ensures NamedBreedIds(t, ExtractBreedNames(DogInfoOf(DogEntity(t, k)))) == t.dogs[k].breedIds
  {
    var ids := t.dogs[k].breedIds;
    var dto := DogInfoOf(DogEntity(t, k));
    assert ExtractBreedNames(dto) == set id | id in ids :: t.breeds[id] by {
      forall n ensures n in ExtractBreedNames(dto) <==> n in set id | id in ids :: t.breeds[id] {
        if n in ExtractBreedNames(dto) {
          var ib :| ib in dto.breeds && ib.name == n;
          assert DogInfoBreedToBreed(ib) in DogEntity(t, k).breeds;
        }
        if n in set id | id in ids :: t.breeds[id] {
          var id :| id in ids && t.breeds[id] == n;
          assert Breed(Some(id), n) in DogEntity(t, k).breeds;
          assert DogInfoBreedOf(Breed(Some(id), n)) in dto.breeds;
        }
      }
    }
    forall id' ensures id' in NamedBreedIds(t, ExtractBreedNames(dto)) <==> id' in ids {
      if id' in NamedBreedIds(t, ExtractBreedNames(dto)) {
        var id :| id in ids && t.breeds[id] == t.breeds[id'];
        assert t.breeds[id] in names;
      }
    }
  }

  // ---------------------------------------------------------------------
  // deleteLocation

  /** `deleteLocation(id)`: the location-not-found failure with nothing
      changed, or the store without the location and its dogs. */
  function DeleteLocationOn(s: Store, id: int): (r: (Store, Option<NotFound>))
    requires Consistent(s)
    ensures Consistent(r.0)
    ensures r.1.Some? <==> id !in s.locations
    ensures r.1.Some? ==> r.1.value == LocationNotFound(id) && r.0 == s
    ensures r.1.None? ==> r.0.locations == s.locations - {id} && r.0.breeds == s.breeds
    ensures r.1.None? ==> forall k :: k in r.0.dogs <==> k in s.dogs && s.dogs[k].locationId != id
    ensures r.1.None? ==> forall k :: k in r.0.dogs ==> r.0.dogs[k] == s.dogs[k]
    ensures r.1.None? ==> r.0.dogOrder == Keep(s.dogOrder, r.0.dogs.Keys)
                          && r.0.locationOrder == Keep(s.locationOrder, r.0.locations.Keys)
  {
    match FindLocationById(s, id)
    case Failure(e) => (s, Some(e))
    case Success(location) =>
      assert location == LocationEntity(s, id);
      (DeleteLocationCascade(s, id, location.dogs), None)
  }

  /** Deleting a location leaves every other location exactly as it was,
      dogs included. */
  lemma DeleteLocationKeepsOthers(s: Store, id: int, other: int)
    requires Consistent(s) && other in s.locations && other != id
    ensures var t := DeleteLocationOn(s, id).0;
            other in t.locations && LocationEntity(t, other) == LocationEntity(s, other)
  {
    var t := DeleteLocationOn(s, id).0;
    var before, after := LocationEntity(s, other), LocationEntity(t, other);
    DeleteKeepsDogEntities(s, id);
    assert OwnerOf(t, other) == OwnerOf(s, other);
    forall d | d in after.dogs ensures d in before.dogs && after.dogs[d] == before.dogs[d] {
      assert DogEntity(t, d.value) == DogEntity(s, d.value);
    }
    assert after.dogs.Keys == before.dogs.Keys;
    DogMapsEqual(after.dogs, before.dogs);
  }

  /** Every dog that survives a delete reads back as it did before. */
  lemma DeleteKeepsDogEntities(s: Store, id: int)
    requires Consistent(s)
    ensures var t := DeleteLocationOn(s, id).0;
            forall k :: k in t.dogs ==> k in s.dogs && DogEntity(t, k) == DogEntity(s, k)
  {
    var t := DeleteLocationOn(s, id).0;
    forall k | k in t.dogs ensures k in s.dogs && DogEntity(t, k) == DogEntity(s, k) {
      assert CatalogueBreeds(t, t.dogs[k].breedIds) == CatalogueBreeds(s, s.dogs[k].breedIds);
    }
  }

  /** Deleting a location deletes exactly the `dog_breed` rows of its dogs. */
  lemma DeleteLocationJoinRows(s: Store, id: int)
    requires Consistent(s) && id in s.locations
    ensures JoinRows(DeleteLocationOn(s, id).0)
            == set p | p in JoinRows(s) && s.dogs[p.0].locationId != id
  {
  }

  /** The case the tests check: deleting the only location empties the
      location, dog and `dog_breed` tables and keeps the breed catalogue. */
  lemma DeleteOnlyLocation(s: Store, id: int)
    requires Consistent(s) && s.locations.Keys == {id}
    ensures var t := DeleteLocationOn(s, id).0;
            t.locations == map[] && t.dogs == map[] && JoinRows(t) == {} && t.breeds == s.breeds
  {
    var t := DeleteLocationOn(s, id).0;
    assert forall k :: k !in t.dogs;
    assert t.dogs == map[];
  }

  // ---------------------------------------------------------------------
  // saveLocation

  /** The scalar columns of a location DTO. */
  function RowOf(d: LocationData): (r: LocationRow)
    ensures r.businessName == d.businessName && r.streetAddress == d.streetAddress
    ensures r.city == d.city && r.state == d.state && r.zip == d.zip && r.phone == d.phone
  {
    LocationRow(d.businessName, d.streetAddress, d.city, d.state, d.zip, d.phone)
  }

  /** `saveLocation(locationData)`: a DTO whose id names a stored location
      replaces that location's scalar fields; any other DTO is inserted under
      the next identity. The returned DTO is the saved location. */
  function SaveLocationOn(s: Store, d: LocationData): (r: (Store, LocationData))
    requires Consistent(s)
    ensures Consistent(r.0)
    ensures r.1.locationId.Some? && r.1.locationId.value in r.0.locations
    ensures d.locationId.Some? && d.locationId.value in s.locations ==>
              r.1.locationId == d.locationId && r.0.locationOrder == s.locationOrder
              && r.0.nextId == s.nextId
    ensures !(d.locationId.Some? && d.locationId.value in s.locations) ==>
              r.1.locationId == Some(s.nextId) && s.nextId !in s.locations
              && r.0.locationOrder == s.locationOrder + [s.nextId] && r.0.nextId == s.nextId + 1
    ensures r.0.locations == s.locations[r.1.locationId.value := RowOf(d)]
    ensures r.0.dogs == s.dogs && r.0.dogOrder == s.dogOrder && r.0.breeds == s.breeds
    ensures r.1.(locationId := d.locationId, dogs := d.dogs) == d
    ensures r.1 == FromLocation(LocationEntity(r.0, r.1.locationId.value))
  {
    var saved := SaveLocationRow(s, d.locationId, RowOf(d));
    (saved.0, FromLocation(LocationEntity(saved.0, saved.1)))
  }

  /** A newly inserted location has no dogs yet. */
  lemma SaveLocationInsertsEmpty(s: Store, d: LocationData)
    requires Consistent(s) && !(d.locationId.Some? && d.locationId.value in s.locations)
    ensures SaveLocationOn(s, d).1.dogs == {}
  {
    var (t, r) := SaveLocationOn(s, d);
    assert forall k :: k in t.dogs ==> t.dogs[k].locationId != s.nextId;
    assert LocationEntity(t, s.nextId).dogs == map[];
  }

  /** Reading a location back after saving it gives the DTO `saveLocation`
      returned. */
  lemma SaveLocationThenRetrieve(s: Store, d: LocationData)
    requires Consistent(s)
    ensures var (t, r) := SaveLocationOn(s, d);
            RetrieveLocationById(t, r.locationId.value) == Success(r)
  {
  }

  /** Saving the DTO `saveLocation` returned changes nothing and returns it
      again. */
  lemma SaveLocationIdempotent(s: Store, d: LocationData)
    requires Consistent(s)
    ensures var (t, r) := SaveLocationOn(s, d);
            SaveLocationOn(t, r) == (t, r)
  {
    var (t, r) := SaveLocationOn(s, d);
    var id := r.locationId.value;
    assert RowOf(r) == t.locations[id];
    assert t.locations[id := RowOf(r)] == t.locations;
  }

  // ---------------------------------------------------------------------
  // retrieveAllDogsAtLocation

  /** The dog's owner has the id `id`. A stored dog always has an owner. */
  predicate AtLocation(d: Dog, id: int)
  {
    d.location.Some? && d.location.value.locationId == Some(id)
  }

  /** The first loop of `retrieveAllDogsAtLocation`: the dogs of `all` whose
      owner has the id `id`, in their order in `all`. */
  function DogsAtLocation(all: seq<Dog>, id: int): (r: seq<Dog>)
    ensures forall d :: d in r <==> d in all && AtLocation(d, id)
    ensures forall d :: multiset(r)[d] == if AtLocation(d, id) then multiset(all)[d] else 0
    ensures |r| <= |all|
  {
    if all == [] then []
    else
      var last := all[|all| - 1];
      var rest := DogsAtLocation(all[..|all| - 1], id);
      assert all == all[..|all| - 1] + [last];
      if AtLocation(last, id) then rest + [last] else rest
  }

  /** The filter distributes over concatenation: the dogs kept from `a + b`
      are those kept from `a` followed by those kept from `b`. With the count
      clause of `DogsAtLocation` this fixes the result, order included. */
  lemma {:induction false} DogsAtLocationAppend(a: seq<Dog>, b: seq<Dog>, id: int)
    ensures DogsAtLocation(a + b, id) == DogsAtLocation(a, id) + DogsAtLocation(b, id)
    decreases |b|
  {
    if b == [] {
      assert a + b == a;
    } else {
      var last := b[|b| - 1];
      var front := b[..|b| - 1];
      assert (a + b)[..|a + b| - 1] == a + front;
      assert (a + b)[|a + b| - 1] == last;
      DogsAtLocationAppend(a, front, id);
    }
  }

  /** The ids of the dog rows whose `location_id` is `id`. */
  function DogIdsAt(s: Store, id: int): set<int>
  {
    set k | k in s.dogs && s.dogs[k].locationId == id
  }

  /** When `all` lists the dogs `e[k]` of the ids `k` of `order`, and a dog is
      at location `id` exactly when its id is in `keys`, the first loop keeps,
      in order, the dogs of the ids `Keep` selects. */
  lemma {:induction false} FilterFollowsKeep(all: seq<Dog>, order: seq<int>, e: map<int, Dog>,
                                             keys: set<int>, id: int)
    requires |all| == |order|
    requires forall i :: 0 <= i < |order| ==> order[i] in e && all[i] == e[order[i]]
    requires forall k :: k in e ==> (AtLocation(e[k], id) <==> k in keys)
    ensures var ids := Keep(order, keys);
            var dogs := DogsAtLocation(all, id);
            && |dogs| == |ids|
            && forall i :: 0 <= i < |dogs| ==> ids[i] in e && dogs[i] == e[ids[i]]
    decreases |order|
  {
    if order != [] {
      var n := |order|;
      var k := order[n - 1];
      assert order == order[..n - 1] + [k];
      KeepSnoc(order[..n - 1], k, keys);
      FilterFollowsKeep(all[..n - 1], order[..n - 1], e, keys, id);
      var ids0, dogs0 := Keep(order[..n - 1], keys), DogsAtLocation(all[..n - 1], id);
      assert DogsAtLocation(all, id)
             == dogs0 + if AtLocation(all[n - 1], id) then [all[n - 1]] else [];
      if k in keys {
        assert Keep(order, keys) == ids0 + [k];
        assert DogsAtLocation(all, id) == dogs0 + [e[k]];
      } else {
        assert Keep(order, keys) == ids0;
        assert DogsAtLocation(all, id) == dogs0;
      }
    }
  }

  /** `findAll` followed by the first loop keeps, in table order, one entity
      for each dog row whose `location_id` is `id`. */
  lemma DogsAtLocationInOrder(s: Store, id: int)
    requires Consistent(s)
    ensures var ids := Keep(s.dogOrder, DogIdsAt(s, id));
            var dogs := DogsAtLocation(FindAllDogs(s), id);
            && |dogs| == |ids|
            && forall i :: 0 <= i < |dogs| ==> ids[i] in s.dogs && dogs[i] == DogEntity(s, ids[i])
  {
    var e := map k | k in s.dogs :: DogEntity(s, k);
    forall k | k in e ensures AtLocation(e[k], id) <==> k in DogIdsAt(s, id) {
      assert e[k].location == Some(OwnerOf(s, s.dogs[k].locationId));
    }
    FilterFollowsKeep(FindAllDogs(s), s.dogOrder, e, DogIdsAt(s, id), id);
  }

  /** The second loop: each dog's DTO with its location cleared. */
  function InfosWithoutLocation(ds: seq<Dog>): (r: seq<DogInfo>)
    ensures |r| == |ds|
    ensures forall i :: 0 <= i < |ds| ==>
              r[i].location == None && DogInfoToDog(r[i]) == ds[i].(location := None)
  {
    var r := seq(|ds|, i requires 0 <= i < |ds| => DogInfoOf(ds[i]).(location := None));
    forall i | 0 <= i < |ds| ensures DogInfoToDog(r[i]) == ds[i].(location := None) {
      DogInfoRoundTrip(r[i], ds[i]);
    }
    r
  }

  /** The first loop keeps exactly the stored dogs whose `location_id` is
      `id`; there are none when no location has that id. */
  lemma DogsAtLocationOfStore(s: Store, id: int)
    requires Consistent(s)
    ensures var dogs := DogsAtLocation(FindAllDogs(s), id);
            && (forall k :: k in s.dogs && s.dogs[k].locationId == id ==> DogEntity(s, k) in dogs)
            && (forall d :: d in dogs ==>
                  && d.dogId.Some? && d.dogId.value in s.dogs
                  && s.dogs[d.dogId.value].locationId == id && d == DogEntity(s, d.dogId.value))
            && (id !in s.locations ==> dogs == [])
  {
    var dogs := DogsAtLocation(FindAllDogs(s), id);
    if dogs != [] {
      assert dogs[0] in dogs;
    }
  }

  /** The DTOs the two loops build from `findAll`, before any contract is
      stated about them. */
  function InfosAtLocation(s: Store, id: int): seq<DogInfo>
    requires Consistent(s)
  {
    InfosWithoutLocation(DogsAtLocation(FindAllDogs(s), id))
  }

  /** The DTOs are those of the dogs `Keep` selects from the table order. */
  lemma InfosAtLocationInOrder(s: Store, id: int)
    requires Consistent(s)
    ensures var ids := Keep(s.dogOrder, DogIdsAt(s, id));
            var r := InfosAtLocation(s, id);
            && |r| == |ids|
            && forall i :: 0 <= i < |r| ==>
                 ids[i] in s.dogs && r[i] == DogInfoOf(DogEntity(s, ids[i])).(location := None)
  {
    DogsAtLocationInOrder(s, id);
  }

  /** The table order lists the dogs at a location once each, and no dogs
      at all for an id no location has. */
  lemma DogIdsAtListed(s: Store, id: int)
    requires Consistent(s)
    ensures var ids := Keep(s.dogOrder, DogIdsAt(s, id));
            Distinct(ids) && (id !in s.locations ==> ids == [])
  {
    assert Distinct(s.dogOrder);
    if id !in s.locations {
      assert forall k :: k in s.dogs ==> s.dogs[k].locationId != id;
      assert DogIdsAt(s, id) == {};
      KeepNothing(s.dogOrder);
    }
  }

  /** Every dog row at location `id` has its DTO in the result. */
  lemma InfosAtLocationComplete(s: Store, id: int, k: int)
    requires Consistent(s) && k in s.dogs && s.dogs[k].locationId == id
    ensures DogInfoOf(DogEntity(s, k)).(location := None) in InfosAtLocation(s, id)
  {
    var ids := Keep(s.dogOrder, DogIdsAt(s, id));
    InfosAtLocationInOrder(s, id);
    assert k in s.dogOrder && k in DogIdsAt(s, id);
    var i :| 0 <= i < |ids| && ids[i] == k;
    assert InfosAtLocation(s, id)[i] == DogInfoOf(DogEntity(s, k)).(location := None);
  }

  /** Every DTO of the result is that of a dog row at location `id`. */
  lemma InfosAtLocationSound(s: Store, id: int, x: DogInfo)
    requires Consistent(s) && x in InfosAtLocation(s, id)
    ensures && x.dogId.Some? && x.dogId.value in s.dogs && s.dogs[x.dogId.value].locationId == id
            && x == DogInfoOf(DogEntity(s, x.dogId.value)).(location := None)
  {
    var ids := Keep(s.dogOrder, DogIdsAt(s, id));
    var r := InfosAtLocation(s, id);
    InfosAtLocationInOrder(s, id);
    var i :| 0 <= i < |r| && r[i] == x;
    assert ids[i] in ids;
  }

  /** `retrieveAllDogsAtLocation(id)`: in table order, one DTO without a
      location per dog whose `location_id` is `id`. An unknown id gives the
      empty list, never a not-found failure. */
  function RetrieveAllDogsAtLocationOn(s: Store, id: int): (r: seq<DogInfo>)
    requires Consistent(s)
    ensures forall x :: x in r ==> x.location == None
    ensures forall k :: k in s.dogs && s.dogs[k].locationId == id ==>
              DogInfoOf(DogEntity(s, k)).(location := None) in r
    ensures forall x :: x in r ==>
              && x.dogId.Some? && x.dogId.value in s.dogs && s.dogs[x.dogId.value].locationId == id
              && x == DogInfoOf(DogEntity(s, x.dogId.value)).(location := None)
    ensures id !in s.locations ==> r == []
    ensures var ids := Keep(s.dogOrder, DogIdsAt(s, id));
            && Distinct(ids) && |r| == |ids|
            && forall i :: 0 <= i < |r| ==>
                 ids[i] in s.dogs && r[i] == DogInfoOf(DogEntity(s, ids[i])).(location := None)
  {
    var r := InfosAtLocation(s, id);
    InfosAtLocationInOrder(s, id);
    DogIdsAtListed(s, id);
    forall k | k in s.dogs && s.dogs[k].locationId == id
      ensures DogInfoOf(DogEntity(s, k)).(location := None) in r
    {
      InfosAtLocationComplete(s, id, k);
    }
    forall x | x in r
      ensures && x.dogId.Some? && x.dogId.value in s.dogs && s.dogs[x.dogId.value].locationId == id
              && x == DogInfoOf(DogEntity(s, x.dogId.value)).(location := None)
    {
      InfosAtLocationSound(s, id, x);
    }
    r
  }

  /** `==` between two `Long` objects that `Long.valueOf` boxed: the values
      are equal and both come from the shared cache of -128..127; equal values
      outside that range are different objects. */
  predicate SameBoxedLong(a: int, b: int)
  {
    a == b && -128 <= a <= 127
  }

  /** The first loop of `retrieveAllDogsAtLocation` as written, comparing the
      owner's id and the argument with `==` on `Long`. */
  function DogsAtLocationAsWritten(all: seq<Dog>, id: int): (r: seq<Dog>)
    ensures forall d :: d in r <==> d in all && AtLocation(d, id) && -128 <= id <= 127
  {
    if all == [] then []
    else
      var last := all[|all| - 1];
      var rest := DogsAtLocationAsWritten(all[..|all| - 1], id);
      assert all == all[..|all| - 1] + [last];
      if last.location.Some? && last.location.value.locationId.Some?
         && SameBoxedLong(last.location.value.locationId.value, id)
      then rest + [last] else rest
  }

  /** For ids in the `Long` cache the loop as written finds the same dogs as a
      comparison of values. */
  lemma {:induction false} AsWrittenAgreesInCache(all: seq<Dog>, id: int)
    requires -128 <= id <= 127
    ensures DogsAtLocationAsWritten(all, id) == DogsAtLocation(all, id)
    decreases |all|
  {
    if all != [] {
      AsWrittenAgreesInCache(all[..|all| - 1], id);
    }
  }

  /** A dog at location 128 is not found by the loop as written, although its
      owner's id equals the argument. */
  lemma AsWrittenMissesLocation128()
    ensures var owner := Location(Some(128), "Rescue", "1 Main St", "Boise", "ID", "83702",
                                  "208-555-0100", map[]);
            var dog := Dog(Some(1), "Rex", 3, "brown", Some(owner), {});
            DogsAtLocation([dog], 128) == [dog] && DogsAtLocationAsWritten([dog], 128) == []
  {
    var owner := Location(Some(128), "Rescue", "1 Main St", "Boise", "ID", "83702",
                          "208-555-0100", map[]);
    var dog := Dog(Some(1), "Rex", 3, "brown", Some(owner), {});
    assert [dog][..0] == [];
  }

  /** The first iterator loop of `retrieveAllDogsAtLocation`: the dogs of
      `fullDogList` at location `locationId`, in their order. */
  method FilterByLocation(fullDogList: seq<Dog>, locationId: int) returns (filtered: seq<Dog>)
    ensures filtered == DogsAtLocation(fullDogList, locationId)
  {
    filtered := [];
    var i := 0;
    while i < |fullDogList|
      invariant 0 <= i <= |fullDogList|
      invariant filtered == DogsAtLocation(fullDogList[..i], locationId)
    {
      var d := fullDogList[i];
      assert fullDogList[..i + 1][..i] == fullDogList[..i];
      if d.location.Some? && d.location.value.locationId == Some(locationId) {
        filtered := filtered + [d];
      }
      i := i + 1;
    }
    assert fullDogList[..i] == fullDogList;
  }

  /** The second iterator loop: the DTO of each dog with `setLocation(null)`
      applied. */
  method ClearLocations(filtered: seq<Dog>) returns (dl: seq<DogInfo>)
    ensures dl == InfosWithoutLocation(filtered)
  {
    dl := [];
    var j := 0;
    while j < |filtered|
      invariant 0 <= j <= |filtered|
      invariant dl == InfosWithoutLocation(filtered[..j])
    {
      var di := DogInfoOf(filtered[j]).(location := None);
      dl := dl + [di];
      j := j + 1;
    }
    assert filtered[..j] == filtered;
  }

  // ---------------------------------------------------------------------
  // The service object

  /** The service with the tables its DAOs read and write. */
  class RescueService {
    var locations: map<int, LocationRow>
    var locationOrder: seq<int>
    var dogs: map<int, DogRow>
    var dogOrder: seq<int>
    var breeds: map<int, string>
    var nextId: int

    /** The tables as one value. */
    function State(): Store
      reads this
    {
      Store(locations, locationOrder, dogs, dogOrder, breeds, nextId)
    }

    ghost predicate Valid()
      reads this
    {
      Consistent(State())
    }

    /** A service over a database holding only the breed catalogue. */
    constructor (catalogue: map<int, string>, firstId: int)
      requires forall k :: k in catalogue ==> k < firstId
      ensures Valid() && State() == EmptyStore(catalogue, firstId)
    {
      locations, locationOrder := map[], [];
      dogs, dogOrder := map[], [];
      breeds, nextId := catalogue, firstId;
    }

    /** `saveLocation`. */
    method SaveLocation(locationData: LocationData) returns (saved: LocationData)
      requires Valid()
      modifies this
      ensures Valid()
      ensures (State(), saved) == SaveLocationOn(old(State()), locationData)
    {
      var dbLocation := SaveLocationRow(State(), locationData.locationId, RowOf(locationData));
      saved := FromLocation(LocationEntity(dbLocation.0, dbLocation.1));
      SetState(dbLocation.0);
    }

    /** `saveDog`. */
    method SaveDog(locationId: int, dogInfo: DogInfo) returns (r: Result<DogInfo, NotFound>)
      requires Valid()
      modifies this
      ensures Valid()
      ensures (State(), r) == SaveDogOn(old(State()), locationId, dogInfo)
    {
      var location := FindLocationById(State(), locationId);
      if location.Failure? {
        return Failure(location.error);
      }
      var breedIds := NamedBreedIds(State(), ExtractBreedNames(dogInfo));
      var found := FindOrCreateDog(State(), dogInfo.dogId);
      if found.Failure? {
        return Failure(found.error);
      }
      var dog := CopyDogFields(found.value, dogInfo);
      var saved := SaveDogRow(State(), dog.dogId,
                              DogRow(dog.name, dog.age, dog.color, locationId, breedIds));
      r := Success(DogInfoOf(DogEntity(saved.0, saved.1)));
      SetState(saved.0);
    }

    /** Writes the tables back after a DAO call. */
    method SetState(t: Store)
      modifies this
      ensures State() == t
    {
      locations, locationOrder, dogs, dogOrder, breeds, nextId :=
        t.locations, t.locationOrder, t.dogs, t.dogOrder, t.breeds, t.nextId;
    }

    /** `deleteLocation`. */
    method DeleteLocation(locationId: int) returns (failure: Option<NotFound>)
      requires Valid()
      modifies this
      ensures Valid()
      ensures (State(), failure) == DeleteLocationOn(old(State()), locationId)
    {
      var location := FindLocationById(State(), locationId);
      if location.Failure? {
        return Some(location.error);
      }
      var rest := DeleteLocationCascade(State(), locationId, location.value.dogs);
      SetState(rest);
      failure := None;
    }

    /** `retrieveAllDogsAtLocation`. */
    method RetrieveAllDogsAtLocation(locationId: int) returns (dl: seq<DogInfo>)
      requires Valid()
      ensures dl == RetrieveAllDogsAtLocationOn(State(), locationId)
    {
      var fullDogList := FindAllDogs(State());
      var filteredDogList := FilterByLocation(fullDogList, locationId);
      dl := ClearLocations(filteredDogList);
    }
  }
}
