/** The three tables behind the DAOs (location, dog and breed, with the
    dog's `location_id` column and the `dog_breed` join table folded into the
    dog row), the entity values a DAO read hands back, and the reads
    themselves: `findById`, `findAll` and `findByNameIn`. */
module RescueStore {
  import opened Wrappers
  import opened Entities
  import opened JavaString

  /** The six string columns of a location row. */
  datatype LocationRow = LocationRow(businessName: string, streetAddress: string, city: string,
                                     state: string, zip: string, phone: string)

  /** A dog row: its columns, the `location_id` foreign key and the breed ids
      the `dog_breed` join table links it to. */
  datatype DogRow = DogRow(name: string, age: int, color: string, locationId: int,
                           breedIds: set<int>)

  /** The database: each table keyed on its primary key, the order in which
      `findAll` returns the rows of a table, and the next identity value. */
  datatype Store = Store(locations: map<int, LocationRow>, locationOrder: seq<int>,
                         dogs: map<int, DogRow>, dogOrder: seq<int>,
                         breeds: map<int, string>, nextId: int)

  /** No id occurs twice in `order`. */
  predicate Distinct(order: seq<int>)
  {
    forall i, j :: 0 <= i < j < |order| ==> order[i] != order[j]
  }

  /** `order` lists each key of `keys` exactly once. */
  ghost predicate Lists(order: seq<int>, keys: set<int>)
  {
    Distinct(order) && forall k :: k in order <==> k in keys
  }

  /** The elements of `order` that are in `keys`, in their order. */
  function Keep(order: seq<int>, keys: set<int>): (r: seq<int>)
    ensures forall k :: k in r <==> k in order && k in keys
    ensures Distinct(order) ==> Distinct(r)
  {
    if order == [] then []
    else
      var rest := Keep(order[1..], keys);
      assert forall k :: k in order <==> k == order[0] || k in order[1..];
      if order[0] in keys then
        assert Distinct(order) ==> Distinct(order[1..]) by {
          if Distinct(order) {
            forall i, j | 0 <= i < j < |order[1..]| ensures order[1..][i] != order[1..][j] {
              assert order[1..][i] == order[i + 1] && order[1..][j] == order[j + 1];
            }
          }
        }
        [order[0]] + rest
      else
        assert Distinct(order) ==> Distinct(order[1..]) by {
          if Distinct(order) {
            forall i, j | 0 <= i < j < |order[1..]| ensures order[1..][i] != order[1..][j] {
              assert order[1..][i] == order[i + 1] && order[1..][j] == order[j + 1];
            }
          }
        }
        rest
  }

  /** Keeping no keys keeps nothing. */
  lemma KeepNothing(order: seq<int>)
    ensures Keep(order, {}) == []
  {
  }

  /** Keeping from `a + [x]` keeps from `a`, then `x` when it is kept. */
  lemma {:induction false} KeepSnoc(a: seq<int>, x: int, keys: set<int>)
    ensures Keep(a + [x], keys) == Keep(a, keys) + (if x in keys then [x] else [])
    decreases |a|
  {
    if a == [] {
      assert [x][1..] == [];
    } else {
      assert (a + [x])[1..] == a[1..] + [x];
      KeepSnoc(a[1..], x, keys);
    }
  }

  /** What the schema and the cascades guarantee of every reachable state:
      every dog belongs to a stored location (`location_id` is `nullable =
      false`) and links only to catalogue breeds, identities are below the
      next one to be handed out, and `findAll` lists every row once. */
  ghost predicate Consistent(s: Store)
  {
    && (forall k :: k in s.dogs ==> s.dogs[k].locationId in s.locations)
    && (forall k :: k in s.dogs ==> s.dogs[k].breedIds <= s.breeds.Keys)
    && (forall k :: k in s.locations ==> k < s.nextId)
    && (forall k :: k in s.dogs ==> k < s.nextId)
    && (forall k :: k in s.breeds ==> k < s.nextId)
    && Lists(s.locationOrder, s.locations.Keys)
    && Lists(s.dogOrder, s.dogs.Keys)
  }

  /** A database with the breed catalogue loaded and no locations or dogs. */
  function EmptyStore(catalogue: map<int, string>, firstId: int): (s: Store)
    requires forall k :: k in catalogue ==> k < firstId
    ensures Consistent(s)
    ensures s.locations == map[] && s.dogs == map[] && s.breeds == catalogue
  {
    Store(map[], [], map[], [], catalogue, firstId)
  }

  /** The breed entities with the given ids. */
  function CatalogueBreeds(s: Store, ids: set<int>): (r: set<Breed>)
    requires ids <= s.breeds.Keys
    ensures forall b :: b in r <==> b.breedId.Some? && b.breedId.value in ids
                                      && b.name == s.breeds[b.breedId.value]
  {
    var r := set id | id in ids :: Breed(Some(id), s.breeds[id]);
    forall b: Breed | b.breedId.Some? && b.breedId.value in ids && b.name == s.breeds[b.breedId.value]
      ensures b in r
    {
      var id := b.breedId.value;
      assert Breed(Some(id), s.breeds[id]) in r;
      assert b == Breed(Some(id), s.breeds[id]);
    }
    r
  }

  /** Every breed of the catalogue. */
  function Catalogue(s: Store): (r: set<Breed>)
    ensures forall b :: b in r <==> b.breedId.Some? && b.breedId.value in s.breeds
                                      && b.name == s.breeds[b.breedId.value]
  {
    CatalogueBreeds(s, s.breeds.Keys)
  }

  /** The location a dog entity points back to. A value cannot hold itself, so
      the owner is given with its scalar fields and without its dogs. */
  function OwnerOf(s: Store, id: int): (r: Location)
    requires id in s.locations
    ensures r.locationId == Some(id) && r.dogs == map[]
    ensures r.businessName == s.locations[id].businessName
    ensures r.streetAddress == s.locations[id].streetAddress && r.city == s.locations[id].city
    ensures r.state == s.locations[id].state && r.zip == s.locations[id].zip
    ensures r.phone == s.locations[id].phone
  {
    var row := s.locations[id];
    Location(Some(id), row.businessName, row.streetAddress, row.city, row.state, row.zip,
             row.phone, map[])
  }

  /** The dog entity a read of dog row `k` produces. */
  function DogEntity(s: Store, k: int): (r: Dog)
    requires Consistent(s) && k in s.dogs
    ensures r.dogId == Some(k)
    ensures r.name == s.dogs[k].name && r.age == s.dogs[k].age && r.color == s.dogs[k].color
    ensures r.location == Some(OwnerOf(s, s.dogs[k].locationId))
    ensures r.breeds == CatalogueBreeds(s, s.dogs[k].breedIds)
  {
    var row := s.dogs[k];
    Dog(Some(k), row.name, row.age, row.color, Some(OwnerOf(s, row.locationId)),
        CatalogueBreeds(s, row.breedIds))
  }

  /** The location entity a read of location row `id` produces, with the dogs
      whose `location_id` is `id` in its dog set. */
  function LocationEntity(s: Store, id: int): (r: Location)
    requires Consistent(s) && id in s.locations
    ensures r.locationId == Some(id)
    ensures r.(dogs := map[]) == OwnerOf(s, id)
    ensures WellKeyed(r.dogs)
    ensures forall k :: Some(k) in r.dogs <==> k in s.dogs && s.dogs[k].locationId == id
    ensures forall k :: Some(k) in r.dogs ==> r.dogs[Some(k)] == DogEntity(s, k)
    ensures None !in r.dogs
  {
    OwnerOf(s, id).(dogs := map k | k in s.dogs && s.dogs[k].locationId == id :: Some(k) := DogEntity(s, k))
  }

  /** Why a lookup failed. */
  datatype NotFound = LocationNotFound(locationId: int) | DogNotFound(dogId: int)

  /** The text of the `NoSuchElementException` a failed lookup throws. */
  function Message(e: NotFound): (r: string)
    ensures e.LocationNotFound? ==>
              r == "Location with ID=" + LongToString(e.locationId) + " was not found."
    ensures e.DogNotFound? ==> r == "Dog with ID=" + LongToString(e.dogId) + " was not found."
  {
    match e
    case LocationNotFound(id) => "Location with ID=" + LongToString(id) + " was not found."
    case DogNotFound(id) => "Dog with ID=" + LongToString(id) + " was not found."
  }

  /** Different failures read differently: the message names the table and the
      id that was not found. */
  lemma MessageInjective(a: NotFound, b: NotFound)
    requires Message(a) == Message(b)
    ensures a == b
  {
    var m := Message(a);
    assert m[0] == if a.LocationNotFound? then 'L' else 'D';
    assert m[0] == if b.LocationNotFound? then 'L' else 'D';
    var prefix: string := if a.LocationNotFound? then "Location with ID=" else "Dog with ID=";
    var suffix: string := " was not found.";
    var x := if a.LocationNotFound? then a.locationId else a.dogId;
    var y := if b.LocationNotFound? then b.locationId else b.dogId;
    assert m == prefix + LongToString(x) + suffix;
    assert m == prefix + LongToString(y) + suffix;
    assert LongToString(x) == m[|prefix|..|m| - |suffix|];
    assert LongToString(y) == m[|prefix|..|m| - |suffix|];
    LongToStringInjective(x, y);
  }

  /** `locationDao.findById(id).orElseThrow(...)`. */
  function FindLocationById(s: Store, id: int): (r: Result<Location, NotFound>)
    requires Consistent(s)
    ensures r.Success? <==> id in s.locations
    ensures r.Failure? ==> r.error == LocationNotFound(id)
    ensures r.Success? ==> r.value.locationId == Some(id)
                           && r.value.(dogs := map[]) == OwnerOf(s, id)
    ensures r.Success? ==> r.value == LocationEntity(s, id)
  {
    if id in s.locations then Success(LocationEntity(s, id)) else Failure(LocationNotFound(id))
  }

  /** `dogDao.findById(id).orElseThrow(...)`. */
  function FindDogById(s: Store, k: int): (r: Result<Dog, NotFound>)
    requires Consistent(s)
    ensures r.Success? <==> k in s.dogs
    ensures r.Failure? ==> r.error == DogNotFound(k)
    ensures r.Success? ==> r.value.dogId == Some(k) && r.value.location.Some?
    ensures r.Success? ==> r.value == DogEntity(s, k)
  {
    if k in s.dogs then Success(DogEntity(s, k)) else Failure(DogNotFound(k))
  }

  /** `locationDao.findAll()`: one entity per location row, in table order. */
  function FindAllLocations(s: Store): (r: seq<Location>)
    requires Consistent(s)
    ensures |r| == |s.locations|
    ensures forall id :: id in s.locations ==> LocationEntity(s, id) in r
    ensures forall l :: l in r ==> l.locationId.Some? && l.locationId.value in s.locations
                                   && l == LocationEntity(s, l.locationId.value)
  {
    var r := seq(|s.locationOrder|, i requires 0 <= i < |s.locationOrder| =>
                   LocationEntity(s, s.locationOrder[i]));
    ListedOnce(s.locationOrder, s.locations.Keys);
    forall id | id in s.locations ensures LocationEntity(s, id) in r {
      var i :| 0 <= i < |s.locationOrder| && s.locationOrder[i] == id;
      assert r[i] == LocationEntity(s, id);
    }
    r
  }

  /** `dogDao.findAll()`: one entity per dog row, in table order. */
  function FindAllDogs(s: Store): (r: seq<Dog>)
    requires Consistent(s)
    ensures |r| == |s.dogs| == |s.dogOrder|
    ensures forall i :: 0 <= i < |r| ==> s.dogOrder[i] in s.dogs && r[i] == DogEntity(s, s.dogOrder[i])
    ensures forall k :: k in s.dogs ==> DogEntity(s, k) in r
    ensures forall d :: d in r ==> d.dogId.Some? && d.dogId.value in s.dogs
                                   && d == DogEntity(s, d.dogId.value)
  {
    var r := seq(|s.dogOrder|, i requires 0 <= i < |s.dogOrder| => DogEntity(s, s.dogOrder[i]));
    ListedOnce(s.dogOrder, s.dogs.Keys);
    forall k | k in s.dogs ensures DogEntity(s, k) in r {
      var i :| 0 <= i < |s.dogOrder| && s.dogOrder[i] == k;
      assert r[i] == DogEntity(s, k);
    }
    r
  }

  /** A sequence that lists a set of keys once each is as long as the set. */
  lemma {:induction false} ListedOnce(order: seq<int>, keys: set<int>)
    requires Lists(order, keys)
    ensures |order| == |keys|
    decreases |order|
  {
    if order != [] {
      var rest := order[1..];
      assert Lists(rest, keys - {order[0]}) by {
        forall i, j | 0 <= i < j < |rest| ensures rest[i] != rest[j] {
          assert rest[i] == order[i + 1] && rest[j] == order[j + 1];
        }
        forall k ensures k in rest <==> k in keys - {order[0]} {
          assert k in order <==> k == order[0] || k in rest;
          if k in rest {
            var j :| 0 <= j < |rest| && rest[j] == k;
            assert order[j + 1] == k;
          }
        }
      }
      ListedOnce(rest, keys - {order[0]});
      assert order[0] in order && order[0] in keys;
      assert keys == (keys - {order[0]}) + {order[0]};
      assert |keys| == |keys - {order[0]}| + 1;
    } else {
      assert forall k :: k !in keys;
    }
  }

  /** `breedDao.findByNameIn(names)`: the catalogue breeds whose name is one of
      `names`, as their ids. */
  function NamedBreedIds(s: Store, names: set<string>): (r: set<int>)
    ensures r <= s.breeds.Keys
    ensures forall id :: id in r <==> id in s.breeds && s.breeds[id] in names
  {
    set id | id in s.breeds && s.breeds[id] in names
  }

  /** The breeds `findByNameIn` returns are exactly the catalogue breeds with
      one of the names asked for; names the catalogue lacks add nothing. */
  lemma NamedBreedsAreCatalogueBreeds(s: Store, names: set<string>)
    ensures CatalogueBreeds(s, NamedBreedIds(s, names)) == set b | b in Catalogue(s) && b.name in names
  {
    var found := CatalogueBreeds(s, NamedBreedIds(s, names));
    var wanted := set b | b in Catalogue(s) && b.name in names;
    forall b | b in wanted ensures b in found {
      assert b.breedId.value in NamedBreedIds(s, names);
    }
  }

  /** The `dog_breed` join table: one (dog id, breed id) pair per link. */
  function JoinRows(s: Store): (r: set<(int, int)>)
    ensures forall k, b :: (k, b) in r <==> k in s.dogs && b in s.dogs[k].breedIds
  {
    set k, b | k in s.dogs && b in s.dogs[k].breedIds :: (k, b)
  }

  /** `locationDao.save(location)` for the seven scalar fields: a location
      whose id names a stored row replaces that row; any other location
      (no id, or an id with no row) is inserted under the next identity. */
  function SaveLocationRow(s: Store, locationId: Option<int>, row: LocationRow): (r: (Store, int))
    requires Consistent(s)
    ensures Consistent(r.0) && r.1 in r.0.locations
    ensures r.0.locations == s.locations[r.1 := row]
    ensures r.0.dogs == s.dogs && r.0.dogOrder == s.dogOrder && r.0.breeds == s.breeds
    ensures locationId.Some? && locationId.value in s.locations ==>
              r.1 == locationId.value && r.0.locationOrder == s.locationOrder
              && r.0.nextId == s.nextId
    ensures !(locationId.Some? && locationId.value in s.locations) ==>
              r.1 == s.nextId && r.1 !in s.locations
              && r.0.locationOrder == s.locationOrder + [r.1] && r.0.nextId == s.nextId + 1
  {
    if locationId.Some? && locationId.value in s.locations then
      (s.(locations := s.locations[locationId.value := row]), locationId.value)
    else
      var id := s.nextId;
      var t := s.(locations := s.locations[id := row], locationOrder := s.locationOrder + [id],
                  nextId := id + 1);
      assert Lists(t.locationOrder, t.locations.Keys) by {
        forall i, j | 0 <= i < j < |t.locationOrder| ensures t.locationOrder[i] != t.locationOrder[j] {
          if j == |s.locationOrder| { assert s.locationOrder[i] in s.locationOrder; }
        }
        forall x ensures x in t.locationOrder <==> x in t.locations.Keys {
          assert x in t.locationOrder <==> x in s.locationOrder || x == id;
        }
      }
      (t, id)
  }

  /** `dogDao.save(dog)` for a dog that is either stored or new: the row is
      written under the dog's id, and a new dog takes the next identity. */
  function SaveDogRow(s: Store, dogId: Option<int>, row: DogRow): (r: (Store, int))
    requires Consistent(s)
    requires row.locationId in s.locations && row.breedIds <= s.breeds.Keys
    requires dogId.Some? ==> dogId.value in s.dogs
    ensures Consistent(r.0) && r.1 in r.0.dogs
    ensures r.0.dogs == s.dogs[r.1 := row]
    ensures r.0.locations == s.locations && r.0.locationOrder == s.locationOrder
    ensures r.0.breeds == s.breeds
    ensures dogId.Some? ==> r.1 == dogId.value && r.0.dogOrder == s.dogOrder
                            && r.0.nextId == s.nextId
    ensures dogId.None? ==> r.1 == s.nextId && r.1 !in s.dogs
                            && r.0.dogOrder == s.dogOrder + [r.1] && r.0.nextId == s.nextId + 1
  {
    match dogId
    case Some(k) => (s.(dogs := s.dogs[k := row]), k)
    case None =>
      var k := s.nextId;
      var t := s.(dogs := s.dogs[k := row], dogOrder := s.dogOrder + [k], nextId := k + 1);
      assert Lists(t.dogOrder, t.dogs.Keys) by {
        forall i, j | 0 <= i < j < |t.dogOrder| ensures t.dogOrder[i] != t.dogOrder[j] {
          if j == |s.dogOrder| { assert s.dogOrder[i] in s.dogOrder; }
        }
        forall x ensures x in t.dogOrder <==> x in t.dogs.Keys {
          assert x in t.dogOrder <==> x in s.dogOrder || x == k;
        }
      }
      (t, k)
  }

  /** `locationDao.delete(location)`: the store without location `id` and without the dogs of `owned`, the
      location's dog set, which `CascadeType.ALL` deletes with it (their
      `dog_breed` rows go with them; breed rows stay). */
  function DeleteLocationCascade(s: Store, id: int, owned: map<Option<int>, Dog>): (t: Store)
    requires Consistent(s) && id in s.locations
    requires forall k :: Some(k) in owned <==> k in s.dogs && s.dogs[k].locationId == id
    ensures Consistent(t)
    ensures t.locations == s.locations - {id} && t.breeds == s.breeds && t.nextId == s.nextId
    ensures forall k :: k in t.dogs <==> k in s.dogs && s.dogs[k].locationId != id
    ensures forall k :: k in t.dogs ==> t.dogs[k] == s.dogs[k]
    ensures t.dogOrder == Keep(s.dogOrder, t.dogs.Keys)
    ensures t.locationOrder == Keep(s.locationOrder, t.locations.Keys)
  {
    var dogs := map k | k in s.dogs && Some(k) !in owned :: s.dogs[k];
    Store(s.locations - {id}, Keep(s.locationOrder, s.locations.Keys - {id}),
          dogs, Keep(s.dogOrder, dogs.Keys), s.breeds, s.nextId)
  }
}
