/** LocationData and its nested DogData and BreedData: the data-transfer shape
    of a Location as the controller reads and writes it. The nested dogs carry
    no location, which breaks the Location -> Dog -> Location cycle. Lombok's
    field-wise equality on these classes is datatype equality. */
module LocationDataConversion {
  import opened Wrappers
  import opened Entities

  datatype BreedData = BreedData(breedId: Option<int>, name: string)

  datatype DogData = DogData(dogId: Option<int>, name: string, age: int, color: string,
                             breeds: set<BreedData>)

  datatype LocationData = LocationData(locationId: Option<int>, businessName: string,
                                       streetAddress: string, city: string, state: string,
                                       zip: string, phone: string, dogs: set<DogData>)

  /** `new BreedData(breed)`. */
  function BreedDataOf(b: Breed): (r: BreedData)
    ensures r.breedId == b.breedId && r.name == b.name
  {
    BreedData(b.breedId, b.name)
  }

  /** `BreedData.toBreed()`: a fresh Breed with the same id and name. The id is
      carried through, never generated. */
  function BreedDataToBreed(bd: BreedData): (r: Breed)
    ensures r.breedId == bd.breedId && r.name == bd.name
  {
    NewBreed().(breedId := bd.breedId, name := bd.name)
  }

  /** `BreedData(breed)` and `toBreed` undo each other, in both orders. */
  lemma BreedDataRoundTrip(b: Breed, bd: BreedData)
    ensures BreedDataToBreed(BreedDataOf(b)) == b
    ensures BreedDataOf(BreedDataToBreed(bd)) == bd
  {
  }

  /** The DTO form of a breed set (the loop over `dog.getBreeds()`). */
  function BreedDatasOf(bs: set<Breed>): (r: set<BreedData>)
    ensures forall bd :: bd in r <==> BreedDataToBreed(bd) in bs
  {
    set b | b in bs :: BreedDataOf(b)
  }

  /** The entity form of a DTO breed set (the loop over `breeds` in `toDog`). */
  function BreedsOf(bds: set<BreedData>): (r: set<Breed>)
    ensures forall b :: b in r <==> BreedDataOf(b) in bds
  {
    set bd | bd in bds :: BreedDataToBreed(bd)
  }

  /** The two breed-set conversions undo each other. */
  lemma BreedSetRoundTrip(bs: set<Breed>, bds: set<BreedData>)
    ensures BreedsOf(BreedDatasOf(bs)) == bs
    ensures BreedDatasOf(BreedsOf(bds)) == bds
  {
    assert forall b :: b in BreedsOf(BreedDatasOf(bs)) <==> b in bs by {
      forall b ensures b in BreedsOf(BreedDatasOf(bs)) <==> b in bs {
        BreedDataRoundTrip(b, BreedDataOf(b));
      }
    }
    assert forall bd :: bd in BreedDatasOf(BreedsOf(bds)) <==> bd in bds by {
      forall bd ensures bd in BreedDatasOf(BreedsOf(bds)) <==> bd in bds {
        BreedDataRoundTrip(BreedDataToBreed(bd), bd);
      }
    }
  }

  /** `new DogData(dog)`: id, name, age, color and the breeds in DTO form; the
      dog's location is not carried. */
  function DogDataOf(dog: Dog): (r: DogData)
    ensures r.dogId == dog.dogId && r.name == dog.name && r.age == dog.age && r.color == dog.color
    ensures r.breeds == BreedDatasOf(dog.breeds)
  {
    DogData(dog.dogId, dog.name, dog.age, dog.color, BreedDatasOf(dog.breeds))
  }

  /** `DogData.toDog()`: a fresh Dog with the DTO's fields and no location. */
  function DogDataToDog(dd: DogData): (r: Dog)
    ensures r.dogId == dd.dogId && r.name == dd.name && r.age == dd.age && r.color == dd.color
    ensures r.location == None && r.breeds == BreedsOf(dd.breeds)
  {
    NewDog().(dogId := dd.dogId, name := dd.name, age := dd.age, color := dd.color,
              breeds := BreedsOf(dd.breeds))
  }

  /** `DogData(dog)` and `toDog` are inverse on (dogId, name, age, color,
      breeds); only the dog's location is lost on the way through the DTO. */
  lemma DogDataRoundTrip(dog: Dog, dd: DogData)
    ensures DogDataOf(DogDataToDog(dd)) == dd
    ensures DogDataToDog(DogDataOf(dog)) == dog.(location := None)
  {
    BreedSetRoundTrip(dog.breeds, dd.breeds);
  }

  /** `new LocationData(location)`: the seven scalar fields and one DogData per
      owned dog. */
  function FromLocation(loc: Location): (r: LocationData)
    ensures r.locationId == loc.locationId && r.businessName == loc.businessName
    ensures r.streetAddress == loc.streetAddress && r.city == loc.city && r.state == loc.state
    ensures r.zip == loc.zip && r.phone == loc.phone
    ensures forall dd :: dd in r.dogs <==> exists dog :: dog in loc.dogs.Values && dd == DogDataOf(dog)
  {
    LocationData(loc.locationId, loc.businessName, loc.streetAddress, loc.city, loc.state,
                 loc.zip, loc.phone, set dog | dog in loc.dogs.Values :: DogDataOf(dog))
  }

  /** The seven-argument constructor used by the tests: the scalars as given and
      no dogs. */
  function NewLocationData(locationId: Option<int>, businessName: string, streetAddress: string,
                           city: string, state: string, zip: string, phone: string): (r: LocationData)
    ensures r.locationId == locationId && r.businessName == businessName
    ensures r.streetAddress == streetAddress && r.city == city && r.state == state
    ensures r.zip == zip && r.phone == phone
    ensures r.dogs == {}
  {
    LocationData(locationId, businessName, streetAddress, city, state, zip, phone, {})
  }

  /** Some order in which a `for` loop visits the elements of a hash set. The
      order is not specified, so neither is the choice made here. */
  ghost function Enumerate<T(!new)>(s: set<T>): (xs: seq<T>)
    ensures forall x :: x in xs <==> x in s
  {
    if s == {} then []
    else
      var x :| x in s;
      [x] + Enumerate(s - {x})
  }

  /** The entity form of DTO dogs, visited in the order `dds`. */
  function DogsOf(dds: seq<DogData>): (r: seq<Dog>)
    ensures |r| == |dds| && forall i :: 0 <= i < |dds| ==> r[i] == DogDataToDog(dds[i])
  {
    seq(|dds|, i requires 0 <= i < |dds| => DogDataToDog(dds[i]))
  }

  /** Visiting every element of `s` in the order `order` converts every DTO dog
      of `s`, and nothing else. */
  lemma DogsOfVisitsAll(order: seq<DogData>, s: set<DogData>)
    requires forall dd :: dd in order <==> dd in s
    ensures forall x :: x in DogsOf(order) ==> exists dd :: dd in s && x == DogDataToDog(dd)
    ensures (set x | x in DogsOf(order) :: x.dogId) == set dd | dd in s :: dd.dogId
  {
    var dogs := DogsOf(order);
    forall x | x in dogs ensures exists dd :: dd in s && x == DogDataToDog(dd) {
      var i :| 0 <= i < |order| && dogs[i] == x;
      assert order[i] in s;
    }
    forall dd | dd in s ensures dd.dogId in (set x | x in dogs :: x.dogId) {
      var i :| 0 <= i < |order| && order[i] == dd;
      assert dogs[i] in dogs;
    }
  }

  /** `LocationData.toLocation()`: the seven scalars, and `toDog()` of every
      DogData added to the location's dog set. Dogs are equal on their id, so a
      DogData whose id another one already added is dropped; which of them
      survives depends on the unspecified iteration order. The resulting dogs
      have no location. */
  ghost function ToLocation(d: LocationData): (r: Location)
    ensures r.locationId == d.locationId && r.businessName == d.businessName
    ensures r.streetAddress == d.streetAddress && r.city == d.city && r.state == d.state
    ensures r.zip == d.zip && r.phone == d.phone
    ensures WellKeyed(r.dogs)
    ensures r.dogs.Keys == set dd | dd in d.dogs :: dd.dogId
    ensures forall k :: k in r.dogs ==>
      exists dd :: dd in d.dogs && dd.dogId == k && r.dogs[k] == DogDataToDog(dd)
    ensures forall k :: k in r.dogs ==> r.dogs[k].location == None
  {
    var order := Enumerate(d.dogs);
    AddedDogs(order, d.dogs);
    NewLocation().(locationId := d.locationId, businessName := d.businessName,
                   streetAddress := d.streetAddress, city := d.city, state := d.state,
                   zip := d.zip, phone := d.phone, dogs := AddAllDogs(map[], DogsOf(order)))
  }

  /** The dog set `toLocation` builds when it visits the DTO dogs of `s` in the
      order `order`: one dog per DTO id, each converted from a DTO dog with
      that id, none with a location. */
  lemma AddedDogs(order: seq<DogData>, s: set<DogData>)
    requires forall dd :: dd in order <==> dd in s
    ensures var m := AddAllDogs(map[], DogsOf(order));
            && WellKeyed(m)
            && m.Keys == (set dd | dd in s :: dd.dogId)
            && (forall k :: k in m ==> exists dd :: dd in s && dd.dogId == k && m[k] == DogDataToDog(dd))
            && (forall k :: k in m ==> m[k].location == None)
  {
    var m := AddAllDogs(map[], DogsOf(order));
    DogsOfVisitsAll(order, s);
    forall k | k in m
      ensures exists dd :: dd in s && dd.dogId == k && m[k] == DogDataToDog(dd)
    {
      var dd :| dd in s && m[k] == DogDataToDog(dd);
    }
  }

  /** No two of the DTO's dogs share an id (two unsaved dogs, both without an
      id, do share one). */
  predicate DistinctDogIds(d: LocationData)
  {
    forall a, b :: a in d.dogs && b in d.dogs && a.dogId == b.dogId ==> a == b
  }

  /** With distinct ids every DogData survives `toLocation`, under its own id. */
  lemma ToLocationKeepsDog(d: LocationData, dd: DogData)
    requires DistinctDogIds(d) && dd in d.dogs
    ensures dd.dogId in ToLocation(d).dogs && ToLocation(d).dogs[dd.dogId] == DogDataToDog(dd)
  {
    var loc := ToLocation(d);
    assert dd.dogId in loc.dogs.Keys;
    var other :| other in d.dogs && other.dogId == dd.dogId && loc.dogs[dd.dogId] == DogDataToDog(other);
  }

  /** The DTO of a location whose dogs sit under their own ids never holds two
      dogs with the same id. */
  lemma FromLocationDistinctIds(loc: Location)
    requires WellKeyed(loc.dogs)
    ensures DistinctDogIds(FromLocation(loc))
  {
    var d := FromLocation(loc);
    forall a, b | a in d.dogs && b in d.dogs && a.dogId == b.dogId ensures a == b {
      var da :| da in loc.dogs.Values && a == DogDataOf(da);
      var db :| db in loc.dogs.Values && b == DogDataOf(db);
      var ka :| ka in loc.dogs && loc.dogs[ka] == da;
      var kb :| kb in loc.dogs && loc.dogs[kb] == db;
    }
  }

  /** The DTO of a location whose dogs sit under their own ids carries exactly
      the ids of its dog collection. */
  lemma FromLocationIds(loc: Location)
    requires WellKeyed(loc.dogs)
    ensures (set dd | dd in FromLocation(loc).dogs :: dd.dogId) == loc.dogs.Keys
  {
    var d := FromLocation(loc);
    forall dd | dd in d.dogs ensures dd.dogId in loc.dogs {
      var dog :| dog in loc.dogs.Values && dd == DogDataOf(dog);
      var j :| j in loc.dogs && loc.dogs[j] == dog;
    }
    forall k | k in loc.dogs ensures k in (set dd | dd in d.dogs :: dd.dogId) {
      assert DogDataOf(loc.dogs[k]) in d.dogs;
    }
  }

  /** With distinct ids, every DTO dog comes back from `toLocation`. */
  lemma DtoDogsKept(d: LocationData, dd: DogData)
    requires DistinctDogIds(d) && dd in d.dogs
    ensures dd in FromLocation(ToLocation(d)).dogs
  {
    var loc := ToLocation(d);
    ToLocationKeepsDog(d, dd);
    DogDataRoundTrip(loc.dogs[dd.dogId], dd);
    assert loc.dogs[dd.dogId] in loc.dogs.Values;
  }

  /** Every dog that comes back from `toLocation` was a DTO dog. */
  lemma DtoDogsOnly(d: LocationData, dd: DogData)
    requires dd in FromLocation(ToLocation(d)).dogs
    ensures dd in d.dogs
  {
    var loc := ToLocation(d);
    var dog :| dog in loc.dogs.Values && dd == DogDataOf(dog);
    var k :| k in loc.dogs && loc.dogs[k] == dog;
    var src :| src in d.dogs && src.dogId == k && dog == DogDataToDog(src);
    DogDataRoundTrip(dog, src);
  }

  /** With distinct ids, the DTO dogs come back from `toLocation` unchanged. */
  lemma DtoDogsRoundTrip(d: LocationData)
    requires DistinctDogIds(d)
    ensures FromLocation(ToLocation(d)).dogs == d.dogs
  {
    var back := FromLocation(ToLocation(d)).dogs;
    forall dd | dd in d.dogs ensures dd in back {
      DtoDogsKept(d, dd);
    }
    forall dd | dd in back ensures dd in d.dogs {
      DtoDogsOnly(d, dd);
    }
  }

  /** The round trip the tests rely on: converting a LocationData to an entity
      and back gives it back exactly when its dogs have pairwise distinct ids. */
  lemma LocationDataRoundTrip(d: LocationData)
    ensures FromLocation(ToLocation(d)) == d <==> DistinctDogIds(d)
  {
    FromLocationDistinctIds(ToLocation(d));
    if DistinctDogIds(d) {
      DtoDogsRoundTrip(d);
    }
  }

  /** A dog collection with every owner reference cleared, as `toDog` leaves
      it. */
  function WithoutLocations(dogs: map<Option<int>, Dog>): (r: map<Option<int>, Dog>)
    ensures r.Keys == dogs.Keys
    ensures forall k :: k in r ==> r[k] == dogs[k].(location := None)
  {
    map k | k in dogs :: dogs[k].(location := None)
  }

  /** A dog of a location comes back from the location's DTO under its id,
      without its owner reference. */
  lemma LocationDogRoundTrip(loc: Location, k: Option<int>)
    requires WellKeyed(loc.dogs) && k in loc.dogs
    ensures k in ToLocation(FromLocation(loc)).dogs
    ensures ToLocation(FromLocation(loc)).dogs[k] == loc.dogs[k].(location := None)
  {
    var d := FromLocation(loc);
    var dd := DogDataOf(loc.dogs[k]);
    assert dd in d.dogs;
    FromLocationDistinctIds(loc);
    ToLocationKeepsDog(d, dd);
    DogDataRoundTrip(loc.dogs[k], dd);
  }

  /** Two dog collections with the same ids and the same dog under each id
      are equal. */
  lemma DogMapsEqual(a: map<Option<int>, Dog>, b: map<Option<int>, Dog>)
    requires a.Keys == b.Keys && forall k :: k in a ==> a[k] == b[k]
    ensures a == b
  {
  }

  /** The dogs of a location come back from its DTO under the same ids. */
  lemma LocationDogsRoundTrip(loc: Location)
    requires WellKeyed(loc.dogs)
    ensures ToLocation(FromLocation(loc)).dogs == WithoutLocations(loc.dogs)
  {
    var back := ToLocation(FromLocation(loc)).dogs;
    var want := WithoutLocations(loc.dogs);
    FromLocationIds(loc);
    forall k | k in back ensures back[k] == want[k] {
      LocationDogRoundTrip(loc, k);
    }
    DogMapsEqual(back, want);
  }

  /** The other direction: a location whose dogs sit under their own ids comes
      back from its DTO with every field intact except the dogs' locations,
      which the DTO does not carry. */
  lemma LocationRoundTrip(loc: Location)
    requires WellKeyed(loc.dogs)
    ensures ToLocation(FromLocation(loc)) == loc.(dogs := WithoutLocations(loc.dogs))
  {
    LocationDogsRoundTrip(loc);
  }
}
