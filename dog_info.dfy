/** DogInfo and its nested DogInfoLocation and DogInfoBreed: the data-transfer
    shape of a single dog. The nested location carries only the seven scalar
    fields, never the location's dogs, which breaks the Dog -> Location -> Dog
    cycle. Lombok's field-wise equality on these classes is datatype
    equality. */
module DogInfoConversion {
  import opened Wrappers
  import opened Entities

  datatype DogInfoBreed = DogInfoBreed(breedId: Option<int>, name: string)

  datatype DogInfoLocation = DogInfoLocation(locationId: Option<int>, businessName: string,
                                             streetAddress: string, city: string, state: string,
                                             zip: string, phone: string)

  datatype DogInfo = DogInfo(dogId: Option<int>, name: string, age: int, color: string,
                             location: Option<DogInfoLocation>, breeds: set<DogInfoBreed>)

  /** `new DogInfoBreed(breed)`. */
  function DogInfoBreedOf(b: Breed): (r: DogInfoBreed)
    ensures r.breedId == b.breedId && r.name == b.name
  {
    DogInfoBreed(b.breedId, b.name)
  }

  /** `DogInfoBreed.toBreed()`: a fresh Breed with the same id and name. */
  function DogInfoBreedToBreed(ib: DogInfoBreed): (r: Breed)
    ensures r.breedId == ib.breedId && r.name == ib.name
  {
    NewBreed().(breedId := ib.breedId, name := ib.name)
  }

  /** `DogInfoBreed(breed)` and `toBreed` undo each other, in both orders. */
  lemma DogInfoBreedRoundTrip(b: Breed, ib: DogInfoBreed)
    ensures DogInfoBreedToBreed(DogInfoBreedOf(b)) == b
    ensures DogInfoBreedOf(DogInfoBreedToBreed(ib)) == ib
  {
  }

  /** The DTO form of a breed set (the loop over `dog.getBreeds()`). */
  function DogInfoBreedsOf(bs: set<Breed>): (r: set<DogInfoBreed>)
    ensures forall ib :: ib in r <==> DogInfoBreedToBreed(ib) in bs
  {
    set b | b in bs :: DogInfoBreedOf(b)
  }

  /** The entity form of a DTO breed set (the loop over `breeds` in `toDog`). */
  function InfoBreedsToBreeds(ibs: set<DogInfoBreed>): (r: set<Breed>)
    ensures forall b :: b in r <==> DogInfoBreedOf(b) in ibs
  {
    set ib | ib in ibs :: DogInfoBreedToBreed(ib)
  }

  /** The two breed-set conversions undo each other. */
  lemma InfoBreedSetRoundTrip(bs: set<Breed>, ibs: set<DogInfoBreed>)
    ensures InfoBreedsToBreeds(DogInfoBreedsOf(bs)) == bs
    ensures DogInfoBreedsOf(InfoBreedsToBreeds(ibs)) == ibs
  {
    assert forall b :: b in InfoBreedsToBreeds(DogInfoBreedsOf(bs)) <==> b in bs by {
      forall b ensures b in InfoBreedsToBreeds(DogInfoBreedsOf(bs)) <==> b in bs {
        DogInfoBreedRoundTrip(b, DogInfoBreedOf(b));
      }
    }
    assert forall ib :: ib in DogInfoBreedsOf(InfoBreedsToBreeds(ibs)) <==> ib in ibs by {
      forall ib ensures ib in DogInfoBreedsOf(InfoBreedsToBreeds(ibs)) <==> ib in ibs {
        DogInfoBreedRoundTrip(DogInfoBreedToBreed(ib), ib);
      }
    }
  }

  /** `new DogInfoLocation(location)`: the seven scalar fields only. */
  function DogInfoLocationOf(loc: Location): (r: DogInfoLocation)
    ensures r.locationId == loc.locationId && r.businessName == loc.businessName
    ensures r.streetAddress == loc.streetAddress && r.city == loc.city && r.state == loc.state
    ensures r.zip == loc.zip && r.phone == loc.phone
  {
    DogInfoLocation(loc.locationId, loc.businessName, loc.streetAddress, loc.city, loc.state,
                    loc.zip, loc.phone)
  }

  /** `new DogInfo(dog)`: id, name, age and color; the owner's scalar fields
      exactly when the dog has an owner; the breeds in DTO form. */
  function DogInfoOf(dog: Dog): (r: DogInfo)
    ensures r.dogId == dog.dogId && r.name == dog.name && r.age == dog.age && r.color == dog.color
    ensures r.location.Some? <==> dog.location.Some?
    ensures dog.location.Some? ==> r.location.value == DogInfoLocationOf(dog.location.value)
    ensures r.breeds == DogInfoBreedsOf(dog.breeds)
  {
    var location := match dog.location
      case Some(loc) => Some(DogInfoLocationOf(loc))
      case None => None;
    DogInfo(dog.dogId, dog.name, dog.age, dog.color, location, DogInfoBreedsOf(dog.breeds))
  }

  /** The five-argument constructor used by the tests: no location, and the
      given breed set. */
  function NewDogInfo(dogId: Option<int>, name: string, age: int, color: string,
                      breeds: set<DogInfoBreed>): (r: DogInfo)
    ensures r.dogId == dogId && r.name == name && r.age == age && r.color == color
    ensures r.location == None && r.breeds == breeds
  {
    DogInfo(dogId, name, age, color, None, breeds)
  }

  /** `DogInfo.toDog()`: a fresh Dog with the DTO's id, name, age, color and
      breeds. The location is never set. */
  function DogInfoToDog(x: DogInfo): (r: Dog)
    ensures r.dogId == x.dogId && r.name == x.name && r.age == x.age && r.color == x.color
    ensures r.location == None && r.breeds == InfoBreedsToBreeds(x.breeds)
  {
    NewDog().(dogId := x.dogId, name := x.name, age := x.age, color := x.color,
              breeds := InfoBreedsToBreeds(x.breeds))
  }

  /** The round trip the tests rely on: `new DogInfo(x.toDog())` is `x` with
      its location cleared; and `toDog` of a dog's DTO is the dog without its
      owner. */
  lemma DogInfoRoundTrip(x: DogInfo, dog: Dog)
    ensures DogInfoOf(DogInfoToDog(x)) == x.(location := None)
    ensures DogInfoToDog(DogInfoOf(dog)) == dog.(location := None)
  {
    InfoBreedSetRoundTrip(dog.breeds, x.breeds);
  }

  /** A DogInfo built by the five-argument constructor survives the round trip
      unchanged, which is how the tests clone their request objects. */
  lemma NewDogInfoRoundTrip(dogId: Option<int>, name: string, age: int, color: string,
                            breeds: set<DogInfoBreed>)
    ensures DogInfoOf(DogInfoToDog(NewDogInfo(dogId, name, age, color, breeds)))
            == NewDogInfo(dogId, name, age, color, breeds)
  {
    DogInfoRoundTrip(NewDogInfo(dogId, name, age, color, breeds), NewDog());
  }
}
