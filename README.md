# Dog rescue: service layer and DTO conversions in Dafny

This project models the core of the dog-rescue Spring Boot application in Dafny. The application keeps rescue **locations**, the **dogs** housed at each location, and a catalogue of **breeds**. The model covers two parts:

- **The conversion layer.** The entities `Location`, `Dog` and `Breed` are converted to and from the data-transfer objects `LocationData` (with `DogData` and `BreedData`) and `DogInfo` (with `DogInfoLocation` and `DogInfoBreed`).
- **`RescueService`.** The operations `saveLocation`, `retrieveLocationById`, `retrieveAllLocations`, `saveDog` and `deleteLocation` are modelled, together with their helpers `findLocationById`, `findDogById`, `findOrCreateDog`, `copyDogFields` and `extractBreedNames`. `retrieveAllDogsAtLocation` is modelled too.

Modules, one per file:

| file | module | what it holds |
|---|---|---|
| `wrappers.dfy` | `Wrappers` | `Option` and `Result` |
| `entities.dfy` | `Entities` | `Breed`, `Dog` and `Location` as values. A dog collection is a map keyed on `dogId`, because `Dog.equals` compares ids only. `HashSet.add` is `AddDog`. |
| `java_string.dfy` | `JavaString` | `String.compareTo` and its ordering laws; `Long.toString` and its injectivity |
| `location_data.dfy` | `LocationDataConversion` | `LocationData`/`DogData`/`BreedData` and their conversions, with both round trips |
| `dog_info.dfy` | `DogInfoConversion` | `DogInfo`/`DogInfoLocation`/`DogInfoBreed` and their conversions, with both round trips |
| `sorting.dfy` | `LocationOrder` | the sort by business name (an insertion sort), proved sorted and a permutation |
| `sequences.dfy` | `Sequences` | `Map` (as in `stream().map`) and the fact that mapping preserves permutations |
| `store.dfy` | `RescueStore` | the location, dog, breed and `dog_breed` tables behind the DAOs, the entities a read produces, and the DAO reads and writes the service uses |
| `service.dfy` | `Service` | each service operation as a function on a `Store` value, the properties proved about it, and `class RescueService` |

`class RescueService` holds the tables as fields. Its methods run the operations step by step and update the fields. Each method is proved to leave the state the matching function describes, and to return what that function returns. `retrieveAllDogsAtLocation` keeps its two `while` loops. They are the methods `FilterByLocation` and `ClearLocations`, and each is proved against a specification function.

The DAOs are generated by Spring Data, so their code is not part of this model. They are replaced by functions on the `Store` value, with these semantics:

- `findById` returns a `Result`.
- `findAll` returns the rows in a fixed table order.
- `save` of a row whose id is stored replaces that row. `save` of any other row inserts it under the next identity.
- `findByNameIn` returns the catalogue breeds whose name is in the given set.
- Deleting a location deletes its dogs and their `dog_breed` rows, as `CascadeType.ALL` does. Breed rows are kept.

A failure that Java throws as a `NoSuchElementException` is a `Failure(NotFound)` here. `RescueStore.Message` gives the exception's text.

The comment at `src/main/java/dog/rescue/entity/Dog.java:41-42` says that when several dogs with a null id are added to a set, the later additions overwrite the earlier ones. `HashSet.add` does the opposite: it leaves the set unchanged when an equal element is present, so the first dog stays and the later ones are dropped. The model follows the code. `Entities.UnsavedDogsCollapse` and `Entities.AddAllDogsKeepsFirst` state that the first dog is kept.

## Model

| member | source | states |
|---|---|---|
| Entities.NewBreed | src/main/java/dog/rescue/entity/Breed.java:29-33 | a fresh Breed has no id |
| Entities.NewDog | src/main/java/dog/rescue/entity/Dog.java:44-79 | a fresh Dog has no id, no location and no breeds |
| Entities.NewLocation | src/main/java/dog/rescue/entity/Location.java:30-49 | a fresh Location has no id and an empty dog set |
| Entities.SameDog | src/main/java/dog/rescue/entity/Dog.java:44-79 | `Dog.equals`: two dogs are equal exactly when they agree once every field except the id is overwritten, so name, age, color, location and breeds take no part |
| Entities.JavaLocationEquals | src/main/java/dog/rescue/entity/Location.java:22-49 | `Location.equals`: the id and the six scalars are equal, and the two dog sets hold the same ids |
| Entities.JavaLocationEqualsCoarser | src/main/java/dog/rescue/entity/Location.java:22-49 | equal values are equal under `Location.equals`, which is an equivalence; two locations whose dogs share ids but differ in name are equal in Java and yet different values |
| Entities.DogsCoveredIds | src/main/java/dog/rescue/entity/Dog.java:44-46 | on sets keyed by id, every dog having an equal dog in the other set is inclusion of the id sets |
| Entities.JavaLocationEqualsBySameDog | src/main/java/dog/rescue/entity/Location.java:47-49 | `Location.equals` compares the dog sets as `Set.equals` does under `Dog.equals`: each dog of either set has an equal dog in the other |
| Entities.AddDog | src/main/java/dog/rescue/entity/Dog.java:37-46 | `HashSet<Dog>.add` under id-only equality: the id is present afterwards, dogs already there are kept unchanged, and `d` is stored only when its id is new |
| Entities.AddDogElements | src/main/java/dog/rescue/entity/Dog.java:37-46 | as a set of elements, `add` leaves the set unchanged when it holds a dog with the same id, and adds `d` otherwise |
| Entities.AddAllDogs | src/main/java/dog/rescue/controller/model/LocationData.java:102-104 | after adding a list of dogs, every dog's id is present, old entries are unchanged, and each new entry is a dog of the list under its own id |
| Entities.AddAllDogsKeepsFirst | src/main/java/dog/rescue/controller/model/LocationData.java:102-104 | of several dogs sharing a new id, the first one added survives |
| Entities.UnsavedDogsCollapse | src/main/java/dog/rescue/entity/Dog.java:37-43 | adding two dogs with a null id keeps only the first |
| Entities.AtMostOneUnsavedDog | src/main/java/dog/rescue/entity/Dog.java:37-43 | a dog set holds at most one dog with a null id |
| JavaString.CompareTo | src/main/java/dog/rescue/service/RescueService.java:149-151 | the comparator of business names: a proper prefix sorts before each of its extensions |
| JavaString.CompareToZeroIff | src/main/java/dog/rescue/service/RescueService.java:149-151 | `compareTo` is zero exactly when the names are equal |
| JavaString.CompareToAntisymmetric | src/main/java/dog/rescue/service/RescueService.java:149-151 | swapping the names negates the result of the comparator |
| JavaString.CompareToTotal | src/main/java/dog/rescue/service/RescueService.java:149-151 | any two names are ordered one way or the other |
| JavaString.CompareToTransitive | src/main/java/dog/rescue/service/RescueService.java:149-151 | the order by business name is transitive |
| JavaString.LongToString | src/main/java/dog/rescue/service/RescueService.java:84-85 | the id as written into the message starts with `-` exactly when it is negative |
| JavaString.DecimalDigitsInjective | src/main/java/dog/rescue/service/RescueService.java:84-85 | different non-negative ids have different decimal digits |
| JavaString.LongToStringInjective | src/main/java/dog/rescue/service/RescueService.java:84-85 | different ids are written differently |
| LocationDataConversion.BreedDataOf | src/main/java/dog/rescue/controller/model/LocationData.java:180-183 | `new BreedData(breed)` copies the id and the name |
| LocationDataConversion.BreedDataToBreed | src/main/java/dog/rescue/controller/model/LocationData.java:190-197 | `toBreed` copies the id and the name; it never generates an id |
| LocationDataConversion.BreedDataRoundTrip | src/main/java/dog/rescue/controller/model/LocationData.java:180-197 | `BreedData(breed)` and `toBreed` are inverse, in both orders |
| LocationDataConversion.BreedDatasOf | src/main/java/dog/rescue/controller/model/LocationData.java:136-138 | the DTO breeds are exactly the converted entity breeds |
| LocationDataConversion.BreedsOf | src/main/java/dog/rescue/controller/model/LocationData.java:154-156 | the entity breeds are exactly the converted DTO breeds |
| LocationDataConversion.BreedSetRoundTrip | src/main/java/dog/rescue/controller/model/LocationData.java:130-159 | the two breed-set conversions are inverse, in both orders |
| LocationDataConversion.DogDataOf | src/main/java/dog/rescue/controller/model/LocationData.java:130-139 | `new DogData(dog)` copies id, name, age and color, converts the breeds, and carries no location |
| LocationDataConversion.DogDataToDog | src/main/java/dog/rescue/controller/model/LocationData.java:146-159 | `toDog` copies id, name, age and color, converts the breeds, and leaves the location null |
| LocationDataConversion.DogDataRoundTrip | src/main/java/dog/rescue/controller/model/LocationData.java:130-159 | `DogData(dog)` and `toDog` are inverse; only the dog's location is lost |
| LocationDataConversion.FromLocation | src/main/java/dog/rescue/controller/model/LocationData.java:48-60 | `new LocationData(loc)` copies the seven scalars and holds exactly one `DogData` per dog of the location |
| LocationDataConversion.NewLocationData | src/main/java/dog/rescue/controller/model/LocationData.java:74-84 | the seven-argument constructor sets the seven scalars and leaves the dogs empty |
| LocationDataConversion.ToLocation | src/main/java/dog/rescue/controller/model/LocationData.java:91-107 | `toLocation` copies the seven scalars; its dog set holds one dog per DTO dog id, each the `toDog` of a DTO dog with that id, and none of them has a location |
| LocationDataConversion.AddedDogs | src/main/java/dog/rescue/controller/model/LocationData.java:102-104 | the `for` loop of `toLocation` yields one dog per DTO dog id, each the `toDog` of a DTO dog with that id, none with a location |
| LocationDataConversion.ToLocationKeepsDog | src/main/java/dog/rescue/controller/model/LocationData.java:102-104 | when the DTO's dog ids are distinct, every DTO dog survives `toLocation` under its id |
| LocationDataConversion.FromLocationDistinctIds | src/main/java/dog/rescue/controller/model/LocationData.java:57-59 | the DTO of a location never holds two dogs with the same id |
| LocationDataConversion.FromLocationIds | src/main/java/dog/rescue/controller/model/LocationData.java:57-59 | the DTO of a location carries exactly the ids of its dogs |
| LocationDataConversion.DtoDogsRoundTrip | src/main/java/dog/rescue/controller/model/LocationData.java:48-107 | with distinct dog ids, the DTO's dogs come back unchanged from `toLocation` and the constructor |
| LocationDataConversion.LocationDataRoundTrip | src/main/java/dog/rescue/controller/model/LocationData.java:48-107 | `new LocationData(d.toLocation())` equals `d` if and only if the dog ids of `d` are pairwise distinct |
| LocationDataConversion.LocationDogsRoundTrip | src/main/java/dog/rescue/controller/model/LocationData.java:48-107 | a location's dogs come back from its DTO under the same ids, without their owner reference |
| LocationDataConversion.LocationRoundTrip | src/main/java/dog/rescue/controller/model/LocationData.java:48-107 | `new LocationData(loc).toLocation()` is `loc` with the dogs' owner references cleared |
| DogInfoConversion.DogInfoBreedOf | src/main/java/dog/rescue/controller/model/DogInfo.java:145-148 | `new DogInfoBreed(breed)` copies the id and the name |
| DogInfoConversion.DogInfoBreedToBreed | src/main/java/dog/rescue/controller/model/DogInfo.java:166-173 | `toBreed` copies the id and the name |
| DogInfoConversion.DogInfoBreedRoundTrip | src/main/java/dog/rescue/controller/model/DogInfo.java:145-173 | `DogInfoBreed(breed)` and `toBreed` are inverse, in both orders |
| DogInfoConversion.DogInfoBreedsOf | src/main/java/dog/rescue/controller/model/DogInfo.java:49-51 | the DTO breeds are exactly the converted entity breeds |
| DogInfoConversion.InfoBreedsToBreeds | src/main/java/dog/rescue/controller/model/DogInfo.java:85-87 | the entity breeds are exactly the converted DTO breeds |
| DogInfoConversion.InfoBreedSetRoundTrip | src/main/java/dog/rescue/controller/model/DogInfo.java:39-90 | the two breed-set conversions are inverse, in both orders |
| DogInfoConversion.DogInfoLocationOf | src/main/java/dog/rescue/controller/model/DogInfo.java:115-123 | `new DogInfoLocation(location)` copies the seven scalars |
| DogInfoConversion.DogInfoOf | src/main/java/dog/rescue/controller/model/DogInfo.java:39-52 | `new DogInfo(dog)` copies id, name, age and color; it has a location exactly when the dog has one, and then with that location's scalars; its breeds are the converted breeds |
| DogInfoConversion.NewDogInfo | src/main/java/dog/rescue/controller/model/DogInfo.java:63-70 | the five-argument constructor leaves the location null and keeps the given breeds |
| DogInfoConversion.DogInfoToDog | src/main/java/dog/rescue/controller/model/DogInfo.java:77-90 | `toDog` copies id, name, age, color and breeds, and never sets a location |
| DogInfoConversion.DogInfoRoundTrip | src/main/java/dog/rescue/controller/model/DogInfo.java:39-90 | `new DogInfo(x.toDog())` is `x` with its location cleared; `new DogInfo(dog).toDog()` is `dog` without its location |
| DogInfoConversion.NewDogInfoRoundTrip | src/main/java/dog/rescue/controller/model/DogInfo.java:63-90 | a DTO built by the five-argument constructor survives the round trip unchanged |
| LocationOrder.InsertByBusinessName | src/main/java/dog/rescue/service/RescueService.java:129-133 | inserting into a sorted list keeps it sorted and adds exactly the new location |
| LocationOrder.SortByBusinessName | src/main/java/dog/rescue/service/RescueService.java:129-133 | the result is sorted by business name under `compareTo` and is a permutation of the input |
| Sequences.MapPermutation | src/main/java/dog/rescue/service/RescueService.java:129-133 | converting two permutations of one list gives two permutations of one list |
| RescueStore.CatalogueBreeds | src/main/java/dog/rescue/entity/Dog.java:74-79 | a dog's breeds, read through `dog_breed`, are exactly the catalogue breeds with the linked ids |
| RescueStore.OwnerOf | src/main/java/dog/rescue/entity/Dog.java:64-68 | a dog's location reference has the location row's id and all six scalar columns (business name, street address, city, state, zip, phone), and an empty dog set |
| RescueStore.DogEntity | src/main/java/dog/rescue/entity/Dog.java:44-79 | a dog read from its row has the row's id, name, age and color, its location, and its linked breeds |
| RescueStore.LocationEntity | src/main/java/dog/rescue/entity/Location.java:30-49 | a location read from its row has the row's scalars, and its dog set holds exactly the dogs whose `location_id` is its id, each under its own id |
| RescueStore.Message | src/main/java/dog/rescue/service/RescueService.java:82-86 | the not-found texts are "Location with ID=<id> was not found." and "Dog with ID=<id> was not found.", the id written in decimal |
| RescueStore.MessageInjective | src/main/java/dog/rescue/service/RescueService.java:82-86 | two not-found messages are equal only for the same table and the same id |
| RescueStore.FindLocationById | src/main/java/dog/rescue/service/RescueService.java:82-86 | succeeds exactly when the id is stored, and then with the stored location, its scalars and its dog set, as read from the tables; otherwise fails with that id's location-not-found error |
| RescueStore.FindDogById | src/main/java/dog/rescue/service/RescueService.java:210-213 | succeeds exactly when the id is stored, and then with the stored dog, its owner and its breeds, as read from the tables; otherwise fails with that id's dog-not-found error |
| RescueStore.FindAllLocations | src/main/java/dog/rescue/service/RescueService.java:129 | `findAll` returns one entity per location row, and each is the entity of its row |
| RescueStore.FindAllDogs | src/main/java/dog/rescue/service/RescueService.java:260 | `findAll` returns one entity per dog row, in table order, and each is the entity of its row |
| RescueStore.NamedBreedIds | src/main/java/dog/rescue/dao/BreedDao.java:25 | `findByNameIn` returns exactly the catalogue breeds whose name is asked for |
| RescueStore.NamedBreedsAreCatalogueBreeds | src/main/java/dog/rescue/service/RescueService.java:165-166 | the breeds found by name are exactly the catalogue breeds with those names; unknown names add nothing |
| RescueStore.JoinRows | src/main/java/dog/rescue/entity/Dog.java:76-78 | the `dog_breed` table holds exactly one row per dog-to-breed link |
| RescueStore.SaveLocationRow | src/main/java/dog/rescue/service/RescueService.java:56 | a stored id has its row replaced; any other location is inserted under a fresh id; dogs and breeds are untouched |
| RescueStore.SaveDogRow | src/main/java/dog/rescue/service/RescueService.java:177 | a stored dog has its row replaced; a new dog is inserted under a fresh id; the other tables are untouched |
| RescueStore.DeleteLocationCascade | src/main/java/dog/rescue/entity/Location.java:47-48 | deleting a location removes it and exactly its dogs; other dogs and the breed catalogue are unchanged; both tables keep the insertion order of their surviving rows |
| Service.RetrieveLocationById | src/main/java/dog/rescue/service/RescueService.java:68-71 | succeeds exactly when the id is stored, and otherwise gives that id's location-not-found error; on success the DTO has the row's scalars and exactly one `DogData` per dog at the location |
| Service.RetrieveAllLocations | src/main/java/dog/rescue/service/RescueService.java:129-133 | one DTO per stored location, sorted by business name under `compareTo`, a permutation of the DTOs of `findAll` |
| Service.LocationDtosOfStore | src/main/java/dog/rescue/service/RescueService.java:129-133 | the DTOs of `findAll` are exactly the DTOs of the stored locations |
| Service.ExtractBreedNames | src/main/java/dog/rescue/service/RescueService.java:223-228 | the names are exactly those of the DTO's breeds |
| Service.CopyDogFields | src/main/java/dog/rescue/service/RescueService.java:186-190 | name, age and color come from the DTO; the id, the location and the breeds are unchanged |
| Service.FindOrCreateDog | src/main/java/dog/rescue/service/RescueService.java:199-201 | a null id gives a blank dog; otherwise the stored dog, or that id's dog-not-found error |
| Service.SaveDogOn | src/main/java/dog/rescue/service/RescueService.java:163-178 | a bad location id is reported first, then a bad dog id, each with the store unchanged; on success the dog row holds the DTO's fields, the location and the breeds found by name, and nothing else changes |
| Service.SaveDogCopiesFields | src/main/java/dog/rescue/service/RescueService.java:171-177 | the saved dog and the returned DTO carry the DTO's name, age and color |
| Service.SaveDogReplacesBreeds | src/main/java/dog/rescue/service/RescueService.java:165-173 | the saved dog's breeds are exactly the catalogue breeds named in the DTO |
| Service.SaveDogWiresBothSides | src/main/java/dog/rescue/service/RescueService.java:174-175 | the dog points at the location, the location's dog set holds the dog, and no other location holds it |
| Service.SaveDogIgnoresBreedIds | src/main/java/dog/rescue/service/RescueService.java:223-228 | DTOs that differ only in breed ids, or in breeds with the same names, save the same dog |
| Service.SaveDogIdempotent | src/main/java/dog/rescue/service/RescueService.java:163-178 | saving the returned DTO again changes nothing and returns the same DTO |
| Service.DeleteLocationOn | src/main/java/dog/rescue/service/RescueService.java:250-253 | an unknown id gives its location-not-found error with nothing changed; otherwise the location and exactly its dogs are gone and both tables keep the insertion order of their surviving rows |
| Service.DeleteLocationKeepsOthers | src/main/java/dog/rescue/service/RescueService.java:250-253 | every other location reads back exactly as before, dogs included |
| Service.DeleteKeepsDogEntities | src/main/java/dog/rescue/service/RescueService.java:250-253 | every dog that survives a delete reads back as before |
| Service.DeleteLocationJoinRows | src/main/java/dog/rescue/entity/Dog.java:76-79 | a delete removes exactly the `dog_breed` rows of the deleted dogs |
| Service.DeleteOnlyLocation | src/test/java/dog/rescue/controller/RescueControllerTestSupport.java:300-314 | deleting the only location empties the location, dog and `dog_breed` tables and keeps the breeds |
| Service.SaveLocationOn | src/main/java/dog/rescue/service/RescueService.java:54-59 | a stored id is updated in place without consuming an id; otherwise the location is inserted under a fresh id and the id counter advances by one; the dog table and its order are unchanged; the returned DTO has the given scalars and is the saved location's DTO |
| Service.SaveLocationInsertsEmpty | src/main/java/dog/rescue/service/RescueService.java:54-59 | an inserted location has no dogs |
| Service.SaveLocationThenRetrieve | src/main/java/dog/rescue/service/RescueService.java:54-71 | reading a saved location back gives the DTO `saveLocation` returned |
| Service.SaveLocationIdempotent | src/main/java/dog/rescue/service/RescueService.java:54-59 | saving the returned DTO again changes nothing |
| Service.DogsAtLocation | src/main/java/dog/rescue/service/RescueService.java:266-272 | each dog whose location id is the argument occurs in the filtered list exactly as often as in the input, and no other dog occurs |
| Service.DogsAtLocationAppend | src/main/java/dog/rescue/service/RescueService.java:266-272 | the filter distributes over concatenation, so the kept dogs stay in input order |
| Service.FilterFollowsKeep | src/main/java/dog/rescue/service/RescueService.java:266-272 | filtering dogs listed in the order of their ids keeps, in that order, exactly the dogs of the ids at the location |
| Service.DogsAtLocationInOrder | src/main/java/dog/rescue/service/RescueService.java:260-272 | `findAll` and the filter give one entity per dog row at the location, in table order |
| Service.DogIdsAtListed | src/main/java/dog/rescue/service/RescueService.java:260-272 | the dog rows at a location are listed once each, and there are none for an unknown location id |
| Service.InfosAtLocationInOrder | src/main/java/dog/rescue/service/RescueService.java:274-281 | the i-th DTO is the location-free DTO of the i-th dog row at the location, and there are as many DTOs as such rows |
| Service.InfosAtLocationComplete | src/main/java/dog/rescue/service/RescueService.java:258-284 | every dog row at the location has its DTO in the result |
| Service.InfosAtLocationSound | src/main/java/dog/rescue/service/RescueService.java:258-284 | every DTO of the result is that of a dog row at the location |
| Service.InfosWithoutLocation | src/main/java/dog/rescue/service/RescueService.java:274-280 | one DTO per dog, in order, each without a location, each converting back to its dog without the location |
| Service.DogsAtLocationOfStore | src/main/java/dog/rescue/service/RescueService.java:260-272 | the filter keeps exactly the stored dogs at the location, and nothing for an unknown id |
| Service.RetrieveAllDogsAtLocationOn | src/main/java/dog/rescue/service/RescueService.java:258-284 | in table order, exactly one location-free DTO per dog row at the location: the selected ids are distinct and the i-th DTO is that of the i-th id; every DTO belongs to such a row; an unknown id gives the empty list, never an error |
| Service.DogsAtLocationAsWritten | src/main/java/dog/rescue/service/RescueService.java:269 | with boxed `==`, a dog is kept only when its location id equals the argument and lies in -128..127 |
| Service.AsWrittenAgreesInCache | src/main/java/dog/rescue/service/RescueService.java:269 | for ids in -128..127 the loop as written equals the value comparison |
| Service.AsWrittenMissesLocation128 | src/main/java/dog/rescue/service/RescueService.java:269 | a dog at location 128 is dropped by the loop as written but kept by the value comparison |
| Service.FilterByLocation | src/main/java/dog/rescue/service/RescueService.java:266-272 | the first loop computes `DogsAtLocation` of the full list |
| Service.ClearLocations | src/main/java/dog/rescue/service/RescueService.java:274-280 | the second loop computes `InfosWithoutLocation` of the filtered list |
| Service.RescueService.SaveLocation | src/main/java/dog/rescue/service/RescueService.java:54-59 | keeps the tables consistent; new tables and result are those of `SaveLocationOn` |
| Service.RescueService.SaveDog | src/main/java/dog/rescue/service/RescueService.java:163-178 | keeps the tables consistent; new tables and result are those of `SaveDogOn` |
| Service.RescueService.DeleteLocation | src/main/java/dog/rescue/service/RescueService.java:250-253 | keeps the tables consistent; new tables and result are those of `DeleteLocationOn` |
| Service.RescueService.RetrieveAllDogsAtLocation | src/main/java/dog/rescue/service/RescueService.java:258-284 | the two loops return `RetrieveAllDogsAtLocationOn` of the current tables |

## Left out

- Java `null` for strings and for the id passed to a lookup is not modelled. Strings are non-null `string`s, and the fresh entities use the empty string.
- `String.compareTo` compares UTF-16 code units. The model compares the `char`s of a Dafny string, which agrees on characters of the Basic Multilingual Plane only.
- `Dog` and `Location` are values, not objects. `saveDog` sets fields on the dog and adds it to the location's dog set in place, and the shared references that creates are not modelled. What reaches the tables is modelled, and so is what a later read returns.
- `Dog.location` is filled in with the owner's scalar fields and an empty dog collection, because a value cannot contain itself.
- `Breed.dogs`, the inverse side of `Dog.breeds`, is not stored. The service never writes it.
- Locations are compared as values, which is finer than Java's `Location.equals`: that compares the dog sets by dog id only, as `Entities.JavaLocationEquals` states. The service never compares two locations.
- `hashCode` is not modelled. Equality is what decides set membership, and dog collections are keyed on `dogId`.
- `Service.SaveLocationOn`: the JPA merge of the DTO's dog set is not modelled. The model writes the seven scalar columns only, and leaves the dog rows as they were. The source does something else whenever it updates a stored location; this is read from the annotations and was not executed. `toLocation` builds the location's dog set from the DTO. That set is empty when the request carries no dogs, because `LocationData.dogs` starts as an empty `HashSet`. `locationDao.save` merges that set over the stored one, and `orphanRemoval = true` then deletes every stored dog the DTO omits. So a DTO without dogs deletes all the dogs of the location it updates, and the returned DTO has none. A DTO that carries dogs would also cascade-write dogs whose `location` is null, because `toDog` never sets it, and `nullable = false` on `location_id` refuses that. `Service.SaveLocationThenRetrieve` and `Service.SaveLocationIdempotent` therefore match the source only for inserts, and for updates of a location that has no dogs by a DTO that carries none.
- `orphanRemoval` is not modelled. Outside `saveLocation`'s merge (see `Service.SaveLocationOn` above), the service never removes a dog from a location's dog set. Moving a dog to another location is a change of its `location_id`.
- `@Transactional` boundaries, rollback and lazy loading are not modelled. Each operation runs as one step on the tables.
- Identity generation is one counter shared by all tables. It starts above every breed id. Only its freshness is modelled; the database sequences and the test's expectation of ids 1 and 2 are not.
- `LocationOrder.SortByBusinessName`: stability is not proved. The result is proved sorted and a permutation of its input.
- `LocationDataConversion.ToLocation` is a ghost function. The iteration order of a `HashSet` is unspecified, so when two DTO dogs share an id the model does not say which one survives.
- `RescueController` is not part of this model. HTTP routing and logging are out of scope. `updateLocation` overwrites the DTO's id with the path id before calling `saveLocation`.
- The class has no methods for `retrieveLocationById` and `retrieveAllLocations`. These read the tables without changing them, and they are the functions `Service.RetrieveLocationById` and `Service.RetrieveAllLocations` of the current state.
- `DogRescueApplication`, the Jackson and Lombok machinery and the tests' row counting are not part of this model.

## Findings

| source | as written | input that shows it | evidently intended | confidence | as-written member | corrected member |
|---|---|---|---|---|---|---|
| src/main/java/dog/rescue/service/RescueService.java:269 | `d.getLocation().getLocationId() == locationId` compares two `Long` objects by reference, so it is true only for ids that `Long.valueOf` caches (-128..127) | one dog at location 128, and `retrieveAllDogsAtLocation(128)`: the list comes back empty | compare the values (`equals`), returning the dog | not executed | Service.AsWrittenMissesLocation128 | Service.RescueService.RetrieveAllDogsAtLocation |
