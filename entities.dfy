/** The persistence entities Breed, Dog and Location as values.

    Java compares a Breed on (breedId, name), which is datatype equality
    here. A Dog is compared on its `dogId` alone, so a Java `Set<Dog>` holds at
    most one dog per id: the model keys every dog collection on the id, as a
    `map<Option<int>, Dog>`. A Location is compared on its scalars and its dog
    set, whose elements compare on their ids, so Java's location equality
    (`JavaLocationEquals`) is coarser than datatype equality. */
module Entities {
  import opened Wrappers

  /** A catalogue breed. Its `dogs` back-reference is excluded from Java
      equality and is only the inverse side of `Dog.breeds`, so it is not part
      of the value: the dogs of a breed are derived from the dogs' breed sets. */
  datatype Breed = Breed(breedId: Option<int>, name: string)

  /** A dog. `location` is the many-to-one owner reference; a finite value
      cannot contain itself, so wherever the model fills it in, the owner's
      own dog collection is cut off (see `RescueStore.OwnerOf`). */
  datatype Dog = Dog(dogId: Option<int>, name: string, age: int, color: string,
                     location: Option<Location>, breeds: set<Breed>)

  /** A rescue location with its owned dogs, keyed on `dogId` as `Dog.equals`
      and `Dog.hashCode` do. */
  datatype Location = Location(locationId: Option<int>, businessName: string,
                               streetAddress: string, city: string, state: string,
                               zip: string, phone: string,
                               dogs: map<Option<int>, Dog>)

  /** `new Breed()`: no id yet (a null name is written as the empty string). */
  function NewBreed(): (b: Breed)
    ensures b.breedId == None
  {
    Breed(None, "")
  }

  /** `new Dog()`: no id, no owner, no breeds (null strings are written as the
      empty string; the service overwrites them before the dog is saved). */
  function NewDog(): (d: Dog)
    ensures d.dogId == None && d.location == None && d.breeds == {}
  {
    Dog(None, "", 0, "", None, {})
  }

  /** `new Location()`: no id and an empty dog set. */
  function NewLocation(): (l: Location)
    ensures l.locationId == None && l.dogs == map[]
  {
    Location(None, "", "", "", "", "", "", map[])
  }

  /** `Dog.equals`: only the primary key takes part, so two dogs are equal
      exactly when overwriting every other field of one with the other's
      makes them identical. */
  predicate SameDog(a: Dog, b: Dog): (r: bool)
    ensures r <==> a.(name := b.name, age := b.age, color := b.color,
                      location := b.location, breeds := b.breeds) == b
  {
    a.dogId == b.dogId
  }

  /** `Location.equals`: the id and the six scalars, and `Set.equals` on the
      dog sets, which under id-only dog equality compares their ids. */
  predicate JavaLocationEquals(a: Location, b: Location): (r: bool)
    ensures r <==> && a.locationId == b.locationId && a.businessName == b.businessName
                   && a.streetAddress == b.streetAddress && a.city == b.city
                   && a.state == b.state && a.zip == b.zip && a.phone == b.phone
                   && forall k :: k in a.dogs <==> k in b.dogs
  {
    && a.(dogs := map[]) == b.(dogs := map[])
    && a.dogs.Keys == b.dogs.Keys
  }

  /** Equal values are equal in Java, and Java equality is an equivalence;
      two locations whose dogs share ids but differ elsewhere are equal in
      Java yet different values. */
  lemma JavaLocationEqualsCoarser(a: Location, b: Location, c: Location)
    ensures a == b ==> JavaLocationEquals(a, b)
    ensures JavaLocationEquals(a, b) ==> JavaLocationEquals(b, a)
    ensures JavaLocationEquals(a, b) && JavaLocationEquals(b, c) ==> JavaLocationEquals(a, c)
    ensures var rex := Dog(Some(1), "Rex", 3, "brown", None, {});
            var max := Dog(Some(1), "Max", 5, "black", None, {});
            var x := NewLocation().(dogs := map[Some(1) := rex]);
            var y := NewLocation().(dogs := map[Some(1) := max]);
            JavaLocationEquals(x, y) && x != y
  {
    var rex := Dog(Some(1), "Rex", 3, "brown", None, {});
    var max := Dog(Some(1), "Max", 5, "black", None, {});
    var x := NewLocation().(dogs := map[Some(1) := rex]);
    var y := NewLocation().(dogs := map[Some(1) := max]);
    assert x.dogs[Some(1)] != y.dogs[Some(1)];
  }

  /** A dog collection is well keyed when every dog sits under its own id, so
      that its values form a Java `Set<Dog>`: no two of them are `SameDog`. */
  predicate WellKeyed(s: map<Option<int>, Dog>)
  {
    forall k :: k in s ==> s[k].dogId == k
  }

  /** Every dog of `a` has a `SameDog` partner among the dogs of `b`. */
  ghost predicate DogsCovered(a: map<Option<int>, Dog>, b: map<Option<int>, Dog>)
  {
    forall d :: d in a.Values ==> exists e :: e in b.Values && SameDog(d, e)
  }

  /** On well-keyed dog sets, covering up to `SameDog` is inclusion of ids. */
  lemma DogsCoveredIds(a: map<Option<int>, Dog>, b: map<Option<int>, Dog>)
    requires WellKeyed(a) && WellKeyed(b)
    ensures DogsCovered(a, b) <==> a.Keys <= b.Keys
  {
    if DogsCovered(a, b) {
      forall k | k in a ensures k in b {
        assert a[k] in a.Values;
        var e :| e in b.Values && SameDog(a[k], e);
        var j :| j in b && b[j] == e;
      }
    }
    if a.Keys <= b.Keys {
      forall d | d in a.Values ensures exists e :: e in b.Values && SameDog(d, e) {
        var k :| k in a && a[k] == d;
        assert b[k] in b.Values && SameDog(d, b[k]);
      }
    }
  }

  /** On well-keyed dog sets, Java's location equality is set equality up to
      `SameDog`: every dog of one has an equal dog in the other. */
  lemma JavaLocationEqualsBySameDog(a: Location, b: Location)
    requires WellKeyed(a.dogs) && WellKeyed(b.dogs)
    requires a.(dogs := map[]) == b.(dogs := map[])
    ensures JavaLocationEquals(a, b) <==> DogsCovered(a.dogs, b.dogs) && DogsCovered(b.dogs, a.dogs)
  {
    DogsCoveredIds(a.dogs, b.dogs);
    DogsCoveredIds(b.dogs, a.dogs);
  }

  /** `HashSet<Dog>.add(d)`: when an equal dog (same id) is present the set is
      left unchanged and keeps the dog it had; otherwise `d` is added. */
  function AddDog(s: map<Option<int>, Dog>, d: Dog): (r: map<Option<int>, Dog>)
    requires WellKeyed(s)
    ensures WellKeyed(r)
    ensures r.Keys == s.Keys + {d.dogId} && forall k :: k in s ==> r[k] == s[k]
    ensures d.dogId !in s ==> r[d.dogId] == d
  {
    if d.dogId in s then s else s[d.dogId := d]
  }

  /** In terms of the set's elements: `add` keeps the set when it holds a
      dog equal to `d`, and adds `d` otherwise. */
  lemma AddDogElements(s: map<Option<int>, Dog>, d: Dog)
    requires WellKeyed(s)
    ensures var r := AddDog(s, d);
            r.Values == if exists e :: e in s.Values && SameDog(e, d) then s.Values else s.Values + {d}
  {
    if d.dogId in s {
      assert s[d.dogId] in s.Values && SameDog(s[d.dogId], d);
    } else {
      var r := s[d.dogId := d];
      assert r[d.dogId] == d;
      assert forall v :: v in r.Values ==> v in s.Values + {d} by {
        forall v | v in r.Values ensures v in s.Values + {d} {
          var k :| k in r && r[k] == v;
          if k != d.dogId { assert s[k] == v; }
        }
      }
      assert forall v :: v in s.Values ==> v in r.Values by {
        forall v | v in s.Values ensures v in r.Values {
          var k :| k in s && s[k] == v;
          assert r[k] == v;
        }
      }
      assert !exists e :: e in s.Values && SameDog(e, d) by {
        forall e | e in s.Values ensures !SameDog(e, d) {
          var k :| k in s && s[k] == e;
        }
      }
    }
  }

  /** Adding the dogs of `ds` one by one, in that order, as a `for` loop over a
      collection that calls `getDogs().add` does. Every id of `ds` ends up
      present, and each new id holds the first dog of `ds` that carried it. */
  function AddAllDogs(s: map<Option<int>, Dog>, ds: seq<Dog>): (r: map<Option<int>, Dog>)
    requires WellKeyed(s)
    ensures WellKeyed(r)
    ensures forall k :: k in s ==> k in r && r[k] == s[k]
    ensures forall d :: d in ds ==> d.dogId in r
    ensures forall k :: k in r && k !in s ==> r[k] in ds && r[k].dogId == k
    decreases |ds|
  {
    if ds == [] then s
    else
      var r := AddAllDogs(AddDog(s, ds[0]), ds[1..]);
      assert forall d :: d in ds <==> d == ds[0] || d in ds[1..];
      r
  }

  /** Of several dogs of `ds` sharing an id the set built by `AddAllDogs`
      keeps the first. */
  lemma {:induction false} AddAllDogsKeepsFirst(s: map<Option<int>, Dog>, ds: seq<Dog>, i: int)
    requires WellKeyed(s) && 0 <= i < |ds| && ds[i].dogId !in s && FirstWithId(ds, i)
    ensures AddAllDogs(s, ds)[ds[i].dogId] == ds[i]
    decreases |ds|
  {
    var s' := AddDog(s, ds[0]);
    AddAllDogsStep(s, ds);
    if i > 0 {
      assert ds[0].dogId != ds[i].dogId;
      assert ds[1..][i - 1] == ds[i] && ds[i].dogId !in s';
      FirstWithIdTail(ds, i);
      AddAllDogsKeepsFirst(s', ds[1..], i - 1);
    } else {
      assert s'[ds[0].dogId] == ds[0];
    }
  }

  /** `AddAllDogs` adds the head of its list first. */
  lemma AddAllDogsStep(s: map<Option<int>, Dog>, ds: seq<Dog>)
    requires WellKeyed(s) && ds != []
    ensures AddAllDogs(s, ds) == AddAllDogs(AddDog(s, ds[0]), ds[1..])
  {
  }

  /** Dropping the head of `ds` keeps a later first occurrence first. */
  lemma FirstWithIdTail(ds: seq<Dog>, i: int)
    requires 0 < i < |ds| && FirstWithId(ds, i)
    ensures FirstWithId(ds[1..], i - 1)
  {
    forall j | 0 <= j < i - 1 ensures ds[1..][j].dogId != ds[1..][i - 1].dogId {
      assert ds[1..][j] == ds[j + 1];
    }
  }

  /** No dog before position `i` of `ds` has the id of `ds[i]`. */
  predicate FirstWithId(ds: seq<Dog>, i: int)
    requires 0 <= i < |ds|
  {
    forall j :: 0 <= j < i ==> ds[j].dogId != ds[i].dogId
  }

  /** Two dogs without an id are equal, so a set can hold only one of them:
      adding a second unsaved dog keeps the first and drops the second. */
  lemma UnsavedDogsCollapse(a: Dog, b: Dog)
    requires a.dogId == None && b.dogId == None
    ensures AddDog(AddDog(map[], a), b) == map[None := a]
    ensures |AddDog(AddDog(map[], a), b)| == 1
  {
  }

  /** A well-keyed dog collection holds at most one dog with a null id. */
  lemma AtMostOneUnsavedDog(s: map<Option<int>, Dog>, a: Dog, b: Dog)
    requires WellKeyed(s)
    requires a in s.Values && b in s.Values && a.dogId == None && b.dogId == None
    ensures a == b
  {
    var ka :| ka in s && s[ka] == a;
    var kb :| kb in s && s[kb] == b;
  }
}
