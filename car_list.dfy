/**
 * The two updaters the form hands to the parent's `setCars` after a
 * successful save: the create updater (copy, push, sort by plate) and the
 * update updater (replace the entries whose plate equals the saved car's).
 */
module CarList {
  import opened Cars

  /**
   * `a.localeCompare(b) <= 0`, taken as plain lexicographic order on
   * characters: a prefix comes first, otherwise the first differing
   * character decides.
   */
  predicate PlateLe(a: string, b: string)
  {
    if a == [] then true
    else if b == [] then false
    else if a[0] != b[0] then a[0] < b[0]
    else PlateLe(a[1..], b[1..])
  }

  /**
   * The plate order is the lexicographic order: `a` comes first when it is a
   * prefix of `b`, or when at the first position where they differ `a` has
   * the smaller character.
   */
  lemma {:induction false} PlateLeIsLexicographic(a: string, b: string)
    ensures PlateLe(a, b) <==> a <= b || LowerAtFirstDifference(a, b)
  {
    if a != [] && b != [] {
      if a[0] != b[0] {
        LowerAtFirstDifferenceHead(a, b);
      } else {
        LowerAtFirstDifferenceTail(a, b);
        PlateLeIsLexicographic(a[1..], b[1..]);
      }
    }
  }

  /** The two strings agree up to some position, where `a` has the smaller character. */
  ghost predicate LowerAtFirstDifference(a: string, b: string)
  {
    exists k :: 0 <= k < |a| && k < |b| && a[..k] == b[..k] && a[k] < b[k]
  }

  lemma LowerAtFirstDifferenceHead(a: string, b: string)
    requires a != [] && b != [] && a[0] != b[0]
    ensures LowerAtFirstDifference(a, b) <==> a[0] < b[0]
  {
    if LowerAtFirstDifference(a, b) {
      var k :| 0 <= k < |a| && k < |b| && a[..k] == b[..k] && a[k] < b[k];
    }
    if a[0] < b[0] {
      assert a[..0] == b[..0];
    }
  }

  lemma LowerAtFirstDifferenceTail(a: string, b: string)
    requires a != [] && b != [] && a[0] == b[0]
    ensures a <= b <==> a[1..] <= b[1..]
    ensures LowerAtFirstDifference(a, b) <==> LowerAtFirstDifference(a[1..], b[1..])
  {
    assert a == [a[0]] + a[1..] && b == [b[0]] + b[1..];
    if LowerAtFirstDifference(a[1..], b[1..]) {
      var k :| 0 <= k < |a[1..]| && k < |b[1..]| && a[1..][..k] == b[1..][..k] && a[1..][k] < b[1..][k];
      assert a[..k + 1] == [a[0]] + a[1..][..k];
      assert b[..k + 1] == [b[0]] + b[1..][..k];
    }
    if LowerAtFirstDifference(a, b) {
      var k :| 0 <= k < |a| && k < |b| && a[..k] == b[..k] && a[k] < b[k];
      assert k > 0;
      assert a[1..][..k - 1] == a[..k][1..];
      assert b[1..][..k - 1] == b[..k][1..];
    }
  }

  lemma {:induction false} PlateLeReflexive(a: string)
    ensures PlateLe(a, a)
  {
    if a != [] {
      PlateLeReflexive(a[1..]);
    }
  }

  lemma {:induction false} PlateLeTotal(a: string, b: string)
    ensures PlateLe(a, b) || PlateLe(b, a)
  {
    if a != [] && b != [] && a[0] == b[0] {
      PlateLeTotal(a[1..], b[1..]);
    }
  }

  lemma {:induction false} PlateLeAntisymmetric(a: string, b: string)
    requires PlateLe(a, b) && PlateLe(b, a)
    ensures a == b
  {
    if a != [] && b != [] {
      PlateLeAntisymmetric(a[1..], b[1..]);
      assert a == [a[0]] + a[1..] && b == [b[0]] + b[1..];
    }
  }

  lemma {:induction false} PlateLeTransitive(a: string, b: string, c: string)
    requires PlateLe(a, b) && PlateLe(b, c)
    ensures PlateLe(a, c)
  {
    if a != [] && b != [] && c != [] && a[0] == b[0] && b[0] == c[0] {
      PlateLeTransitive(a[1..], b[1..], c[1..]);
    }
  }

  /** The comparator the sort uses, lifted to cars: compare by plate only. */
  predicate CarLe(x: Car, y: Car)
  {
    PlateLe(x.licensePlateNumber, y.licensePlateNumber)
  }

  /** Ascending by plate: every earlier car compares at most equal to every later one. */
  predicate SortedByPlate(s: seq<Car>)
  {
    forall i, j :: 0 <= i < j < |s| ==> CarLe(s[i], s[j])
  }

  /** The plates of a list, position by position. */
  function Plates(s: seq<Car>): (r: seq<string>)
    ensures |r| == |s|
    ensures forall i :: 0 <= i < |s| ==> r[i] == s[i].licensePlateNumber
  {
    seq(|s|, i requires 0 <= i < |s| => s[i].licensePlateNumber)
  }

  /**
   * The update updater: `prevCars.map(p => p.licensePlateNumber === car.licensePlateNumber ? car : p)`.
   * It matches on the plate of the car being saved, which is the edited plate
   * when the user changed it.
   */
  function UpdatedCars(prev: seq<Car>, car: Car): (r: seq<Car>)
    ensures |r| == |prev|
    ensures forall i :: 0 <= i < |prev| && prev[i].licensePlateNumber == car.licensePlateNumber ==> r[i] == car
    ensures forall i :: 0 <= i < |prev| && prev[i].licensePlateNumber != car.licensePlateNumber ==> r[i] == prev[i]
  {
    seq(|prev|, i requires 0 <= i < |prev| =>
      if prev[i].licensePlateNumber == car.licensePlateNumber then car else prev[i])
  }

  /** When no entry carries the saved car's plate, the list comes back unchanged. */
  lemma UpdateWithoutMatchIsIdentity(prev: seq<Car>, car: Car)
    requires car.licensePlateNumber !in Plates(prev)
    ensures UpdatedCars(prev, car) == prev
  {

  }

  /**
   * Editing a plate to one another entry already has overwrites that entry
   * with the edited car, while the entry under the original plate stays.
   */
  lemma UpdateToTakenPlateOverwrites(prev: seq<Car>, car: Car, i: nat, j: nat)
    requires i < |prev| && j < |prev|
    requires prev[i].licensePlateNumber != car.licensePlateNumber
    requires prev[j].licensePlateNumber == car.licensePlateNumber
    ensures UpdatedCars(prev, car)[i] == prev[i]
    ensures UpdatedCars(prev, car)[j] == car
    ensures UpdatedCars(prev, car) != prev || prev[j] == car
  {
  }

  /** Every position keeps its plate, so the update never reorders the list by plate. */
  lemma UpdateKeepsPlates(prev: seq<Car>, car: Car)
    ensures Plates(UpdatedCars(prev, car)) == Plates(prev)
  {
  }

  /** A list sorted by plate stays sorted after an update. */
  lemma UpdateKeepsSorted(prev: seq<Car>, car: Car)
    requires SortedByPlate(prev)
    ensures SortedByPlate(UpdatedCars(prev, car))
  {

  }

  /** Saving the same car twice has the effect of saving it once. */
  lemma UpdateIdempotent(prev: seq<Car>, car: Car)
    ensures UpdatedCars(UpdatedCars(prev, car), car) == UpdatedCars(prev, car)
  {
  }

  /** `newCars.sort(...)`: an in-place stable insertion sort by plate. */
  method SortByPlate(a: array<Car>)
    modifies a
    ensures SortedByPlate(a[..])
    ensures multiset(a[..]) == old(multiset(a[..]))
  {
    var i := 0;
    while i < a.Length
      invariant 0 <= i <= a.Length
      invariant forall k, l :: 0 <= k < l < i ==> CarLe(a[k], a[l])
      invariant multiset(a[..]) == old(multiset(a[..]))
    {
      Insert(a, i);
      i := i + 1;
    }
  }

  /**
   * One pass of the insertion sort: the car at `i` moves down past every
   * larger car before it, so the first `i + 1` cars end up sorted.
   */
  method Insert(a: array<Car>, i: nat)
    requires i < a.Length
    requires forall k, l :: 0 <= k < l < i ==> CarLe(a[k], a[l])
    modifies a
    ensures forall k, l :: 0 <= k < l <= i ==> CarLe(a[k], a[l])
    ensures multiset(a[..]) == old(multiset(a[..]))
  {
    var j := i;
    while j > 0 && !CarLe(a[j - 1], a[j])
      invariant 0 <= j <= i
      invariant forall k, l :: 0 <= k < l <= i && k != j && l != j ==> CarLe(a[k], a[l])
      invariant forall l :: j < l <= i ==> CarLe(a[j], a[l])
      invariant multiset(a[..]) == old(multiset(a[..]))
    {
      PlateLeTotal(a[j - 1].licensePlateNumber, a[j].licensePlateNumber);
      a[j - 1], a[j] := a[j], a[j - 1];
      j := j - 1;
    }
    forall k, l | 0 <= k < l <= i
      ensures CarLe(a[k], a[l])
    {
      if l == j && k < j - 1 {
        PlateLeTransitive(a[k].licensePlateNumber, a[j - 1].licensePlateNumber, a[j].licensePlateNumber);
      }
    }
  }

  /** What the create updater promises: the old list plus the new car, as a multiset, sorted by plate. */
  predicate IsCreatedFrom(r: seq<Car>, prev: seq<Car>, car: Car)
  {
    && |r| == |prev| + 1
    && multiset(r) == multiset(prev) + multiset{car}
    && SortedByPlate(r)
  }

  /** A created list holds the new car and every car of the old list. */
  lemma CreatedHoldsAll(r: seq<Car>, prev: seq<Car>, car: Car)
    requires IsCreatedFrom(r, prev, car)
    ensures car in r
    ensures forall x :: x in prev ==> x in r
  {
    assert car in multiset(r);
    forall x | x in prev
      ensures x in r
    {
      assert x in multiset(prev);
      assert x in multiset(r);
    }
  }

  /**
   * The create updater: copy the previous list, push the new car, sort the
   * copy by plate and hand it back.
   */
  method CreatedCars(prev: seq<Car>, car: Car) returns (r: seq<Car>)
    ensures IsCreatedFrom(r, prev, car)
  {
    var pushed := prev + [car];
    var newCars := new Car[|pushed|](i requires 0 <= i < |pushed| => pushed[i]);
    assert newCars[..] == pushed;
    SortByPlate(newCars);
    r := newCars[..];
  }
}
