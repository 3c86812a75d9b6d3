/** The result pipeline of the search page (`filterData`): specialty filter, text filter,
    distance, radius and sort. The haversine distance is the parameter `dist`; every
    property below holds for any distance function. */
module MediNearby {
  import opened Text
  import opened Seqs
  import opened DistanceSort
  import opened Catalog

  /** The select's sentinel meaning "no specialty filter". */
  const AllSpecialties: string := "All Specialties"
  /** Results farther than this many kilometres are dropped. */
  const RadiusKm: real := 20.0

  /** A `[latitude, longitude]` pair in degrees. */
  datatype Coord = Coord(lat: real, lng: real)

  /** `getDistanceFromLatLonInKm(userLat, userLng, lat, lng)` */
  type DistanceFn = (Coord, real, real) -> real

  /** An entry of the result list: the record unchanged, plus the `distance` field
      the pipeline adds once the user's location is known (`None` before that). */
  datatype Listed = Listed(doctor: Doctor, distance: Option<Distance>)

  /** JavaScript truthiness of a numeric field: present and not 0. */
  predicate Truthy(x: Option<real>) {
    x.Some? && x.value != 0.0
  }

  /** `d.lat && d.lng` */
  predicate HasCoordinates(d: Doctor) {
    Truthy(d.lat) && Truthy(d.lng)
  }

  function SpecialtyIs(wanted: string): Doctor -> bool {
    (d: Doctor) => d.specialty == Some(wanted)
  }

  /** The text test for an already lower-cased query `q`. */
  function MatchesQuery(q: string): Doctor -> bool {
    (d: Doctor) => FieldIncludes(d.name, q) || FieldIncludes(d.specialty, q) || FieldIncludes(d.clinic, q)
  }

  /** Step 1: exact specialty equality, unless "All Specialties" is selected. */
  function BySpecialty(data: seq<Doctor>, selected: string): (r: seq<Doctor>)
    ensures selected == AllSpecialties ==> r == data
    ensures selected != AllSpecialties ==> forall k :: 0 <= k < |r| ==> r[k].specialty == Some(selected)
  {
    if selected == AllSpecialties then data else Filter(data, SpecialtyIs(selected))
  }

  /** Step 2: if the trimmed query is non-blank, keep records whose name, specialty or
      clinic contains the lower-cased, untrimmed query. */
  function ByQuery(xs: seq<Doctor>, searchQuery: string): (r: seq<Doctor>)
    ensures Trim(searchQuery) == [] ==> r == xs
    ensures Trim(searchQuery) != [] ==> forall k :: 0 <= k < |r| ==> MatchesQuery(Lower(searchQuery))(r[k])
  {
    if Trim(searchQuery) == [] then xs else Filter(xs, MatchesQuery(Lower(searchQuery)))
  }

  /** Both filter steps only delete records and keep the catalog order of the rest. */
  lemma FilterStepsKeepOrder(data: seq<Doctor>, selected: string, xs: seq<Doctor>, searchQuery: string)
    ensures IsSubsequence(BySpecialty(data, selected), data)
    ensures IsSubsequence(ByQuery(xs, searchQuery), xs)
  {
    SubsequenceReflexive(data);
    SubsequenceReflexive(xs);
    FilterIsSubsequence(data, SpecialtyIs(selected));
    FilterIsSubsequence(xs, MatchesQuery(Lower(searchQuery)));
  }

  /** Step 3: the distance of one record, `Infinity` without truthy coordinates. */
  function DistanceTo(user: Coord, dist: DistanceFn, d: Doctor): Distance {
    if HasCoordinates(d) then Km(dist(user, d.lat.value, d.lng.value)) else Infinite
  }

  /** `{ ...d, distance }` */
  function Measure(user: Coord, dist: DistanceFn): Doctor -> Listed {
    (d: Doctor) => Listed(d, Some(DistanceTo(user, dist, d)))
  }

  /** A record listed as it is, without a distance field. */
  function Unmeasured(d: Doctor): Listed {
    Listed(d, None)
  }

  /** `d.distance <= 20`; `Infinity` fails it. */
  predicate WithinRadius(l: Listed) {
    l.distance.Some? && l.distance.value.Km? && l.distance.value.km <= RadiusKm
  }

  /** The sort key. Only entries with a finite distance reach the sort. */
  function ListedKey(l: Listed): Distance {
    if l.distance.Some? then l.distance.value else Infinite
  }

  /** Steps 3 and 4, only when the user's location is known. */
  function ByLocation(filtered: seq<Doctor>, userLocation: Option<Coord>, dist: DistanceFn): seq<Listed> {
    match userLocation
    case None => Map(filtered, Unmeasured)
    case Some(user) => SortByDistance(Filter(Map(filtered, Measure(user, dist)), WithinRadius), ListedKey)
  }

  /** `filterData()` */
  function FilterData(data: seq<Doctor>, searchQuery: string, selectedSpecialty: string,
                      userLocation: Option<Coord>, dist: DistanceFn): seq<Listed> {
    ByLocation(ByQuery(BySpecialty(data, selectedSpecialty), searchQuery), userLocation, dist)
  }

  function Doctors(r: seq<Listed>): seq<Doctor> {
    Map(r, (l: Listed) => l.doctor)
  }

  // ---------------------------------------------------------------------------
  // Reference definitions: what the pipeline keeps, stated as one test per record.

  /** The record passes the specialty and the text step. */
  function Admitted(selected: string, searchQuery: string): Doctor -> bool {
    (d: Doctor) => (selected == AllSpecialties || d.specialty == Some(selected))
         && (Trim(searchQuery) == [] || MatchesQuery(Lower(searchQuery))(d))
  }

  /** The record is admitted, has coordinates, and lies within the radius. */
  function Kept(selected: string, searchQuery: string, user: Coord, dist: DistanceFn): Doctor -> bool {
    (d: Doctor) => Admitted(selected, searchQuery)(d) && HasCoordinates(d)
         && dist(user, d.lat.value, d.lng.value) <= RadiusKm
  }

  /** The kept records in catalog order, each with its distance. */
  function Nearby(data: seq<Doctor>, selected: string, searchQuery: string, user: Coord,
                  dist: DistanceFn): seq<Listed> {
    Map(Filter(data, Kept(selected, searchQuery, user, dist)), Measure(user, dist))
  }

  /** The two filter steps together keep, in catalog order, exactly the admitted records. */
  lemma FilteredIsAdmitted(data: seq<Doctor>, searchQuery: string, selected: string)
    ensures ByQuery(BySpecialty(data, selected), searchQuery) == Filter(data, Admitted(selected, searchQuery))
  {
    var adm := Admitted(selected, searchQuery);
    var mq := MatchesQuery(Lower(searchQuery));
    if selected == AllSpecialties && Trim(searchQuery) == [] {
      FilterAll(data, adm);
    } else if selected == AllSpecialties {
      FilterExtensional(data, mq, adm);
    } else if Trim(searchQuery) == [] {
      FilterExtensional(data, SpecialtyIs(selected), adm);
    } else {
      FilterFuse(data, SpecialtyIs(selected), mq, adm);
    }
  }

  /** With a known location, the result is the sort of the kept records. */
  lemma LocatedIsSortedNearby(data: seq<Doctor>, searchQuery: string, selected: string,
                              user: Coord, dist: DistanceFn)
    ensures FilterData(data, searchQuery, selected, Some(user), dist)
         == SortByDistance(Nearby(data, selected, searchQuery, user, dist), ListedKey)
  {
    var adm := Admitted(selected, searchQuery);
    var kept := Kept(selected, searchQuery, user, dist);
    var inRadius := (d: Doctor) => WithinRadius(Measure(user, dist)(d));
    FilteredIsAdmitted(data, searchQuery, selected);
    var admitted := Filter(data, adm);
    FilterMap(admitted, Measure(user, dist), WithinRadius, inRadius);
    FilterFuse(data, adm, inRadius, kept);
  }

  // ---------------------------------------------------------------------------
  // Properties of the result list.

  /** Without a location nothing is dropped for distance: the result is the admitted
      records in catalog order, with no distance field. */
  lemma NoLocationKeepsCatalogOrder(data: seq<Doctor>, searchQuery: string, selected: string, dist: DistanceFn)
    ensures var r := FilterData(data, searchQuery, selected, None, dist);
      && Doctors(r) == Filter(data, Admitted(selected, searchQuery))
      && IsSubsequence(Doctors(r), data)
      && forall k :: 0 <= k < |r| ==> r[k].distance == None
  {
    var r := FilterData(data, searchQuery, selected, None, dist);
    var f := Filter(data, Admitted(selected, searchQuery));
    FilteredIsAdmitted(data, searchQuery, selected);
    assert Doctors(r) == f;
    FilterIsSubsequence(data, Admitted(selected, searchQuery));
  }

  /** One entry of the kept reference list. */
  lemma NearbyEntry(data: seq<Doctor>, searchQuery: string, selected: string,
                    user: Coord, dist: DistanceFn, l: Listed)
    requires l in multiset(Nearby(data, selected, searchQuery, user, dist))
    ensures && l.doctor in data
            && Kept(selected, searchQuery, user, dist)(l.doctor)
            && l.distance == Some(Km(dist(user, l.doctor.lat.value, l.doctor.lng.value)))
  {
    var kept := Kept(selected, searchQuery, user, dist);
    var nb := Nearby(data, selected, searchQuery, user, dist);
    var f := Filter(data, kept);
    var m :| 0 <= m < |nb| && nb[m] == l;
    assert l == Measure(user, dist)(f[m]);
    FilterMembers(data, kept, f[m]);
  }

  /** Every entry of the sorted reference list is a kept catalog record with its distance,
      and the entries are in non-decreasing distance order. */
  lemma SortedNearbyEntries(data: seq<Doctor>, searchQuery: string, selected: string,
                            user: Coord, dist: DistanceFn)
    ensures var r := SortByDistance(Nearby(data, selected, searchQuery, user, dist), ListedKey);
      && (forall k :: 0 <= k < |r| ==>
            && r[k].doctor in data
            && Kept(selected, searchQuery, user, dist)(r[k].doctor)
            && r[k].distance == Some(Km(dist(user, r[k].doctor.lat.value, r[k].doctor.lng.value))))
      && (forall i, j :: 0 <= i < j < |r| ==> DistLe(ListedKey(r[i]), ListedKey(r[j])))
  {
    var nb := Nearby(data, selected, searchQuery, user, dist);
    var r := SortByDistance(nb, ListedKey);
    SortPermutes(nb, ListedKey);
    SortSorted(nb, ListedKey);
    forall k | 0 <= k < |r|
      ensures && r[k].doctor in data
              && Kept(selected, searchQuery, user, dist)(r[k].doctor)
              && r[k].distance == Some(Km(dist(user, r[k].doctor.lat.value, r[k].doctor.lng.value)))
    {
      assert r[k] in multiset(r);
      NearbyEntry(data, searchQuery, selected, user, dist, r[k]);
    }
  }

  /** With a location: every entry is an admitted catalog record with truthy coordinates,
      carrying its distance, which is at most 20 km; entries are in non-decreasing
      distance order. */
  lemma LocatedWithinRadiusAndSorted(data: seq<Doctor>, searchQuery: string, selected: string,
                                     user: Coord, dist: DistanceFn)
    ensures var r := FilterData(data, searchQuery, selected, Some(user), dist);
      && (forall k :: 0 <= k < |r| ==>
            && r[k].doctor in data
            && Admitted(selected, searchQuery)(r[k].doctor)
            && HasCoordinates(r[k].doctor)
            && r[k].distance == Some(Km(dist(user, r[k].doctor.lat.value, r[k].doctor.lng.value)))
            && r[k].distance.value.km <= RadiusKm)
      && (forall i, j :: 0 <= i < j < |r| ==> r[i].distance.value.km <= r[j].distance.value.km)
  {
    LocatedIsSortedNearby(data, searchQuery, selected, user, dist);
    SortedNearbyEntries(data, searchQuery, selected, user, dist);
  }

  /** With a location, the result holds exactly the kept records (each as often as in the
      catalog), and records at equal distance keep their catalog order: the sort is stable. */
  lemma LocatedIsStablePermutation(data: seq<Doctor>, searchQuery: string, selected: string,
                                   user: Coord, dist: DistanceFn, d: Distance)
    ensures var r := FilterData(data, searchQuery, selected, Some(user), dist);
      var nb := Nearby(data, selected, searchQuery, user, dist);
      && multiset(r) == multiset(nb)
      && AtDistance(r, ListedKey, d) == AtDistance(nb, ListedKey, d)
  {
    var nb := Nearby(data, selected, searchQuery, user, dist);
    LocatedIsSortedNearby(data, searchQuery, selected, user, dist);
    SortPermutes(nb, ListedKey);
    SortStable(nb, ListedKey, d);
  }

  lemma SortedNearbyMembership(data: seq<Doctor>, searchQuery: string, selected: string,
                               user: Coord, dist: DistanceFn, d: Doctor)
    ensures Listed(d, Some(DistanceTo(user, dist, d)))
              in SortByDistance(Nearby(data, selected, searchQuery, user, dist), ListedKey)
        <==> d in data && Kept(selected, searchQuery, user, dist)(d)
  {
    var kept := Kept(selected, searchQuery, user, dist);
    var nb := Nearby(data, selected, searchQuery, user, dist);
    var l := Listed(d, Some(DistanceTo(user, dist, d)));
    SortPermutes(nb, ListedKey);
    assert l in SortByDistance(nb, ListedKey) <==> l in multiset(nb);
    if l in multiset(nb) {
      NearbyEntry(data, searchQuery, selected, user, dist, l);
    }
    if d in data && kept(d) {
      var f := Filter(data, kept);
      FilterMembers(data, kept, d);
      var m :| 0 <= m < |f| && f[m] == d;
      assert nb[m] == l;
      assert l in multiset(nb);
    }
  }

  /** A record is in the located result exactly when the reference test keeps it. */
  lemma LocatedMembership(data: seq<Doctor>, searchQuery: string, selected: string,
                          user: Coord, dist: DistanceFn, d: Doctor)
    ensures Listed(d, Some(DistanceTo(user, dist, d))) in FilterData(data, searchQuery, selected, Some(user), dist)
        <==> d in data && Kept(selected, searchQuery, user, dist)(d)
  {
    LocatedIsSortedNearby(data, searchQuery, selected, user, dist);
    SortedNearbyMembership(data, searchQuery, selected, user, dist, d);
  }

  /** The next steps of the pipeline never make a shorter input give a longer output. */
  lemma ByLocationMonotone(a: seq<Doctor>, b: seq<Doctor>, userLocation: Option<Coord>, dist: DistanceFn)
    requires IsSubsequence(a, b)
    ensures |ByLocation(a, userLocation, dist)| <= |ByLocation(b, userLocation, dist)|
  {
    SubsequenceBounded(a, b);
    match userLocation
    case None =>
    case Some(user) =>
      var fa := Filter(Map(a, Measure(user, dist)), WithinRadius);
      var fb := Filter(Map(b, Measure(user, dist)), WithinRadius);
      MapMonotone(a, b, Measure(user, dist));
      FilterMonotone(Map(a, Measure(user, dist)), Map(b, Measure(user, dist)), WithinRadius);
      SubsequenceBounded(fa, fb);
      SortPermutes(fa, ListedKey);
      SortPermutes(fb, ListedKey);
  }

  /** The text step keeps the subsequence relation between its inputs. */
  lemma ByQueryMonotone(a: seq<Doctor>, b: seq<Doctor>, searchQuery: string)
    requires IsSubsequence(a, b)
    ensures IsSubsequence(ByQuery(a, searchQuery), ByQuery(b, searchQuery))
  {
    if Trim(searchQuery) != [] {
      FilterMonotone(a, b, MatchesQuery(Lower(searchQuery)));
    }
  }

  /** The result never has more entries than the catalog. */
  lemma ResultBounded(data: seq<Doctor>, searchQuery: string, selected: string,
                      userLocation: Option<Coord>, dist: DistanceFn)
    ensures |FilterData(data, searchQuery, selected, userLocation, dist)| <= |data|
  {
    var f := ByQuery(BySpecialty(data, selected), searchQuery);
    FilterStepsKeepOrder(data, selected, BySpecialty(data, selected), searchQuery);
    SubsequenceTransitive(f, BySpecialty(data, selected), data);
    SubsequenceReflexive(data);
    ByLocationMonotone(f, data, userLocation, dist);
    match userLocation
    case None =>
    case Some(user) =>
      SortPermutes(Filter(Map(data, Measure(user, dist)), WithinRadius), ListedKey);
  }

  /** Choosing a specialty never yields more results than "All Specialties". */
  lemma SpecialtyNeverAdds(data: seq<Doctor>, searchQuery: string, selected: string,
                           userLocation: Option<Coord>, dist: DistanceFn)
    ensures |FilterData(data, searchQuery, selected, userLocation, dist)|
         <= |FilterData(data, searchQuery, AllSpecialties, userLocation, dist)|
  {
    FilterStepsKeepOrder(data, selected, data, searchQuery);
    ByQueryMonotone(BySpecialty(data, selected), data, searchQuery);
    ByLocationMonotone(ByQuery(BySpecialty(data, selected), searchQuery), ByQuery(data, searchQuery), userLocation, dist);
  }

  /** Typing a query never yields more results than the empty query. */
  lemma QueryNeverAdds(data: seq<Doctor>, searchQuery: string, selected: string,
                       userLocation: Option<Coord>, dist: DistanceFn)
    ensures |FilterData(data, searchQuery, selected, userLocation, dist)|
         <= |FilterData(data, "", selected, userLocation, dist)|
  {
    var s := BySpecialty(data, selected);
    assert Trim("") == [];
    FilterStepsKeepOrder(data, selected, s, searchQuery);
    ByLocationMonotone(ByQuery(s, searchQuery), s, userLocation, dist);
  }

  /** Extending the query text (the old query occurs in the new one) never adds results. */
  lemma NarrowingQueryNeverAdds(data: seq<Doctor>, narrower: string, wider: string, selected: string,
                                userLocation: Option<Coord>, dist: DistanceFn)
    requires Includes(narrower, wider)
    ensures |FilterData(data, narrower, selected, userLocation, dist)|
         <= |FilterData(data, wider, selected, userLocation, dist)|
  {
    var s := BySpecialty(data, selected);
    if Trim(wider) == [] {
      FilterStepsKeepOrder(data, selected, s, narrower);
      ByLocationMonotone(ByQuery(s, narrower), s, userLocation, dist);
    } else {
      IncludesKeepsNonBlank(narrower, wider);
      var qn, qw := Lower(narrower), Lower(wider);
      IncludesLower(narrower, wider);
      forall k | 0 <= k < |s| && MatchesQuery(qn)(s[k]) ensures MatchesQuery(qw)(s[k]) {
        var d := s[k];
        if FieldIncludes(d.name, qn) {
          IncludesTransitive(Lower(d.name.value), qn, qw);
        } else if FieldIncludes(d.specialty, qn) {
          IncludesTransitive(Lower(d.specialty.value), qn, qw);
        } else {
          IncludesTransitive(Lower(d.clinic.value), qn, qw);
        }
      }
      FilterWeaker(s, MatchesQuery(qn), MatchesQuery(qw));
      ByLocationMonotone(ByQuery(s, narrower), ByQuery(s, wider), userLocation, dist);
    }
  }

  /** Two records, one at the user's position and one at some distance within 20 km:
      both are listed, nearest first; filtering on "Cardiologist" keeps only the first.
      The two requirements hold of the haversine distance: it is 0 for the same point,
      and about 15.6 km from (10, 10) to (10.1, 10.1). */
  lemma TwoDoctorsExample(dist: DistanceFn)
    requires dist(Coord(10.0, 10.0), 10.0, 10.0) == 0.0
    requires 0.0 < dist(Coord(10.0, 10.0), 10.1, 10.1) <= RadiusKm
    ensures var d1 := Doctor("1", None, Some("Cardiologist"), None, Some(10.0), Some(10.0));
      var d2 := Doctor("2", None, Some("Dermatologist"), None, Some(10.1), Some(10.1));
      var far := dist(Coord(10.0, 10.0), 10.1, 10.1);
      && FilterData([d1, d2], "", AllSpecialties, Some(Coord(10.0, 10.0)), dist)
         == [Listed(d1, Some(Km(0.0))), Listed(d2, Some(Km(far)))]
      && FilterData([d1, d2], "", "Cardiologist", Some(Coord(10.0, 10.0)), dist)
         == [Listed(d1, Some(Km(0.0)))]
  {
    var d1 := Doctor("1", None, Some("Cardiologist"), None, Some(10.0), Some(10.0));
    var d2 := Doctor("2", None, Some("Dermatologist"), None, Some(10.1), Some(10.1));
    var user := Coord(10.0, 10.0);
    var l1 := Listed(d1, Some(Km(0.0)));
    var l2 := Listed(d2, Some(Km(dist(user, 10.1, 10.1))));
    assert Trim("") == [];
    assert [d1, d2][1..] == [d2] && [l1, l2][1..] == [l2];
    calc {
      FilterData([d1, d2], "", AllSpecialties, Some(user), dist);
      ByLocation(ByQuery(BySpecialty([d1, d2], AllSpecialties), ""), Some(user), dist);
      ByLocation([d1, d2], Some(user), dist);
      SortByDistance(Filter(Map([d1, d2], Measure(user, dist)), WithinRadius), ListedKey);
      { assert Map([d1, d2], Measure(user, dist)) == [l1, l2]; }
      SortByDistance(Filter([l1, l2], WithinRadius), ListedKey);
      SortByDistance([l1, l2], ListedKey);
      Insert(l1, SortByDistance([l2], ListedKey), ListedKey);
      { assert SortByDistance([l2], ListedKey) == Insert(l2, [], ListedKey) == [l2]; }
      Insert(l1, [l2], ListedKey);
      [l1, l2];
    }
    calc {
      FilterData([d1, d2], "", "Cardiologist", Some(user), dist);
      ByLocation(ByQuery(BySpecialty([d1, d2], "Cardiologist"), ""), Some(user), dist);
      ByLocation(Filter([d1, d2], SpecialtyIs("Cardiologist")), Some(user), dist);
      ByLocation([d1], Some(user), dist);
      SortByDistance(Filter(Map([d1], Measure(user, dist)), WithinRadius), ListedKey);
      { assert Map([d1], Measure(user, dist)) == [l1]; }
      SortByDistance(Filter([l1], WithinRadius), ListedKey);
      SortByDistance([l1], ListedKey);
      [l1];
    }
  }

  // ---------------------------------------------------------------------------
  // Selection: the list marks an entry as selected by comparing ids.

  /** `selectedItem?.id === item.id` */
  predicate IsSelected(selectedItem: Option<Listed>, item: Listed) {
    selectedItem.Some? && selectedItem.value.doctor.id == item.doctor.id
  }

  predicate UniqueIds(list: seq<Listed>) {
    forall i, j :: 0 <= i < j < |list| ==> list[i].doctor.id != list[j].doctor.id
  }

  /** Selection follows the id only: an entry whose other fields (distance, rating, ...)
      changed stays selected; with unique ids at most one entry is selected; nothing is
      selected when no entry carries the selected id. */
  lemma SelectionByIdentity(selectedItem: Option<Listed>, list: seq<Listed>, before: Listed, after: Listed)
    requires before.doctor.id == after.doctor.id
    ensures IsSelected(selectedItem, before) == IsSelected(selectedItem, after)
    ensures UniqueIds(list) ==>
      forall i, j :: 0 <= i < j < |list| ==> !(IsSelected(selectedItem, list[i]) && IsSelected(selectedItem, list[j]))
    ensures (forall k :: 0 <= k < |list| ==> selectedItem.None? || list[k].doctor.id != selectedItem.value.doctor.id)
      ==> forall k :: 0 <= k < |list| ==> !IsSelected(selectedItem, list[k])
  {
  }
}
