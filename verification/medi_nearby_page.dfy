/** The state of the search page and the handlers that change it. Every handler that
    changes one of the four inputs of `filterData` ends by storing its new result in
    `filteredData`, as the page's effect does (`setFilteredData(filterData())`). Each
    handler's `modifies` clause names the only fields it may change. */
module MediNearbyPage {
  import opened Catalog
  import opened MediNearby

  /** The fixed coordinate used when the platform cannot or will not report one. */
  const FallbackLocation: Coord := Coord(27.1767, 78.0081)

  /** What the platform's position request reports back. */
  datatype PositionOutcome = Reported(latitude: real, longitude: real) | PositionError

  /** The location stored once a request has resolved. */
  function ResolvedLocation(outcome: PositionOutcome): (c: Coord)
    ensures outcome.Reported? ==> c == Coord(outcome.latitude, outcome.longitude)
    ensures outcome.PositionError? ==> c == FallbackLocation
  {
    match outcome
    case Reported(latitude, longitude) => Coord(latitude, longitude)
    case PositionError => FallbackLocation
  }

  /** The page's state. `filteredData` is a stored copy of `filterData()`: every handler
      that changes one of its inputs stores the new result, so after each handler it
      equals `FilterData` of the current inputs. */
  class Page {
    var searchQuery: string
    var selectedSpecialty: string
    var data: seq<Doctor>
    var filteredData: seq<Listed>
    var selectedItem: Option<Listed>
    var userLocation: Option<Coord>
    var locating: bool
    /** The distance function the page ranks with. */
    const dist: DistanceFn

    /** The initial state: empty query, every specialty, no records, no location, nothing
        selected, and the (empty) result of `filterData` on those inputs. */
    constructor (dist: DistanceFn)
      ensures this.dist == dist
      ensures searchQuery == [] && selectedSpecialty == AllSpecialties && data == []
      ensures filteredData == [] && selectedItem == None && userLocation == None && !locating
      ensures filteredData == FilterData(data, searchQuery, selectedSpecialty, userLocation, dist)
    {
      this.dist := dist;
      searchQuery := [];
      selectedSpecialty := AllSpecialties;
      data := [];
      filteredData := [];
      selectedItem := None;
      userLocation := None;
      locating := false;
    }

    /** The search box's `onChange`. */
    method SetSearchQuery(text: string)
      modifies this`searchQuery, this`filteredData
      ensures searchQuery == text
      ensures filteredData == FilterData(data, searchQuery, selectedSpecialty, userLocation, dist)
    {
      searchQuery := text;
      filteredData := FilterData(data, searchQuery, selectedSpecialty, userLocation, dist);
    }

    /** The specialty select's `onChange`. */
    method SetSelectedSpecialty(choice: string)
      modifies this`selectedSpecialty, this`filteredData
      ensures selectedSpecialty == choice
      ensures filteredData == FilterData(data, searchQuery, selectedSpecialty, userLocation, dist)
    {
      selectedSpecialty := choice;
      filteredData := FilterData(data, searchQuery, selectedSpecialty, userLocation, dist);
    }

    /** A snapshot of the "doctors" collection arrives and replaces the records. The
        selection is kept: it is matched by id against the new list. */
    method ReceiveSnapshot(list: seq<Doctor>)
      modifies this`data, this`filteredData
      ensures data == list
      ensures filteredData == FilterData(data, searchQuery, selectedSpecialty, userLocation, dist)
    {
      data := list;
      filteredData := FilterData(data, searchQuery, selectedSpecialty, userLocation, dist);
    }

    /** `getUserLocation()`: `locating` is raised; without platform geolocation the
        fallback is stored at once and `locating` drops again, otherwise the request
        stays pending until `PositionResolved`. */
    method RequestLocation(geolocationAvailable: bool)
      requires filteredData == FilterData(data, searchQuery, selectedSpecialty, userLocation, dist)
      modifies this`locating, this`userLocation, this`filteredData
      ensures filteredData == FilterData(data, searchQuery, selectedSpecialty, userLocation, dist)
      ensures geolocationAvailable ==> locating && userLocation == old(userLocation)
      ensures !geolocationAvailable ==> !locating && userLocation == Some(FallbackLocation)
    {
      if geolocationAvailable {
        BeginLocating();
      } else {
        PositionResolved(PositionError);
      }
    }

    /** `setLocating(true)` while the position request is pending. */
    method BeginLocating()
      modifies this`locating
      ensures locating
    {
      locating := true;
    }

    /** The success or error callback of the position request: the reported coordinate,
        or the fallback, is stored and `locating` drops. */
    method PositionResolved(outcome: PositionOutcome)
      modifies this`locating, this`userLocation, this`filteredData
      ensures !locating
      ensures filteredData == FilterData(data, searchQuery, selectedSpecialty, userLocation, dist)
      ensures userLocation == Some(ResolvedLocation(outcome))
    {
      userLocation := Some(ResolvedLocation(outcome));
      locating := false;
      filteredData := FilterData(data, searchQuery, selectedSpecialty, userLocation, dist);
    }

    /** A card's "Locate on Map" button: `onLocate={setSelectedItem}`. */
    method SelectItem(item: Listed)
      modifies this`selectedItem
      ensures selectedItem == Some(item)
      ensures forall k :: 0 <= k < |filteredData| ==>
                (IsCardSelected(filteredData[k]) <==> filteredData[k].doctor.id == item.doctor.id)
    {
      selectedItem := Some(item);
    }

    /** The `isSelected` flag a card receives. */
    predicate IsCardSelected(item: Listed)
      reads this
    {
      IsSelected(selectedItem, item)
    }
  }

  /** A location request followed, when the platform has geolocation, by its callback:
      once the platform calls back, `locating` is false and a coordinate is stored, the
      fallback without geolocation or on error, the reported one on success. A request
      whose callback never fires is `RequestLocation(true)` alone and stays locating. */
  method LocateOnce(page: Page, geolocationAvailable: bool, outcome: PositionOutcome)
    requires page.filteredData == FilterData(page.data, page.searchQuery, page.selectedSpecialty, page.userLocation, page.dist)
    modifies page`locating, page`userLocation, page`filteredData
    ensures page.filteredData == FilterData(page.data, page.searchQuery, page.selectedSpecialty, page.userLocation, page.dist)
    ensures !page.locating
    ensures page.userLocation == Some(if geolocationAvailable then ResolvedLocation(outcome) else FallbackLocation)
  {
    page.RequestLocation(geolocationAvailable);
    if geolocationAvailable {
      page.PositionResolved(outcome);
    }
  }
}
