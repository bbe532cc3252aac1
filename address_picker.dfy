/** The address picker (components/customer/address-picker-dialog.tsx): how a Nominatim reverse
    geocode becomes a picked location, the initial centre, and the dialog state that searching,
    picking and confirming change. Nominatim's answers are inputs; the map is left out. */
module AddressPicker {
  import opened Common

  /** The `address` object of a reverse geocode; a missing key is `None`. */
  datatype NominatimAddress = NominatimAddress(
    city: Option<string>, town: Option<string>, village: Option<string>, county: Option<string>,
    suburb: Option<string>, neighbourhood: Option<string>, cityDistrict: Option<string>,
    postcode: Option<string>)

  /** A reverse geocode answer: `display_name` and `address`, either of which may be missing. */
  datatype ReverseResult = ReverseResult(displayName: Option<string>, address: Option<NominatimAddress>)

  /** One search hit, with `Number(r.lat)` and `Number(r.lon)` already taken. */
  datatype SearchHit = SearchHit(lat: Number, lon: Number, displayName: string)

  datatype PickedLocation = PickedLocation(
    fullAddress: string, lat: Number, lng: Number, city: string, area: string, postalCode: string)

  /** `a || b || ... || ""` over optional strings: the reference reading of a fallback chain. */
  function FirstTruthy(options: seq<Option<string>>): string {
    if options == [] then ""
    else if Truthy(options[0]) then options[0].value
    else FirstTruthy(options[1..])
  }

  /** The chain yields "" exactly when no entry is present and non-empty, and otherwise the
      value of the first entry that is. */
  lemma {:induction false} FirstTruthySpec(options: seq<Option<string>>)
    ensures FirstTruthy(options) == "" <==> forall i | 0 <= i < |options| :: !Truthy(options[i])
    ensures FirstTruthy(options) != "" ==> exists i | 0 <= i < |options| ::
      options[i] == Some(FirstTruthy(options)) && forall j | 0 <= j < i :: !Truthy(options[j])
  {
    if options != [] && !Truthy(options[0]) {
      var rest := options[1..];
      FirstTruthySpec(rest);
      assert forall i | 1 <= i < |options| :: options[i] == rest[i - 1];
      if FirstTruthy(rest) != "" {
        var k :| 0 <= k < |rest| && rest[k] == Some(FirstTruthy(rest))
          && forall j | 0 <= j < k :: !Truthy(rest[j]);
        assert options[k + 1] == Some(FirstTruthy(options));
      }
    } else if options != [] {
      assert options[0] == Some(FirstTruthy(options));
    }
  }

  /** The chain picks the first entry that is present and non-empty. */
  lemma FirstTruthyPicksFirst(options: seq<Option<string>>, i: nat)
    requires i < |options| && Truthy(options[i])
    requires forall j | 0 <= j < i :: !Truthy(options[j])
    ensures FirstTruthy(options) == options[i].value
  {
    FirstTruthySpec(options);
    var r := FirstTruthy(options);
    var k :| 0 <= k < |options| && options[k] == Some(r) && forall j | 0 <= j < k :: !Truthy(options[j]);
    assert k == i;
  }

  /** Unfolding the chain once: the head if it is non-empty, else the chain of the rest. */
  lemma FirstTruthyCons(o: Option<string>, rest: seq<Option<string>>)
    ensures FirstTruthy([o] + rest) == OrString(o, FirstTruthy(rest))
  {
    assert ([o] + rest)[1..] == rest;
  }

  const EmptyAddress := NominatimAddress(None, None, None, None, None, None, None, None)

  /** The location `resolveAddress(lat, lng)` returns for the reverse geocode `data`, with the
      `||` chains of the source. */
  function ResolveAddress(data: Option<ReverseResult>, lat: Number, lng: Number): (p: PickedLocation)
    ensures p.lat == lat && p.lng == lng
    ensures p.fullAddress == (if data.Some? && data.value.displayName.Some? then data.value.displayName.value else "")
  {
    var addr := if data.Some? && data.value.address.Some? then data.value.address.value else EmptyAddress;
    PickedLocation(
      if data.Some? then OrElse(data.value.displayName, "") else "",
      lat, lng,
      OrString(addr.city, OrString(addr.town, OrString(addr.village, OrString(addr.county, "")))),
      OrString(addr.suburb, OrString(addr.neighbourhood, OrString(addr.cityDistrict, ""))),
      OrString(addr.postcode, ""))
  }

  /** The city is the first non-empty of city, town, village and county, the area the first
      non-empty of suburb, neighbourhood and city district, the postcode kept only when
      non-empty; each is "" when none is given, and a missing `address` behaves like an empty
      one. */
  lemma ResolveAddressSpec(data: ReverseResult, lat: Number, lng: Number)
    ensures var a, p := OrElse(data.address, EmptyAddress), ResolveAddress(Some(data), lat, lng);
      && p.city == FirstTruthy([a.city, a.town, a.village, a.county])
      && p.area == FirstTruthy([a.suburb, a.neighbourhood, a.cityDistrict])
      && p.postalCode == FirstTruthy([a.postcode])
      && p.fullAddress == OrElse(data.displayName, "")
  {
    var a := OrElse(data.address, EmptyAddress);
    FirstTruthyCons(a.county, []);
    FirstTruthyCons(a.village, [a.county]);
    FirstTruthyCons(a.town, [a.village, a.county]);
    FirstTruthyCons(a.city, [a.town, a.village, a.county]);
    FirstTruthyCons(a.cityDistrict, []);
    FirstTruthyCons(a.neighbourhood, [a.cityDistrict]);
    FirstTruthyCons(a.suburb, [a.neighbourhood, a.cityDistrict]);
    FirstTruthyCons(a.postcode, []);
    assert [a.village, a.county] == [a.village] + [a.county];
    assert [a.town, a.village, a.county] == [a.town] + [a.village, a.county];
    assert [a.city, a.town, a.village, a.county] == [a.city] + [a.town, a.village, a.county];
    assert [a.neighbourhood, a.cityDistrict] == [a.neighbourhood] + [a.cityDistrict];
    assert [a.suburb, a.neighbourhood, a.cityDistrict] == [a.suburb] + [a.neighbourhood, a.cityDistrict];
    assert [a.county] == [a.county] + [];
    assert [a.cityDistrict] == [a.cityDistrict] + [];
    assert [a.postcode] == [a.postcode] + [];
  }

  /** `DEFAULT_CENTER`, Dhaka. */
  function DefaultCenter(): (Number, Number) {
    (Finite(Decimal(238103, -4)), Finite(Decimal(904125, -4)))
  }

  /** `initialCenter`: the given coordinates when both are numbers (NaN included), else Dhaka. */
  function InitialCenter(initialLat: Option<Number>, initialLng: Option<Number>): (c: (Number, Number))
    ensures initialLat.Some? && initialLng.Some? ==> c == (initialLat.value, initialLng.value)
    ensures initialLat.None? || initialLng.None? ==> c == DefaultCenter()
  {
    if initialLat.Some? && initialLng.Some? then (initialLat.value, initialLng.value) else DefaultCenter()
  }

  /** `canConfirm`. */
  predicate CanConfirm(pickedAddress: string, lat: Number, lng: Number) {
    pickedAddress != "" && lat.Finite? && lng.Finite?
  }

  /** What waits on a reverse geocode: a map or result click, the search that found the
      coordinates, or the confirm button. */
  datatype Awaiting = AfterPick | AfterSearch | AfterConfirm

  datatype ReverseRequest = ReverseRequest(lat: Number, lng: Number, awaiting: Awaiting)

  /** What `resolveAddress` makes of one reverse geocode request and its outcome: the location,
      or the failure it rethrows. */
  function Resolved(outcome: Result<Option<ReverseResult>>, req: ReverseRequest): (r: Result<PickedLocation>)
    ensures r.Ok? <==> outcome.Ok?
    ensures r.Err? ==> r.message == outcome.message
    ensures r.Ok? ==> r.value.lat == req.lat && r.value.lng == req.lng
  {
    if outcome.Ok? then Ok(ResolveAddress(outcome.value, req.lat, req.lng)) else Err(outcome.message)
  }

  class AddressPickerDialog {
    var query: string
    var searching: bool
    var results: seq<SearchHit>
    var pickedLat: Number
    var pickedLng: Number
    var pickedAddress: string
    var resolving: bool
    var searchRequests: seq<string>            // the `q` of each Nominatim search
    var reverseRequests: seq<ReverseRequest>   // each Nominatim reverse geocode
    var settledSearches: set<nat>
    var settledReverses: set<nat>
    var confirmed: seq<PickedLocation>         // the arguments of each `onConfirm` call
    var closeCalls: nat                        // how often `onOpenChange(false)` was called

    constructor(center: (Number, Number))
      ensures query == "" && !searching && results == [] && !resolving && pickedAddress == ""
      ensures (pickedLat, pickedLng) == center
      ensures searchRequests == [] && reverseRequests == [] && settledSearches == {} && settledReverses == {}
      ensures confirmed == [] && closeCalls == 0
    {
      query, searching, results, resolving, pickedAddress := "", false, [], false, "";
      pickedLat, pickedLng := center.0, center.1;
      searchRequests, reverseRequests, settledSearches, settledReverses := [], [], {}, {};
      confirmed, closeCalls := [], 0;
    }

    /** The reset effect when the dialog opens: query, results and address are cleared and the
        pick returns to the initial centre. */
    method Opened(center: (Number, Number))
      modifies this
      ensures query == "" && results == [] && pickedAddress == ""
      ensures (pickedLat, pickedLng) == center
      ensures searching == old(searching) && resolving == old(resolving)
      ensures searchRequests == old(searchRequests) && reverseRequests == old(reverseRequests)
      ensures settledSearches == old(settledSearches) && settledReverses == old(settledReverses)
      ensures confirmed == old(confirmed) && closeCalls == old(closeCalls)
    {
      query, results, pickedAddress := "", [], "";
      pickedLat, pickedLng := center.0, center.1;
    }

    method SetQuery(text: string)
      modifies this
      ensures query == text
      ensures searching == old(searching) && results == old(results) && resolving == old(resolving)
      ensures pickedLat == old(pickedLat) && pickedLng == old(pickedLng) && pickedAddress == old(pickedAddress)
      ensures searchRequests == old(searchRequests) && reverseRequests == old(reverseRequests)
      ensures settledSearches == old(settledSearches) && settledReverses == old(settledReverses)
      ensures confirmed == old(confirmed) && closeCalls == old(closeCalls)
    {
      query := text;
    }

    /** `handleSearch` up to the request: a blank query does nothing; otherwise the trimmed
        query is sent. */
    method BeginSearch()
      modifies this
      ensures Trim(old(query)) == "" ==> searchRequests == old(searchRequests) && searching == old(searching)
      ensures Trim(old(query)) != "" ==> searching && searchRequests == old(searchRequests) + [Trim(old(query))]
      ensures query == old(query) && results == old(results) && resolving == old(resolving)
      ensures pickedLat == old(pickedLat) && pickedLng == old(pickedLng) && pickedAddress == old(pickedAddress)
      ensures reverseRequests == old(reverseRequests)
      ensures settledSearches == old(settledSearches) && settledReverses == old(settledReverses)
      ensures confirmed == old(confirmed) && closeCalls == old(closeCalls)
    {
      var q := Trim(query);
      if q == "" {
        return;
      }
      searching := true;
      searchRequests := searchRequests + [q];
    }

    /** Search `k` answered. The hits are listed; the first one becomes the pick and its
        address is resolved before the search ends. A failed or empty search ends at once. */
    method SearchSettled(k: nat, outcome: Result<seq<SearchHit>>)
      requires k < |searchRequests| && k !in settledSearches
      modifies this
      ensures settledSearches == old(settledSearches) + {k}
      ensures outcome.Err? ==>
        && !searching && results == old(results) && reverseRequests == old(reverseRequests)
        && pickedLat == old(pickedLat) && pickedLng == old(pickedLng) && resolving == old(resolving)
      ensures outcome.Ok? && outcome.value == [] ==>
        && !searching && results == [] && reverseRequests == old(reverseRequests)
        && pickedLat == old(pickedLat) && pickedLng == old(pickedLng) && resolving == old(resolving)
      ensures outcome.Ok? && outcome.value != [] ==>
        var first := outcome.value[0];
        && searching == old(searching) && results == outcome.value && resolving
        && pickedLat == first.lat && pickedLng == first.lon
        && reverseRequests == old(reverseRequests) + [ReverseRequest(first.lat, first.lon, AfterSearch)]
      ensures query == old(query) && pickedAddress == old(pickedAddress)
      ensures searchRequests == old(searchRequests) && settledReverses == old(settledReverses)
      ensures confirmed == old(confirmed) && closeCalls == old(closeCalls)
    {
      settledSearches := settledSearches + {k};
      match outcome {
        case Err(_) =>
          searching := false;
        case Ok(data) =>
          results := data;
          if data == [] {
            searching := false;
          } else {
            pickedLat, pickedLng := data[0].lat, data[0].lon;
            resolving := true;
            reverseRequests := reverseRequests + [ReverseRequest(data[0].lat, data[0].lon, AfterSearch)];
          }
      }
    }

    /** `handlePick`: a click on the map or on a search result picks those coordinates and
        resolves their address. */
    method Pick(lat: Number, lng: Number)
      modifies this
      ensures pickedLat == lat && pickedLng == lng && resolving
      ensures reverseRequests == old(reverseRequests) + [ReverseRequest(lat, lng, AfterPick)]
      ensures query == old(query) && searching == old(searching) && results == old(results)
      ensures pickedAddress == old(pickedAddress) && searchRequests == old(searchRequests)
      ensures settledSearches == old(settledSearches) && settledReverses == old(settledReverses)
      ensures confirmed == old(confirmed) && closeCalls == old(closeCalls)
    {
      pickedLat, pickedLng, resolving := lat, lng, true;
      reverseRequests := reverseRequests + [ReverseRequest(lat, lng, AfterPick)];
    }

    /** The Cancel button: `onOpenChange(false)` and nothing else. */
    method CancelClicked()
      modifies this
      ensures closeCalls == old(closeCalls) + 1 && confirmed == old(confirmed)
      ensures query == old(query) && searching == old(searching) && results == old(results) && resolving == old(resolving)
      ensures pickedLat == old(pickedLat) && pickedLng == old(pickedLng) && pickedAddress == old(pickedAddress)
      ensures searchRequests == old(searchRequests) && reverseRequests == old(reverseRequests)
      ensures settledSearches == old(settledSearches) && settledReverses == old(settledReverses)
    {
      closeCalls := closeCalls + 1;
    }

    /** "Use this address": disabled unless the pick can be confirmed and nothing is being
        resolved; otherwise the pick is resolved once more. */
    method ConfirmClicked()
      modifies this
      ensures !CanConfirm(old(pickedAddress), old(pickedLat), old(pickedLng)) || old(resolving) ==>
        reverseRequests == old(reverseRequests) && resolving == old(resolving)
      ensures CanConfirm(old(pickedAddress), old(pickedLat), old(pickedLng)) && !old(resolving) ==>
        && resolving
        && reverseRequests == old(reverseRequests) + [ReverseRequest(pickedLat, pickedLng, AfterConfirm)]
      ensures query == old(query) && searching == old(searching) && results == old(results)
      ensures pickedLat == old(pickedLat) && pickedLng == old(pickedLng) && pickedAddress == old(pickedAddress)
      ensures searchRequests == old(searchRequests)
      ensures settledSearches == old(settledSearches) && settledReverses == old(settledReverses)
      ensures confirmed == old(confirmed) && closeCalls == old(closeCalls)
    {
      if !CanConfirm(pickedAddress, pickedLat, pickedLng) || resolving {
        return;
      }
      resolving := true;
      reverseRequests := reverseRequests + [ReverseRequest(pickedLat, pickedLng, AfterConfirm)];
    }

    /** Reverse geocode `k` answered: on success the address shown is the resolved one; in
        every case `resolving` ends, and then whatever awaited it goes on: a search ends, a
        confirmation passes the location to `onConfirm` and closes the dialog. */
    method ReverseSettled(k: nat, outcome: Result<Option<ReverseResult>>) returns (r: Result<PickedLocation>)
      requires k < |reverseRequests| && k !in settledReverses
      modifies this
      ensures reverseRequests == old(reverseRequests)
      ensures settledReverses == old(settledReverses) + {k}
      ensures !resolving
      ensures r == Resolved(outcome, reverseRequests[k])
      ensures pickedAddress == (if r.Ok? then r.value.fullAddress else old(pickedAddress))
      ensures searching == (if reverseRequests[k].awaiting == AfterSearch then false else old(searching))
      ensures reverseRequests[k].awaiting == AfterConfirm && r.Ok? ==>
        confirmed == old(confirmed) + [r.value] && closeCalls == old(closeCalls) + 1
      ensures !(reverseRequests[k].awaiting == AfterConfirm && r.Ok?) ==>
        confirmed == old(confirmed) && closeCalls == old(closeCalls)
      ensures query == old(query) && results == old(results)
      ensures pickedLat == old(pickedLat) && pickedLng == old(pickedLng)
      ensures searchRequests == old(searchRequests) && settledSearches == old(settledSearches)
    {
      var req := reverseRequests[k];
      r := Resolved(outcome, req);
      settledReverses := settledReverses + {k};
      if r.Ok? {
        pickedAddress := r.value.fullAddress;
      }
      resolving := false;
      Resume(req.awaiting, r);
    }

    /** The code after `await resolveAddress(...)`: the `finally` of a search, or the
        `onConfirm` and close of a confirmation. */
    method Resume(awaiting: Awaiting, r: Result<PickedLocation>)
      modifies this
      ensures searching == (if awaiting == AfterSearch then false else old(searching))
      ensures awaiting == AfterConfirm && r.Ok? ==>
        confirmed == old(confirmed) + [r.value] && closeCalls == old(closeCalls) + 1
      ensures !(awaiting == AfterConfirm && r.Ok?) ==>
        confirmed == old(confirmed) && closeCalls == old(closeCalls)
      ensures query == old(query) && results == old(results) && resolving == old(resolving)
      ensures pickedLat == old(pickedLat) && pickedLng == old(pickedLng) && pickedAddress == old(pickedAddress)
      ensures searchRequests == old(searchRequests) && reverseRequests == old(reverseRequests)
      ensures settledSearches == old(settledSearches) && settledReverses == old(settledReverses)
    {
      if awaiting == AfterSearch {
        searching := false;
      } else if awaiting == AfterConfirm && r.Ok? {
        confirmed := confirmed + [r.value];
        closeCalls := closeCalls + 1;
      }
    }
  }
}
