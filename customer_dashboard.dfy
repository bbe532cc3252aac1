/** The customer dashboard (app/customer/dashboard/page.tsx): the status chips, the search
    over the customer's parcels and the text of each shipment card. */
module CustomerDashboard {
  import opened Common
  import opened ApiClient

  datatype Chip = Chip(text: string, className: string)

  /** `STATUS_CHIP[status].label`. */
  function StatusLabel(status: ParcelStatus): string {
    match status
    case BOOKED => "Booked"
    case ASSIGNED => "Assigned"
    case PICKED_UP => "Picked up"
    case IN_TRANSIT => "In transit"
    case DELIVERED => "Delivered"
    case FAILED => "Issue"
    case CANCELLED => "Cancelled"
  }

  /** `STATUS_CHIP[status].className`. */
  function StatusClass(status: ParcelStatus): string {
    match status
    case BOOKED => "bg-slate-100 text-slate-900 dark:bg-slate-900 dark:text-slate-100"
    case ASSIGNED => "bg-blue-100 text-blue-900 dark:bg-blue-900 dark:text-blue-100"
    case PICKED_UP => "bg-cyan-100 text-cyan-900 dark:bg-cyan-900 dark:text-cyan-100"
    case IN_TRANSIT => "bg-indigo-100 text-indigo-900 dark:bg-indigo-900 dark:text-indigo-100"
    case DELIVERED => "bg-emerald-100 text-emerald-900 dark:bg-emerald-900 dark:text-emerald-100"
    case FAILED => "bg-rose-100 text-rose-900 dark:bg-rose-900 dark:text-rose-100"
    case CANCELLED => "bg-amber-100 text-amber-900 dark:bg-amber-900 dark:text-amber-100"
  }

  /** `STATUS_CHIP[status]`: the record is total over the seven statuses. */
  function StatusChip(status: ParcelStatus): Chip {
    Chip(StatusLabel(status), StatusClass(status))
  }

  /** The first two letters of each label, which already tell the labels apart. */
  function LabelPrefix(status: ParcelStatus): (char, char) {
    match status
    case BOOKED => ('B', 'o')
    case ASSIGNED => ('A', 's')
    case PICKED_UP => ('P', 'i')
    case IN_TRANSIT => ('I', 'n')
    case DELIVERED => ('D', 'e')
    case FAILED => ('I', 's')
    case CANCELLED => ('C', 'a')
  }

  lemma LabelPrefixOf(status: ParcelStatus)
    ensures |StatusLabel(status)| >= 2
    ensures (StatusLabel(status)[0], StatusLabel(status)[1]) == LabelPrefix(status)
  {
  }

  /** Every status has a chip with a label, a failed parcel reads "Issue", and no two
      statuses share a label. */
  lemma StatusChipLabels(a: ParcelStatus, b: ParcelStatus)
    ensures StatusChip(a).text != ""
    ensures StatusChip(FAILED).text == "Issue"
    ensures StatusChip(a).text == StatusChip(b).text <==> a == b
  {
    LabelPrefixOf(a);
    ChipTextInjective(a, b);
  }

  lemma ChipTextInjective(a: ParcelStatus, b: ParcelStatus)
    ensures StatusChip(a).text == StatusChip(b).text <==> a == b
  {
    if StatusLabel(a) == StatusLabel(b) {
      LabelPrefixOf(a);
      LabelPrefixOf(b);
      LabelPrefixInjective(a, b);
    }
  }

  lemma LabelPrefixInjective(a: ParcelStatus, b: ParcelStatus)
    requires LabelPrefix(a) == LabelPrefix(b)
    ensures a == b
  {
  }

  // ---------------------------------------------------------------------------
  // Search

  /** The tracking code or the delivery `fullAddress` contains the query, ignoring case. */
  predicate Matches(p: ParcelSummary, query: string) {
    ContainsQuery(Some(p.trackingCode), query)
      || (p.deliveryAddress.Some? && ContainsQuery(Some(p.deliveryAddress.value.fullAddress), query))
  }

  function Matcher(query: string): ParcelSummary -> bool {
    p => Matches(p, query)
  }

  /** `filterParcels(parcels, search)`. */
  function FilterParcels(parcels: seq<ParcelSummary>, search: string): (r: seq<ParcelSummary>)
    ensures search == "" ==> r == parcels
    ensures Subsequence(r, parcels)
  {
    SearchFilter(parcels, search, Matcher(Lower(search)))
  }

  /** The search keeps exactly the matching parcels, in order; the empty search keeps all. */
  lemma FilterParcelsSpec(parcels: seq<ParcelSummary>, search: string, p: ParcelSummary)
    ensures p in FilterParcels(parcels, search) <==> p in parcels && Matches(p, Lower(search))
  {
    if search == "" {
      IncludesEmpty(Lower(p.trackingCode));
    } else {
      FilterMembership(parcels, Matcher(Lower(search)), p);
    }
  }

  lemma FilterParcelsCaseInsensitive(parcels: seq<ParcelSummary>, search: string)
    ensures FilterParcels(parcels, Lower(search)) == FilterParcels(parcels, search)
  {
    LowerIdempotent(search);
  }

  // ---------------------------------------------------------------------------
  // Rendering

  /** `formatDate(value)`: `time` is `new Date(value).getTime()` (None for NaN) and `local`
      its `toLocaleDateString()`. */
  function FormatDate(value: Option<string>, time: Option<int>, local: string): (r: string)
    ensures !Truthy(value) || time.None? ==> r == "recently"
    ensures Truthy(value) && time.Some? ==> r == local
  {
    if !Truthy(value) then "recently"
    else if time.None? then "recently"
    else local
  }

  /** The text of one shipment card. */
  datatype Card = Card(href: string, code: string, heading: string, chip: Chip, address: string, updated: string)

  /** The card of `parcel`; `time` and `local` render its `updatedAt` as in `FormatDate`. */
  function ShipmentCard(parcel: ParcelSummary, time: Option<int>, local: string): (c: Card)
    ensures c.href == "/customer/tracking/" + parcel.trackingCode && c.code == "#" + parcel.trackingCode
    ensures c.chip == StatusChip(parcel.status)
    ensures parcel.deliveryAddress.None? ==>
      c.heading == "Delivery address" && c.address == "Awaiting address details"
    ensures parcel.deliveryAddress.Some? ==>
      c.heading == parcel.deliveryAddress.value.addressLabel && c.address == parcel.deliveryAddress.value.fullAddress
    ensures c.updated == FormatDate(Some(parcel.updatedAt), time, local)
  {
    var address := parcel.deliveryAddress;
    Card("/customer/tracking/" + parcel.trackingCode,
         "#" + parcel.trackingCode,
         if address.Some? then address.value.addressLabel else "Delivery address",
         StatusChip(parcel.status),
         if address.Some? then address.value.fullAddress else "Awaiting address details",
         FormatDate(Some(parcel.updatedAt), time, local))
  }

  /** `Welcome Back ... {user?.name ?? "there"}`. */
  function GreetingName(user: Option<User>): (r: string)
    ensures user.Some? ==> r == user.value.name
    ensures user.None? ==> r == "there"
  {
    if user.Some? then user.value.name else "there"
  }
}
