/** The agent dashboard (app/agent/dashboard/page.tsx): assigned parcels split into active
    and completed tabs, each narrowed by the search box. */
module AgentDashboard {
  import opened Common
  import opened ApiClient

  const ActiveStatuses: seq<ParcelStatus> := [BOOKED, ASSIGNED, PICKED_UP, IN_TRANSIT]

  /** `ACTIVE_STATUSES.includes(parcel.status)`. */
  predicate IsActiveParcel(p: ParcelSummary) {
    p.status in ActiveStatuses
  }

  predicate IsCompletedParcel(p: ParcelSummary) {
    !IsActiveParcel(p)
  }

  /** A parcel is active until it is delivered, failed or cancelled. */
  lemma ActiveUntilFinal(p: ParcelSummary)
    ensures IsActiveParcel(p) <==> !(p.status == DELIVERED || p.status == FAILED || p.status == CANCELLED)
  {
  }

  /** The `reduce` that pushes each parcel onto the list its status selects. */
  method Partition(parcels: seq<ParcelSummary>) returns (active: seq<ParcelSummary>, completed: seq<ParcelSummary>)
    ensures active == Filter(parcels, IsActiveParcel)
    ensures completed == Filter(parcels, IsCompletedParcel)
  {
    active, completed := [], [];
    var i := 0;
    while i < |parcels|
      invariant 0 <= i <= |parcels|
      invariant active == Filter(parcels[..i], IsActiveParcel)
      invariant completed == Filter(parcels[..i], IsCompletedParcel)
    {
      var p := parcels[i];
      PartitionStep(parcels, i);
      if IsActiveParcel(p) {
        active := active + [p];
      } else {
        completed := completed + [p];
      }
      i := i + 1;
    }
    assert parcels[..i] == parcels;
  }

  lemma PartitionStep(parcels: seq<ParcelSummary>, i: nat)
    requires i < |parcels|
    ensures Filter(parcels[..i + 1], IsActiveParcel)
         == Filter(parcels[..i], IsActiveParcel) + (if IsActiveParcel(parcels[i]) then [parcels[i]] else [])
    ensures Filter(parcels[..i + 1], IsCompletedParcel)
         == Filter(parcels[..i], IsCompletedParcel) + (if IsCompletedParcel(parcels[i]) then [parcels[i]] else [])
  {
    assert parcels[..i + 1] == parcels[..i] + [parcels[i]];
    FilterSnoc(parcels[..i], parcels[i], IsActiveParcel);
    FilterSnoc(parcels[..i], parcels[i], IsCompletedParcel);
  }

  /** Every parcel is in exactly one tab, and each tab keeps the input order. */
  lemma PartitionExact(parcels: seq<ParcelSummary>)
    ensures var a, c := Filter(parcels, IsActiveParcel), Filter(parcels, IsCompletedParcel);
      && multiset(a) + multiset(c) == multiset(parcels)
      && |a| + |c| == |parcels|
      && Subsequence(a, parcels) && Subsequence(c, parcels)
      && (forall p | p in a :: IsActiveParcel(p))
      && (forall p | p in c :: !IsActiveParcel(p))
  {
    FilterComplement(parcels, IsActiveParcel, IsCompletedParcel);
  }

  // ---------------------------------------------------------------------------
  // Search

  /** The lower-cased tracking code or delivery city contains the query. */
  predicate Matches(p: ParcelSummary, query: string) {
    ContainsQuery(Some(p.trackingCode), query)
      || (p.deliveryAddress.Some? && ContainsQuery(Some(p.deliveryAddress.value.city), query))
  }

  function Matcher(query: string): ParcelSummary -> bool {
    p => Matches(p, query)
  }

  /** `filterParcels(parcels, search)`. */
  function FilterParcels(parcels: seq<ParcelSummary>, search: string): (r: seq<ParcelSummary>)
    ensures search == "" ==> r == parcels
    ensures Subsequence(r, parcels)
  {
    SearchFilter(parcels, search, Matcher(Lower(search)))
  }

  /** The search keeps exactly the parcels that match the lower-cased query, in order; the
      empty search, which would match every parcel anyway, keeps them all. */
  lemma FilterParcelsSpec(parcels: seq<ParcelSummary>, search: string, p: ParcelSummary)
    ensures p in FilterParcels(parcels, search) <==> p in parcels && Matches(p, Lower(search))
  {
    if search == "" {
      IncludesEmpty(Lower(p.trackingCode));
    } else {
      FilterMembership(parcels, Matcher(Lower(search)), p);
    }
  }

  /** Searching is case-insensitive. */
  lemma FilterParcelsCaseInsensitive(parcels: seq<ParcelSummary>, search: string)
    ensures FilterParcels(parcels, Lower(search)) == FilterParcels(parcels, search)
  {
    LowerIdempotent(search);
  }

  /** What the page shows: the tab badges count the unfiltered tabs, the cards the filtered
      ones. */
  datatype AgentView = AgentView(
    activeBadge: nat, completedBadge: nat,
    activeCards: seq<ParcelSummary>, completedCards: seq<ParcelSummary>)

  method View(parcels: seq<ParcelSummary>, search: string) returns (v: AgentView)
    ensures v.activeBadge == |Filter(parcels, IsActiveParcel)|
    ensures v.completedBadge == |Filter(parcels, IsCompletedParcel)|
    ensures v.activeBadge + v.completedBadge == |parcels|
    ensures v.activeCards == FilterParcels(Filter(parcels, IsActiveParcel), search)
    ensures v.completedCards == FilterParcels(Filter(parcels, IsCompletedParcel), search)
    ensures |v.activeCards| <= v.activeBadge && |v.completedCards| <= v.completedBadge
  {
    var active, completed := Partition(parcels);
    PartitionExact(parcels);
    v := AgentView(|active|, |completed|, FilterParcels(active, search), FilterParcels(completed, search));
  }
}
