/** The admin parcels page (app/admin/parcels/page.tsx): the status filter and the query it
    rewrites, the search over the local copy of the fetched list, and the row update and
    delete transforms. */
module AdminParcels {
  import opened Common
  import opened ApiClient
  import Auth

  datatype StatusFilter = All | Only(status: ParcelStatus)

  /** `STATUS_FILTERS`: the options of the status select. */
  const StatusFilters: seq<(string, StatusFilter)> := [
    ("All statuses", All),
    ("Booked", Only(BOOKED)),
    ("Assigned", Only(ASSIGNED)),
    ("Picked up", Only(PICKED_UP)),
    ("In transit", Only(IN_TRANSIT)),
    ("Delivered", Only(DELIVERED)),
    ("Exceptions", Only(FAILED))
  ]

  /** The select offers "all" and every status except CANCELLED, each exactly once. */
  lemma StatusFilterOptions()
    ensures StatusFilters[0].1 == All
    ensures forall k | 0 <= k < |StatusFilters| :: StatusFilters[k].1 != Only(CANCELLED)
    ensures forall st: ParcelStatus | st != CANCELLED ::
      exists k | 0 <= k < |StatusFilters| :: StatusFilters[k].1 == Only(st)
    ensures forall j, k | 0 <= j < k < |StatusFilters| :: StatusFilters[j].1 != StatusFilters[k].1
  {
    forall k | 0 <= k < |StatusFilters| ensures FilterPosition(StatusFilters[k].1) == k {
    }
    forall st: ParcelStatus | st != CANCELLED
      ensures exists k | 0 <= k < |StatusFilters| :: StatusFilters[k].1 == Only(st)
    {
      var k := FilterPosition(Only(st));
      assert StatusFilters[k].1 == Only(st);
    }
  }

  /** Where a filter sits in `StatusFilters`; CANCELLED, which has no option, maps to 0. */
  function FilterPosition(f: StatusFilter): nat {
    match f
    case All => 0
    case Only(st) =>
      match st
      case BOOKED => 1 case ASSIGNED => 2 case PICKED_UP => 3 case IN_TRANSIT => 4
      case DELIVERED => 5 case FAILED => 6 case CANCELLED => 0
  }

  /** `AdminParcelQuery` of lib/hooks/use-admin-parcels.ts. */
  datatype AdminParcelQuery = AdminParcelQuery(
    page: Option<int>, limit: Option<int>, status: Option<ParcelStatus>,
    agentId: Option<string>, customerId: Option<string>,
    dateFrom: Option<string>, dateTo: Option<string>)

  /** The functional update of the status effect. */
  function WithStatusFilter(prev: AdminParcelQuery, f: StatusFilter): (q: AdminParcelQuery)
    ensures f.All? ==> q.status == None
    ensures f.Only? ==> q.status == Some(f.status)
    ensures q.page == Some(1)
    ensures q.limit == prev.limit && q.agentId == prev.agentId && q.customerId == prev.customerId
    ensures q.dateFrom == prev.dateFrom && q.dateTo == prev.dateTo
  {
    prev.(status := if f.All? then None else Some(f.status), page := Some(1))
  }

  /** Only the last filter chosen matters. */
  lemma StatusFilterLastWins(prev: AdminParcelQuery, f: StatusFilter, g: StatusFilter)
    ensures WithStatusFilter(WithStatusFilter(prev, f), g) == WithStatusFilter(prev, g)
  {
  }

  // ---------------------------------------------------------------------------
  // Search

  /** The tracking code, the customer's name or the delivery city contains the query. */
  predicate Matches(p: ParcelSummary, query: string) {
    ContainsQuery(Some(p.trackingCode), query)
      || (p.customer.Some? && ContainsQuery(Some(p.customer.value.name), query))
      || (p.deliveryAddress.Some? && ContainsQuery(Some(p.deliveryAddress.value.city), query))
  }

  function Matcher(query: string): ParcelSummary -> bool {
    p => Matches(p, query)
  }

  /** `filteredParcels`. */
  function FilterParcels(parcels: seq<ParcelSummary>, search: string): (r: seq<ParcelSummary>)
    ensures search == "" ==> r == parcels
    ensures Subsequence(r, parcels)
  {
    SearchFilter(parcels, search, Matcher(Lower(search)))
  }

  lemma FilterParcelsSpec(parcels: seq<ParcelSummary>, search: string, p: ParcelSummary)
    ensures p in FilterParcels(parcels, search) <==> p in parcels && Matches(p, Lower(search))
  {
    if search == "" {
      IncludesEmpty(Lower(p.trackingCode));
    } else {
      FilterMembership(parcels, Matcher(Lower(search)), p);
    }
  }

  lemma FilterParcelsCaseInsensitive(parcels: seq<ParcelSummary>, search: string)
    ensures FilterParcels(parcels, Lower(search)) == FilterParcels(parcels, search)
  {
    LowerIdempotent(search);
  }

  // ---------------------------------------------------------------------------
  // Row transforms

  function HasId(id: string): ParcelSummary -> bool {
    (p: ParcelSummary) => p.id == id
  }

  function LacksId(id: string): ParcelSummary -> bool {
    (p: ParcelSummary) => p.id != id
  }

  /** `prev.map((p) => (p._id === updated._id ? updated : p))`. */
  function ReplaceById(parcels: seq<ParcelSummary>, updated: ParcelSummary): (r: seq<ParcelSummary>)
    ensures |r| == |parcels|
    ensures forall i | 0 <= i < |parcels| :: r[i] == if parcels[i].id == updated.id then updated else parcels[i]
  {
    ReplaceMatching(parcels, HasId(updated.id), updated)
  }

  /** `prev.filter((p) => p._id !== deletedId)`. */
  function DeleteById(parcels: seq<ParcelSummary>, id: string): (r: seq<ParcelSummary>)
    ensures Subsequence(r, parcels)
    ensures forall p | p in r :: p.id != id
    ensures forall p | p in parcels :: multiset(r)[p] == if p.id != id then multiset(parcels)[p] else 0
  {
    Filter(parcels, LacksId(id))
  }

  /** Deleting keeps exactly the rows of other ids, and deleting twice is deleting once. */
  lemma DeleteByIdSpec(parcels: seq<ParcelSummary>, id: string, p: ParcelSummary)
    ensures p in DeleteById(parcels, id) <==> p in parcels && p.id != id
    ensures DeleteById(DeleteById(parcels, id), id) == DeleteById(parcels, id)
  {
    FilterMembership(parcels, LacksId(id), p);
    FilterAll(DeleteById(parcels, id), LacksId(id));
  }

  /** Updating a row twice is updating it once. */
  lemma ReplaceByIdIdempotent(parcels: seq<ParcelSummary>, updated: ParcelSummary)
    ensures ReplaceById(ReplaceById(parcels, updated), updated) == ReplaceById(parcels, updated)
  {
    ReplaceMatchingIdempotent(parcels, HasId(updated.id), updated);
  }

  /** A row updated and then deleted is gone as if it had only been deleted. */
  lemma {:induction false} DeleteAfterReplace(parcels: seq<ParcelSummary>, updated: ParcelSummary)
    ensures DeleteById(ReplaceById(parcels, updated), updated.id) == DeleteById(parcels, updated.id)
  {
    if parcels != [] {
      DeleteAfterReplace(parcels[1..], updated);
      var r := ReplaceById(parcels, updated);
      assert r[1..] == ReplaceById(parcels[1..], updated);
    }
  }

  // ---------------------------------------------------------------------------
  // Page state

  /** The mount effect that reads the token: `parsed.accessToken ?? ""`, or "" when the
      stored text does not parse; nothing changes when nothing is stored. */
  function StoredAccessToken(stored: Option<Auth.Stored<AuthTokens>>, current: string): (token: string)
    ensures !Auth.StoredTruthy(stored) ==> token == current
    ensures Auth.StoredTruthy(stored) && stored.value.Serialized? ==> token == stored.value.value.accessToken
    ensures Auth.StoredTruthy(stored) && stored.value.Text? ==> token == ""
  {
    if !Auth.StoredTruthy(stored) then current
    else match stored.value
      case Serialized(t) => t.accessToken
      case Text(_) => ""
  }

  class AdminParcelsPage {
    var token: string
    var search: string
    var statusFilter: StatusFilter
    var localParcels: seq<ParcelSummary>
    var query: AdminParcelQuery     // the query state of `useAdminParcels({ limit: 25 })`

    constructor()
      ensures token == "" && search == "" && statusFilter == All && localParcels == []
      ensures query == AdminParcelQuery(None, Some(25), None, None, None, None, None)
    {
      token, search, statusFilter, localParcels := "", "", All, [];
      query := AdminParcelQuery(None, Some(25), None, None, None, None, None);
    }

    /** The mount effects: the token is read and the status effect runs once. */
    method Mount(stored: Option<Auth.Stored<AuthTokens>>)
      modifies this
      ensures token == StoredAccessToken(stored, old(token))
      ensures query == WithStatusFilter(old(query), statusFilter)
      ensures search == old(search) && statusFilter == old(statusFilter) && localParcels == old(localParcels)
    {
      token := StoredAccessToken(stored, token);
      query := WithStatusFilter(query, statusFilter);
    }

    /** The fetched list changed: the local copy starts over from it. */
    method ParcelsChanged(parcels: seq<ParcelSummary>)
      modifies this
      ensures localParcels == parcels
      ensures token == old(token) && search == old(search) && statusFilter == old(statusFilter) && query == old(query)
    {
      localParcels := parcels;
    }

    method SetSearch(s: string)
      modifies this
      ensures search == s
      ensures token == old(token) && statusFilter == old(statusFilter) && localParcels == old(localParcels) && query == old(query)
    {
      search := s;
    }

    /** A new status filter, and the effect that rewrites the query for it. */
    method SetStatusFilter(f: StatusFilter)
      modifies this
      ensures statusFilter == f && query == WithStatusFilter(old(query), f)
      ensures token == old(token) && search == old(search) && localParcels == old(localParcels)
    {
      statusFilter := f;
      query := WithStatusFilter(query, f);
    }

    /** The rows handed to the table. */
    function Shown(): (r: seq<ParcelSummary>)
      reads this
      ensures Subsequence(r, localParcels)
      ensures search == "" ==> r == localParcels
    {
      FilterParcels(localParcels, search)
    }
  }
}
