/** The REST client of lib/api-client.ts: the record types it exchanges with the backend,
    path normalisation, query-string building and the unwrapping of list responses. The
    `fetch` calls themselves are outside the model; their decoded payloads are inputs. */
module ApiClient {
  import opened Common
  import UrlEncoding

  // ---------------------------------------------------------------------------
  // Records exchanged with the backend

  datatype User = User(
    primaryId: Option<string>,    // `_id`
    legacyId: Option<string>,     // `id?`
    email: string,
    name: string,
    role: Role)

  /** `user._id ?? user.id`, the id the realtime hooks join rooms with. */
  function UserId(user: User): (r: Option<string>)
    ensures user.primaryId.Some? ==> r == user.primaryId
    ensures user.primaryId.None? ==> r == user.legacyId
  {
    if user.primaryId.Some? then user.primaryId else user.legacyId
  }

  datatype AuthTokens = AuthTokens(accessToken: string, refreshToken: string)

  datatype PaginationMeta = PaginationMeta(
    page: Option<int>,
    limit: Option<int>,
    total: Option<int>,
    totalPages: Option<int>,
    unreadCount: Option<int>)

  datatype AddressSummary = AddressSummary(
    id: string,
    addressLabel: string,         // `label`
    fullAddress: string,
    city: string,
    area: string,
    postalCode: string,
    lat: Option<Number>,
    lng: Option<Number>)

  datatype UserSummary = UserSummary(id: string, name: string, email: string, role: Role, isActive: Option<bool>)

  datatype ParcelSummary = ParcelSummary(
    id: string,
    trackingCode: string,
    status: ParcelStatus,
    customer: Option<UserSummary>,
    assignedAgent: Option<UserSummary>,
    pickupAddress: Option<AddressSummary>,
    deliveryAddress: Option<AddressSummary>,
    createdAt: string,
    updatedAt: string)

  datatype NotificationItem = NotificationItem(
    id: string,
    kind: string,                     // `type`
    title: string,
    body: Option<string>,
    data: Option<map<string, Json>>,
    isRead: bool,
    readAt: Option<string>,
    createdAt: string)

  /** The decoded `ApiResponse<T[]>` of a list endpoint. */
  datatype ListPayload<T> = ListPayload(data: Option<seq<T>>, meta: Option<PaginationMeta>)

  datatype PaginatedResponse<T> = PaginatedResponse(data: seq<T>, meta: Option<PaginationMeta>)

  /** `{ data: payload.data ?? [], meta: payload.meta }`, shared by every list helper. */
  function UnwrapList<T>(payload: ListPayload<T>): (r: PaginatedResponse<T>)
    ensures r.meta == payload.meta
    ensures payload.data.Some? ==> r.data == payload.data.value
    ensures payload.data.None? ==> r.data == []
  {
    PaginatedResponse(OrElse(payload.data, []), payload.meta)
  }

  // ---------------------------------------------------------------------------
  // Paths

  /** `normalizePath`: a path that already starts with "/" is kept, any other gets one. */
  function NormalizePath(path: string): (r: string)
    ensures StartsWith(r, "/")
    ensures StartsWith(path, "/") ==> r == path
    ensures !StartsWith(path, "/") ==> r == "/" + path
  {
    if StartsWith(path, "/") then path else "/" + path
  }

  lemma NormalizePathIdempotent(path: string)
    ensures NormalizePath(NormalizePath(path)) == NormalizePath(path)
    ensures NormalizePath(path) == path || NormalizePath(path) == "/" + path
  {
  }

  // ---------------------------------------------------------------------------
  // Query parameters

  /** A value of a `Record<string, string | number | boolean | undefined>`; JavaScript
      numbers are modelled by integers. */
  datatype ParamValue = Str(s: string) | Num(n: int) | Bool(b: bool) | Undefined | Null

  /** The filter `value === undefined || value === null || value === ""`: 0 and false are kept. */
  predicate Kept(v: ParamValue) {
    !(v.Undefined? || v.Null? || v == Str(""))
  }

  /** `String(value)`. */
  function ValueString(v: ParamValue): (r: string)
    requires Kept(v)
    ensures v.Str? ==> r == v.s
    ensures v.Num? ==> r == IntToDecimal(v.n)
    ensures v.Bool? ==> r == (if v.b then "true" else "false")
  {
    match v
    case Str(s) => s
    case Num(n) => IntToDecimal(n)
    case Bool(b) => if b then "true" else "false"
  }

  type Pairs = seq<(string, string)>
  type Entries = seq<(string, ParamValue)>

  /** `Object.entries` of an object: no key appears twice. */
  predicate KeysDistinct(entries: Entries) {
    forall i, j | 0 <= i < j < |entries| :: entries[i].0 != entries[j].0
  }

  predicate HasName(list: Pairs, name: string) {
    exists i | 0 <= i < |list| :: list[i].0 == name
  }

  function Without(list: Pairs, name: string): (r: Pairs)
    ensures !HasName(r, name)
    ensures Subsequence(r, list)
  {
    var r := Filter(list, (p: (string, string)) => p.0 != name);
    assert forall i | 0 <= i < |r| :: r[i] in r;
    r
  }

  lemma WithoutUnfold(p: (string, string), rest: Pairs, name: string)
    ensures Without([p] + rest, name) == if p.0 != name then [p] + Without(rest, name) else Without(rest, name)
  {
    assert ([p] + rest)[1..] == rest;
  }

  lemma WithoutNone(list: Pairs, name: string)
    requires !HasName(list, name)
    ensures Without(list, name) == list
  {
    assert forall x | x in list :: x.0 != name;
    FilterAll(list, (p: (string, string)) => p.0 != name);
  }

  /** `URLSearchParams.prototype.set` (section 6.2 of the WHATWG URL Standard); its effect
      is stated by `SetParamSpec`. */
  function SetParam(list: Pairs, name: string, value: string): (r: Pairs)
    ensures (name, value) in r
    decreases |list|
  {
    if list == [] then [(name, value)]
    else if list[0].0 == name then [(name, value)] + Without(list[1..], name)
    else [list[0]] + SetParam(list[1..], name, value)
  }

  lemma HasNameTail(list: Pairs, name: string)
    requires list != [] && list[0].0 != name
    ensures HasName(list, name) <==> HasName(list[1..], name)
  {
    if HasName(list[1..], name) {
      var i :| 0 <= i < |list[1..]| && list[1..][i].0 == name;
      assert list[i + 1].0 == name;
    }
  }

  /** At most one pair is named `name`. */
  predicate AtMostOneNamed(list: Pairs, name: string) {
    forall i, j | 0 <= i < j < |list| && list[i].0 == name :: list[j].0 != name
  }

  /** After `set`, exactly one pair carries the name: the first one gets `value` and every
      other pair of that name is removed. */
  lemma {:induction false} SetParamUnique(list: Pairs, name: string, value: string)
    ensures AtMostOneNamed(SetParam(list, name, value), name)
    decreases |list|
  {
    if list == [] {
    } else if list[0].0 == name {
      AtMostOneNamedCons((name, value), Without(list[1..], name), name);
    } else {
      SetParamUnique(list[1..], name, value);
      AtMostOneNamedCons(list[0], SetParam(list[1..], name, value), name);
    }
  }

  /** A pair in front keeps the name unique when it is another name, or when the rest lacks
      the name altogether. */
  lemma AtMostOneNamedCons(p: (string, string), rest: Pairs, name: string)
    requires (p.0 != name && AtMostOneNamed(rest, name)) || !HasName(rest, name)
    ensures AtMostOneNamed([p] + rest, name)
  {
    var r := [p] + rest;
    forall i, j | 0 <= i < j < |r| && r[i].0 == name ensures r[j].0 != name {
      assert r[j] == rest[j - 1];
      if i > 0 { assert r[i] == rest[i - 1]; }
    }
  }

  /** Pairs of other names are untouched, in number and in order. */
  lemma {:induction false} SetParamOthers(list: Pairs, name: string, value: string)
    ensures Without(SetParam(list, name, value), name) == Without(list, name)
    decreases |list|
  {
    if list == [] {
    } else if list[0].0 == name {
      var w := Without(list[1..], name);
      WithoutUnfold((name, value), w, name);
      WithoutUnfold(list[0], list[1..], name);
      WithoutNone(w, name);
      assert list == [list[0]] + list[1..];
    } else {
      var rest := SetParam(list[1..], name, value);
      SetParamOthers(list[1..], name, value);
      WithoutUnfold(list[0], rest, name);
      WithoutUnfold(list[0], list[1..], name);
      assert list == [list[0]] + list[1..];
    }
  }

  /** Without a pair of that name, `set` appends the new pair. */
  lemma {:induction false} SetParamAppends(list: Pairs, name: string, value: string)
    requires !HasName(list, name)
    ensures SetParam(list, name, value) == list + [(name, value)]
    decreases |list|
  {
    if list != [] {
      assert list[0].0 != name;
      HasNameTail(list, name);
      SetParamAppends(list[1..], name, value);
      assert list == [list[0]] + list[1..];
    }
  }

  /** `url.searchParams` or a `new URLSearchParams()`: the list of name-value pairs. */
  class SearchParams {
    var list: Pairs

    constructor()
      ensures list == []
    {
      list := [];
    }

    method Set(name: string, value: string)
      modifies this
      ensures list == SetParam(old(list), name, value)
    {
      list := SetParam(list, name, value);
    }

    /** `toString()`: the application/x-www-form-urlencoded serialization. */
    function ToString(): string
      reads this
    {
      UrlEncoding.SerializePairs(list)
    }
  }

  /** The pairs after the `forEach` has called `set` for every kept entry, in order. */
  function SetAll(init: Pairs, entries: Entries): Pairs
  {
    if entries == [] then init
    else
      var prev := SetAll(init, entries[..|entries| - 1]);
      var (key, value) := entries[|entries| - 1];
      if Kept(value) then SetParam(prev, key, ValueString(value)) else prev
  }

  /** The reference reading: every kept entry becomes one pair, in entry order. */
  function KeptPairs(entries: Entries): (r: Pairs)
    ensures forall i | 0 <= i < |r| :: exists k | 0 <= k < |entries| :: entries[k].0 == r[i].0
  {
    if entries == [] then []
    else
      var prev := KeptPairs(entries[..|entries| - 1]);
      var (key, value) := entries[|entries| - 1];
      if Kept(value) then prev + [(key, ValueString(value))] else prev
  }

  lemma SetAllStep(init: Pairs, entries: Entries, i: nat)
    requires i < |entries|
    ensures SetAll(init, entries[..i + 1]) ==
      if Kept(entries[i].1) then SetParam(SetAll(init, entries[..i]), entries[i].0, ValueString(entries[i].1))
      else SetAll(init, entries[..i])
  {
    assert entries[..i + 1][..i] == entries[..i];
  }

  /** The `forEach` loop shared by `buildQuery` and `buildApiUrl`. */
  method ApplyParams(search: SearchParams, entries: Entries)
    modifies search
    ensures search.list == SetAll(old(search.list), entries)
  {
    var i := 0;
    while i < |entries|
      invariant 0 <= i <= |entries|
      invariant search.list == SetAll(old(search.list), entries[..i])
    {
      var (key, value) := entries[i];
      SetAllStep(old(search.list), entries, i);
      if Kept(value) {
        search.Set(key, ValueString(value));
      }
      i := i + 1;
    }
    assert entries[..|entries|] == entries;
  }

  /** The string `buildQuery(params)` returns. */
  function Query(params: Option<Entries>): string {
    if params.None? then ""
    else
      var query := UrlEncoding.SerializePairs(SetAll([], params.value));
      if query != "" then "?" + query else ""
  }

  method BuildQuery(params: Option<Entries>) returns (q: string)
    ensures q == Query(params)
  {
    if params.None? {
      return "";
    }
    var search := new SearchParams();
    ApplyParams(search, params.value);
    var query := search.ToString();
    q := if query != "" then "?" + query else "";
  }

  /** `buildApiUrl(path, params)` against base `apiBase`. This assumes that parsing and
      re-serialising the URL is the identity on the result, which holds for a well-formed base
      and a path without a query string, dot segments or characters the URL parser rewrites. */
  method BuildApiUrl(apiBase: string, path: string, params: Option<Entries>) returns (url: string)
    ensures url == apiBase + NormalizePath(path) + Query(Some(OrElse(params, [])))
  {
    var search := new SearchParams();
    ApplyParams(search, OrElse(params, []));
    var query := search.ToString();
    url := apiBase + NormalizePath(path) + (if query != "" then "?" + query else "");
  }

  /** `params ?? {}` and a plain `buildQuery(params)` agree: both give "" when there are no params. */
  lemma BuildApiUrlUsesQuery(params: Option<Entries>)
    ensures Query(Some(OrElse(params, []))) == Query(params)
  {
  }

  lemma {:induction false} SetAllEmptyIff(entries: Entries)
    ensures SetAll([], entries) == [] <==> forall i | 0 <= i < |entries| :: !Kept(entries[i].1)
  {
    if entries != [] {
      var init := entries[..|entries| - 1];
      SetAllEmptyIff(init);
      var prev := SetAll([], init);
      var (key, value) := entries[|entries| - 1];
      if Kept(value) {
        assert (key, ValueString(value)) in SetAll([], entries);
      } else {
        assert forall i | 0 <= i < |init| :: init[i] == entries[i];
      }
    }
  }

  /** The query is "" exactly when no entry survives the filter (or there are no params),
      and otherwise "?" followed by the serialised pairs. */
  lemma QueryEmptyIff(params: Option<Entries>)
    ensures Query(params) == "" <==> params.None? || forall i | 0 <= i < |params.value| :: !Kept(params.value[i].1)
    ensures Query(params) != "" ==> Query(params) == "?" + UrlEncoding.SerializePairs(SetAll([], params.value))
  {
    if params.Some? {
      SetAllEmptyIff(params.value);
    }
  }

  /** Since an object's keys are distinct, every `set` appends: the pairs are exactly the
      kept entries, in order, with their values stringified. */
  lemma {:induction false} SetAllDistinct(entries: Entries)
    requires KeysDistinct(entries)
    ensures SetAll([], entries) == KeptPairs(entries)
  {
    if entries != [] {
      var init := entries[..|entries| - 1];
      assert KeysDistinct(init);
      SetAllDistinct(init);
      var (key, value) := entries[|entries| - 1];
      var prev := KeptPairs(init);
      if Kept(value) {
        forall i | 0 <= i < |prev| ensures prev[i].0 != key {
          var k :| 0 <= k < |init| && init[k].0 == prev[i].0;
          assert init[k] == entries[k];
        }
        SetParamAppends(prev, key, ValueString(value));
      }
    }
  }

  lemma QueryDistinct(entries: Entries)
    requires KeysDistinct(entries)
    ensures KeptPairs(entries) != [] ==> Query(Some(entries)) == "?" + UrlEncoding.SerializePairs(KeptPairs(entries))
    ensures KeptPairs(entries) == [] ==> Query(Some(entries)) == ""
  {
    SetAllDistinct(entries);
  }
}
