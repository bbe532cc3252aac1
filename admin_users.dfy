/** The admin users page (app/admin/users/page.tsx): the role filter and the query it
    rewrites, and the search by name or email. */
module AdminUsers {
  import opened Common
  import opened ApiClient

  datatype RoleFilter = AllRoles | OnlyRole(role: Role)

  /** `ROLE_FILTERS`: the options of the role select. */
  const RoleFilters: seq<(string, RoleFilter)> := [
    ("All roles", AllRoles),
    ("Admins", OnlyRole(ADMIN)),
    ("Agents", OnlyRole(AGENT)),
    ("Customers", OnlyRole(CUSTOMER))
  ]

  /** The select offers "all" first and then every role. */
  lemma RoleFilterOptions(role: Role)
    ensures RoleFilters[0].1 == AllRoles
    ensures exists k | 1 <= k < |RoleFilters| :: RoleFilters[k].1 == OnlyRole(role)
  {
    var k := match role case ADMIN => 1 case AGENT => 2 case CUSTOMER => 3;
    assert RoleFilters[k].1 == OnlyRole(role);
  }

  /** `UserQuery` of lib/hooks/use-admin-users.ts. */
  datatype UserQuery = UserQuery(page: Option<int>, limit: Option<int>, role: Option<Role>)

  /** The functional update of the role effect. */
  function WithRoleFilter(prev: UserQuery, f: RoleFilter): (q: UserQuery)
    ensures f.AllRoles? ==> q.role == None
    ensures f.OnlyRole? ==> q.role == Some(f.role)
    ensures q.page == Some(1) && q.limit == prev.limit
  {
    prev.(role := if f.AllRoles? then None else Some(f.role), page := Some(1))
  }

  lemma RoleFilterLastWins(prev: UserQuery, f: RoleFilter, g: RoleFilter)
    ensures WithRoleFilter(WithRoleFilter(prev, f), g) == WithRoleFilter(prev, g)
  {
  }

  /** The lower-cased name or email contains the query. */
  predicate Matches(u: UserSummary, query: string) {
    ContainsQuery(Some(u.name), query) || ContainsQuery(Some(u.email), query)
  }

  function Matcher(query: string): UserSummary -> bool {
    u => Matches(u, query)
  }

  /** `filteredUsers`. */
  function FilterUsers(users: seq<UserSummary>, search: string): (r: seq<UserSummary>)
    ensures search == "" ==> r == users
    ensures Subsequence(r, users)
  {
    SearchFilter(users, search, Matcher(Lower(search)))
  }

  lemma FilterUsersSpec(users: seq<UserSummary>, search: string, u: UserSummary)
    ensures u in FilterUsers(users, search) <==> u in users && Matches(u, Lower(search))
  {
    if search == "" {
      IncludesEmpty(Lower(u.name));
    } else {
      FilterMembership(users, Matcher(Lower(search)), u);
    }
  }

  lemma FilterUsersCaseInsensitive(users: seq<UserSummary>, search: string)
    ensures FilterUsers(users, Lower(search)) == FilterUsers(users, search)
  {
    LowerIdempotent(search);
  }
}
