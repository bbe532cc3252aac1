/** The assign-agent dialog (components/admin/AssignAgentDialog.tsx): the agent search, the
    trigger and button labels, and the dialog state that opening, loading and assigning
    change. Request outcomes are inputs. */
module AssignAgent {
  import opened Common
  import opened ApiClient

  /** The name or email contains the query. */
  predicate Matches(agent: UserSummary, query: string) {
    ContainsQuery(Some(agent.name), query) || ContainsQuery(Some(agent.email), query)
  }

  function Matcher(query: string): UserSummary -> bool {
    a => Matches(a, query)
  }

  /** `filtered`: the query is trimmed and lower-cased before anything else. */
  function FilterAgents(agents: seq<UserSummary>, q: string): (r: seq<UserSummary>)
    ensures Subsequence(r, agents)
  {
    var query := Lower(Trim(q));
    SearchFilter(agents, query, Matcher(query))
  }

  /** A blank query (empty or only whitespace) keeps every agent; any other keeps exactly the
      agents matching the trimmed, lower-cased query. */
  lemma FilterAgentsSpec(agents: seq<UserSummary>, q: string, a: UserSummary)
    ensures AllWhitespace(q) ==> FilterAgents(agents, q) == agents
    ensures !AllWhitespace(q) ==>
      (a in FilterAgents(agents, q) <==> a in agents && Matches(a, Lower(Trim(q))))
  {
    TrimEmptyIff(q);
    var query := Lower(Trim(q));
    if !AllWhitespace(q) {
      FilterMembership(agents, Matcher(query), a);
    }
  }

  /** Surrounding whitespace and letter case do not change the result. */
  lemma FilterAgentsNormalized(agents: seq<UserSummary>, q: string)
    ensures FilterAgents(agents, Lower(Trim(q))) == FilterAgents(agents, q)
  {
    var t := Trim(q);
    TrimLowerCommute(t);
    TrimIdempotent(q);
    LowerIdempotent(t);
  }

  /** A trimmed string has no whitespace to cut. */
  lemma TrimIdempotent(s: string)
    ensures Trim(Trim(s)) == Trim(s)
  {
    TrimNoEdges(Trim(s));
  }

  /** Lower-casing a trimmed string leaves nothing new to trim: ASCII case mapping keeps
      whitespace as whitespace. */
  lemma TrimLowerCommute(t: string)
    requires Trim(t) == t
    ensures Trim(Lower(t)) == Lower(t)
  {
    var l := Lower(t);
    if t != [] {
      assert !IsJsWhitespace(t[0]) && !IsJsWhitespace(t[|t| - 1]);
      assert l[0] == LowerChar(t[0]) && l[|l| - 1] == LowerChar(t[|t| - 1]);
    }
    TrimNoEdges(l);
  }

  /** The trigger reads "Change" when the parcel has an agent with a name. */
  function TriggerLabel(parcel: ParcelSummary): (text: string)
    ensures text == "Change" <==> parcel.assignedAgent.Some? && parcel.assignedAgent.value.name != ""
    ensures text == "Change" || text == "Assign"
  {
    if parcel.assignedAgent.Some? && parcel.assignedAgent.value.name != "" then "Change" else "Assign"
  }

  datatype AssignButton = AssignButton(disabled: bool, caption: string)

  /** The Assign button of one agent's row while `assigning` is in flight, if any. */
  function RowButton(assigning: Option<string>, agentId: string): (b: AssignButton)
    ensures b.disabled <==> assigning.Some?
    ensures b.caption == (if assigning == Some(agentId) then "Assigning..." else "Assign")
  {
    AssignButton(assigning.Some?, if assigning == Some(agentId) then "Assigning..." else "Assign")
  }

  /** While one assignment runs, no row can start another; only its own row says so. */
  lemma OneAssignmentAtATime(assigning: string, a: string, b: string)
    requires RowButton(Some(assigning), a).caption == "Assigning..."
    requires RowButton(Some(assigning), b).caption == "Assigning..."
    ensures a == b && RowButton(Some(assigning), a).disabled && RowButton(Some(assigning), b).disabled
  {
  }

  /** One `fetchAdminUsers` request of the load effect. */
  datatype AgentsRequest = AgentsRequest(token: string, role: Role, limit: int, page: int)

  class AssignAgentDialog {
    const token: string
    const parcel: ParcelSummary
    const hasOnAssigned: bool          // whether `onAssigned` was passed
    var open: bool
    var loading: bool
    var assigning: Option<string>
    var agents: seq<UserSummary>
    var q: string
    var mounted: seq<bool>             // the `mounted` flag of each load effect run
    var requests: seq<AgentsRequest>
    var assignCalls: seq<(string, string)>   // (parcel id, agent id) of each assignment request
    var onAssignedCalls: seq<ParcelSummary>         // the arguments of each `onAssigned` call

    ghost predicate Valid()
      reads this
    {
      |mounted| == |requests|
    }

    constructor(token: string, parcel: ParcelSummary, hasOnAssigned: bool)
      ensures Valid()
      ensures this.token == token && this.parcel == parcel && this.hasOnAssigned == hasOnAssigned
      ensures !open && !loading && assigning == None && agents == [] && q == ""
      ensures mounted == [] && requests == [] && assignCalls == [] && onAssignedCalls == []
    {
      this.token, this.parcel, this.hasOnAssigned := token, parcel, hasOnAssigned;
      open, loading, assigning, agents, q := false, false, None, [], "";
      mounted, requests, assignCalls, onAssignedCalls := [], [], [], [];
    }

    /** `onOpenChange(o)`. When `open` changes, the previous load run is cleaned up, and
        opening starts a new one that sets `loading` and requests the agents. */
    method SetOpen(o: bool)
      requires Valid()
      modifies this
      ensures Valid()
      ensures open == o
      ensures o == old(open) ==> mounted == old(mounted) && requests == old(requests) && loading == old(loading)
      ensures o != old(open) && !o ==>
        && requests == old(requests) && loading == old(loading)
        && mounted == (if |old(mounted)| == 0 then [] else old(mounted)[|old(mounted)| - 1 := false])
      ensures o != old(open) && o ==>
        && loading
        && requests == old(requests) + [AgentsRequest(token, AGENT, 200, 1)]
        && mounted == (if |old(mounted)| == 0 then [] else old(mounted)[|old(mounted)| - 1 := false]) + [true]
      ensures assigning == old(assigning) && agents == old(agents) && q == old(q)
      ensures assignCalls == old(assignCalls) && onAssignedCalls == old(onAssignedCalls)
    {
      if o == open {
        return;
      }
      if |mounted| > 0 {
        mounted := mounted[|mounted| - 1 := false];
      }
      open := o;
      if o {
        loading := true;
        mounted := mounted + [true];
        requests := requests + [AgentsRequest(token, AGENT, 200, 1)];
      }
    }

    /** Load run `r` settled with `outcome` (the `data` of the response, or a rejection): only
        a run still mounted touches the state, and its `finally` ends the loading. */
    method LoadSettled(r: nat, outcome: Result<Option<seq<UserSummary>>>)
      requires Valid()
      modifies this
      ensures Valid()
      ensures r < |mounted| && mounted[r] ==>
        !loading && agents == (if outcome.Ok? then OrElse(outcome.value, []) else old(agents))
      ensures !(r < |mounted| && mounted[r]) ==> loading == old(loading) && agents == old(agents)
      ensures open == old(open) && assigning == old(assigning) && q == old(q)
      ensures mounted == old(mounted) && requests == old(requests)
      ensures assignCalls == old(assignCalls) && onAssignedCalls == old(onAssignedCalls)
    {
      if r < |mounted| && mounted[r] {
        if outcome.Ok? {
          agents := OrElse(outcome.value, []);
        }
        loading := false;
      }
    }

    method SetQuery(text: string)
      modifies this
      ensures q == text
      ensures open == old(open) && loading == old(loading) && assigning == old(assigning) && agents == old(agents)
      ensures mounted == old(mounted) && requests == old(requests)
      ensures assignCalls == old(assignCalls) && onAssignedCalls == old(onAssignedCalls)
    {
      q := text;
    }

    /** The agents listed. */
    function Shown(): (r: seq<UserSummary>)
      reads this
      ensures Subsequence(r, agents)
    {
      FilterAgents(agents, q)
    }

    /** `handleAssign(agentId)` up to the request: a disabled button does nothing. */
    method BeginAssign(agentId: string)
      modifies this
      ensures old(assigning).Some? ==> assigning == old(assigning) && assignCalls == old(assignCalls)
      ensures old(assigning).None? ==>
        assigning == Some(agentId) && assignCalls == old(assignCalls) + [(parcel.id, agentId)]
      ensures open == old(open) && loading == old(loading) && agents == old(agents) && q == old(q)
      ensures mounted == old(mounted) && requests == old(requests) && onAssignedCalls == old(onAssignedCalls)
    {
      if RowButton(assigning, agentId).disabled {
        return;
      }
      assigning := Some(agentId);
      assignCalls := assignCalls + [(parcel.id, agentId)];
    }

    /** The assignment request settled: on success `onAssigned` gets the updated parcel and the
        dialog closes; in every case `assigning` is cleared and a failure is rethrown. */
    method FinishAssign(outcome: Result<ParcelSummary>) returns (r: Result<()>)
      requires Valid()
      modifies this
      ensures Valid()
      ensures assigning == None
      ensures r.Ok? <==> outcome.Ok?
      ensures outcome.Ok? ==>
        !open && onAssignedCalls == (if hasOnAssigned then old(onAssignedCalls) + [outcome.value] else old(onAssignedCalls))
      ensures outcome.Err? ==> open == old(open) && onAssignedCalls == old(onAssignedCalls) && r == Err(outcome.message)
      ensures outcome.Ok? ==>
        mounted == (if old(open) && |old(mounted)| > 0 then old(mounted)[|old(mounted)| - 1 := false] else old(mounted))
      ensures outcome.Err? ==> mounted == old(mounted)
      ensures loading == old(loading) && agents == old(agents) && q == old(q)
      ensures requests == old(requests) && assignCalls == old(assignCalls)
    {
      match outcome {
        case Ok(updated) =>
          if hasOnAssigned {
            onAssignedCalls := onAssignedCalls + [updated];
          }
          SetOpen(false);
          r := Ok(());
        case Err(m) =>
          r := Err(m);
      }
      assigning := None;
    }
  }
}
