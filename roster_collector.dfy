/**
 * The roster collector: the team list from one fetch, one roster task per team,
 * and the results merged into the team list in place, in whatever order they
 * arrive. A failed roster fetch leaves its team as it was.
 */
module RosterCollector {
  import opened Outcomes
  import opened Seqs
  import opened Types

  /* Teams */

  /** The payload must hold a first sport with a first league: `fetchTeams` indexes both unconditionally. */
  predicate HasFirstLeague(p: TeamFetchPayload)
  {
    |p.sports| > 0 && |p.sports[0].leagues| > 0
  }

  function TeamOf(entry: TeamEntry): Team
  {
    entry.team
  }

  function PayloadTeams(p: TeamFetchPayload): seq<Team>
    requires HasFirstLeague(p)
  {
    Map(TeamOf, p.sports[0].leagues[0].teams)
  }

  /** `fetchTeams`: an error exactly when the fetch fails, else the first league's teams, in order. */
  method FetchTeams(fetched: Result<TeamFetchPayload>) returns (r: Result<seq<Team>>)
    requires fetched.Ok? ==> HasFirstLeague(fetched.value)
    ensures r.Err? <==> fetched.Err?
    ensures r.Ok? ==>
      var entries := fetched.value.sports[0].leagues[0].teams;
      |r.value| == |entries| && forall i :: 0 <= i < |entries| ==> r.value[i] == entries[i].team
  {
    if fetched.Err? {
      return Err(fetched.msg);
    }
    var entries := fetched.value.sports[0].leagues[0].teams;
    var teams: seq<Team> := [];
    for i := 0 to |entries|
      invariant |teams| == i
      invariant forall j :: 0 <= j < i ==> teams[j] == entries[j].team
    {
      teams := teams + [entries[i].team];
    }
    return Ok(teams);
  }

  /* Roster tasks */

  function TeamId(t: Team): string
  {
    t.id
  }

  /** The loop that builds one roster task per team, each capturing its team's id. */
  method RosterTasks(teams: seq<Team>) returns (ids: seq<string>)
    ensures |ids| == |teams|
    ensures forall i :: 0 <= i < |teams| ==> ids[i] == teams[i].id
  {
    ids := [];
    for i := 0 to |teams|
      invariant |ids| == i
      invariant forall j :: 0 <= j < i ==> ids[j] == teams[j].id
    {
      ids := ids + [teams[i].id];
    }
  }

  /** What a roster task reports: the team id, the roster (empty on failure) and the error, if any. */
  datatype RosterResult = RosterResult(teamId: string, roster: seq<Player>, err: Option<string>)

  function RosterTaskResult(teamId: string, fetched: Result<RosterFetchPayload>): (res: RosterResult)
    ensures res.teamId == teamId
    ensures res.err.Some? <==> fetched.Err?
    ensures res.roster == if fetched.Ok? then fetched.value.athletes else []
  {
    match fetched
    case Err(e) => RosterResult(teamId, [], Some(e))
    case Ok(payload) => RosterResult(teamId, payload.athletes, None)
  }

  /** The task results in task order. */
  function RosterTaskResults(ids: seq<string>, fetch: string -> Result<RosterFetchPayload>): seq<RosterResult>
  {
    Map((id: string) => RosterTaskResult(id, fetch(id)), ids)
  }

  /* Merging rosters into teams */

  /** `a` is `b` except, at most, for the roster. */
  predicate SameButRoster(a: Team, b: Team)
  {
    a == b.(roster := a.roster)
  }

  /**
   * One result merged: an error changes nothing; otherwise the first team with
   * the result's id gets the roster, and no other team and no other field changes.
   */
  function ApplyRosterResult(teams: seq<Team>, res: RosterResult): (r: seq<Team>)
    ensures res.err.Some? ==> r == teams
    ensures |r| == |teams|
    ensures forall k :: 0 <= k < |teams| ==> r[k].id == teams[k].id && SameButRoster(r[k], teams[k])
    ensures forall k :: 0 <= k < |teams| ==>
      r[k] == if res.err.None? && teams[k].id == res.teamId && (forall j :: 0 <= j < k ==> teams[j].id != res.teamId)
              then teams[k].(roster := res.roster)
              else teams[k]
  {
    if res.err.Some? then teams
    else match FirstWithId(teams, TeamId, res.teamId)
      case None => teams
      case Some(i) => teams[i := teams[i].(roster := res.roster)]
  }

  /** The results merged one after another, in arrival order. */
  function MergeRosters(teams: seq<Team>, results: seq<RosterResult>): seq<Team>
  {
    if results == [] then teams
    else ApplyRosterResult(MergeRosters(teams, results[..|results| - 1]), results[|results| - 1])
  }

  /** The merge keeps the team list's length, order and ids, and changes nothing but rosters. */
  lemma {:induction false} MergeRostersFrame(teams: seq<Team>, results: seq<RosterResult>)
    ensures |MergeRosters(teams, results)| == |teams|
    ensures forall k :: 0 <= k < |teams| ==>
      MergeRosters(teams, results)[k].id == teams[k].id && SameButRoster(MergeRosters(teams, results)[k], teams[k])
  {
    if results != [] {
      MergeRostersFrame(teams, results[..|results| - 1]);
    }
  }

  /** The roster of the last successful result in `results` that carries `id`. */
  function LastRosterFor(results: seq<RosterResult>, id: string): Option<seq<Player>>
  {
    if results == [] then None
    else
      var last := results[|results| - 1];
      if last.teamId == id && last.err.None? then Some(last.roster)
      else LastRosterFor(results[..|results| - 1], id)
  }

  /** With distinct team ids, each team ends up with the roster of the last successful result for it, or its own. */
  lemma {:induction false} MergeRostersLast(teams: seq<Team>, results: seq<RosterResult>)
    requires DistinctIds(teams, TeamId)
    ensures |MergeRosters(teams, results)| == |teams|
    ensures forall k :: 0 <= k < |teams| ==>
      MergeRosters(teams, results)[k] ==
        match LastRosterFor(results, teams[k].id)
        case None => teams[k]
        case Some(roster) => teams[k].(roster := roster)
  {
    MergeRostersFrame(teams, results);
    if results != [] {
      var front := results[..|results| - 1];
      MergeRostersLast(teams, front);
      MergeRostersFrame(teams, front);
    }
  }

  lemma {:induction false} LastRosterForNone(results: seq<RosterResult>, id: string)
    requires forall x :: x in results ==> x.teamId != id
    ensures LastRosterFor(results, id) == None
  {
    if results != [] {
      LastRosterForNone(results[..|results| - 1], id);
    }
  }

  lemma {:induction false} LastRosterForOnly(results: seq<RosterResult>, id: string, only: RosterResult)
    requires only in results
    requires forall x :: x in results && x.teamId == id ==> x == only
    requires only.teamId == id
    ensures LastRosterFor(results, id) == if only.err.None? then Some(only.roster) else None
  {
    var front, last := results[..|results| - 1], results[|results| - 1];
    assert results == front + [last];
    if last != only {
      LastRosterForOnly(front, id, only);
    } else if only.err.Some? {
      if x :| x in front && x.teamId == id {
        LastRosterForOnly(front, id, only);
      } else {
        LastRosterForNone(front, id);
      }
    }
  }

  /** What the arrivals say about one team: its own task's roster if that fetch succeeded, else nothing. */
  lemma ArrivalsForTeam(teams: seq<Team>, fetch: string -> Result<RosterFetchPayload>, arrivals: seq<RosterResult>, k: nat)
    requires DistinctIds(teams, TeamId)
    requires multiset(arrivals) == multiset(RosterTaskResults(Map(TeamId, teams), fetch))
    requires k < |teams|
    ensures LastRosterFor(arrivals, teams[k].id) ==
      if fetch(teams[k].id).Ok? then Some(fetch(teams[k].id).value.athletes) else None
  {
    var tasks := RosterTaskResults(Map(TeamId, teams), fetch);
    var id := teams[k].id;
    var own := RosterTaskResult(id, fetch(id));
    forall x | x in arrivals && x.teamId == id
      ensures x == own
    {
      assert x in multiset(tasks);
    }
    assert tasks[k] == own;
    assert own in multiset(arrivals);
    LastRosterForOnly(arrivals, id, own);
  }

  /**
   * The roster merge in any arrival order: with distinct team ids and one result
   * per team, a team whose fetch succeeded holds its own fetched roster, a team
   * whose fetch failed keeps the roster it had, and nothing else changes.
   */
  lemma RostersOutcome(teams: seq<Team>, fetch: string -> Result<RosterFetchPayload>, order: seq<nat>)
    requires DistinctIds(teams, TeamId)
    requires IsArrivalOrder(order, |teams|)
    ensures
      var merged := MergeRosters(teams, Reorder(RosterTaskResults(Map(TeamId, teams), fetch), order));
      && |merged| == |teams|
      && forall k :: 0 <= k < |teams| ==>
        merged[k] == teams[k].(roster := if fetch(teams[k].id).Ok? then fetch(teams[k].id).value.athletes else teams[k].roster)
  {
    var tasks := RosterTaskResults(Map(TeamId, teams), fetch);
    var arrivals := Reorder(tasks, order);
    ReorderPermutes(tasks, order);
    MergeRostersLast(teams, arrivals);
    forall k | 0 <= k < |teams|
      ensures LastRosterFor(arrivals, teams[k].id) ==
        if fetch(teams[k].id).Ok? then Some(fetch(teams[k].id).value.athletes) else None
    {
      ArrivalsForTeam(teams, fetch, arrivals, k);
    }
  }

  /** The consumer loop: a failed result is skipped; a roster goes to the first team with its id, then the search stops. */
  method MergeRosterResults(teams: array<Team>, results: seq<RosterResult>)
    modifies teams
    ensures teams[..] == MergeRosters(old(teams[..]), results)
  {
    for r := 0 to |results|
      invariant teams[..] == MergeRosters(old(teams[..]), results[..r])
    {
      var res := results[r];
      ghost var before := teams[..];
      assert results[..r + 1][..r] == results[..r];
      if res.err.Some? {
        continue;
      }
      var i := 0;
      while i < teams.Length
        invariant 0 <= i <= teams.Length
        invariant teams[..] == before
        invariant forall j :: 0 <= j < i ==> teams[j].id != res.teamId
      {
        if teams[i].id == res.teamId {
          teams[i] := teams[i].(roster := res.roster);
          break;
        }
        i := i + 1;
      }
      assert teams[..] == ApplyRosterResult(before, res);
    }
    assert results[..|results|] == results;
  }

  /**
   * `compileRosterAsync`: one task per team, the results in arrival order merged
   * into the list in place. It reports no error of its own: a failed roster
   * fetch is skipped by the consumer, so the error it returns is always nil.
   */
  method CompileRosterAsync(teams: array<Team>, fetch: string -> Result<RosterFetchPayload>, order: seq<nat>)
    returns (err: Option<string>)
    requires IsArrivalOrder(order, teams.Length)
    modifies teams
    ensures err == None
    ensures teams[..] == MergeRosters(old(teams[..]), Reorder(RosterTaskResults(Map(TeamId, old(teams[..])), fetch), order))
  {
    var ids := RosterTasks(teams[..]);
    assert ids == Map(TeamId, teams[..]);
    var arrivals: seq<RosterResult> := [];
    for i := 0 to |order|
      invariant arrivals == Reorder(RosterTaskResults(ids, fetch), order[..i])
    {
      var teamId := ids[order[i]];
      arrivals := arrivals + [RosterTaskResult(teamId, fetch(teamId))];
    }
    assert order[..|order|] == order;
    MergeRosterResults(teams, arrivals);
    err := None;
  }

  /**
   * `CollectTeamsAndRosters`: fails exactly when the team list cannot be fetched;
   * otherwise every team with a distinct id holds its own roster when that fetch
   * succeeded and keeps the decoded one when it failed.
   */
  method CollectTeamsAndRosters(fetched: Result<TeamFetchPayload>, fetchRoster: string -> Result<RosterFetchPayload>, order: seq<nat>)
    returns (r: Result<seq<Team>>)
    requires fetched.Ok? ==> HasFirstLeague(fetched.value)
    requires fetched.Ok? ==> IsArrivalOrder(order, |fetched.value.sports[0].leagues[0].teams|)
    ensures r.Err? <==> fetched.Err?
    ensures r.Ok? ==>
      r.value == MergeRosters(PayloadTeams(fetched.value), Reorder(RosterTaskResults(Map(TeamId, PayloadTeams(fetched.value)), fetchRoster), order))
    ensures r.Ok? && DistinctIds(PayloadTeams(fetched.value), TeamId) ==>
      var teams := PayloadTeams(fetched.value);
      && |r.value| == |teams|
      && forall k :: 0 <= k < |teams| ==>
        r.value[k] == teams[k].(roster := if fetchRoster(teams[k].id).Ok? then fetchRoster(teams[k].id).value.athletes else teams[k].roster)
  {
    var fetchedTeams := FetchTeams(fetched);
    if fetchedTeams.Err? {
      return Err(fetchedTeams.msg);
    }
    var teams := fetchedTeams.value;
    assert teams == PayloadTeams(fetched.value);
    var list := new Team[|teams|](i requires 0 <= i < |teams| => teams[i]);
    assert list[..] == teams;
    var compileErr := CompileRosterAsync(list, fetchRoster, order);
    match compileErr {
      case Some(e) => return Err(e);
      case None =>
    }
    if DistinctIds(teams, TeamId) {
      RostersOutcome(teams, fetchRoster, order);
    }
    return Ok(list[..]);
  }
}
