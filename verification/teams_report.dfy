/** The team summary of the teams report (`generateTeamsReport`): one row per
    team, in the order the teams first appear among the project's services. */
module TeamsReport {
  import opened Wrappers
  import opened Grouping
  import opened Domain

  /** The running totals the source keeps per team name. */
  datatype TeamStats = TeamStats(totalServices: nat, completed: nat, budget: real, progressSum: real)

  /** One row of the "RESUMO DAS EQUIPES" table. */
  datatype TeamRow = TeamRow(team: string, totalServices: nat, completed: nat, averageProgress: real, budget: real)

  /** Services are grouped by their team's name; a service without a team has
      no key and is skipped. */
  function TeamKey(s: Service): Option<string>
  {
    if s.team.Some? then Some(s.team.value.name) else None
  }

  const NoStats := TeamStats(0, 0, 0.0, 0.0)

  /** The per-service update of the running totals. */
  function AddService(st: TeamStats, s: Service): TeamStats
  {
    TeamStats(st.totalServices + 1,
              st.completed + (if s.status == Concluido then 1 else 0),
              st.budget + s.budget,
              st.progressSum + s.progress)
  }

  /** The number of completed services in `ss`. */
  function CountCompleted(ss: seq<Service>): (n: nat)
    ensures n <= |ss|
  {
    if |ss| == 0 then 0
    else CountCompleted(ss[..|ss| - 1]) + (if ss[|ss| - 1].status == Concluido then 1 else 0)
  }

  /** Folding the update over a team's services counts them, counts the
      completed ones and sums their budgets and progress. */
  lemma {:induction false} StatsOfServices(ss: seq<Service>)
    ensures Fold(ss, NoStats, AddService)
         == TeamStats(|ss|, CountCompleted(ss), Sum(ss, BudgetOf), Sum(ss, ProgressOf))
    decreases |ss|
  {
    if |ss| > 0 {
      StatsOfServices(ss[..|ss| - 1]);
    }
  }

  /** The services of the team named `name`, in input order. */
  function ServicesOfTeam(services: seq<Service>, name: string): seq<Service>
  {
    Members(services, TeamKey, name)
  }

  /** The table rows.  Each row describes exactly the services of its team:
      how many there are (at least one), how many are completed, their total
      budget and their mean progress. */
  function TeamRows(services: seq<Service>): (rows: seq<TeamRow>)
    ensures Keys(RowKeys(rows)) == Dedup(KeyList(services, TeamKey))
    ensures forall i :: 0 <= i < |rows| ==>
      var g := ServicesOfTeam(services, rows[i].team);
      && rows[i].totalServices == |g| >= 1
      && rows[i].completed == CountCompleted(g) <= rows[i].totalServices
      && rows[i].budget == Sum(g, BudgetOf)
      && rows[i].averageProgress == Sum(g, ProgressOf) / |g| as real
  {
    var tally := Tally(services, TeamKey, NoStats, AddService);
    TallyShape(services, TeamKey, NoStats, AddService);
    assert forall i :: 0 <= i < |tally| ==>
      tally[i].1 == TeamStats(|Members(services, TeamKey, tally[i].0)|,
                              CountCompleted(Members(services, TeamKey, tally[i].0)),
                              Sum(Members(services, TeamKey, tally[i].0), BudgetOf),
                              Sum(Members(services, TeamKey, tally[i].0), ProgressOf)) by {
      forall i | 0 <= i < |tally| {
        StatsOfServices(Members(services, TeamKey, tally[i].0));
      }
    }
    var rows := seq(|tally|, i requires 0 <= i < |tally| =>
      TeamRow(tally[i].0, tally[i].1.totalServices, tally[i].1.completed,
              tally[i].1.progressSum / tally[i].1.totalServices as real, tally[i].1.budget));
    assert Keys(RowKeys(rows)) == Keys(tally);
    rows
  }

  /** The rows as an association list keyed by team name. */
  function RowKeys(rows: seq<TeamRow>): (l: seq<(string, TeamRow)>)
    ensures |l| == |rows|
    ensures forall i :: 0 <= i < |rows| ==> l[i] == (rows[i].team, rows[i])
  {
    seq(|rows|, i requires 0 <= i < |rows| => (rows[i].team, rows[i]))
  }

  /** The teams report: `Object.entries(undefined)` throws when the project has
      no service list at all; an empty list gives an empty table. */
  function Report(ws: Workspace): (r: Result<seq<TeamRow>, ReportError>)
    ensures r.Failure? <==> ws.services.None?
    ensures r.Success? ==> |r.value| <= |ws.services.value|
    ensures r.Success? && |ws.services.value| == 0 ==> r.value == []
  {
    match ws.services
    case None => Failure(TypeError("Cannot convert undefined or null to object"))
    case Some(services) =>
      var rows := TeamRows(services);
      assert |rows| <= |services| by {
        DedupLength(KeyList(services, TeamKey));
        KeyListLength(services, TeamKey);
      }
      Success(rows)
  }

  // ---------------------------------------------------------------------------
  // Properties of the table

  function TotalOfRows(rows: seq<TeamRow>): nat
  {
    if |rows| == 0 then 0 else rows[0].totalServices + TotalOfRows(rows[1..])
  }

  function BudgetOfRows(rows: seq<TeamRow>): real
  {
    if |rows| == 0 then 0.0 else rows[0].budget + BudgetOfRows(rows[1..])
  }

  /** The services that have a team, in input order. */
  function TeamedServices(services: seq<Service>): seq<Service>
  {
    Keyed(services, TeamKey)
  }

  lemma {:induction false} RowsOverKeys(rows: seq<TeamRow>, ks: seq<string>, services: seq<Service>)
    requires |rows| == |ks|
    requires forall i :: 0 <= i < |rows| ==>
      && rows[i].team == ks[i]
      && rows[i].totalServices == |ServicesOfTeam(services, ks[i])|
      && rows[i].budget == Sum(ServicesOfTeam(services, ks[i]), BudgetOf)
    ensures TotalOfRows(rows) as real == SumOver(ks, services, TeamKey, One)
    ensures BudgetOfRows(rows) == SumOver(ks, services, TeamKey, BudgetOf)
    decreases |rows|
  {
    if |rows| > 0 {
      RowsOverKeys(rows[1..], ks[1..], services);
      SumOfOnes(ServicesOfTeam(services, ks[0]));
    }
  }

  /** Every service with a team is counted in exactly one row, and services
      without a team in none: the row counts add up to the number of teamed
      services, and the row budgets to their total budget. */
  lemma TeamRowsPartitionServices(services: seq<Service>)
    ensures TotalOfRows(TeamRows(services)) == |TeamedServices(services)|
    ensures BudgetOfRows(TeamRows(services)) == Sum(TeamedServices(services), BudgetOf)
  {
    var rows := TeamRows(services);
    var ks := Dedup(KeyList(services, TeamKey));
    assert forall i :: 0 <= i < |rows| ==> rows[i].team == ks[i] by {
      forall i | 0 <= i < |rows| ensures rows[i].team == ks[i] {
        assert Keys(RowKeys(rows))[i] == rows[i].team;
      }
    }
    RowsOverKeys(rows, ks, services);
    GroupSumsPartition(services, TeamKey, One);
    GroupSumsPartition(services, TeamKey, BudgetOf);
    SumOfOnes(TeamedServices(services));
  }

  /** When every service's progress lies in [0, 100], so does every team's
      average. */
  lemma AverageProgressInRange(services: seq<Service>)
    requires forall i :: 0 <= i < |services| ==> 0.0 <= services[i].progress <= 100.0
    ensures forall row :: row in TeamRows(services) ==> 0.0 <= row.averageProgress <= 100.0
  {
    var rows := TeamRows(services);
    forall row | row in rows ensures 0.0 <= row.averageProgress <= 100.0 {
      var g := ServicesOfTeam(services, row.team);
      MembersAreFrom(services, TeamKey, row.team);
      SumBounds(g, ProgressOf, 0.0, 100.0);
      DivideBounds(Sum(g, ProgressOf), |g| as real);
    }
  }

  lemma DivideBounds(total: real, n: real)
    requires n >= 1.0 && 0.0 <= total <= 100.0 * n
    ensures 0.0 <= total / n <= 100.0
  {
  }
}
