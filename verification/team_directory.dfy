/** The team directory page: the per-team status summary that drives the
    status badges, and the search box's filter. */
module TeamDirectory {
  import opened Wrappers
  import opened Grouping
  import opened Text
  import opened Domain

  // ---------------------------------------------------------------------------
  // Status summary

  /** `equipe.servicos || []`. */
  function ServicesOf(t: Team): seq<TeamService> { t.services.GetOr([]) }

  /** The "N serviços" cell: `servicos?.length || 0`. */
  function ServiceCount(t: Team): (n: nat)
    ensures t.services.None? ==> n == 0
    ensures t.services.Some? ==> n == |t.services.value|
  {
    |ServicesOf(t)|
  }

  function StatusKey(s: TeamService): Option<ServiceStatus> { Some(s.status) }

  function AddOne(n: nat, s: TeamService): nat { n + 1 }

  /** The number of services with status `st`, independently of the summary. */
  function CountStatus(services: seq<TeamService>, st: ServiceStatus): (n: nat)
    ensures n <= |services|
  {
    if |services| == 0 then 0
    else CountStatus(services[..|services| - 1], st) + (if services[|services| - 1].status == st then 1 else 0)
  }

  lemma {:induction false} CountIsMembers(services: seq<TeamService>, st: ServiceStatus)
    ensures CountStatus(services, st) == |Members(services, StatusKey, st)|
    decreases |services|
  {
    if |services| > 0 {
      CountIsMembers(services[..|services| - 1], st);
    }
  }

  lemma {:induction false} FoldOneIsLength(ss: seq<TeamService>)
    ensures Fold(ss, 0, AddOne) == |ss|
    decreases |ss|
  {
    if |ss| > 0 {
      FoldOneIsLength(ss[..|ss| - 1]);
    }
  }

  /** `getStatusSummary`: starting from an empty object, one entry per status
      that occurs, in first-seen order, holding how many services have it. */
  function StatusSummary(services: seq<TeamService>): (summary: seq<(ServiceStatus, nat)>)
    ensures DistinctKeys(summary)
    ensures Keys(summary) == Dedup(KeyList(services, StatusKey))
    ensures forall i :: 0 <= i < |summary| ==>
      summary[i].1 == CountStatus(services, summary[i].0) >= 1
  {
    var tally := Tally(services, StatusKey, 0, AddOne);
    TallyShape(services, StatusKey, 0, AddOne);
    forall i | 0 <= i < |tally| ensures tally[i].1 == CountStatus(services, tally[i].0) {
      FoldOneIsLength(Members(services, StatusKey, tally[i].0));
      CountIsMembers(services, tally[i].0);
    }
    tally
  }

  /** Reading status `st` off the summary gives its count when some service
      has it, and `undefined` otherwise: a status with no services is absent. */
  lemma SummaryReadsCounts(services: seq<TeamService>, st: ServiceStatus)
    ensures CountStatus(services, st) > 0 ==> Lookup(StatusSummary(services), st) == Some(CountStatus(services, st))
    ensures CountStatus(services, st) == 0 ==> Lookup(StatusSummary(services), st) == None
  {
    var summary := StatusSummary(services);
    LookupFinds(summary, st);
    CountIsMembers(services, st);
    KeyListMembership(services, StatusKey, st);
    DedupMembership(KeyList(services, StatusKey));
    if CountStatus(services, st) > 0 {
      var i :| 0 <= i < |summary| && Keys(summary)[i] == st;
      assert summary[i].0 == st;
    }
  }

  function CountsOf(summary: seq<(ServiceStatus, nat)>): nat
  {
    if |summary| == 0 then 0 else summary[0].1 + CountsOf(summary[1..])
  }

  lemma {:induction false} CountsOverKeys(summary: seq<(ServiceStatus, nat)>, ks: seq<ServiceStatus>, services: seq<TeamService>)
    requires |summary| == |ks|
    requires forall i :: 0 <= i < |summary| ==> summary[i].1 == |Members(services, StatusKey, ks[i])|
    ensures CountsOf(summary) as real == SumOver(ks, services, StatusKey, One)
    decreases |summary|
  {
    if |summary| > 0 {
      CountsOverKeys(summary[1..], ks[1..], services);
      SumOfOnes(Members(services, StatusKey, ks[0]));
    }
  }

  /** Every service is counted under exactly one status: the counts add up to
      the number of services. */
  lemma SummaryCountsAllServices(services: seq<TeamService>)
    ensures CountsOf(StatusSummary(services)) == |services|
  {
    var summary := StatusSummary(services);
    var ks := Dedup(KeyList(services, StatusKey));
    forall i | 0 <= i < |summary| ensures summary[i].1 == |Members(services, StatusKey, ks[i])| {
      assert Keys(summary)[i] == summary[i].0;
      CountIsMembers(services, summary[i].0);
    }
    CountsOverKeys(summary, ks, services);
    GroupSumsPartition(services, StatusKey, One);
    KeyedEverything(services, StatusKey);
    SumOfOnes(services);
  }

  // ---------------------------------------------------------------------------
  // Badges

  datatype Badge = Badge(status: ServiceStatus, count: nat)

  /** `statusCount.X > 0`, where an absent entry reads as `undefined`. */
  function CountIn(summary: seq<(ServiceStatus, nat)>, st: ServiceStatus): nat
  {
    Lookup(summary, st).GetOr(0)
  }

  /** The badge for `st`, shown only when its count is positive. */
  function BadgeFor(summary: seq<(ServiceStatus, nat)>, st: ServiceStatus): (bs: seq<Badge>)
    ensures forall b :: b in bs <==> CountIn(summary, st) > 0 && b == Badge(st, CountIn(summary, st))
  {
    if CountIn(summary, st) > 0 then [Badge(st, CountIn(summary, st))] else []
  }

  /** The badges for a summary, in the fixed order concluded, in progress,
      late, not started.  Paused services are counted but have no badge. */
  function BadgesOf(summary: seq<(ServiceStatus, nat)>): (bs: seq<Badge>)
    ensures forall b :: b in bs ==> b.status != Pausado && 0 < b.count == CountIn(summary, b.status)
  {
    BadgeFor(summary, Concluido) + BadgeFor(summary, EmAndamento)
      + BadgeFor(summary, Atrasado) + BadgeFor(summary, NaoIniciado)
  }

  lemma BadgeShownIff(summary: seq<(ServiceStatus, nat)>, st: ServiceStatus)
    requires st != Pausado
    ensures (exists b :: b in BadgesOf(summary) && b.status == st) <==> CountIn(summary, st) > 0
  {
    if CountIn(summary, st) > 0 {
      assert Badge(st, CountIn(summary, st)) in BadgeFor(summary, st);
    }
  }

  /** The badges of a team's row. */
  function Badges(t: Team): (bs: seq<Badge>)
    ensures forall b :: b in bs ==> b.status != Pausado
  {
    BadgesOf(StatusSummary(ServicesOf(t)))
  }

  /** A badge is shown for a status other than paused exactly when one of the
      team's services has it, and it shows how many do. */
  lemma BadgesShowCounts(t: Team, st: ServiceStatus)
    requires st != Pausado
    ensures (exists b :: b in Badges(t) && b.status == st) <==> CountStatus(ServicesOf(t), st) > 0
    ensures forall b :: b in Badges(t) && b.status == st ==> b.count == CountStatus(ServicesOf(t), st)
  {
    var summary := StatusSummary(ServicesOf(t));
    SummaryReadsCounts(ServicesOf(t), st);
    BadgeShownIff(summary, st);
  }

  /** A team without a service list shows zero services, an empty summary and
      no badges. */
  lemma TeamWithoutServices(t: Team)
    requires t.services.None?
    ensures ServiceCount(t) == 0
    ensures StatusSummary(ServicesOf(t)) == []
    ensures Badges(t) == []
  {
    assert |Keys(StatusSummary(ServicesOf(t)))| == 0;
  }

  // ---------------------------------------------------------------------------
  // Search

  /** The case-insensitive match of the search box: on the name or on the
      representative. */
  predicate Matches(t: Team, query: string)
  {
    Contains(LowerString(t.name), LowerString(query))
      || Contains(LowerString(t.representative), LowerString(query))
  }

  /** `filteredEquipes`. */
  function FilterTeams(teams: seq<Team>, query: string): (r: seq<Team>)
    ensures |r| <= |teams|
  {
    if |teams| == 0 then []
    else if Matches(teams[0], query) then [teams[0]] + FilterTeams(teams[1..], query)
    else FilterTeams(teams[1..], query)
  }

  /** `sub` is `s` with some entries dropped and the rest kept in order. */
  predicate IsSubsequence<T(==)>(sub: seq<T>, s: seq<T>)
  {
    if |sub| == 0 then true
    else if |s| == 0 then false
    else if sub[0] == s[0] then IsSubsequence(sub[1..], s[1..])
    else IsSubsequence(sub, s[1..])
  }

  /** A team is kept exactly when it matches the query. */
  lemma {:induction false} FilterKeepsMatches(teams: seq<Team>, query: string)
    ensures forall t :: t in FilterTeams(teams, query) <==> t in teams && Matches(t, query)
    decreases |teams|
  {
    if |teams| > 0 {
      FilterKeepsMatches(teams[1..], query);
      assert teams == [teams[0]] + teams[1..];
    }
  }

  /** The kept teams appear in their original order. */
  lemma {:induction false} FilterPreservesOrder(teams: seq<Team>, query: string)
    ensures IsSubsequence(FilterTeams(teams, query), teams)
    decreases |teams|
  {
    if |teams| > 0 {
      FilterPreservesOrder(teams[1..], query);
      if !Matches(teams[0], query) {
        SkipHead(FilterTeams(teams[1..], query), teams);
      }
    }
  }

  lemma {:induction false} SkipHead<T>(sub: seq<T>, s: seq<T>)
    requires |s| > 0 && IsSubsequence(sub, s[1..])
    ensures IsSubsequence(sub, s)
    decreases |s|, 0
  {
    if |sub| > 0 && sub[0] == s[0] {
      WeakenSubsequence(sub, s[1..]);
    }
  }

  /** Dropping the head of a subsequence keeps it a subsequence. */
  lemma {:induction false} WeakenSubsequence<T>(sub: seq<T>, s: seq<T>)
    requires |sub| > 0 && IsSubsequence(sub, s)
    ensures IsSubsequence(sub[1..], s)
    decreases |s|, 1
  {
    if sub[0] != s[0] {
      WeakenSubsequence(sub, s[1..]);
    }
    SkipHead(sub[1..], s);
  }

  /** An empty search keeps every team. */
  lemma {:induction false} EmptyQueryKeepsAll(teams: seq<Team>)
    ensures FilterTeams(teams, "") == teams
    decreases |teams|
  {
    if |teams| > 0 {
      EmptyQueryKeepsAll(teams[1..]);
      EmptyIsContained(LowerString(teams[0].name));
    }
  }
}
