/** The general report (`generateGeneralReport`): overview, financial summary,
    services with their teams, schedule, and two optional sections — materials
    and recent updates — each present only when its list is non-empty. */
module GeneralReport {
  import opened Wrappers
  import opened Domain
  import ScheduleReport

  datatype Overview = Overview(start: Instant, end: Instant, progress: real, status: string, budget: real, spent: real)

  datatype FinancialSummary = FinancialSummary(planned: real, totalSpent: real, variation: real, percentUsed: real)

  datatype ServiceLine = ServiceLine(service: string, team: string, budget: real, progress: real, status: string)

  datatype Schedule = Schedule(daysElapsed: int, daysRemaining: int, status: string, end: Instant)

  datatype MaterialLine = MaterialLine(material: string, quantity: real, unit: string, status: MaterialStatus)

  datatype UpdateLine = UpdateLine(date: Instant, kind: UpdateType, text: string)

  datatype Signatures = Signatures(left: string, leftRole: string, right: string, rightRole: string)

  datatype Document = Document(
    overview: Overview,
    finance: FinancialSummary,
    services: seq<ServiceLine>,
    schedule: Schedule,
    materials: Option<seq<MaterialLine>>,
    updates: Option<seq<UpdateLine>>,
    signatures: Signatures)

  /** How many of the latest updates the report shows (`slice(-5)`). */
  const RecentUpdates: nat := 5

  /** "% Utilizado" divides by the budget unguarded. */
  function Finance(ws: Workspace): (f: FinancialSummary)
    requires ws.budget != 0.0
    ensures f.totalSpent == TotalSpent(ws) && f.planned == ws.budget
    ensures f.variation == f.totalSpent - f.planned
    ensures f.percentUsed * f.planned == f.totalSpent * 100.0
  {
    var spent := TotalSpent(ws);
    FinancialSummary(ws.budget, spent, spent - ws.budget, spent / ws.budget * 100.0)
  }

  /** A service without a team, or whose team has an empty name, shows "-". */
  function ServiceLineOf(s: Service): (l: ServiceLine)
    ensures s.team.Some? && |s.team.value.name| > 0 ==> l.team == s.team.value.name
    ensures (s.team.None? || |s.team.value.name| == 0) ==> l.team == "-"
  {
    ServiceLine(s.name, if s.team.Some? && |s.team.value.name| > 0 then s.team.value.name else "-",
                s.budget, s.progress, StatusName(s.status))
  }

  /** One line per service, in input order.  The table is drawn even when it
      is empty: there is no placeholder line. */
  function ServiceLines(ws: Workspace): (lines: seq<ServiceLine>)
    ensures |lines| == |ServicesOf(ws)|
    ensures forall i :: 0 <= i < |lines| ==> lines[i] == ServiceLineOf(ServicesOf(ws)[i])
  {
    var ss := ServicesOf(ws);
    seq(|ss|, i requires 0 <= i < |ss| => ServiceLineOf(ss[i]))
  }

  function ScheduleOf(ws: Workspace, today: int): (s: Schedule)
    ensures s.daysElapsed == today - ws.start.day
    ensures s.daysRemaining == ws.end.day - today
    ensures s.status == "ATRASADO" <==> ws.end.day < today
  {
    var remaining := ScheduleReport.DaysRemaining(ws, today);
    Schedule(today - ws.start.day, remaining, ScheduleReport.DeadlineLabel(remaining), ws.end)
  }

  /** The materials section: present exactly when the list exists and is
      non-empty, then one line per material in order. */
  function MaterialsSection(materials: Option<seq<Material>>): (section: Option<seq<MaterialLine>>)
    ensures section.Some? <==> materials.Some? && |materials.value| > 0
    ensures section.Some? ==>
      && |section.value| == |materials.value|
      && forall i :: 0 <= i < |materials.value| ==> section.value[i].material == materials.value[i].name
  {
    match materials
    case Some(ms) =>
      if |ms| > 0 then
        Some(seq(|ms|, i requires 0 <= i < |ms| =>
          MaterialLine(ms[i].name, ms[i].quantity, ms[i].unit, ms[i].status)))
      else None
    case None => None
  }

  /** The recent updates section: present exactly when the list exists and is
      non-empty, then the last `min(5, n)` updates in stored order. */
  function UpdatesSection(updates: Option<seq<Update>>): (section: Option<seq<UpdateLine>>)
    ensures section.Some? <==> updates.Some? && |updates.value| > 0
    ensures section.Some? ==>
      var us := updates.value;
      var n := if |us| < RecentUpdates then |us| else RecentUpdates;
      && |section.value| == n
      && forall i :: 0 <= i < n ==> section.value[i] == UpdateLine(us[|us| - n + i].date, us[|us| - n + i].kind, us[|us| - n + i].text)
  {
    match updates
    case Some(us) =>
      if |us| > 0 then
        var recent := if |us| <= RecentUpdates then us else us[|us| - RecentUpdates..];
        Some(seq(|recent|, i requires 0 <= i < |recent| =>
          UpdateLine(recent[i].date, recent[i].kind, recent[i].text)))
      else None
    case None => None
  }

  function Report(ws: Workspace, today: int): (d: Document)
    requires ws.budget != 0.0
    ensures d.materials.Some? <==> |ws.materials.GetOr([])| > 0
    ensures d.updates.Some? <==> |ws.updates.GetOr([])| > 0
    ensures |d.services| == |ServicesOf(ws)|
  {
    Document(
      Overview(ws.start, ws.end, ws.progress, ws.status, ws.budget, ws.spent),
      Finance(ws),
      ServiceLines(ws),
      ScheduleOf(ws, today),
      MaterialsSection(ws.materials),
      UpdatesSection(ws.updates),
      Signatures(ws.manager, "Gerente do Projeto", "Responsável Técnico", "CREA/CAU"))
  }
}
