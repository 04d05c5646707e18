/** The records the reports and forms read, as declared in the application's
    type definitions and as the API delivers them. */
module Domain {
  import opened Wrappers
  import Grouping

  datatype ServiceStatus = NaoIniciado | EmAndamento | Concluido | Atrasado | Pausado

  /** The enum's string value, as it appears in report cells. */
  function StatusName(s: ServiceStatus): (r: string)
    ensures |r| > 0
  {
    match s
    case NaoIniciado => "NAO_INICIADO"
    case EmAndamento => "EM_ANDAMENTO"
    case Concluido => "CONCLUIDO"
    case Atrasado => "ATRASADO"
    case Pausado => "PAUSADO"
  }

  datatype MaterialStatus = Ok | Baixo | Critico | Esgotado

  datatype UpdateType = Info | Alerta | Erro | Sucesso

  /** A `MM/yyyy` bucket. */
  datatype MonthKey = MonthKey(month: int, year: int)

  /** A point in time: the ISO-8601 text the API returns, its day number in
      the local calendar and its month.  The three are related by the Date
      and date-fns libraries, which are not modelled. */
  datatype Instant = Instant(iso: string, day: int, month: MonthKey)

  /** A service as listed under a team on the team directory. */
  datatype TeamService = TeamService(id: nat, name: string, status: ServiceStatus)

  datatype Team = Team(id: nat, name: string, representative: string, members: int,
                       services: Option<seq<TeamService>>)

  datatype Service = Service(
    id: nat,
    name: string,
    category: Option<string>,
    budget: real,
    progress: real,
    start: Instant,
    end: Instant,
    status: ServiceStatus,
    notes: Option<string>,
    teamId: Option<nat>,
    team: Option<Team>)

  datatype Material = Material(id: nat, name: string, quantity: real, unit: string, status: MaterialStatus)

  datatype Update = Update(id: nat, date: Instant, text: string, kind: UpdateType)

  datatype Payment = Payment(date: Instant, amount: real)

  datatype Workspace = Workspace(
    id: nat,
    name: string,
    budget: real,
    spent: real,
    progress: real,
    location: string,
    manager: string,
    status: string,
    start: Instant,
    end: Instant,
    services: Option<seq<Service>>,
    materials: Option<seq<Material>>,
    updates: Option<seq<Update>>,
    payments: Option<seq<Payment>>)

  /** A report that could not be produced, with the error the source throws. */
  datatype ReportError = TypeError(message: string) | Failed(message: string)

  /** `workspace.servicos || []`. */
  function ServicesOf(ws: Workspace): seq<Service> { ws.services.GetOr([]) }

  function BudgetOf(s: Service): real { s.budget }

  function ProgressOf(s: Service): real { s.progress }

  /** `servicos?.reduce((acc, s) => acc + s.orcamento, 0) || 0`: the spend of a
      project, 0 when it has no service list. */
  function TotalSpent(ws: Workspace): real
  {
    Grouping.Sum(ServicesOf(ws), BudgetOf)
  }

  /** `text || fallback` for a string that may be absent: the empty string is
      falsy too. */
  function OrText(s: Option<string>, fallback: string): (r: string)
    ensures s.Some? && |s.value| > 0 ==> r == s.value
    ensures (s.None? || |s.value| == 0) ==> r == fallback
  {
    if s.Some? && |s.value| > 0 then s.value else fallback
  }
}
