/** The budget approval request (`generateApprovalReport`): an executive
    summary proposing a new budget, fixed justification lines, one cost line
    per service and two signature lines. */
module ApprovalReport {
  import opened Wrappers
  import opened Grouping
  import opened Domain
  import Text

  /** The executive summary's six values, before currency and `toFixed(1)`
      formatting. */
  datatype Summary = Summary(
    originalBudget: real,
    totalSpent: real,
    overrun: real,
    overrunPercent: real,
    requestedBudget: real,
    proposedIncreasePercent: real)

  /** A cost detail line, or the single placeholder line of an empty table. */
  datatype CostLine = CostLine(service: string, cost: real, progress: real, status: string) | NoData

  datatype Header = Header(title: string, code: string, location: string, manager: string)

  datatype Signatures = Signatures(left: string, leftRole: string, right: string, rightRole: string)

  datatype Document = Document(
    header: Header,
    summary: Summary,
    justifications: seq<(string, string)>,
    costs: seq<CostLine>,
    signatures: Signatures)

  /** The factor applied to the spend to obtain the requested budget. */
  const RequestFactor: real := 1.2

  /** The generic message every failure of this report is turned into. */
  const FailureMessage := "Não foi possível gerar o relatório de aprovação"

  /** The overrun percentage, guarded against a budget that is not positive
      (a zero or absent budget included). */
  function OverrunPercent(ws: Workspace): (p: real)
    ensures ws.budget <= 0.0 ==> p == 0.0
    ensures ws.budget > 0.0 ==> p * ws.budget == (TotalSpent(ws) - ws.budget) * 100.0
    ensures ws.budget > 0.0 ==> (p > 0.0 <==> TotalSpent(ws) > ws.budget)
  {
    if ws.budget > 0.0 then
      var q := (TotalSpent(ws) - ws.budget) / ws.budget;
      assert q * ws.budget == TotalSpent(ws) - ws.budget;
      q * 100.0
    else 0.0
  }

  /** The proposed increase, which divides by the budget unguarded. */
  function ProposedIncreasePercent(ws: Workspace): (p: real)
    requires ws.budget != 0.0
    ensures p * ws.budget == (TotalSpent(ws) * RequestFactor - ws.budget) * 100.0
  {
    var q := (TotalSpent(ws) * RequestFactor - ws.budget) / ws.budget;
    assert q * ws.budget == TotalSpent(ws) * RequestFactor - ws.budget;
    q * 100.0
  }

  /** The summary.  It holds the proposed increase, so it needs a non-zero
      budget. */
  function ExecutiveSummary(ws: Workspace): (s: Summary)
    requires ws.budget != 0.0
    ensures s.totalSpent == TotalSpent(ws) && s.originalBudget == ws.budget
    ensures s.overrun == s.totalSpent - s.originalBudget
    ensures s.overrunPercent == OverrunPercent(ws)
    ensures s.originalBudget < 0.0 ==> s.overrunPercent == 0.0
    ensures s.originalBudget > 0.0 ==> (s.overrunPercent > 0.0 <==> s.totalSpent > s.originalBudget)
    ensures s.requestedBudget == s.totalSpent + s.totalSpent / 5.0
    ensures s.proposedIncreasePercent * s.originalBudget == (s.requestedBudget - s.originalBudget) * 100.0
  {
    var spent := TotalSpent(ws);
    Summary(ws.budget, spent, spent - ws.budget, OverrunPercent(ws), spent * RequestFactor,
            ProposedIncreasePercent(ws))
  }

  const Justifications: seq<(string, string)> := [
    ("1. Aumento dos Custos", "Variação nos preços dos materiais e serviços"),
    ("2. Serviços Adicionais", "Adequações necessárias identificadas"),
    ("3. Complexidade", "Desafios técnicos da execução"),
    ("4. Fatores Externos", "Condições adversas e imprevistos")
  ]

  function CostLineOf(s: Service): (c: CostLine)
    ensures c.CostLine? && |c.service| > 0 && |c.status| > 0
    ensures |s.name| > 0 ==> c.service == s.name
    ensures |s.name| == 0 ==> c.service == "Sem nome"
    ensures c.cost == s.budget && c.progress == s.progress
    ensures c.status == StatusName(s.status)
  {
    CostLine(if |s.name| > 0 then s.name else "Sem nome", s.budget, s.progress, StatusName(s.status))
  }

  /** The cost detail table: one line per service, in input order, or exactly
      one placeholder line when the project has no services. */
  function CostLines(services: Option<seq<Service>>): (lines: seq<CostLine>)
    ensures var ss := services.GetOr([]);
      && (|ss| == 0 ==> lines == [NoData])
      && (|ss| > 0 ==> |lines| == |ss| && forall i :: 0 <= i < |ss| ==> lines[i] == CostLineOf(ss[i]))
    ensures |lines| > 0
  {
    var ss := services.GetOr([]);
    if |ss| == 0 then [NoData] else seq(|ss|, i requires 0 <= i < |ss| => CostLineOf(ss[i]))
  }

  /** The title and the basic information lines: each value as stored, or
      its fallback when it is empty (an id of 0 is falsy too). */
  function HeaderOf(ws: Workspace): (h: Header)
    ensures |h.title| > 0 && |h.code| > 0 && |h.location| > 0 && |h.manager| > 0
    ensures |ws.name| > 0 ==> h.title == ws.name
    ensures |ws.name| == 0 ==> h.title == "Sem nome"
    ensures ws.id != 0 ==> Text.AllDigits(h.code) && Text.Value(h.code) == ws.id
    ensures ws.id == 0 <==> h.code == "N/A"
    ensures |ws.location| > 0 ==> h.location == ws.location
    ensures |ws.location| == 0 ==> h.location == "N/A"
    ensures |ws.manager| > 0 ==> h.manager == ws.manager
    ensures |ws.manager| == 0 ==> h.manager == "N/A"
  {
    Text.ValueOfNatToString(ws.id);
    Header(if |ws.name| > 0 then ws.name else "Sem nome",
           if ws.id != 0 then Text.NatToString(ws.id) else "N/A",
           if |ws.location| > 0 then ws.location else "N/A",
           if |ws.manager| > 0 then ws.manager else "N/A")
  }

  /** The approval report.  A missing workspace is an error (reported with the
      generic message); otherwise every section is produced. */
  function Report(ws: Option<Workspace>): (r: Result<Document, ReportError>)
    requires ws.Some? ==> ws.value.budget != 0.0
    ensures r.Failure? <==> ws.None?
    ensures r.Failure? ==> r.error == Failed(FailureMessage)
    ensures r.Success? ==> r.value.summary.requestedBudget == TotalSpent(ws.value) * RequestFactor
    ensures r.Success? ==> |r.value.signatures.left| > 0
  {
    match ws
    case None => Failure(Failed(FailureMessage))
    case Some(w) =>
      Success(Document(HeaderOf(w), ExecutiveSummary(w), Justifications, CostLines(w.services),
                       Signatures(if |w.manager| > 0 then w.manager else "Gerente", "Gerente do Projeto",
                                  "Diretor Financeiro", "Aprovação")))
  }

  /** A project without a service list is summarised as having spent nothing,
      and a request of nothing. */
  lemma MissingServicesSpendNothing(ws: Workspace)
    requires ws.services.None? && ws.budget != 0.0
    ensures ExecutiveSummary(ws).totalSpent == 0.0
    ensures ExecutiveSummary(ws).requestedBudget == 0.0
    ensures CostLines(ws.services) == [NoData]
  {
  }
}
