/** The financial report (`generateFinancialReport`): executive summary, spend
    by category, monthly cash flow from the payments, spend by team, cost
    indicators, and corrective recommendations only when the spend exceeds
    the budget. */
module FinancialReport {
  import opened Wrappers
  import opened Grouping
  import opened Domain
  import TeamsReport

  // ---------------------------------------------------------------------------
  // 1. Executive summary

  datatype Executive = Executive(approved: real, totalSpent: real, variation: real, percentUsed: real,
                                 status: string, forecast: real)

  /** The factor applied to the spend for the final forecast. */
  const ForecastFactor: real := 1.1

  /** "EXCEDIDO" exactly when the spend is above the budget. */
  function FinancialStatus(spent: real, budget: real): (tag: string)
    ensures tag == "EXCEDIDO" <==> spent > budget
    ensures tag == "DENTRO DO PREVISTO" <==> spent <= budget
  {
    if spent > budget then "EXCEDIDO" else "DENTRO DO PREVISTO"
  }

  /** "Percentual Utilizado" divides by the budget unguarded. */
  function ExecutiveSummary(ws: Workspace): (e: Executive)
    requires ws.budget != 0.0
    ensures e.totalSpent == TotalSpent(ws) && e.approved == ws.budget
    ensures e.variation == e.totalSpent - e.approved
    ensures e.percentUsed * e.approved == e.totalSpent * 100.0
    ensures e.status == "EXCEDIDO" <==> e.totalSpent > e.approved
    ensures e.forecast == e.totalSpent + e.totalSpent / 10.0
  {
    var spent := TotalSpent(ws);
    Executive(ws.budget, spent, spent - ws.budget, spent / ws.budget * 100.0,
              FinancialStatus(spent, ws.budget), spent * ForecastFactor)
  }

  // ---------------------------------------------------------------------------
  // 2. Spend by category

  /** A service without a category, or with an empty one, counts as "Outros". */
  function CategoryKey(s: Service): (k: Option<string>)
    ensures k.Some?
    ensures k.value == OrText(s.category, "Outros")
  {
    Some(OrText(s.category, "Outros"))
  }

  function AddBudget(acc: real, s: Service): real { acc + s.budget }

  lemma {:induction false} FoldBudgetIsSum(ss: seq<Service>)
    ensures Fold(ss, 0.0, AddBudget) == Sum(ss, BudgetOf)
    decreases |ss|
  {
    if |ss| > 0 {
      FoldBudgetIsSum(ss[..|ss| - 1]);
    }
  }

  datatype CategoryLine = CategoryLine(category: string, value: real, percent: real)

  /** The services filed under `category`, in input order. */
  function ServicesInCategory(services: seq<Service>, category: string): seq<Service>
  {
    Members(services, CategoryKey, category)
  }

  /** `value / total * 100`: the share of `value` in `total`, as a percentage. */
  function Share(value: real, total: real): (p: real)
    requires total != 0.0
    ensures p * total == value * 100.0
  {
    var q := value / total;
    assert q * total == value;
    q * 100.0
  }

  /** Each line's share is its value as a percentage of `total`. */
  predicate SharesOf(lines: seq<CategoryLine>, total: real)
  {
    forall i :: 0 <= i < |lines| ==> lines[i].percent * total == lines[i].value * 100.0
  }

  /** The lines read off the running totals, one per entry. */
  function LinesOfTotals(tally: seq<(string, real)>, total: real): (lines: seq<CategoryLine>)
    requires |tally| > 0 ==> total != 0.0
    ensures |lines| == |tally|
    ensures forall i :: 0 <= i < |tally| ==>
      && lines[i].category == tally[i].0
      && lines[i].value == tally[i].1
    ensures SharesOf(lines, total)
  {
    seq(|tally|, i requires 0 <= i < |tally| => CategoryLine(tally[i].0, tally[i].1, Share(tally[i].1, total)))
  }

  /** One line per category in first-seen order, with that category's total
      spend and its share of the project's total spend (which the source
      divides by unguarded whenever there is a line at all). */
  function CategoryLines(services: seq<Service>): (lines: seq<CategoryLine>)
    requires |services| > 0 ==> Sum(services, BudgetOf) != 0.0
    ensures |lines| == |Dedup(KeyList(services, CategoryKey))|
    ensures forall i :: 0 <= i < |lines| ==>
      && lines[i].category == Dedup(KeyList(services, CategoryKey))[i]
      && |ServicesInCategory(services, lines[i].category)| > 0
      && lines[i].value == Sum(ServicesInCategory(services, lines[i].category), BudgetOf)
    ensures SharesOf(lines, Sum(services, BudgetOf))
  {
    var tally := CategoryTotals(services);
    assert |tally| > 0 ==> |services| > 0 by {
      if |tally| > 0 {
        MembersLength(services, CategoryKey, tally[0].0);
      }
    }
    LinesOfTotals(tally, Sum(services, BudgetOf))
  }

  /** The running totals per category, each the sum of its services' budgets. */
  function CategoryTotals(services: seq<Service>): (tally: seq<(string, real)>)
    ensures Keys(tally) == Dedup(KeyList(services, CategoryKey))
    ensures forall i :: 0 <= i < |tally| ==>
      && |Members(services, CategoryKey, tally[i].0)| > 0
      && tally[i].1 == Sum(Members(services, CategoryKey, tally[i].0), BudgetOf)
  {
    var tally := Tally(services, CategoryKey, 0.0, AddBudget);
    TallyShape(services, CategoryKey, 0.0, AddBudget);
    forall i | 0 <= i < |tally| ensures tally[i].1 == Sum(Members(services, CategoryKey, tally[i].0), BudgetOf) {
      FoldBudgetIsSum(Members(services, CategoryKey, tally[i].0));
    }
    tally
  }

  // ---------------------------------------------------------------------------
  // 3. Monthly cash flow

  function PaymentKey(p: Payment): Option<MonthKey> { Some(p.date.month) }

  function AmountOf(p: Payment): real { p.amount }

  function AddPayment(acc: real, p: Payment): real { acc + p.amount }

  lemma {:induction false} FoldPaymentsIsSum(ps: seq<Payment>)
    ensures Fold(ps, 0.0, AddPayment) == Sum(ps, AmountOf)
    decreases |ps|
  {
    if |ps| > 0 {
      FoldPaymentsIsSum(ps[..|ps| - 1]);
    }
  }

  datatype CashFlowLine = CashFlowLine(month: MonthKey, paid: real, variation: real)

  /** One line per month in the order the months first appear among the
      payments: the month's total and its difference from a twelfth of the
      budget.  No payment list gives no lines. */
  function CashFlowLines(ws: Workspace): (lines: seq<CashFlowLine>)
    ensures var ps := ws.payments.GetOr([]);
      && |lines| == |Dedup(KeyList(ps, PaymentKey))|
      && forall i :: 0 <= i < |lines| ==>
        && lines[i].month == Dedup(KeyList(ps, PaymentKey))[i]
        && lines[i].paid == Sum(Members(ps, PaymentKey, lines[i].month), AmountOf)
        && lines[i].variation == lines[i].paid - ws.budget / 12.0
  {
    var ps := ws.payments.GetOr([]);
    var tally := Tally(ps, PaymentKey, 0.0, AddPayment);
    TallyShape(ps, PaymentKey, 0.0, AddPayment);
    forall i | 0 <= i < |tally| ensures tally[i].1 == Sum(Members(ps, PaymentKey, tally[i].0), AmountOf) {
      FoldPaymentsIsSum(Members(ps, PaymentKey, tally[i].0));
    }
    seq(|tally|, i requires 0 <= i < |tally| => CashFlowLine(tally[i].0, tally[i].1, tally[i].1 - ws.budget / 12.0))
  }

  // ---------------------------------------------------------------------------
  // 4. Spend by team

  /** The running record the source keeps per team; the mean is recomputed
      after every service. */
  datatype TeamCost = TeamCost(total: real, count: nat, mean: real)

  const NoCost := TeamCost(0.0, 0, 0.0)

  function AddCost(acc: TeamCost, s: Service): TeamCost
  {
    var total := acc.total + s.budget;
    var count := acc.count + 1;
    TeamCost(total, count, total / count as real)
  }

  lemma {:induction false} FoldCostOfServices(ss: seq<Service>)
    ensures Fold(ss, NoCost, AddCost).total == Sum(ss, BudgetOf)
    ensures Fold(ss, NoCost, AddCost).count == |ss|
    ensures |ss| > 0 ==> Fold(ss, NoCost, AddCost).mean == Sum(ss, BudgetOf) / |ss| as real
    decreases |ss|
  {
    if |ss| > 0 {
      FoldCostOfServices(ss[..|ss| - 1]);
    }
  }

  datatype TeamCostLine = TeamCostLine(team: string, total: real, services: nat, mean: real)

  /** The running records per team, each describing exactly that team's services. */
  function TeamCosts(services: seq<Service>): (tally: seq<(string, TeamCost)>)
    ensures Keys(tally) == Dedup(KeyList(services, TeamsReport.TeamKey))
    ensures forall i :: 0 <= i < |tally| ==>
      var g := TeamsReport.ServicesOfTeam(services, tally[i].0);
      && tally[i].1.count == |g| >= 1
      && tally[i].1.total == Sum(g, BudgetOf)
      && tally[i].1.mean == tally[i].1.total / |g| as real
  {
    var tally := Tally(services, TeamsReport.TeamKey, NoCost, AddCost);
    TallyShape(services, TeamsReport.TeamKey, NoCost, AddCost);
    forall i | 0 <= i < |tally|
      ensures var g := Members(services, TeamsReport.TeamKey, tally[i].0);
        tally[i].1.total == Sum(g, BudgetOf) && tally[i].1.count == |g|
        && (|g| > 0 ==> tally[i].1.mean == Sum(g, BudgetOf) / |g| as real)
    {
      FoldCostOfServices(Members(services, TeamsReport.TeamKey, tally[i].0));
    }
    tally
  }

  /** One line per team in first-seen order; services without a team are
      skipped.  Every line counts at least one service, so its mean is defined. */
  function TeamCostLines(services: seq<Service>): (lines: seq<TeamCostLine>)
    ensures |lines| == |Dedup(KeyList(services, TeamsReport.TeamKey))|
    ensures forall i :: 0 <= i < |lines| ==>
      var g := TeamsReport.ServicesOfTeam(services, lines[i].team);
      && lines[i].team == Dedup(KeyList(services, TeamsReport.TeamKey))[i]
      && lines[i].services == |g| >= 1
      && lines[i].total == Sum(g, BudgetOf)
      && lines[i].mean == lines[i].total / lines[i].services as real
  {
    var tally := TeamCosts(services);
    seq(|tally|, i requires 0 <= i < |tally| =>
      TeamCostLine(tally[i].0, tally[i].1.total, tally[i].1.count, tally[i].1.mean))
  }

  // ---------------------------------------------------------------------------
  // 5. Indicators

  datatype Indicators = Indicators(costPerDay: real, projection: real, projectedVariation: real, costPerformance: real)

  /** Cost per elapsed day, projection to completion, its variation from the
      budget and the cost performance index — four unguarded divisions, by the
      elapsed days, the progress (twice) and the spend. */
  function IndicatorsOf(ws: Workspace, today: int): (ind: Indicators)
    requires today - ws.start.day != 0
    requires ws.progress != 0.0
    requires TotalSpent(ws) != 0.0
    ensures ind.costPerDay * (today - ws.start.day) as real == TotalSpent(ws)
    ensures ind.projection * ws.progress == TotalSpent(ws) * 100.0
    ensures ind.projectedVariation == ind.projection - ws.budget
    ensures ind.costPerformance * TotalSpent(ws) * 100.0 == ws.budget * ws.progress
  {
    var spent := TotalSpent(ws);
    var projection := spent * (100.0 / ws.progress);
    Indicators(spent / (today - ws.start.day) as real, projection, projection - ws.budget,
               (ws.budget * (ws.progress / 100.0)) / spent)
  }

  // ---------------------------------------------------------------------------
  // 6. Recommendations

  const Recommendations: seq<(string, string)> := [
    ("1", "Revisar custos operacionais e identificar possíveis otimizações"),
    ("2", "Avaliar necessidade de readequação do escopo"),
    ("3", "Considerar renegociação com fornecedores"),
    ("4", "Implementar controle mais rigoroso de gastos"),
    ("5", "Avaliar possibilidade de aditivo contratual")
  ]

  /** Present exactly when the spend exceeds the budget. */
  function RecommendationsSection(ws: Workspace): (section: Option<seq<(string, string)>>)
    ensures section.Some? <==> TotalSpent(ws) > ws.budget
    ensures section.Some? ==> |section.value| == 5
  {
    if TotalSpent(ws) > ws.budget then Some(Recommendations) else None
  }

  datatype Document = Document(
    executive: Executive,
    categories: seq<CategoryLine>,
    cashFlow: seq<CashFlowLine>,
    teamCosts: seq<TeamCostLine>,
    indicators: Indicators,
    recommendations: Option<seq<(string, string)>>)

  function Report(ws: Workspace, today: int): (d: Document)
    requires ws.budget != 0.0
    requires today - ws.start.day != 0
    requires ws.progress != 0.0
    requires TotalSpent(ws) != 0.0
    ensures d.executive.status == "EXCEDIDO" <==> d.recommendations.Some?
  {
    Document(ExecutiveSummary(ws), CategoryLines(ServicesOf(ws)), CashFlowLines(ws),
             TeamCostLines(ServicesOf(ws)), IndicatorsOf(ws, today), RecommendationsSection(ws))
  }

  // ---------------------------------------------------------------------------
  // Properties of the tables

  function ValueOfLines(lines: seq<CategoryLine>): real
  {
    if |lines| == 0 then 0.0 else lines[0].value + ValueOfLines(lines[1..])
  }

  function PercentOfLines(lines: seq<CategoryLine>): real
  {
    if |lines| == 0 then 0.0 else lines[0].percent + PercentOfLines(lines[1..])
  }

  function PaidOfLines(lines: seq<CashFlowLine>): real
  {
    if |lines| == 0 then 0.0 else lines[0].paid + PaidOfLines(lines[1..])
  }

  lemma {:induction false} CategoryLinesOverKeys(lines: seq<CategoryLine>, ks: seq<string>, services: seq<Service>)
    requires |lines| == |ks|
    requires forall i :: 0 <= i < |lines| ==>
      lines[i].value == Sum(ServicesInCategory(services, ks[i]), BudgetOf)
    ensures ValueOfLines(lines) == SumOver(ks, services, CategoryKey, BudgetOf)
    decreases |lines|
  {
    if |lines| > 0 {
      CategoryLinesOverKeys(lines[1..], ks[1..], services);
    }
  }

  /** Every service lands in exactly one category, so the category totals add
      up to the project's total spend. */
  lemma {:induction false} CategoriesPartitionSpend(services: seq<Service>)
    requires |services| > 0 ==> Sum(services, BudgetOf) != 0.0
    ensures ValueOfLines(CategoryLines(services)) == Sum(services, BudgetOf)
  {
    var lines := CategoryLines(services);
    var ks := Dedup(KeyList(services, CategoryKey));
    CategoryLinesOverKeys(lines, ks, services);
    GroupSumsPartition(services, CategoryKey, BudgetOf);
    KeyedEverything(services, CategoryKey);
  }

  lemma {:induction false} PercentTimesTotal(lines: seq<CategoryLine>, total: real)
    requires SharesOf(lines, total)
    ensures PercentOfLines(lines) * total == ValueOfLines(lines) * 100.0
    decreases |lines|
  {
    if |lines| > 0 {
      PercentTimesTotal(lines[1..], total);
      assert PercentOfLines(lines) * total
          == lines[0].percent * total + PercentOfLines(lines[1..]) * total;
    }
  }

  /** With at least one service, the category shares add up to 100%. */
  lemma {:induction false} CategorySharesSumTo100(services: seq<Service>)
    requires |services| > 0 && Sum(services, BudgetOf) != 0.0
    ensures PercentOfLines(CategoryLines(services)) == 100.0
  {
    SharesTimesTotal(services);
    CancelFactor(PercentOfLines(CategoryLines(services)), Sum(services, BudgetOf));
  }

  lemma {:induction false} SharesTimesTotal(services: seq<Service>)
    requires |services| > 0 ==> Sum(services, BudgetOf) != 0.0
    ensures PercentOfLines(CategoryLines(services)) * Sum(services, BudgetOf)
         == Sum(services, BudgetOf) * 100.0
  {
    CategoriesPartitionSpend(services);
    SharesOfTotal(CategoryLines(services), Sum(services, BudgetOf));
  }

  /** Lines whose shares are each `value * 100 / total` and whose values add up
      to `total` have shares adding up to 100, scaled by `total`. */
  lemma SharesOfTotal(lines: seq<CategoryLine>, total: real)
    requires ValueOfLines(lines) == total
    requires SharesOf(lines, total)
    ensures PercentOfLines(lines) * total == total * 100.0
  {
    PercentTimesTotal(lines, total);
  }

  lemma CancelFactor(p: real, t: real)
    requires t != 0.0 && p * t == t * 100.0
    ensures p == 100.0
  {
    assert (p - 100.0) * t == 0.0;
  }

  lemma {:induction false} CashFlowOverKeys(lines: seq<CashFlowLine>, ks: seq<MonthKey>, ps: seq<Payment>)
    requires |lines| == |ks|
    requires forall i :: 0 <= i < |lines| ==>
      lines[i].paid == Sum(Members(ps, PaymentKey, ks[i]), AmountOf)
    ensures PaidOfLines(lines) == SumOver(ks, ps, PaymentKey, AmountOf)
    decreases |lines|
  {
    if |lines| > 0 {
      CashFlowOverKeys(lines[1..], ks[1..], ps);
    }
  }

  /** Every payment lands in exactly one month: the monthly totals add up to
      the sum of all payments. */
  lemma CashFlowPartitionPayments(ws: Workspace)
    ensures PaidOfLines(CashFlowLines(ws)) == Sum(ws.payments.GetOr([]), AmountOf)
  {
    var ps := ws.payments.GetOr([]);
    CashFlowOverKeys(CashFlowLines(ws), Dedup(KeyList(ps, PaymentKey)), ps);
    GroupSumsPartition(ps, PaymentKey, AmountOf);
    KeyedEverything(ps, PaymentKey);
  }

  /** The spend-by-team table and the teams report's summary see the same
      teams in the same order, with the same service counts and budgets. */
  lemma TeamCostsAgreeWithTeamRows(services: seq<Service>)
    ensures |TeamCostLines(services)| == |TeamsReport.TeamRows(services)|
    ensures forall i :: 0 <= i < |TeamCostLines(services)| ==>
      var c := TeamCostLines(services)[i];
      var r := TeamsReport.TeamRows(services)[i];
      c.team == r.team && c.services == r.totalServices && c.total == r.budget
  {
    var lines := TeamCostLines(services);
    var rows := TeamsReport.TeamRows(services);
    var ks := Dedup(KeyList(services, TeamsReport.TeamKey));
    assert |rows| == |ks| by {
      assert |TeamsReport.RowKeys(rows)| == |rows|;
    }
    forall i | 0 <= i < |lines| ensures lines[i].team == rows[i].team {
      assert Keys(TeamsReport.RowKeys(rows))[i] == rows[i].team;
    }
  }
}
