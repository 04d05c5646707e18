/** The two service forms: the creation modal (budget input, initial and
    reset state, the over-budget warning and the request body) and the edit
    modal (initial values and the request body). */
module ServiceForms {
  import opened Wrappers
  import opened Text
  import opened Domain
  import WorkspaceForms

  // ---------------------------------------------------------------------------
  // The budget input shared by both service forms

  /** `handleCurrencyInput`: the digits typed, read as cents, stored as
      `String(...)`; no digit at all stores `"0"`. */
  function ServiceBudgetText(raw: string): (r: string)
    ensures |DigitsOnly(raw)| == 0 ==> r == "0"
    ensures |r| > 0
  {
    var r := ShowCents(Value(DigitsOnly(raw)));
    ShowCentsRoundTrip(Value(DigitsOnly(raw)));
    r
  }

  /** The stored text reads back as the typed digits divided by 100. */
  lemma ServiceBudgetReadsBack(raw: string)
    ensures ParseFloat(ServiceBudgetText(raw)) == Some(Value(DigitsOnly(raw)) as real / 100.0)
  {
    ShowCentsRoundTrip(Value(DigitsOnly(raw)));
  }

  /** The project forms' input and the service forms' input store the same
      text exactly when something with a digit was typed; otherwise one
      stores `""` and the other `"0"`. */
  lemma BudgetInputsAgree(raw: string)
    ensures ServiceBudgetText(raw) == WorkspaceForms.WorkspaceBudgetText(raw) <==> |DigitsOnly(raw)| > 0
  {
  }

  // ---------------------------------------------------------------------------
  // Creation form

  datatype CreateForm = CreateForm(
    name: string,
    category: string,
    teamId: string,
    budget: string,
    progress: string,
    start: string,
    end: string,
    status: string,
    notes: string)

  /** The initial state; `nowIso` is `new Date().toISOString()`. */
  function InitialCreateForm(nowIso: string): (f: CreateForm)
    ensures f.budget == "0" && f.progress == "0" && f.status == "EM_ANDAMENTO"
    ensures f.name == f.category == f.teamId == f.end == f.notes == ""
    ensures f.start <= nowIso && 'T' !in f.start
    ensures |f.start| == |nowIso| || nowIso[|f.start|] == 'T'
  {
    CreateForm("", "", "", "0", "0", BeforeFirst(nowIso, 'T'), "", "EM_ANDAMENTO", "")
  }

  /** The state after a successful submission. */
  function ResetCreateForm(nowIso: string): (f: CreateForm)
    ensures f.budget == ""
  {
    CreateForm("", "", "", "", "0", BeforeFirst(nowIso, 'T'), "", "EM_ANDAMENTO", "")
  }

  /** The reset differs from the initial state in the budget alone. */
  lemma ResetDiffersOnlyInBudget(nowIso: string)
    ensures ResetCreateForm(nowIso) != InitialCreateForm(nowIso)
    ensures ResetCreateForm(nowIso).(budget := "0") == InitialCreateForm(nowIso)
  {
  }

  /** The over-budget toast: the excess and the three amounts it lists. */
  datatype BudgetWarning = BudgetWarning(excess: real, budget: real, currentSpend: real, added: real)

  /** `gastoAtual + novoGasto > workspace.orcamento`, with `gastoAtual` the
      project's spend (0 without services) and `novoGasto` the `parseFloat` of
      the budget field; a NaN there compares false and raises nothing. */
  function OverBudgetWarning(ws: Workspace, f: CreateForm): (w: Option<BudgetWarning>)
    ensures w.Some? <==> ParseFloat(f.budget).Some? && TotalSpent(ws) + ParseFloat(f.budget).value > ws.budget
    ensures w.Some? ==>
      && w.value.excess > 0.0
      && w.value.excess == w.value.currentSpend + w.value.added - w.value.budget
      && w.value.currentSpend == TotalSpent(ws)
      && w.value.budget == ws.budget
      && Some(w.value.added) == ParseFloat(f.budget)
  {
    var current := TotalSpent(ws);
    match ParseFloat(f.budget)
    case None => None
    case Some(added) =>
      if current + added > ws.budget then Some(BudgetWarning(current + added - ws.budget, ws.budget, current, added))
      else None
  }

  /** A project without services warns exactly when the new budget alone is
      above the project's. */
  lemma NoServicesSpendNothing(ws: Workspace, f: CreateForm)
    requires ws.services.None?
    ensures OverBudgetWarning(ws, f).Some? <==> ParseFloat(f.budget).Some? && ParseFloat(f.budget).value > ws.budget
  {
  }

  /** `new Date(text)` on a date input's value, as `JSON.stringify` writes
      it: a `yyyy-MM-dd` date is read as UTC midnight and sent as that
      instant's ISO text; the empty text is an Invalid Date, sent as `null`
      (`None`). */
  function SentDate(text: string): (r: Option<string>)
    ensures r.None? <==> text == ""
    ensures r.Some? ==> text < r.value && r.value[|text|] == 'T'
  {
    if text == "" then None else Some(text + "T00:00:00.000Z")
  }

  /** The date part of the instant sent is the date that was typed. */
  lemma SentDateRoundTrip(text: string)
    requires text != "" && 'T' !in text
    ensures SentDate(text).Some? && BeforeFirst(SentDate(text).value, 'T') == text
  {
    WorkspaceForms.DatePrefixOfTimestamp(text, "00:00:00.000Z");
  }

  /** The request body.  `None` in a number stands for NaN and in a date for
      an Invalid Date (both serialised as null); `lastUpdate` is the ISO text
      of `new Date()` at submission. */
  datatype CreatePayload = CreatePayload(
    name: string,
    category: string,
    budget: Option<real>,
    progress: Option<nat>,
    start: Option<string>,
    end: Option<string>,
    status: string,
    lastUpdate: string,
    notes: string,
    teamId: Option<nat>,
    workspaceId: nat)

  /** What `handleSubmit` does: possibly a warning, and always the request. */
  datatype Submission = Submission(warning: Option<BudgetWarning>, request: CreatePayload)

  /** `now` is the ISO text of the clock reading taken at submission. */
  function Submit(ws: Workspace, f: CreateForm, workspaceId: nat, now: string): (s: Submission)
    ensures s.warning == OverBudgetWarning(ws, f)
    ensures s.request.budget == ParseFloat(f.budget)
    ensures s.request.progress == ParseInt(f.progress)
    ensures s.request.teamId == ParseInt(f.teamId)
    ensures s.request.start.None? <==> f.start == ""
    ensures s.request.end.None? <==> f.end == ""
    ensures s.request.start == SentDate(f.start) && s.request.end == SentDate(f.end)
    ensures s.request.name == f.name && s.request.category == f.category
    ensures s.request.status == f.status && s.request.notes == f.notes
    ensures s.request.workspaceId == workspaceId && s.request.lastUpdate == now
  {
    Submission(OverBudgetWarning(ws, f),
               CreatePayload(f.name, f.category, ParseFloat(f.budget), ParseInt(f.progress),
                             SentDate(f.start), SentDate(f.end), f.status, now, f.notes,
                             ParseInt(f.teamId), workspaceId))
  }

  /** Submitting the untouched creation form sends the end date as null: its
      field starts empty. */
  lemma UntouchedEndIsNull(ws: Workspace, nowIso: string, workspaceId: nat, now: string)
    ensures Submit(ws, InitialCreateForm(nowIso), workspaceId, now).request.end.None?
  {
  }

  /** The warning does not block: the request sent is the same whatever the
      project's budget and spend, warned or not. */
  lemma WarningDoesNotBlock(ws1: Workspace, ws2: Workspace, f: CreateForm, workspaceId: nat, now: string)
    ensures Submit(ws1, f, workspaceId, now).request == Submit(ws2, f, workspaceId, now).request
  {
  }

  /** A budget typed into the input is sent as the typed digits divided by
      100, and the warning fires exactly when that amount overruns. */
  lemma TypedBudgetIsSent(ws: Workspace, f: CreateForm, raw: string, workspaceId: nat, now: string)
    requires f.budget == ServiceBudgetText(raw)
    ensures Submit(ws, f, workspaceId, now).request.budget == Some(Value(DigitsOnly(raw)) as real / 100.0)
    ensures Submit(ws, f, workspaceId, now).warning.Some?
        <==> TotalSpent(ws) + Value(DigitsOnly(raw)) as real / 100.0 > ws.budget
  {
    ServiceBudgetReadsBack(raw);
  }

  // ---------------------------------------------------------------------------
  // Edit form

  datatype EditForm = EditForm(
    name: string,
    category: Option<string>,
    teamId: string,
    budget: string,
    start: string,
    end: string,
    status: ServiceStatus,
    notes: string,
    technicalSpecs: string,
    technicalStandards: string,
    architecturalDetails: string)

  /** `String(service.teamId || "")`: no team and team 0 both show empty. */
  function TeamIdText(teamId: Option<nat>): (r: string)
    ensures r == "" <==> teamId.None? || teamId.value == 0
    ensures r != "" ==> AllDigits(r)
  {
    if teamId.None? || teamId.value == 0 then "" else NatToString(teamId.value)
  }

  /** The initial state copies the service; `budgetText` is
      `String(orcamento)` (number printing is not modelled), the dates keep the
      part of the ISO text before the first `T`, absent notes become `""` and
      the three technical text fields start empty. */
  function InitialEditForm(s: Service, budgetText: string): (f: EditForm)
    ensures f.name == s.name && f.category == s.category && f.status == s.status
    ensures f.budget == budgetText
    ensures f.teamId == TeamIdText(s.teamId)
    ensures f.notes == OrText(s.notes, "")
    ensures f.start <= s.start.iso && 'T' !in f.start
    ensures f.end <= s.end.iso && 'T' !in f.end
    ensures |f.start| == |s.start.iso| || s.start.iso[|f.start|] == 'T'
    ensures |f.end| == |s.end.iso| || s.end.iso[|f.end|] == 'T'
    ensures f.technicalSpecs == f.technicalStandards == f.architecturalDetails == ""
  {
    EditForm(s.name, s.category, TeamIdText(s.teamId), budgetText,
             BeforeFirst(s.start.iso, 'T'), BeforeFirst(s.end.iso, 'T'), s.status, OrText(s.notes, ""),
             "", "", "")
  }

  /** `formData.teamId ? parseInt(formData.teamId) : null`. */
  function EditTeamId(text: string): (r: Option<nat>)
    ensures text == "" ==> r.None?
    ensures text != "" && IsDigit(text[0]) ==> r.Some?
  {
    if text == "" then None else ParseInt(text)
  }

  /** The explicit empty check changes nothing: the edit form sends the same
      team as the creation form's plain `parseInt` would. */
  lemma EditTeamIdIsParseInt(text: string)
    ensures EditTeamId(text) == ParseInt(text)
  {
  }

  /** Saving without touching the team keeps it, except that team 0 is sent
      as no team. */
  lemma TeamIdRoundTrip(teamId: Option<nat>)
    ensures EditTeamId(TeamIdText(teamId)) == if teamId.None? || teamId.value == 0 then None else teamId
  {
    if teamId.Some? && teamId.value != 0 {
      var s := NatToString(teamId.value);
      LeadingDigitsOfDigitsThen(s, "");
      assert s + "" == s;
      assert s[..|s|] == s;
      ValueOfNatToString(teamId.value);
    }
  }

  datatype EditPayload = EditPayload(
    name: string,
    category: Option<string>,
    budget: Option<real>,
    start: Option<string>,
    end: Option<string>,
    status: ServiceStatus,
    lastUpdate: string,
    notes: string,
    teamId: Option<nat>,
    technicalSpecs: string,
    technicalStandards: string,
    architecturalDetails: string)

  /** The PATCH body; `now` is the ISO text of the clock reading taken at
      submission. */
  function SubmitEdit(f: EditForm, now: string): (p: EditPayload)
    ensures p.budget == ParseFloat(f.budget)
    ensures p.teamId == ParseInt(f.teamId)
    ensures p.start == SentDate(f.start) && p.end == SentDate(f.end)
    ensures p.name == f.name && p.category == f.category && p.status == f.status && p.notes == f.notes
    ensures p.technicalSpecs == f.technicalSpecs && p.technicalStandards == f.technicalStandards
    ensures p.architecturalDetails == f.architecturalDetails
    ensures p.lastUpdate == now
  {
    EditTeamIdIsParseInt(f.teamId);
    EditPayload(f.name, f.category, ParseFloat(f.budget), SentDate(f.start), SentDate(f.end), f.status, now,
                f.notes, EditTeamId(f.teamId), f.technicalSpecs, f.technicalStandards, f.architecturalDetails)
  }

  /** Opening the edit form on a service and saving it unchanged sends back
      its team (team 0 becoming none) and its notes (absent becoming empty). */
  lemma UnchangedEditKeepsTeam(s: Service, budgetText: string, now: string)
    ensures SubmitEdit(InitialEditForm(s, budgetText), now).teamId
         == if s.teamId.None? || s.teamId.value == 0 then None else s.teamId
    ensures SubmitEdit(InitialEditForm(s, budgetText), now).notes == OrText(s.notes, "")
  {
    TeamIdRoundTrip(s.teamId);
  }

  /** Saving the edit form unchanged sends each date as an instant whose date
      part is the service's own, or null when the service's date has no date
      part; the technical text fields are sent empty. */
  lemma UnchangedEditKeepsDates(s: Service, budgetText: string, now: string)
    ensures var p := SubmitEdit(InitialEditForm(s, budgetText), now);
      && (p.start.None? <==> BeforeFirst(s.start.iso, 'T') == "")
      && (p.start.Some? ==> BeforeFirst(p.start.value, 'T') == BeforeFirst(s.start.iso, 'T'))
      && (p.end.None? <==> BeforeFirst(s.end.iso, 'T') == "")
      && (p.end.Some? ==> BeforeFirst(p.end.value, 'T') == BeforeFirst(s.end.iso, 'T'))
      && p.technicalSpecs == p.technicalStandards == p.architecturalDetails == ""
  {
    var f := InitialEditForm(s, budgetText);
    if f.start != "" {
      SentDateRoundTrip(f.start);
    }
    if f.end != "" {
      SentDateRoundTrip(f.end);
    }
  }
}
