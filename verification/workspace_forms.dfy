/** The two project forms: the creation modal (schema validation, the date
    rule, the budget input, the payload and the reset) and the edit modal
    (initial values, the budget input and per-field updates). */
module WorkspaceForms {
  import opened Wrappers
  import opened Text
  import opened Domain

  // ---------------------------------------------------------------------------
  // The budget input shared by both project forms

  /** `value ? Number(value) / 100 : ""` followed by `String(...)`: the digits
      typed, read as cents; no digit at all leaves the field empty. */
  function WorkspaceBudgetText(raw: string): (r: string)
    ensures |DigitsOnly(raw)| == 0 <==> r == ""
  {
    var digits := DigitsOnly(raw);
    if |digits| == 0 then "" else
      var r := ShowCents(Value(digits));
      ShowCentsRoundTrip(Value(digits));
      r
  }

  /** The stored text reads back as the typed digits divided by 100 (and the
      empty field as `Number("") == 0`). */
  lemma WorkspaceBudgetReadsBack(raw: string)
    ensures |DigitsOnly(raw)| > 0 ==>
      NumberOf(WorkspaceBudgetText(raw)) == Some(Value(DigitsOnly(raw)) as real / 100.0)
    ensures |DigitsOnly(raw)| == 0 ==> NumberOf(WorkspaceBudgetText(raw)) == Some(0.0)
  {
    if |DigitsOnly(raw)| > 0 {
      ShowCentsRoundTrip(Value(DigitsOnly(raw)));
    }
  }

  // ---------------------------------------------------------------------------
  // Creation form

  /** The creation form.  Dates are local day numbers; `None` is an
      Invalid Date (an emptied date input). */
  datatype CreateForm = CreateForm(
    name: string,
    budget: string,
    location: string,
    start: Option<int>,
    end: Option<int>,
    manager: string,
    description: string,
    category: string,
    priority: string)

  /** The initial state, and the state after a successful submission; `today`
      is the day `new Date()` falls on. */
  function InitialCreateForm(today: int): (f: CreateForm)
    ensures f.priority == "media"
    ensures f.name == f.budget == f.location == f.manager == f.description == f.category == ""
    ensures f.start == f.end == Some(today)
  {
    CreateForm("", "", "", Some(today), Some(today), "", "", "", "media")
  }

  /** The schema's fields, in declaration order. */
  datatype SchemaField = NameField | BudgetField | LocationField | StartField | EndField
                       | ManagerField | DescriptionField | CategoryField | PriorityField

  function Rank(fld: SchemaField): nat
  {
    match fld
    case NameField => 0
    case BudgetField => 1
    case LocationField => 2
    case StartField => 3
    case EndField => 4
    case ManagerField => 5
    case DescriptionField => 6
    case CategoryField => 7
    case PriorityField => 8
  }

  /** The message the schema reports for a failing field. */
  function Message(fld: SchemaField): (m: string)
    ensures |m| > 0
  {
    match fld
    case NameField => "Nome do projeto é obrigatório"
    case BudgetField => "Orçamento é obrigatório"
    case LocationField => "Localização é obrigatória"
    case StartField => "Invalid date"
    case EndField => "Invalid date"
    case ManagerField => "Gerente responsável é obrigatório"
    case DescriptionField => "Descrição é obrigatória"
    case CategoryField => "Categoria é obrigatória"
    case PriorityField => "Prioridade é obrigatória"
  }

  /** The schema's fields in declaration order. */
  const SchemaFields := [NameField, BudgetField, LocationField, StartField, EndField,
                         ManagerField, DescriptionField, CategoryField, PriorityField]

  /** The schema's rule for one field: text fields need at least one character
      (`z.string().min(1)`), dates must not be an Invalid Date (`z.date()`). */
  predicate Fails(f: CreateForm, fld: SchemaField)
  {
    match fld
    case NameField => |f.name| < 1
    case BudgetField => |f.budget| < 1
    case LocationField => |f.location| < 1
    case StartField => f.start.None?
    case EndField => f.end.None?
    case ManagerField => |f.manager| < 1
    case DescriptionField => |f.description| < 1
    case CategoryField => |f.category| < 1
    case PriorityField => |f.priority| < 1
  }

  /** The failing fields among `fields`, in their order. */
  function Failing(f: CreateForm, fields: seq<SchemaField>): (r: seq<SchemaField>)
    ensures forall fld :: fld in r <==> fld in fields && Fails(f, fld)
    ensures |r| <= |fields|
  {
    if |fields| == 0 then []
    else if Fails(f, fields[0]) then [fields[0]] + Failing(f, fields[1..])
    else Failing(f, fields[1..])
  }

  /** The fields `workspaceSchema.parse` reports: every failing field, once,
      in the schema's field order. */
  function SchemaErrors(f: CreateForm): (errors: seq<SchemaField>)
    ensures forall fld :: fld in errors <==> Fails(f, fld)
    ensures |errors| <= 9
  {
    Failing(f, SchemaFields)
  }

  /** The toasts shown, one per reported field. */
  function ErrorMessages(f: CreateForm): (ms: seq<string>)
    ensures |ms| == |SchemaErrors(f)|
    ensures forall i :: 0 <= i < |ms| ==> ms[i] == Message(SchemaErrors(f)[i])
  {
    var errors := SchemaErrors(f);
    seq(|errors|, i requires 0 <= i < |errors| => Message(errors[i]))
  }

  /** `validateForm`: the schema accepts the form, which it does exactly when
      the seven text fields are non-empty and both dates are valid. */
  predicate ValidateForm(f: CreateForm)
    ensures ValidateForm(f) <==>
      && |f.name| >= 1 && |f.budget| >= 1 && |f.location| >= 1 && |f.manager| >= 1
      && |f.description| >= 1 && |f.category| >= 1 && |f.priority| >= 1
      && f.start.Some? && f.end.Some?
  {
    var errors := SchemaErrors(f);
    assert errors != [] <==> exists fld :: Fails(f, fld) by {
      if errors != [] {
        assert errors[0] in errors;
      }
    }
    assert (exists fld :: Fails(f, fld)) ==>
      Fails(f, NameField) || Fails(f, BudgetField) || Fails(f, LocationField) || Fails(f, StartField)
      || Fails(f, EndField) || Fails(f, ManagerField) || Fails(f, DescriptionField)
      || Fails(f, CategoryField) || Fails(f, PriorityField);
    errors == []
  }

  /** A freshly reset form is rejected, for its six empty text fields and
      only for them. */
  lemma ResetFormIsRejected(today: int)
    ensures !ValidateForm(InitialCreateForm(today))
    ensures forall fld :: (fld in SchemaErrors(InitialCreateForm(today))
                           <==> fld != StartField && fld != EndField && fld != PriorityField)
  {
  }

  /** The request body; the budget goes through `Number(...)`, `None` being NaN. */
  datatype CreatePayload = CreatePayload(
    name: string,
    budget: Option<real>,
    location: string,
    start: int,
    end: int,
    manager: string,
    description: string,
    category: string,
    priority: string)

  /** `handleSubmit`: nothing is sent when the schema rejects the form. */
  function Submit(f: CreateForm): (p: Option<CreatePayload>)
    ensures p.Some? <==> ValidateForm(f)
    ensures p.Some? ==>
      && p.value.budget == NumberOf(f.budget) && p.value.name == f.name
      && p.value.start == f.start.value && p.value.end == f.end.value
  {
    if !ValidateForm(f) then None
    else Some(CreatePayload(f.name, NumberOf(f.budget), f.location, f.start.value, f.end.value,
                            f.manager, f.description, f.category, f.priority))
  }

  /** A budget typed into the input is sent as the typed digits divided by 100. */
  lemma TypedBudgetIsSent(f: CreateForm, raw: string)
    requires f.budget == WorkspaceBudgetText(raw) && ValidateForm(f)
    ensures Submit(f).value.budget == Some(Value(DigitsOnly(raw)) as real / 100.0)
  {
    WorkspaceBudgetReadsBack(raw);
  }

  // ---------------------------------------------------------------------------
  // The date rule

  datatype DateCheck = DateCheck(ok: bool, error: string)

  const StartBeforeToday := "A data de início não pode ser anterior a hoje"
  const EndBeforeStart := "A data de término não pode ser anterior à data de início"

  /** `isBefore(a, b)` on optional instants: an Invalid Date compares false. */
  predicate IsBefore(a: Option<int>, b: Option<int>)
  {
    a.Some? && b.Some? && a.value < b.value
  }

  /** `validateDates` on calendar days, as intended: a start before today is
      refused first; then an end before the start; otherwise the dates are
      accepted and the error is cleared.  Invalid dates compare false. */
  function ValidateDates(start: Option<int>, end: Option<int>, today: int): (c: DateCheck)
    ensures c.ok <==> c.error == ""
    ensures c.error == StartBeforeToday <==> IsBefore(start, Some(today))
    ensures c.error == EndBeforeStart <==> !IsBefore(start, Some(today)) && IsBefore(end, start)
    ensures c.ok <==> !IsBefore(start, Some(today)) && !IsBefore(end, start)
  {
    if IsBefore(start, Some(today)) then DateCheck(false, StartBeforeToday)
    else if IsBefore(end, start) then DateCheck(false, EndBeforeStart)
    else DateCheck(true, "")
  }

  /** A project may start today and end the same day. */
  lemma SameDayIsAccepted(today: int)
    ensures ValidateDates(Some(today), Some(today), today).ok
  {
  }

  /** Minutes in a day. */
  const DayMinutes := 1440

  /** `validateDates` as written.  `new Date("yyyy-MM-dd")` is midnight UTC of
      that day, while `startOfToday()` is local midnight, which in a zone
      `tzOffset` minutes ahead of UTC is `tzOffset` minutes before midnight
      UTC.  Instants are minutes since the epoch. */
  function ValidateDatesAsWritten(start: Option<int>, end: Option<int>, today: int, tzOffset: int): (c: DateCheck)
    ensures c.ok <==> c.error == ""
    ensures c.error == StartBeforeToday <==>
      (start.Some? && start.value * DayMinutes < today * DayMinutes - tzOffset)
  {
    var startAt := if start.Some? then Some(start.value * DayMinutes) else None;
    var endAt := if end.Some? then Some(end.value * DayMinutes) else None;
    var todayAt := today * DayMinutes - tzOffset;
    if IsBefore(startAt, Some(todayAt)) then DateCheck(false, StartBeforeToday)
    else if IsBefore(endAt, startAt) then DateCheck(false, EndBeforeStart)
    else DateCheck(true, "")
  }

  /** West of UTC (Brazil is three hours behind) a project starting today is
      refused as starting before today. */
  lemma TodayRefusedWestOfUtc(today: int)
    ensures ValidateDatesAsWritten(Some(today), Some(today), today, -180).error == StartBeforeToday
    ensures ValidateDates(Some(today), Some(today), today).ok
  {
  }

  /** At UTC and east of it (by less than a day) the code behaves as intended. */
  lemma AsWrittenAgreesEastOfUtc(start: Option<int>, end: Option<int>, today: int, tzOffset: int)
    requires 0 <= tzOffset < DayMinutes
    ensures ValidateDatesAsWritten(start, end, today, tzOffset) == ValidateDates(start, end, today)
  {
    if start.Some? {
      assert start.value * DayMinutes < today * DayMinutes - tzOffset <==> start.value < today by {
        if start.value < today {
          assert start.value * DayMinutes <= (today - 1) * DayMinutes;
        } else {
          assert start.value * DayMinutes >= today * DayMinutes;
        }
      }
      if end.Some? {
        assert end.value * DayMinutes < start.value * DayMinutes <==> end.value < start.value;
      }
    }
  }

  /** Submitting does not apply the date rule: a valid form may start before
      today. */
  lemma SubmitIgnoresDateRule(today: int)
    ensures var f := CreateForm("Obra", "100", "Centro", Some(today - 1), Some(today), "Ana", "Casa", "residencial", "media");
      Submit(f).Some? && !ValidateDates(f.start, f.end, today).ok
  {
    var f := CreateForm("Obra", "100", "Centro", Some(today - 1), Some(today), "Ana", "Casa", "residencial", "media");
  }

  // ---------------------------------------------------------------------------
  // Edit form

  datatype EditForm = EditForm(name: string, location: string, manager: string, budget: string,
                               start: string, end: string)

  /** The initial state copies the project; `budgetText` is `String(orcamento)`
      (number printing is not modelled) and the dates keep the part of the ISO
      text before the first `T`. */
  function InitialEditForm(ws: Workspace, budgetText: string): (f: EditForm)
    ensures f.name == ws.name && f.location == ws.location && f.manager == ws.manager
    ensures f.budget == budgetText
    ensures f.start <= ws.start.iso && 'T' !in f.start
    ensures f.end <= ws.end.iso && 'T' !in f.end
    ensures |f.start| == |ws.start.iso| || ws.start.iso[|f.start|] == 'T'
    ensures |f.end| == |ws.end.iso| || ws.end.iso[|f.end|] == 'T'
  {
    EditForm(ws.name, ws.location, ws.manager, budgetText, BeforeFirst(ws.start.iso, 'T'), BeforeFirst(ws.end.iso, 'T'))
  }

  /** An ISO timestamp gives its calendar date. */
  lemma DatePrefixOfTimestamp(date: string, time: string)
    requires 'T' !in date
    ensures BeforeFirst(date + "T" + time, 'T') == date
  {
    var s := date + "T" + time;
    var r := BeforeFirst(s, 'T');
    assert s[|date|] == 'T';
    assert forall i :: 0 <= i < |date| ==> s[i] == date[i];
    assert r == s[..|r|];
    assert date == s[..|date|];
  }

  datatype Field = Name | Location | Manager | Budget | Start | End

  function Get(f: EditForm, fld: Field): string
  {
    match fld
    case Name => f.name
    case Location => f.location
    case Manager => f.manager
    case Budget => f.budget
    case Start => f.start
    case End => f.end
  }

  /** The `onChange` of each input: `{ ...formData, field: value }`; the budget
      input stores its parsed text. */
  function OnChange(f: EditForm, fld: Field, input: string): (g: EditForm)
    ensures Get(g, fld) == if fld == Budget then WorkspaceBudgetText(input) else input
    ensures forall other :: other != fld ==> Get(g, other) == Get(f, other)
  {
    match fld
    case Name => f.(name := input)
    case Location => f.(location := input)
    case Manager => f.(manager := input)
    case Budget => f.(budget := WorkspaceBudgetText(input))
    case Start => f.(start := input)
    case End => f.(end := input)
  }
}
