/** The schedule report (`generateScheduleReport`): the project's dates with
    the days remaining and a deadline status, then one line per service. */
module ScheduleReport {
  import opened Domain

  /** `differenceInDays(end, now)` on day numbers: negative once the end date
      has passed. */
  function DaysRemaining(ws: Workspace, today: int): int
  {
    ws.end.day - today
  }

  /** "ATRASADO" exactly when the remaining days are negative. */
  function DeadlineLabel(daysRemaining: int): (tag: string)
    ensures tag == "ATRASADO" <==> daysRemaining < 0
    ensures tag == "NO PRAZO" <==> daysRemaining >= 0
  {
    if daysRemaining < 0 then "ATRASADO" else "NO PRAZO"
  }

  datatype Deadlines = Deadlines(start: Instant, end: Instant, daysRemaining: int, status: string)

  /** One line of the "CRONOGRAMA DE SERVIÇOS" table. */
  datatype ServiceLine = ServiceLine(service: string, start: Instant, end: Instant, progress: real, status: string)

  datatype Document = Document(deadlines: Deadlines, services: seq<ServiceLine>)

  function ServiceLineOf(s: Service): ServiceLine
  {
    ServiceLine(s.name, s.start, s.end, s.progress, StatusName(s.status))
  }

  /** One line per service in input order; no service list gives no lines. */
  function ServiceLines(ws: Workspace): (lines: seq<ServiceLine>)
    ensures |lines| == |ServicesOf(ws)|
    ensures forall i :: 0 <= i < |lines| ==>
      lines[i].service == ServicesOf(ws)[i].name && lines[i].progress == ServicesOf(ws)[i].progress
      && lines[i].start == ServicesOf(ws)[i].start && lines[i].end == ServicesOf(ws)[i].end
  {
    var ss := ServicesOf(ws);
    seq(|ss|, i requires 0 <= i < |ss| => ServiceLineOf(ss[i]))
  }

  function Report(ws: Workspace, today: int): (d: Document)
    ensures d.deadlines.status == "ATRASADO" <==> ws.end.day < today
    ensures d.deadlines.daysRemaining + today == ws.end.day
    ensures |d.services| == |ServicesOf(ws)|
  {
    var days := DaysRemaining(ws, today);
    Document(Deadlines(ws.start, ws.end, days, DeadlineLabel(days)), ServiceLines(ws))
  }
}
