/** A guardian's view of one child: the child is looked up by the route
    parameter among the signed-in user's children; the overview shows the
    performance counts and a preview of today's periods. */
module ChildDetails {
  import opened Wrappers
  import opened Types
  import Seqs
  import Schedule
  import Grades
  import Dashboard

  function HasId(childId: string): ChildSummary -> bool {
    (c: ChildSummary) => c.id == childId
  }

  /** `user?.childrenData?.find(child => child.id === childId)` */
  function FindChild(user: Option<User>, childId: Option<string>): (r: Option<ChildSummary>)
    ensures r.None? <==>
              user.None? || childId.None? ||
              forall i :: 0 <= i < |user.value.children| ==> user.value.children[i].id != childId.value
    ensures r.Some? ==> Some(r.value.id) == childId && r.value in user.value.children
    ensures user.Some? && childId.Some? ==>
              forall i :: 0 <= i < |user.value.children| && user.value.children[i].id == childId.value &&
                          (forall j :: 0 <= j < i ==> user.value.children[j].id != childId.value) ==>
                r == Some(user.value.children[i])
  {
    if user.None? || childId.None? then None
    else Seqs.Find(user.value.children, HasId(childId.value))
  }

  /** The "today" card: at most three periods, and "+ n mais aulas" when
      more are left out, with n the number left out. */
  datatype Preview = Preview(shown: seq<SchedulePeriod>, more: Option<nat>)

  function PreviewOf(periods: seq<SchedulePeriod>): (p: Preview)
    ensures |p.shown| <= 3 && p.shown <= periods
    ensures p.more.Some? <==> |periods| > 3
    ensures p.more.None? ==> p.shown == periods
    ensures p.more.Some? ==> |p.shown| + p.more.value == |periods|
  {
    Preview(Seqs.Take(periods, 3), if |periods| > 3 then Some(|periods| - 3) else None)
  }

  datatype ChildView =
    | NotFound
    | Details(child: ChildSummary, counts: Grades.PerformanceCounts, average: real, today: Preview)

  /** The page: without a matching child only the "Estudante não
      encontrado" view; otherwise the overview built from the fetched
      grades and timetable. */
  function Page(user: Option<User>, childId: Option<string>, grades: Option<seq<SubjectGrades>>,
                schedule: Option<seq<ScheduleDay>>, today: Schedule.Weekday): (v: ChildView)
    ensures v.NotFound? <==> FindChild(user, childId).None?
    ensures v.Details? ==>
              v.child == FindChild(user, childId).value &&
              v.counts == Grades.CountByPerformance(grades) &&
              v.average == Grades.OverallAverage(grades) &&
              v.today == PreviewOf(Dashboard.TodaySchedule(schedule, today))
  {
    match FindChild(user, childId)
    case None => NotFound
    case Some(child) =>
      Details(child, Grades.CountByPerformance(grades), Grades.OverallAverage(grades),
              PreviewOf(Dashboard.TodaySchedule(schedule, today)))
  }
}
