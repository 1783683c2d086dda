/** The dashboard: the greeting chosen by the hour, the capitalised date,
    today's periods, the three newest important announcements, the student
    performance summary and the queries the page issues. The hour and the
    weekday are inputs; the formatted date is the locale formatter's output,
    taken as given. */
module Dashboard {
  import opened Wrappers
  import opened Types
  import Seqs
  import Text
  import Schedule
  import Grades
  import Announcements
  import Api

  /** `getHours()` decides the greeting: morning from 5 to 11, afternoon
      from 12 to 17, evening for every other hour. */
  function Greeting(hour: int): (r: string)
    ensures r == "Bom dia" <==> 5 <= hour < 12
    ensures r == "Boa tarde" <==> 12 <= hour < 18
    ensures r == "Boa noite" <==> hour < 5 || hour >= 18
  {
    if hour >= 5 && hour < 12 then "Bom dia"
    else if hour >= 12 && hour < 18 then "Boa tarde"
    else "Boa noite"
  }

  /** The date line: the formatted date with only its first character
      upper-cased. */
  function DateLine(formatted: string): (r: string)
    ensures |r| == |formatted|
    ensures formatted != [] ==> r[0] == Text.UpperChar(formatted[0]) && r[1..] == formatted[1..]
  {
    Text.CapitalizeFirst(formatted)
  }

  /** `getTodaySchedule`: the periods of the first entry named after today,
      or none. */
  function TodaySchedule(data: Option<seq<ScheduleDay>>, today: Schedule.Weekday): (r: seq<SchedulePeriod>)
    ensures data.None? ==> r == []
    ensures data.Some? && (forall i :: 0 <= i < |data.value| ==> data.value[i].day != Schedule.Weekdays[today]) ==>
              r == []
    ensures data.Some? ==>
              forall i :: 0 <= i < |data.value| && data.value[i].day == Schedule.Weekdays[today] &&
                          (forall j :: 0 <= j < i ==> data.value[j].day != Schedule.Weekdays[today]) ==>
                r == data.value[i].periods
  {
    Schedule.PeriodsOn(data, Schedule.Weekdays[today])
  }

  function IsImportant(a: Announcement): bool {
    a.important
  }

  /** `getImportantAnnouncements`: important ones, newest first, the first
      three. */
  function ImportantAnnouncements(data: Option<seq<Announcement>>): (r: seq<Announcement>)
    ensures data.None? ==> r == []
    ensures |r| <= 3
  {
    if data.None? then []
    else Seqs.Take(Announcements.SortNewestFirst(Seqs.Filter(data.value, IsImportant)), 3)
  }

  /** Only important announcements are shown, newest first, each drawn
      from the data; an important announcement left out is no newer than
      any of the three shown. */
  lemma ImportantAnnouncementsSelection(anns: seq<Announcement>)
    ensures var r := ImportantAnnouncements(Some(anns));
            (forall i :: 0 <= i < |r| ==> r[i].important) &&
            multiset(r) <= multiset(anns) &&
            Announcements.NewestFirst(r) &&
            forall a :: a in anns && a.important && a !in r ==>
              |r| == 3 && forall i :: 0 <= i < 3 ==> r[i].date >= a.date
  {
    var important := Seqs.Filter(anns, IsImportant);
    var sorted := Announcements.SortNewestFirst(important);
    TopThree(sorted);
    var r := Seqs.Take(sorted, 3);
    assert r == ImportantAnnouncements(Some(anns));
    assert multiset(r) <= multiset(anns) by {
      assert multiset(r) <= multiset(sorted) == multiset(important) <= multiset(anns);
    }
    forall i | 0 <= i < |r|
      ensures r[i].important
    {
      assert r[i] in multiset(sorted);
      assert r[i] in important;
    }
    forall a | a in anns && a.important && a !in r
      ensures |r| == 3 && forall i :: 0 <= i < 3 ==> r[i].date >= a.date
    {
      var k :| 0 <= k < |anns| && anns[k] == a;
      assert a in important;
      assert a in multiset(sorted);
    }
  }

  /** The first three of a newest-first list are at least as new as every
      element after them. */
  lemma TopThree(sorted: seq<Announcement>)
    requires Announcements.NewestFirst(sorted)
    ensures Announcements.NewestFirst(Seqs.Take(sorted, 3))
    ensures multiset(Seqs.Take(sorted, 3)) <= multiset(sorted)
    ensures forall a :: a in sorted && a !in Seqs.Take(sorted, 3) ==>
              |Seqs.Take(sorted, 3)| == 3 && forall i :: 0 <= i < 3 ==> Seqs.Take(sorted, 3)[i].date >= a.date
  {
    var r := Seqs.Take(sorted, 3);
    assert forall i :: 0 <= i < |r| ==> r[i] == sorted[i];
    assert sorted == r + sorted[|r|..];
    forall a | a in sorted && a !in r
      ensures |r| == 3 && forall i :: 0 <= i < 3 ==> r[i].date >= a.date
    {
      var k :| 0 <= k < |sorted| && sorted[k] == a;
      assert k >= |r|;
    }
  }

  datatype Performance = Performance(average: real, above: nat, below: nat)

  function AtLeastSeven(s: SubjectGrades): bool {
    s.average >= 7.0
  }

  function BelowSeven(s: SubjectGrades): bool {
    s.average < 7.0
  }

  /** `calculatePerformance`: subjects at or above 7 and below 7 split the
      subject count; no data or an empty list gives zeros. */
  function CalculatePerformance(data: Option<seq<SubjectGrades>>): (p: Performance)
    ensures data.None? || data.value == [] ==> p == Performance(0.0, 0, 0)
    ensures data.Some? ==> p.above + p.below == |data.value|
    ensures data.Some? ==> p.above == Seqs.Count(data.value, AtLeastSeven)
    ensures p.average == Grades.OverallAverage(data)
  {
    if data.None? || |data.value| == 0 then Performance(0.0, 0, 0)
    else
      Seqs.CountComplement(data.value, AtLeastSeven, BelowSeven);
      Performance(Grades.OverallAverage(data),
                  Seqs.Count(data.value, AtLeastSeven), Seqs.Count(data.value, BelowSeven))
  }

  /** The greeting's name: `user.name.split(' ')[0]`. */
  function GreetingName(user: Option<User>): (r: Option<string>)
    ensures r.None? <==> user.None?
    ensures r.Some? ==> r.value <= user.value.name && ' ' !in r.value
    ensures r.Some? && r.value != user.value.name ==> user.value.name[|r.value|] == ' '
  {
    if user.None? then None else Some(Text.BeforeFirst(user.value.name, ' '))
  }

  /** The URLs the dashboard fetches: the role's timetable, the grades for a
      student only, and the announcements. */
  datatype Queries = Queries(schedule: string, grades: Option<string>, announcements: string)

  function DashboardQueries(user: Option<User>): (q: Queries)
    ensures q.schedule == Schedule.ScheduleEndpoint(user)
    ensures q.grades.Some? <==> user.Some? && user.value.role == Student
    ensures q.announcements == "/announcements"
  {
    Queries(Schedule.ScheduleEndpoint(user),
            if user.Some? && user.value.role == Student then Some("/student/grades") else None,
            "/announcements")
  }

  /** Every URL the dashboard fetches is one the mock API serves. */
  lemma QueriesServed(user: Option<User>)
    ensures Api.EndpointOf(DashboardQueries(user).schedule) != Api.Unknown
    ensures DashboardQueries(user).grades.Some? ==>
              Api.EndpointOf(DashboardQueries(user).grades.value) == Api.StudentGrades
    ensures Api.EndpointOf(DashboardQueries(user).announcements) == Api.AnnouncementList
  {
  }
}
