/** The records the client passes around. A `User` carries the optional
    per-role attributes of the TypeScript `User` interface and the guardian's
    linked children, which the layout and guardian pages read even though the
    interface does not declare them. */
module Types {
  import opened Wrappers

  /** The role union used by the code. The declared TypeScript union names only
      student, teacher and admin; the layout branches on guardian and the
      secretary pages exist, so both are included. */
  datatype Role = Student | Teacher | Admin | Guardian | Secretary

  /** A guardian's read-only summary of one child. */
  datatype ChildSummary = ChildSummary(id: string, name: string, className: string, enrollmentId: string)

  datatype User = User(
    id: string,
    name: string,
    email: string,
    role: Role,
    photoUrl: Option<string>,
    enrollmentId: Option<string>,
    teacherId: Option<string>,
    adminId: Option<string>,
    className: Option<string>,
    subjects: seq<string>,
    children: seq<ChildSummary>)

  datatype SchedulePeriod = SchedulePeriod(
    time: string, subject: string, teacher: Option<string>, className: Option<string>, room: string)

  datatype ScheduleDay = ScheduleDay(day: string, periods: seq<SchedulePeriod>)

  /** A subject's grades; only the average is used by the modelled logic. */
  datatype SubjectGrades = SubjectGrades(subject: string, teacher: string, average: real)

  /** `date` is the publication instant as an integer timestamp. */
  datatype Announcement = Announcement(
    id: string, title: string, content: string, author: string, date: int,
    tags: seq<string>, important: bool)
}
