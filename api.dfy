/** The mock API layer: the request interceptor's header rule, the response
    error classification, and the URL dispatch of the mock `get`, `post`,
    `put` and `delete`. */
module Api {
  import opened Wrappers
  import opened Types
  import Auth

  const SessionExpiredMessage: string := "Sua sessão expirou. Por favor, faça login novamente."
  const ServerErrorMessage: string := "Erro no servidor. Por favor, tente novamente mais tarde."
  const GenericErrorMessage: string := "Ocorreu um erro. Por favor, tente novamente."

  /** The outgoing request configuration; the interceptor mutates its headers. */
  class RequestConfig {
    var headers: map<string, string>

    constructor (headers: map<string, string>)
      ensures this.headers == headers
    {
      this.headers := headers;
    }
  }

  /** The request interceptor: sets `Authorization: Bearer <token>` exactly when
      a non-empty token is stored, and otherwise leaves the headers alone. */
  method ApplyAuthHeader(config: RequestConfig, items: map<string, string>)
    modifies config
    ensures Auth.IsAuthenticated(items) ==>
            config.headers == old(config.headers)["Authorization" := "Bearer " + Auth.GetToken(items).value]
    ensures !Auth.IsAuthenticated(items) ==> config.headers == old(config.headers)
  {
    var token := Auth.GetToken(items);
    if token.Some? && token.value != "" {
      config.headers := config.headers["Authorization" := "Bearer " + token.value];
    }
  }

  /** The body of an error response; `message` is `data.message`. */
  datatype ErrorData = ErrorData(message: Option<string>)
  datatype ErrorResponse = ErrorResponse(status: int, data: Option<ErrorData>)

  /** What the response-error interceptor does: the toast it shows, whether it
      logs out, and where it sends the window. */
  datatype ErrorHandling = ErrorHandling(toast: string, logout: bool, redirect: Option<string>)

  /** The classification chain: 401 first, then any status of 500 or more,
      then a non-empty server message, then the generic message. */
  function ClassifyError(response: Option<ErrorResponse>): (h: ErrorHandling)
    ensures h.logout <==> response.Some? && response.value.status == 401
    ensures h.redirect == (if h.logout then Some("/login") else None)
    ensures h.logout ==> h.toast == SessionExpiredMessage
    ensures response.Some? && response.value.status != 401 && response.value.status >= 500 ==>
            h.toast == ServerErrorMessage
  {
    if response.Some? && response.value.status == 401 then
      ErrorHandling(SessionExpiredMessage, true, Some("/login"))
    else if response.Some? && response.value.status >= 500 then
      ErrorHandling(ServerErrorMessage, false, None)
    else if response.Some? && response.value.data.Some? && response.value.data.value.message.Some?
            && response.value.data.value.message.value != "" then
      ErrorHandling(response.value.data.value.message.value, false, None)
    else
      ErrorHandling(GenericErrorMessage, false, None)
  }

  /** The response-error interceptor: classifies, logs out on a 401, and
      always rejects with the original error. */
  method HandleResponseError(store: Auth.LocalStorage, response: Option<ErrorResponse>)
      returns (handling: ErrorHandling, rejected: Result<(), Option<ErrorResponse>>)
    modifies store
    ensures handling == ClassifyError(response)
    ensures store.items == if handling.logout then Auth.StoreAfterLogout(old(store.items)) else old(store.items)
    ensures rejected == Failure(response)
  {
    handling := ClassifyError(response);
    if handling.logout {
      Auth.Logout(store);
    }
    rejected := Failure(response);
  }

  /** 401 takes precedence over the server-error branch, and a client error
      without a non-empty message gets the generic text. */
  lemma ClassificationOrder(status: int, data: Option<ErrorData>)
    ensures ClassifyError(Some(ErrorResponse(401, data))).toast == SessionExpiredMessage
    ensures status >= 500 ==> !ClassifyError(Some(ErrorResponse(status, data))).logout
    ensures status != 401 && status < 500 && data.Some? && data.value.message.Some? && data.value.message.value != "" ==>
            ClassifyError(Some(ErrorResponse(status, data))).toast == data.value.message.value
    ensures status != 401 && status < 500 && !(data.Some? && data.value.message.Some? && data.value.message.value != "") ==>
            ClassifyError(Some(ErrorResponse(status, data))).toast == GenericErrorMessage
    ensures ClassifyError(None) == ErrorHandling(GenericErrorMessage, false, None)
  {
  }

  /** `response.data` of the mock calls. */
  datatype Payload =
    | Schedule(days: seq<ScheduleDay>)
    | Grades(subjects: seq<SubjectGrades>)
    | Announcements(items: seq<Announcement>)
    | Ack(success: bool)
    | EmptyObject

  datatype StudentAverage = StudentAverage(id: string, name: string, average: real)
  datatype ClassGrades = ClassGrades(className: string, subject: string, students: seq<StudentAverage>)

  function StudentPeriod(time: string, subject: string, teacher: string, room: string): SchedulePeriod {
    SchedulePeriod(time, subject, Some(teacher), None, room)
  }

  function TeacherPeriod(time: string, subject: string, className: string, room: string): SchedulePeriod {
    SchedulePeriod(time, subject, None, Some(className), room)
  }

  const StudentScheduleFixture: seq<ScheduleDay> :=
    [ ScheduleDay("Segunda-feira", [
        StudentPeriod("7:30 - 8:20", "Matemática", "Maria Oliveira", "101"),
        StudentPeriod("8:20 - 9:10", "Português", "Ana Santos", "102"),
        StudentPeriod("9:10 - 10:00", "História", "Pedro Costa", "103"),
        StudentPeriod("10:20 - 11:10", "Geografia", "Carla Lima", "104"),
        StudentPeriod("11:10 - 12:00", "Ciências", "Bruno Dias", "105")]),
      ScheduleDay("Terça-feira", [
        StudentPeriod("7:30 - 8:20", "Português", "Ana Santos", "102"),
        StudentPeriod("8:20 - 9:10", "Física", "Maria Oliveira", "106"),
        StudentPeriod("9:10 - 10:00", "Educação Física", "Rafael Sousa", "Quadra"),
        StudentPeriod("10:20 - 11:10", "Inglês", "Júlia Mendes", "107"),
        StudentPeriod("11:10 - 12:00", "Artes", "Fernanda Gomes", "108")]),
      ScheduleDay("Quarta-feira", [
        StudentPeriod("7:30 - 8:20", "Matemática", "Maria Oliveira", "101"),
        StudentPeriod("8:20 - 9:10", "Química", "Roberto Alves", "109"),
        StudentPeriod("9:10 - 10:00", "Biologia", "Camila Rocha", "110"),
        StudentPeriod("10:20 - 11:10", "História", "Pedro Costa", "103"),
        StudentPeriod("11:10 - 12:00", "Geografia", "Carla Lima", "104")]),
      ScheduleDay("Quinta-feira", [
        StudentPeriod("7:30 - 8:20", "Física", "Maria Oliveira", "106"),
        StudentPeriod("8:20 - 9:10", "Matemática", "Maria Oliveira", "101"),
        StudentPeriod("9:10 - 10:00", "Português", "Ana Santos", "102"),
        StudentPeriod("10:20 - 11:10", "Educação Física", "Rafael Sousa", "Quadra"),
        StudentPeriod("11:10 - 12:00", "Inglês", "Júlia Mendes", "107")]),
      ScheduleDay("Sexta-feira", [
        StudentPeriod("7:30 - 8:20", "Química", "Roberto Alves", "109"),
        StudentPeriod("8:20 - 9:10", "Biologia", "Camila Rocha", "110"),
        StudentPeriod("9:10 - 10:00", "Filosofia", "Marcos Vieira", "111"),
        StudentPeriod("10:20 - 11:10", "Sociologia", "Patrícia Ramos", "112"),
        StudentPeriod("11:10 - 12:00", "Literatura", "Ana Santos", "102")])
    ]

  const TeacherScheduleFixture: seq<ScheduleDay> :=
    [ ScheduleDay("Segunda-feira", [
        TeacherPeriod("7:30 - 8:20", "Matemática", "9º Ano A", "101"),
        TeacherPeriod("8:20 - 9:10", "Matemática", "9º Ano B", "101"),
        TeacherPeriod("9:10 - 10:00", "Física", "3º Ano A", "106"),
        TeacherPeriod("10:20 - 11:10", "Física", "3º Ano B", "106"),
        TeacherPeriod("11:10 - 12:00", "Matemática", "8º Ano A", "101")]),
      ScheduleDay("Terça-feira", [
        TeacherPeriod("7:30 - 9:10", "Coordenação", "-", "Sala dos Professores"),
        TeacherPeriod("9:10 - 10:00", "Física", "2º Ano A", "106"),
        TeacherPeriod("10:20 - 11:10", "Física", "2º Ano B", "106"),
        TeacherPeriod("11:10 - 12:00", "Matemática", "7º Ano A", "101")]),
      ScheduleDay("Quarta-feira", [
        TeacherPeriod("7:30 - 8:20", "Matemática", "8º Ano B", "101"),
        TeacherPeriod("8:20 - 9:10", "Matemática", "7º Ano B", "101"),
        TeacherPeriod("9:10 - 10:00", "Física", "1º Ano A", "106"),
        TeacherPeriod("10:20 - 12:00", "Reunião de Departamento", "-", "Sala de Reuniões")]),
      ScheduleDay("Quinta-feira", [
        TeacherPeriod("7:30 - 8:20", "Física", "1º Ano B", "106"),
        TeacherPeriod("8:20 - 9:10", "Matemática", "6º Ano A", "101"),
        TeacherPeriod("9:10 - 10:00", "Matemática", "6º Ano B", "101"),
        TeacherPeriod("10:20 - 12:00", "Planejamento", "-", "Sala dos Professores")]),
      ScheduleDay("Sexta-feira", [
        TeacherPeriod("7:30 - 9:10", "Orientação de Projetos", "Clube de Ciências", "Laboratório"),
        TeacherPeriod("9:10 - 10:00", "Física", "3º Ano A", "106"),
        TeacherPeriod("10:20 - 11:10", "Física", "2º Ano A", "106"),
        TeacherPeriod("11:10 - 12:00", "Matemática", "9º Ano A", "101")])
    ]

  const StudentGradesFixture: seq<SubjectGrades> :=
    [ SubjectGrades("Matemática", "Maria Oliveira", 8.5),
      SubjectGrades("Português", "Ana Santos", 8.1),
      SubjectGrades("História", "Pedro Costa", 8.9),
      SubjectGrades("Geografia", "Carla Lima", 8.0),
      SubjectGrades("Ciências", "Bruno Dias", 9.0) ]

  /** `getClassGrades(className)`: a fixed class roster that echoes the class name. */
  function ClassGradesFixture(className: string): (g: ClassGrades)
    ensures g.className == className
    ensures g.subject == "Matemática" && |g.students| == 5
  {
    ClassGrades(className, "Matemática", [
      StudentAverage("001", "Ana Beatriz", 8.5),
      StudentAverage("002", "Bruno Cardoso", 8.0),
      StudentAverage("003", "Carolina Duarte", 9.0),
      StudentAverage("004", "Daniel Esteves", 7.2),
      StudentAverage("005", "Eduarda Freitas", 8.5)])
  }

  /** Announcement dates are written as yyyymmddhhmm; the body texts are left empty. */
  const AnnouncementsFixture: seq<Announcement> :=
    [ Announcement("1", "Suspensão de Aulas - Recesso",
        "",
        "Coordenação Pedagógica", 202310151030, ["recesso", "calendário"], true),
      Announcement("2", "Feira de Ciências - Inscrições Abertas",
        "",
        "Departamento de Ciências", 202310101415, ["feira", "ciências", "inscrições"], true),
      Announcement("3", "Palestra sobre Profissões",
        "",
        "Serviço de Orientação Educacional", 202310080945, ["palestra", "carreiras", "orientação"], false),
      Announcement("4", "Reunião de Pais e Mestres",
        "",
        "Direção Escolar", 202310051620, ["reunião", "pais", "responsáveis"], true),
      Announcement("5", "Campeonato Interclasses",
        "",
        "Departamento de Educação Física", 202310031110, ["esporte", "campeonato", "futsal"], false),
      Announcement("6", "Novo Sistema de Entrada e Saída",
        "",
        "Administração Escolar", 202309280830, ["segurança", "acesso", "carteirinha"], true) ]

  /** The mock endpoints `get` recognises. */
  datatype Endpoint = StudentSchedule | TeacherSchedule | StudentGrades | AnnouncementList | Unknown

  /** The `switch (url)` of `api.get`. */
  function EndpointOf(url: string): (e: Endpoint)
    ensures url == "/student/schedule" <==> e == StudentSchedule
    ensures url == "/teacher/schedule" <==> e == TeacherSchedule
    ensures url == "/student/grades" <==> e == StudentGrades
    ensures url == "/announcements" <==> e == AnnouncementList
  {
    if url == "/student/schedule" then StudentSchedule
    else if url == "/teacher/schedule" then TeacherSchedule
    else if url == "/student/grades" then StudentGrades
    else if url == "/announcements" then AnnouncementList
    else Unknown
  }

  /** `api.get(url)`: the four known URLs return their fixtures; any other URL
      returns an empty object. */
  function Get(url: string): (data: Payload)
    ensures url == "/student/schedule" ==> data == Schedule(StudentScheduleFixture)
    ensures url == "/teacher/schedule" ==> data == Schedule(TeacherScheduleFixture)
    ensures url == "/student/grades" ==> data == Grades(StudentGradesFixture)
    ensures url == "/announcements" ==> data == Announcements(AnnouncementsFixture)
    ensures url !in {"/student/schedule", "/teacher/schedule", "/student/grades", "/announcements"} ==>
            data == EmptyObject
  {
    match EndpointOf(url)
    case StudentSchedule => Schedule(StudentScheduleFixture)
    case TeacherSchedule => Schedule(TeacherScheduleFixture)
    case StudentGrades => Grades(StudentGradesFixture)
    case AnnouncementList => Announcements(AnnouncementsFixture)
    case Unknown => EmptyObject
  }

  /** `api.post(url, data)`: always acknowledges, whatever the URL or data. */
  function Post(url: string, data: string): (r: Payload)
    ensures r == Ack(true)
  {
    Ack(true)
  }

  /** `api.put(url, data)`: always acknowledges, whatever the URL or data. */
  function Put(url: string, data: string): (r: Payload)
    ensures r == Ack(true)
  {
    Ack(true)
  }

  /** `api.delete(url)`: always acknowledges, whatever the URL. */
  function Delete(url: string): (r: Payload)
    ensures r == Ack(true)
  {
    Ack(true)
  }

  /** The student timetable covers Monday to Friday in order, five periods a day. */
  lemma StudentScheduleShape()
    ensures var days := StudentScheduleFixture;
            |days| == 5 &&
            days[0].day == "Segunda-feira" && days[1].day == "Terça-feira" &&
            days[2].day == "Quarta-feira" && days[3].day == "Quinta-feira" &&
            days[4].day == "Sexta-feira" &&
            forall i :: 0 <= i < 5 ==> |days[i].periods| == 5
  {
  }
}
