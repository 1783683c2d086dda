/** How a `User` is written into and read back from the session store: the
    model's stand-in for `JSON.stringify` and `JSON.parse` on the user record. */
module UserCodec {
  import opened Wrappers
  import opened Types
  import Codec

  function RoleName(r: Role): string {
    match r
    case Student => "student"
    case Teacher => "teacher"
    case Admin => "admin"
    case Guardian => "guardian"
    case Secretary => "secretary"
  }

  function RoleFromName(s: string): (r: Option<Role>)
    ensures r.Some? ==> RoleName(r.value) == s
  {
    if s == "student" then Some(Student)
    else if s == "teacher" then Some(Teacher)
    else if s == "admin" then Some(Admin)
    else if s == "guardian" then Some(Guardian)
    else if s == "secretary" then Some(Secretary)
    else None
  }

  /** An absent optional field is written as "", a present one behind "=". */
  function EncodeOptional(o: Option<string>): string {
    match o
    case None => ""
    case Some(s) => "=" + s
  }

  function DecodeOptional(f: string): Option<Option<string>> {
    if f == "" then Some(None)
    else if f[0] == '=' then Some(Some(f[1..]))
    else None
  }

  function EncodeChild(c: ChildSummary): string {
    Codec.EncodeFields([c.id, c.name, c.className, c.enrollmentId])
  }

  function DecodeChild(s: string): Option<ChildSummary> {
    match Codec.DecodeFields(s)
    case None => None
    case Some(fs) =>
      if |fs| == 4 then Some(ChildSummary(fs[0], fs[1], fs[2], fs[3])) else None
  }

  function EncodeChildren(cs: seq<ChildSummary>): (r: seq<string>)
    ensures |r| == |cs|
  {
    if cs == [] then [] else [EncodeChild(cs[0])] + EncodeChildren(cs[1..])
  }

  function DecodeChildren(fs: seq<string>): Option<seq<ChildSummary>> {
    if fs == [] then Some([])
    else
      match DecodeChild(fs[0])
      case None => None
      case Some(c) =>
        match DecodeChildren(fs[1..])
        case None => None
        case Some(cs) => Some([c] + cs)
  }

  function UserFields(u: User): seq<string> {
    [u.id, u.name, u.email, RoleName(u.role),
     EncodeOptional(u.photoUrl), EncodeOptional(u.enrollmentId), EncodeOptional(u.teacherId),
     EncodeOptional(u.adminId), EncodeOptional(u.className),
     Codec.EncodeFields(u.subjects), Codec.EncodeFields(EncodeChildren(u.children))]
  }

  /** `JSON.stringify(user)` */
  function EncodeUser(u: User): string {
    Codec.EncodeFields(UserFields(u))
  }

  /** `JSON.parse(text) as User`: None where the text is not a well-formed user. */
  function DecodeUser(s: string): Option<User> {
    match Codec.DecodeFields(s)
    case None => None
    case Some(fs) => UserFromFields(fs)
  }

  /** The user the eleven fields of a record describe, if they describe one. */
  function UserFromFields(fs: seq<string>): Option<User> {
    if |fs| != 11 then None
    else
      var role := RoleFromName(fs[3]);
      var photo := DecodeOptional(fs[4]);
      var enrollment := DecodeOptional(fs[5]);
      var teacher := DecodeOptional(fs[6]);
      var admin := DecodeOptional(fs[7]);
      var cls := DecodeOptional(fs[8]);
      var subjects := Codec.DecodeFields(fs[9]);
      var childFields := Codec.DecodeFields(fs[10]);
      var children := if childFields.Some? then DecodeChildren(childFields.value) else None;
      if role.Some? && photo.Some? && enrollment.Some? && teacher.Some? && admin.Some?
         && cls.Some? && subjects.Some? && children.Some?
      then Some(User(fs[0], fs[1], fs[2], role.value, photo.value, enrollment.value,
                     teacher.value, admin.value, cls.value, subjects.value, children.value))
      else None
  }

  lemma DecodeEncodeOptional(o: Option<string>)
    ensures DecodeOptional(EncodeOptional(o)) == Some(o)
  {
    if o.Some? {
      assert ("=" + o.value)[1..] == o.value;
    }
  }

  lemma {:induction false} DecodeEncodeChildren(cs: seq<ChildSummary>)
    ensures DecodeChildren(EncodeChildren(cs)) == Some(cs)
  {
    if cs != [] {
      var c := cs[0];
      Codec.DecodeEncodeFields([c.id, c.name, c.className, c.enrollmentId]);
      DecodeEncodeChildren(cs[1..]);
      assert EncodeChildren(cs)[1..] == EncodeChildren(cs[1..]);
      assert [cs[0]] + cs[1..] == cs;
    }
  }

  /** The fields of a user describe that user. */
  lemma UserFromUserFields(u: User)
    ensures UserFromFields(UserFields(u)) == Some(u)
  {
    var fs := UserFields(u);
    assert |fs| == 11;
    assert RoleFromName(fs[3]) == Some(u.role);
    DecodeEncodeOptional(u.photoUrl);
    DecodeEncodeOptional(u.enrollmentId);
    DecodeEncodeOptional(u.teacherId);
    DecodeEncodeOptional(u.adminId);
    DecodeEncodeOptional(u.className);
    Codec.DecodeEncodeFields(u.subjects);
    Codec.DecodeEncodeFields(EncodeChildren(u.children));
    DecodeEncodeChildren(u.children);
  }

  /** Round trip: reading back a stored user gives exactly that user. */
  lemma DecodeEncodeUser(u: User)
    ensures DecodeUser(EncodeUser(u)) == Some(u)
  {
    Codec.DecodeEncodeFields(UserFields(u));
    UserFromUserFields(u);
  }
}
