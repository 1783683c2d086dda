/** The profile page: the editable profile record seeded from the signed-in
    user, the edit toggle, the save action, and the role-dependent lines of
    the profile card. Form fields are addressed by their input `name`. */
module Profile {
  import opened Wrappers
  import opened Types
  import Text

  const Saved: string := "Perfil atualizado com sucesso!"

  /** The fixed sample values of the fields the user record does not supply. */
  const SampleData: map<string, string> :=
    map["phone" := "(11) 98765-4321",
        "address" := "Rua das Flores, 123",
        "city" := "São Paulo",
        "zipCode" := "01234-567",
        "birthDate" := "15/05/2005",
        "parentName" := "Roberto Silva",
        "parentPhone" := "(11) 98765-4322",
        "enrollmentDate" := "01/02/2022",
        "interests" := "Ciências, Tecnologia, Esportes",
        "bio" := "Estudante dedicado com interesse em ciências e tecnologia."]

  /** The record the page starts from: name and email from the user, or
      empty without one, beside the sample values. */
  function InitialData(user: Option<User>): (data: map<string, string>)
    ensures data.Keys == SampleData.Keys + {"email", "name"}
    ensures data["email"] == (if user.Some? then user.value.email else "")
    ensures data["name"] == (if user.Some? then user.value.name else "")
    ensures forall k :: k in SampleData && k !in {"email", "name"} ==> data[k] == SampleData[k]
  {
    SampleData["email" := if user.Some? then user.value.email else ""]
              ["name" := if user.Some? then user.value.name else ""]
  }

  /** `{ ...prev, [name]: value }` */
  function Changed(prev: map<string, string>, name: string, value: string): (next: map<string, string>)
    ensures next.Keys == prev.Keys + {name}
    ensures next[name] == value
    ensures forall k :: k in prev && k != name ==> next[k] == prev[k]
  {
    prev[name := value]
  }

  /** Only the last edit of a field counts. */
  lemma ChangedTwice(prev: map<string, string>, name: string, first: string, second: string)
    ensures Changed(Changed(prev, name, first), name, second) == Changed(prev, name, second)
  {
  }

  /** Edits of two different fields do not interfere, in either order. */
  lemma ChangedCommute(prev: map<string, string>, a: string, x: string, b: string, y: string)
    requires a != b
    ensures Changed(Changed(prev, a, x), b, y) == Changed(Changed(prev, b, y), a, x)
  {
  }

  /** The line under the name: the class for a student, the role otherwise;
      anything but a student or a teacher, including no user, reads as an
      administrator. A missing class prints as `undefined`. */
  function RoleLabel(user: Option<User>): (r: string)
    ensures user.Some? && user.value.role == Student ==>
              r == "Estudante - " + (if user.value.className.Some? then user.value.className.value else "undefined")
    ensures user.Some? && user.value.role == Teacher ==> r == "Professor"
    ensures user.None? || user.value.role !in {Student, Teacher} ==> r == "Administrador"
  {
    if user.Some? && user.value.role == Student then
      "Estudante - " + (if user.value.className.Some? then user.value.className.value else "undefined")
    else if user.Some? && user.value.role == Teacher then "Professor"
    else "Administrador"
  }

  /** The ID line: a student's enrollment number; for anyone else the
      teacher ID when it is a non-empty string, otherwise the admin ID. */
  function ShownId(user: Option<User>): (r: Option<string>)
    ensures user.None? ==> r.None?
    ensures user.Some? && user.value.role == Student ==> r == user.value.enrollmentId
    ensures user.Some? && user.value.role != Student ==>
              (r == user.value.teacherId && r.Some? && r.value != "") ||
              (r == user.value.adminId && (user.value.teacherId.None? || user.value.teacherId.value == ""))
  {
    if user.None? then None
    else if user.value.role == Student then user.value.enrollmentId
    else if user.value.teacherId.Some? && user.value.teacherId.value != "" then user.value.teacherId
    else user.value.adminId
  }

  /** The level line: a fixed level for a student, the teacher's subjects
      joined by commas, the administration otherwise. */
  function LevelLine(user: Option<User>): (r: string)
    ensures user.Some? && user.value.role == Student ==> r == "Ensino Fundamental II"
    ensures user.Some? && user.value.role == Teacher ==> r == Text.Join(user.value.subjects, ", ")
    ensures user.Some? && user.value.role == Teacher && |user.value.subjects| == 1 ==> r == user.value.subjects[0]
    ensures user.None? || user.value.role !in {Student, Teacher} ==> r == "Administração"
  {
    if user.Some? && user.value.role == Student then "Ensino Fundamental II"
    else if user.Some? && user.value.role == Teacher then Text.Join(user.value.subjects, ", ")
    else "Administração"
  }

  /** The edit button: "Cancelar" in the destructive style while editing,
      "Editar Perfil" otherwise. */
  datatype EditButton = EditButton(caption: string, destructive: bool)

  function EditButtonFor(isEditing: bool): (b: EditButton)
    ensures b.destructive == isEditing
    ensures b.caption == "Cancelar" <==> isEditing
    ensures !isEditing ==> b.caption == "Editar Perfil"
  {
    if isEditing then EditButton("Cancelar", true) else EditButton("Editar Perfil", false)
  }

  class ProfilePage {
    var isEditing: bool
    var data: map<string, string>

    constructor(user: Option<User>)
      ensures !isEditing && data == InitialData(user)
    {
      isEditing := false;
      data := InitialData(user);
    }

    /** `handleChange`: the field named by the input takes its value. */
    method HandleChange(name: string, value: string)
      modifies this
      ensures data == Changed(old(data), name, value)
      ensures isEditing == old(isEditing)
    {
      data := data[name := value];
    }

    /** `handleSave`: leaves editing mode, keeps the data as edited, and
        reports success. */
    method HandleSave() returns (toast: string)
      modifies this
      ensures !isEditing && data == old(data)
      ensures toast == Saved
    {
      isEditing := false;
      toast := Saved;
    }

    /** The edit button's `onClick`. */
    method ToggleEdit()
      modifies this
      ensures isEditing == !old(isEditing) && data == old(data)
      ensures EditButtonFor(isEditing) != EditButtonFor(old(isEditing))
    {
      isEditing := !isEditing;
    }
  }
}
