/** `TeacherManager` (src/models/managers/teacher_manager.py). */
module TeacherManagerModel {
  import opened Wrappers
  import opened ListOps
  import opened SchoolEntities

  /** The list after `update_teacher`: only the first teacher with the name gets the subject. */
  function SetSubjectFirst(s: seq<Teacher>, name: string, subject: string): (r: seq<Teacher>)
    ensures |r| == |s|
    ensures forall i :: 0 <= i < |s| && Some(i) != FirstIndex(s, TeacherName, name) ==> r[i] == s[i]
    ensures FirstIndex(s, TeacherName, name).Some? ==>
              var i := FirstIndex(s, TeacherName, name).value;
              r[i] == s[i].(subject := subject)
  {
    match FirstIndex(s, TeacherName, name)
    case None => s
    case Some(i) => s[i := s[i].(subject := subject)]
  }

  class TeacherManager {
    var teachers: seq<Teacher>

    constructor ()
      ensures teachers == []
    {
      teachers := [];
    }

    /** `add_teacher`: appends any teacher, even a duplicate name; anything else raises `TypeError`. */
    method AddTeacher(v: Value) returns (typeError: bool)
      modifies this
      ensures typeError <==> !v.TeacherValue?
      ensures typeError ==> teachers == old(teachers)
      ensures !typeError ==> teachers == old(teachers) + [v.teacher]
    {
      if !v.TeacherValue? {
        return true;
      }
      teachers := teachers + [v.teacher];
      typeError := false;
    }

    /** `remove_teacher`: drops every teacher with the name, keeping the others in order. */
    method RemoveTeacher(name: string)
      modifies this
      ensures teachers == Without(old(teachers), TeacherName, name)
    {
      teachers := Without(teachers, TeacherName, name);
    }

    /** `update_teacher`: the first teacher with the name gets the new subject; no match, no change. */
    method UpdateTeacher(name: string, subject: string)
      modifies this
      ensures teachers == SetSubjectFirst(old(teachers), name, subject)
    {
      var i := 0;
      while i < |teachers|
        invariant 0 <= i <= |teachers|
        invariant teachers == old(teachers)
        invariant forall j :: 0 <= j < i ==> teachers[j].name != name
      {
        if teachers[i].name == name {
          FirstIndexIs(teachers, TeacherName, name, i);
          teachers := teachers[i := teachers[i].(subject := subject)];
          return;
        }
        i := i + 1;
      }
    }

    /** `get_teacher`: the first teacher with the name, or `None`. */
    method GetTeacher(name: string) returns (r: Option<Teacher>)
      ensures r == First(teachers, TeacherName, name)
      ensures r.Some? <==> exists j :: 0 <= j < |teachers| && teachers[j].name == name
    {
      var index;
      r, index := Find(teachers, TeacherName, name);
    }

    /** `list_teachers`. */
    function ListTeachers(): seq<Teacher>
      reads this
    {
      teachers
    }
  }
}
