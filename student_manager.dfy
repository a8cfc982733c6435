/** `StudentManager` (src/models/managers/student_manager.py). */
module StudentManagerModel {
  import opened Wrappers
  import opened ListOps
  import opened SchoolEntities

  /** `update_student`'s change to one record: a name only if non-empty, an age only if non-zero. */
  function Updated(s: Student, newName: Option<string>, newAge: Option<int>): (r: Student)
    ensures r.studentId == s.studentId
    ensures r.name == (if newName.Some? && newName.value != "" then newName.value else s.name)
    ensures r.age == (if newAge.Some? && newAge.value != 0 then newAge.value else s.age)
  {
    var named := if newName.Some? && newName.value != "" then s.(name := newName.value) else s;
    if newAge.Some? && newAge.value != 0 then named.(age := newAge.value) else named
  }

  /** The list after `update_student`: only the first student with the id changes. */
  function UpdateFirst(s: seq<Student>, id: string, newName: Option<string>, newAge: Option<int>): (r: seq<Student>)
    ensures |r| == |s|
    ensures forall i :: 0 <= i < |s| && Some(i) != FirstIndex(s, StudentId, id) ==> r[i] == s[i]
    ensures FirstIndex(s, StudentId, id).Some? ==>
              var i := FirstIndex(s, StudentId, id).value;
              r[i] == Updated(s[i], newName, newAge)
  {
    match FirstIndex(s, StudentId, id)
    case None => s
    case Some(i) => s[i := Updated(s[i], newName, newAge)]
  }

  /** Updating an id nobody has changes nothing, and the ids of the list never change. */
  lemma UpdateKeepsIds(s: seq<Student>, id: string, newName: Option<string>, newAge: Option<int>)
    ensures forall i :: 0 <= i < |s| ==> UpdateFirst(s, id, newName, newAge)[i].studentId == s[i].studentId
    ensures (forall i :: 0 <= i < |s| ==> s[i].studentId != id) ==> UpdateFirst(s, id, newName, newAge) == s
  {
  }

  class StudentManager {
    var students: seq<Student>

    /** The shared list starts empty. */
    constructor ()
      ensures students == []
    {
      students := [];
    }

    /** `add_student`: appends any student, even a duplicate id; anything else raises `TypeError`. */
    method AddStudent(v: Value) returns (typeError: bool)
      modifies this
      ensures typeError <==> !v.StudentValue?
      ensures typeError ==> students == old(students)
      ensures !typeError ==> students == old(students) + [v.student]
    {
      if !v.StudentValue? {
        return true;
      }
      students := students + [v.student];
      typeError := false;
    }

    /** `remove_student`: drops every student with the id, keeping the others in order. */
    method RemoveStudent(id: string)
      modifies this
      ensures students == Without(old(students), StudentId, id)
    {
      students := Without(students, StudentId, id);
    }

    /** `update_student`: finds the first student with the id and changes it, then stops. */
    method UpdateStudent(id: string, newName: Option<string>, newAge: Option<int>)
      modifies this
      ensures students == UpdateFirst(old(students), id, newName, newAge)
    {
      var i := 0;
      while i < |students|
        invariant 0 <= i <= |students|
        invariant students == old(students)
        invariant forall j :: 0 <= j < i ==> students[j].studentId != id
      {
        if students[i].studentId == id {
          FirstIndexIs(students, StudentId, id, i);
          students := students[i := Updated(students[i], newName, newAge)];
          return;
        }
        i := i + 1;
      }
    }

    /** `get_student`: the first student with the id, or `None`. */
    method GetStudent(id: string) returns (r: Option<Student>)
      ensures r == First(students, StudentId, id)
      ensures r.Some? <==> exists j :: 0 <= j < |students| && students[j].studentId == id
    {
      var index;
      r, index := Find(students, StudentId, id);
    }

    /** `list_students`. */
    function ListStudents(): seq<Student>
      reads this
    {
      students
    }
  }
}
