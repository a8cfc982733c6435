/** `ClassManager` (src/models/managers/class_manager.py). */
module ClassManagerModel {
  import opened Wrappers
  import opened ListOps
  import opened SchoolEntities

  class ClassManager {
    var classes: seq<SchoolClass>

    constructor ()
      ensures classes == []
    {
      classes := [];
    }

    /** `add_class`: appends any class object; anything else raises `TypeError`. */
    method AddClass(v: Value) returns (typeError: bool)
      modifies this
      ensures typeError <==> !v.ClassValue?
      ensures typeError ==> classes == old(classes)
      ensures !typeError ==> classes == old(classes) + [v.cls]
    {
      if !v.ClassValue? {
        return true;
      }
      classes := classes + [v.cls];
      typeError := false;
    }

    /** `remove_class`: drops every class with the name, keeping the others in order. */
    method RemoveClass(name: string)
      modifies this
      ensures classes == Without(old(classes), ClassName, name)
    {
      classes := Without(classes, ClassName, name);
    }

    /** `get_class`: the first class with the name, or `None`. */
    method GetClass(name: string) returns (r: Option<SchoolClass>)
      ensures r == First(classes, ClassName, name)
      ensures r.Some? <==> exists j :: 0 <= j < |classes| && classes[j].name == name
    {
      var index;
      r, index := Find(classes, ClassName, name);
    }

    /**
     * `assign_teacher`: the first class with the name gets the teacher; no
     * such class, no change; a non-teacher raises `TypeError` first.
     */
    method AssignTeacher(name: string, v: Value) returns (typeError: bool)
      modifies set c | c in classes
      ensures typeError <==> !v.TeacherValue?
      ensures var target := First(classes, ClassName, name);
              forall c :: c in classes ==>
                c.teacher == if !typeError && target == Some(c) then v.teacher else old(c.teacher)
      ensures forall c :: c in classes ==> c.students == old(c.students)
    {
      if !v.TeacherValue? {
        return true;
      }
      var found := GetClass(name);
      if found.Some? {
        found.value.teacher := v.teacher;
      }
      typeError := false;
    }

    /** `list_classes`. */
    function ListClasses(): seq<SchoolClass>
      reads this
    {
      classes
    }
  }
}
