/**
 * `ClassPresenter` (src/presenters/class_presenter.py): validates the
 * teacher, student and class names the view passes in against the shared
 * managers before changing anything, and reports a failed lookup as an error
 * in the view.
 */
module ClassPresenterModel {
  import opened Wrappers
  import opened ListOps
  import opened SchoolEntities
  import opened StudentManagerModel
  import opened TeacherManagerModel
  import opened ClassManagerModel

  /** The lookups that can fail; the view shows them as error messages. */
  datatype SchoolError =
    | TeacherNotFound(teacherName: string)
    | StudentNotFound(studentId: string)
    | ClassNotFound(className: string)

  /** What the presenter shows in the view. */
  datatype ViewEvent = ShowError(error: SchoolError) | ClassListShown(classes: seq<SchoolClass>)

  class ClassPresenter {
    const classes: ClassManager
    const teachers: TeacherManager
    const students: StudentManager
    var shown: seq<ViewEvent>

    /** The presenter works on the managers shared by the whole application. */
    constructor (classes: ClassManager, teachers: TeacherManager, students: StudentManager)
      ensures this.classes == classes && this.teachers == teachers && this.students == students
      ensures shown == []
    {
      this.classes := classes;
      this.teachers := teachers;
      this.students := students;
      shown := [];
    }

    /** `load_classes`: shows the current class list. */
    method LoadClasses()
      modifies this`shown
      ensures shown == old(shown) + [ClassListShown(classes.classes)]
    {
      shown := shown + [ClassListShown(classes.classes)];
    }

    /**
     * `add_class`: with an unknown teacher it shows an error and adds
     * nothing; otherwise it appends one new, empty class taught by the first
     * teacher with that name and shows the list.
     */
    method AddClass(className: string, teacherName: string) returns (created: SchoolClass?)
      modifies classes, this`shown
      ensures var teacher := First(teachers.teachers, TeacherName, teacherName);
              && (teacher.None? ==> created == null && classes.classes == old(classes.classes)
                                    && shown == old(shown) + [ShowError(TeacherNotFound(teacherName))])
              && (teacher.Some? ==> created != null && fresh(created)
                                    && created.name == className && created.teacher == teacher.value
                                    && created.students == []
                                    && classes.classes == old(classes.classes) + [created]
                                    && shown == old(shown) + [ClassListShown(classes.classes)])
    {
      var teacher := teachers.GetTeacher(teacherName);
      if teacher.None? {
        shown := shown + [ShowError(TeacherNotFound(teacherName))];
        return null;
      }
      created := NewClass(className, TeacherValue(teacher.value));
      var typeError := classes.AddClass(ClassValue(created));
      LoadClasses();
    }

    /**
     * `assign_teacher`: with an unknown teacher it shows an error and no
     * class changes; otherwise the first class with the name gets the first
     * teacher with that name, and the list is shown.
     */
    method AssignTeacher(className: string, teacherName: string)
      modifies this`shown, set c | c in classes.classes
      ensures var teacher := First(teachers.teachers, TeacherName, teacherName);
              var target := First(classes.classes, ClassName, className);
              && (forall c :: c in classes.classes ==>
                    c.teacher == if teacher.Some? && target == Some(c) then teacher.value else old(c.teacher))
              && shown == old(shown) + [if teacher.None? then ShowError(TeacherNotFound(teacherName))
                                        else ClassListShown(classes.classes)]
      ensures forall c :: c in classes.classes ==> c.students == old(c.students)
    {
      var teacher := teachers.GetTeacher(teacherName);
      if teacher.None? {
        shown := shown + [ShowError(TeacherNotFound(teacherName))];
        return;
      }
      var typeError := classes.AssignTeacher(className, TeacherValue(teacher.value));
      LoadClasses();
    }

    /**
     * `add_student_to_class`: the student is looked up first, so an unknown
     * student is reported even when the class is unknown too; an unknown
     * class is reported next. On success the first student with the id is
     * appended to the first class with the name, and the list is shown.
     */
    method AddStudentToClass(className: string, studentId: string)
      modifies this`shown, set c | c in classes.classes
      ensures var student := First(students.students, StudentId, studentId);
              var target := First(classes.classes, ClassName, className);
              && (forall c :: c in classes.classes ==>
                    c.students == if student.Some? && target == Some(c) then old(c.students) + [student.value]
                                  else old(c.students))
              && shown == old(shown) + [if student.None? then ShowError(StudentNotFound(studentId))
                                        else if target.None? then ShowError(ClassNotFound(className))
                                        else ClassListShown(classes.classes)]
      ensures forall c :: c in classes.classes ==> c.teacher == old(c.teacher)
    {
      var student := students.GetStudent(studentId);
      if student.None? {
        shown := shown + [ShowError(StudentNotFound(studentId))];
        return;
      }
      var target := classes.GetClass(className);
      if target.None? {
        shown := shown + [ShowError(ClassNotFound(className))];
        return;
      }
      var typeError := target.value.AddStudent(StudentValue(student.value));
      LoadClasses();
    }
  }
}
