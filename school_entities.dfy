/**
 * The tutorial's entities (src/models/entities): students and teachers are
 * plain records, a class is an object whose teacher and student list change
 * in place. `Value` stands for an arbitrary Python object handed to a method
 * that checks its type with `isinstance`.
 */
module SchoolEntities {

  datatype Student = Student(name: string, age: int, studentId: string)

  datatype Teacher = Teacher(name: string, age: int, subject: string)

  datatype Value =
    | StudentValue(student: Student)
    | TeacherValue(teacher: Teacher)
    | ClassValue(cls: SchoolClass)
    | OtherValue

  /** The lookup keys the managers use. */
  function StudentId(s: Student): string { s.studentId }
  function TeacherName(t: Teacher): string { t.name }
  function ClassName(c: SchoolClass): string { c.name }

  /** `Class` (src/models/entities/class_.py). */
  class SchoolClass {
    const name: string
    var teacher: Teacher
    var students: seq<Student>

    /** A new class has its teacher and no students. */
    constructor (name: string, teacher: Teacher)
      ensures this.name == name && this.teacher == teacher && students == []
    {
      this.name := name;
      this.teacher := teacher;
      students := [];
    }

    /**
     * `add_student`: a student is appended, even one already enrolled;
     * anything else raises `TypeError` and leaves the list as it was.
     */
    method AddStudent(v: Value) returns (typeError: bool)
      modifies this`students
      ensures typeError <==> !v.StudentValue?
      ensures typeError ==> students == old(students)
      ensures !typeError ==> students == old(students) + [v.student]
    {
      if !v.StudentValue? {
        return true;
      }
      students := students + [v.student];
      typeError := false;
    }
  }

  /** `Class(class_name, teacher)`: raises `TypeError` unless given a teacher. */
  method NewClass(name: string, v: Value) returns (c: SchoolClass?)
    ensures c == null <==> !v.TeacherValue?
    ensures c != null ==> fresh(c) && c.name == name && c.teacher == v.teacher && c.students == []
  {
    if !v.TeacherValue? {
      return null;
    }
    c := new SchoolClass(name, v.teacher);
  }
}
