/** Record types shared by the store, the pages and the auth session
    (src/types/index.ts). They carry no behaviour of their own. */
module Types {

  datatype Option<+T> = None | Some(value: T)

  /** A call that either returns a value or throws an `Error` with a message. */
  datatype Result<+T> = Ok(value: T) | Err(message: string)

  /** A call that returns nothing useful or throws an `Error` with a message. */
  datatype Outcome = Pass | Fail(message: string)

  /** A student. The source's `class` field (the grade label) is called `grade` here. */
  datatype Student = Student(
    id: string,
    name: string,
    rollNo: string,
    grade: string,
    section: string,
    parentPhone: string)

  datatype Teacher = Teacher(
    id: string,
    name: string,
    subject: string,
    assignedClass: string)

  datatype ClassSection = ClassSection(
    id: string,
    grade: string,
    section: string,
    classTeacher: string)

  /** The two-valued `"PRESENT" | "ABSENT"` status. */
  datatype Status = Present | Absent

  datatype AttendanceRecord = AttendanceRecord(
    studentId: string,
    date: string,
    status: Status)

  /** `UserRole = "admin" | "teacher"`. */
  datatype Role = AdminRole | TeacherRole

  /** A signed-in user; `avatar` is optional. */
  datatype User = User(
    id: string,
    name: string,
    email: string,
    role: Role,
    avatar: Option<string>)

  datatype ActivityKind = Info | Success | Warning

  datatype Activity = Activity(
    id: string,
    message: string,
    timestamp: string,
    kind: ActivityKind)

  /** `Omit<Student, "id">`: the five editable fields, also the shape of the student form. */
  datatype StudentFields = StudentFields(
    name: string,
    rollNo: string,
    grade: string,
    section: string,
    parentPhone: string)

  /** `Omit<Teacher, "id">`. */
  datatype TeacherFields = TeacherFields(
    name: string,
    subject: string,
    assignedClass: string)

  /** `Omit<ClassSection, "id">`. */
  datatype ClassFields = ClassFields(
    grade: string,
    section: string,
    classTeacher: string)

  /** `Partial<Student>`: a field that is `None` is absent from the object. */
  datatype StudentPatch = StudentPatch(
    id: Option<string>,
    name: Option<string>,
    rollNo: Option<string>,
    grade: Option<string>,
    section: Option<string>,
    parentPhone: Option<string>)

  /** `Partial<Teacher>`. */
  datatype TeacherPatch = TeacherPatch(
    id: Option<string>,
    name: Option<string>,
    subject: Option<string>,
    assignedClass: Option<string>)

  /** `Partial<ClassSection>`. */
  datatype ClassPatch = ClassPatch(
    id: Option<string>,
    grade: Option<string>,
    section: Option<string>,
    classTeacher: Option<string>)

  /** The statistics the dashboard shows. */
  datatype DashboardStats = DashboardStats(
    totalStudents: nat,
    totalTeachers: nat,
    totalClasses: nat,
    attendancePercent: nat)
}
