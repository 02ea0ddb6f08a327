/** The demo fixtures the store starts from (src/data/mockData.ts). */
module MockData {
  import opened Types

  const Users: seq<User> := [
    User("u1", "Dr. Priya Sharma", "admin@greenvalley.edu", AdminRole, None),
    User("u2", "Rajesh Kumar", "rajesh@greenvalley.edu", TeacherRole, None)
  ]

  const Students: seq<Student> := [
    Student("s1", "Aarav Mehta", "101", "10", "A", "+91 98765 43210"),
    Student("s2", "Diya Patel", "102", "10", "A", "+91 98765 43211"),
    Student("s3", "Vivaan Singh", "103", "10", "B", "+91 98765 43212"),
    Student("s4", "Ananya Gupta", "201", "9", "A", "+91 98765 43213"),
    Student("s5", "Kabir Joshi", "202", "9", "A", "+91 98765 43214"),
    Student("s6", "Ishita Reddy", "203", "9", "B", "+91 98765 43215"),
    Student("s7", "Reyansh Agarwal", "301", "8", "A", "+91 98765 43216"),
    Student("s8", "Myra Nair", "302", "8", "A", "+91 98765 43217"),
    Student("s9", "Arjun Verma", "303", "8", "B", "+91 98765 43218"),
    Student("s10", "Saanvi Desai", "104", "10", "B", "+91 98765 43219"),
    Student("s11", "Rudra Chopra", "204", "9", "B", "+91 98765 43220"),
    Student("s12", "Anika Bhatt", "304", "8", "B", "+91 98765 43221")
  ]

  const Teachers: seq<Teacher> := [
    Teacher("t1", "Rajesh Kumar", "Mathematics", "10-A"),
    Teacher("t2", "Sunita Iyer", "Science", "10-B"),
    Teacher("t3", "Amit Saxena", "English", "9-A"),
    Teacher("t4", "Neha Kapoor", "Hindi", "9-B"),
    Teacher("t5", "Vikram Malhotra", "Social Studies", "8-A"),
    Teacher("t6", "Pooja Srinivasan", "Computer Science", "8-B")
  ]

  const Classes: seq<ClassSection> := [
    ClassSection("c1", "10", "A", "Rajesh Kumar"),
    ClassSection("c2", "10", "B", "Sunita Iyer"),
    ClassSection("c3", "9", "A", "Amit Saxena"),
    ClassSection("c4", "9", "B", "Neha Kapoor"),
    ClassSection("c5", "8", "A", "Vikram Malhotra"),
    ClassSection("c6", "8", "B", "Pooja Srinivasan")
  ]

  const Activities: seq<Activity> := [
    Activity("a1", "New student Aarav Mehta enrolled in Class 10-A", "2 minutes ago", Success),
    Activity("a2", "Attendance marked for Class 9-A by Amit Saxena", "15 minutes ago", Info),
    Activity("a3", "Parent meeting scheduled for Class 10-B on Friday", "1 hour ago", Warning),
    Activity("a4", "New teacher Pooja Srinivasan added to staff", "2 hours ago", Success),
    Activity("a5", "Class 8-A attendance below 80% this week", "3 hours ago", Warning),
    Activity("a6", "Term examination schedule published", "5 hours ago", Info)
  ]
}
