/** The faculty's student list over its built-in sample data, with a name search. */
module ManageStudents {
  import opened Text
  import opened Seqs

  datatype Student = Student(id: string, name: string, email: string,
                             totalAchievements: nat, verifiedAchievements: nat)

  /** The list the page starts with. */
  const MockStudents: seq<Student> := [
    Student("ST001", "Viswanathan Anand", "viswanathan.anand@example.com", 40, 32),
    Student("ST002", "Sundar Pichai", "sundar.pichai@example.com", 35, 28),
    Student("ST003", "A. P. J. Abdul Kalam", "apj.abdul.kalam@example.com", 30, 25),
    Student("ST004", "Kamal Haasan", "kamal.haasan@example.com", 28, 21),
    Student("ST005", "Rajinikanth", "rajinikanth@example.com", 25, 18)
  ]

  /** The sample list has five students with distinct ids, none with more verified than total achievements. */
  lemma MockStudentsConsistent()
    ensures |MockStudents| == 5
    ensures forall s :: s in MockStudents ==> s.verifiedAchievements <= s.totalAchievements
    ensures forall i, j :: 0 <= i < j < |MockStudents| ==> MockStudents[i].id != MockStudents[j].id
  {
  }

  /** The search callback: the lower-cased term occurs in the lower-cased name. */
  predicate NameMatches(s: Student, searchTerm: string) {
    Includes(Lower(s.name), Lower(searchTerm))
  }

  function NameSearch(searchTerm: string): Student -> bool {
    s => NameMatches(s, searchTerm)
  }

  /**
   * `filteredStudents`: an order-preserving selection holding each student
   * whose name contains the term (ignoring case) and no other; an empty term
   * keeps everyone.
   */
  function FilteredStudents(students: seq<Student>, searchTerm: string): (r: seq<Student>)
    ensures IsSubsequence(r, students)
    ensures forall s :: s in r ==> NameMatches(s, searchTerm)
    ensures forall s :: s in students ==>
              multiset(r)[s] == if NameMatches(s, searchTerm) then multiset(students)[s] else 0
    ensures searchTerm == "" ==> r == students
  {
    FilterSpec(NameSearch(searchTerm), students);
    if searchTerm == "" then
      FilterKeepsAll(NameSearch(searchTerm), students);
      Filter(NameSearch(searchTerm), students)
    else
      Filter(NameSearch(searchTerm), students)
  }

  /** Only the name is searched: two students with the same name are kept or dropped together, whatever their e-mail. */
  lemma EmailNotSearched(a: Student, b: Student, searchTerm: string)
    requires a.name == b.name
    ensures a in FilteredStudents([a, b], searchTerm) <==> b in FilteredStudents([a, b], searchTerm)
  {
    var r := FilteredStudents([a, b], searchTerm);
    assert a in [a, b] && b in [a, b];
    if NameMatches(a, searchTerm) {
      assert multiset(r)[a] > 0 && multiset(r)[b] > 0;
    }
  }
}
