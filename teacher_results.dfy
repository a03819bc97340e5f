/**
 * The results dashboard of `app/teacher/results/page.tsx`: five assessed
 * students, a search box that keeps the students whose name contains the
 * query regardless of case, and a row of summary figures.
 */
module TeacherResults {
  import opened JsText
  import opened JsArray

  datatype Risk = Low | Medium | High

  datatype StudentRow = StudentRow(id: nat, name: string, style: string, risk: Risk, date: string)

  const Students: seq<StudentRow> := [
    StudentRow(1, "Alex Johnson", "Visual", Low, "Dec 4"),
    StudentRow(2, "Sarah Williams", "Kinesthetic", Medium, "Dec 3"),
    StudentRow(3, "Mike Brown", "Auditory", Low, "Dec 2"),
    StudentRow(4, "Emma Davis", "Read/Write", High, "Dec 1"),
    StudentRow(5, "James Wilson", "Multimodal", Low, "Nov 30")]

  /** The "At Risk" figure, a fixed number on the page. */
  const AtRiskShown: nat := 1

  /** The search: the name, lower-cased, contains the query, lower-cased. */
  predicate Matches(query: string, student: StudentRow)
  {
    Includes(ToLower(student.name), ToLower(query))
  }

  function FilteredStudents(students: seq<StudentRow>, query: string): seq<StudentRow>
  {
    FilterSeq(s => Matches(query, s), students)
  }

  /** The summary figures: total assessed, at risk, completed percentage. */
  datatype Summary = Summary(totalAssessed: nat, atRisk: nat, completedPercent: nat)

  /** The figures are computed from the whole list, whatever the search shows. */
  function SummaryOf(students: seq<StudentRow>): Summary
  {
    Summary(|students|, AtRiskShown, 100)
  }

  /**
   * Every listed student matches the query, every matching student is
   * listed, and the list keeps the dashboard's order.
   */
  lemma FilterRules(students: seq<StudentRow>, query: string) returns (idx: seq<nat>)
    ensures var shown := FilteredStudents(students, query);
            (forall i :: 0 <= i < |shown| ==> Includes(ToLower(shown[i].name), ToLower(query)))
            && (forall s :: s in students && Matches(query, s) ==> s in shown)
            && |idx| == |shown|
            && (forall k :: 0 <= k < |idx| ==> idx[k] < |students| && shown[k] == students[idx[k]])
            && (forall k, l :: 0 <= k < l < |idx| ==> idx[k] < idx[l])
  {
    idx := FilterOrder(s => Matches(query, s), students);
  }

  /** Every name contains the empty string, so an empty query lists everyone. */
  lemma EmptyQueryListsAll(students: seq<StudentRow>)
    ensures FilteredStudents(students, "") == students
  {
    var p := (s: StudentRow) => Matches("", s);
    forall i | 0 <= i < |students| ensures p(students[i]) {
      assert StartsWith(ToLower(students[i].name), "");
    }
    FilterAll(p, students);
  }

  /**
   * The total counts the whole list, not the filtered one: it is never less
   * than what a search shows, and the search shows the whole list exactly
   * when every student matches the query.
   */
  lemma SummaryCountsWholeList(students: seq<StudentRow>, query: string)
    ensures SummaryOf(students).totalAssessed == |students|
    ensures |FilteredStudents(students, query)| <= SummaryOf(students).totalAssessed
    ensures FilteredStudents(students, query) == students
            <==> forall i :: 0 <= i < |students| ==> Matches(query, students[i])
  {
    FilterAll(s => Matches(query, s), students);
  }

  /** On the dashboard's own list the fixed "At Risk" figure counts the high-risk students. */
  lemma AtRiskMatchesList()
    ensures SummaryOf(Students).totalAssessed == 5
    ensures FilterSeq((s: StudentRow) => s.risk == High, Students) == [Students[3]]
    ensures |FilterSeq((s: StudentRow) => s.risk == High, Students)| == SummaryOf(Students).atRisk
  {
  }
}
