/** The teacher dashboard: an in-memory list of created assignments, the
    "Create Assignment" form that appends to it, and the statistics the
    dashboard tab derives from the list. */
module TeacherDashboard {
  import opened Common

  datatype Assignment = Assignment(
    id: string,
    title: string,
    description: string,
    semester: string,
    branch: string,
    section: string,
    dueDate: string,
    submissions: nat,
    totalStudents: nat)

  /** The `newAssignment` form record; `file` is the optional upload. */
  datatype AssignmentForm = AssignmentForm(
    title: string,
    description: string,
    semester: string,
    branch: string,
    section: string,
    dueDate: string,
    file: Option<File>)

  /** The text inputs and selects of the create form. */
  datatype FormField = Title | Description | Semester | Branch | Section | DueDate

  datatype Tab = DashboardTab | CreateTab | AssignmentsTab

  const EmptyForm := AssignmentForm("", "", "", "", "", "", None)

  /** The form may be submitted: title, semester, branch, section and due
      date are filled in; description and file are optional. */
  predicate RequiredFilled(f: AssignmentForm)
  {
    f.title != "" && f.semester != "" && f.branch != "" && f.section != "" && f.dueDate != ""
  }

  /** `a` carries the form's texts. */
  predicate CopiesForm(a: Assignment, f: AssignmentForm)
  {
    && a.title == f.title
    && a.description == f.description
    && a.semester == f.semester
    && a.branch == f.branch
    && a.section == f.section
    && a.dueDate == f.dueDate
  }

  /** Class sizes are the ones the dashboard produces and no assignment has
      more submissions than students. */
  predicate WellFormed(a: Assignment)
  {
    40 <= a.totalStudents <= 99 && a.submissions <= a.totalStudents
  }

  /** `Math.floor(Math.random() * 60) + 40` for a draw `roll` of `Math.random()`. */
  function ClassSize(roll: real): (n: int)
    requires 0.0 <= roll < 1.0
    ensures 40 <= n <= 99
  {
    (roll * 60.0).Floor + 40
  }

  /** The form with one text field replaced by what was typed or selected. */
  function WithField(f: AssignmentForm, field: FormField, value: string): (g: AssignmentForm)
    ensures g.file == f.file
    ensures FieldOf(g, field) == value
    ensures forall other :: other != field ==> FieldOf(g, other) == FieldOf(f, other)
  {
    match field
    case Title => f.(title := value)
    case Description => f.(description := value)
    case Semester => f.(semester := value)
    case Branch => f.(branch := value)
    case Section => f.(section := value)
    case DueDate => f.(dueDate := value)
  }

  function FieldOf(f: AssignmentForm, field: FormField): (value: string)
  {
    match field
    case Title => f.title
    case Description => f.description
    case Semester => f.semester
    case Branch => f.branch
    case Section => f.section
    case DueDate => f.dueDate
  }

  /** The figures and list shown on the dashboard tab. */
  datatype Stats = Stats(
    totalAssignments: nat,
    totalSubmissions: nat,
    pendingReviews: nat,
    recent: seq<Assignment>)

  /** Reference sum of the submissions of a list. */
  function SubmissionsSum(list: seq<Assignment>): (sum: nat)
  {
    if list == [] then 0 else list[0].submissions + SubmissionsSum(list[1..])
  }

  /** `list.reduce((sum, a) => sum + a.submissions, acc)`: a left fold. */
  function ReduceSubmissions(list: seq<Assignment>, acc: nat): (sum: nat)
  {
    if list == [] then acc else ReduceSubmissions(list[1..], acc + list[0].submissions)
  }

  lemma {:induction false} ReduceIsSum(list: seq<Assignment>, acc: nat)
    ensures ReduceSubmissions(list, acc) == acc + SubmissionsSum(list)
  {
    if list != [] {
      ReduceIsSum(list[1..], acc + list[0].submissions);
    }
  }

  lemma {:induction false} SumAppend(s: seq<Assignment>, t: seq<Assignment>)
    ensures SubmissionsSum(s + t) == SubmissionsSum(s) + SubmissionsSum(t)
  {
    if s == [] {
      assert s + t == t;
    } else {
      assert (s + t)[1..] == s[1..] + t;
      SumAppend(s[1..], t);
    }
  }

  function Min(a: int, b: int): (m: int) { if a < b then a else b }

  /** The dashboard tab: "Total Assignments" is the length, "Total
      Submissions" and "Pending Reviews" both sum the submissions, and
      "Recent Assignments" is `slice(0, 3)`. */
  function DashboardStats(list: seq<Assignment>): (st: Stats)
    ensures st.totalAssignments == |list|
    ensures st.totalSubmissions == SubmissionsSum(list)
    ensures st.pendingReviews == st.totalSubmissions
    ensures |st.recent| == Min(3, |list|) && st.recent <= list
  {
    ReduceIsSum(list, 0);
    Stats(|list|, ReduceSubmissions(list, 0), ReduceSubmissions(list, 0), list[..Min(3, |list|)])
  }

  /** Appending an assignment with no submissions adds one to the count,
      leaves both submission figures as they were, and shows the new entry
      under "Recent Assignments" only while the list held fewer than three. */
  lemma AppendStats(list: seq<Assignment>, a: Assignment)
    requires a.submissions == 0
    ensures DashboardStats(list + [a]).totalAssignments == |list| + 1
    ensures DashboardStats(list + [a]).totalSubmissions == DashboardStats(list).totalSubmissions
    ensures DashboardStats(list + [a]).pendingReviews == DashboardStats(list).pendingReviews
    ensures DashboardStats(list + [a]).recent
         == if |list| < 3 then list + [a] else DashboardStats(list).recent
  {
    SumAppend(list, [a]);
    assert SubmissionsSum([a]) == 0;
    var r := DashboardStats(list + [a]).recent;
    if |list| < 3 {
      assert r == (list + [a])[..|list| + 1];
    } else {
      assert r == (list + [a])[..3];
    }
  }

  /** The state of one mounted teacher dashboard. */
  class Dashboard {
    var assignments: seq<Assignment>
    var form: AssignmentForm
    var activeTab: Tab

    ghost predicate Valid()
      reads this
    {
      forall i :: 0 <= i < |assignments| ==> WellFormed(assignments[i])
    }

    /** The initial state: one sample assignment, an empty form, the
        dashboard tab. */
    constructor ()
      ensures Valid()
      ensures assignments == [Assignment("1", "Data Structures Assignment",
        "Implement Binary Search Tree", "3", "CSE", "A", "2024-01-15", 25, 60)]
      ensures form == EmptyForm && activeTab == DashboardTab
    {
      assignments := [Assignment("1", "Data Structures Assignment",
        "Implement Binary Search Tree", "3", "CSE", "A", "2024-01-15", 25, 60)];
      form := EmptyForm;
      activeTab := DashboardTab;
    }

    /** An input or select of the create form changes its own field. */
    method Edit(field: FormField, value: string)
      modifies this
      ensures form == WithField(old(form), field, value)
      ensures assignments == old(assignments) && activeTab == old(activeTab)
    {
      form := WithField(form, field, value);
    }

    /** The file input stores the chosen file, or none. */
    method ChooseFile(file: Option<File>)
      modifies this
      ensures form == old(form).(file := file)
      ensures assignments == old(assignments) && activeTab == old(activeTab)
    {
      form := form.(file := file);
    }

    /** `handleCreateAssignment`, with the two `Math.random()` results
        given as `id` (the base-36 id) and `roll` (the class-size draw). */
    method CreateAssignment(id: string, roll: real) returns (created: bool)
      requires Valid()
      requires 0.0 <= roll < 1.0
      modifies this
      ensures Valid()
      ensures created <==> RequiredFilled(old(form))
      ensures !created ==> assignments == old(assignments) && form == old(form) && activeTab == old(activeTab)
      ensures created ==>
        && |assignments| == |old(assignments)| + 1
        && assignments[..|old(assignments)|] == old(assignments)
        && var a := assignments[|assignments| - 1];
           a.id == id && CopiesForm(a, old(form)) && a.submissions == 0 && 40 <= a.totalStudents <= 99
      ensures created ==> form == EmptyForm && activeTab == AssignmentsTab
    {
      if !RequiredFilled(form) {
        return false;
      }
      var a := Assignment(id, form.title, form.description, form.semester, form.branch,
        form.section, form.dueDate, 0, ClassSize(roll));
      assignments := assignments + [a];
      form := EmptyForm;
      activeTab := AssignmentsTab;
      created := true;
    }

    /** The dashboard tab's figures for the current list. */
    method Stats() returns (st: Stats)
      ensures st == DashboardStats(assignments)
    {
      st := DashboardStats(assignments);
    }
  }
}
