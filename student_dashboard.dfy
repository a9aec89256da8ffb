/** The student dashboard: an in-memory list of assignments a student can
    submit, the counts and the "Upcoming Deadlines" list derived from it,
    the status badge and upload rule of each card, and the profile form. */
module StudentDashboard {
  import opened Common

  datatype Assignment = Assignment(
    id: string,
    title: string,
    description: string,
    subject: string,
    dueDate: string,
    submitted: bool,
    grade: Option<string>,
    submissionDate: Option<string>)

  /** The `studentInfo` record edited on the profile tab. */
  datatype StudentInfo = StudentInfo(semester: string, branch: string, section: string)

  /** The badge shown on an assignment card. */
  datatype Status = SubmittedStatus | OverdueStatus | PendingStatus

  /** What pressing an assignment's "Submit" button does. */
  datatype SubmitOutcome = AssignmentSubmitted | NoFileSelected

  /** Whether some entry of `list` has identifier `id`. */
  predicate HasId(list: seq<Assignment>, id: string)
  {
    exists i :: 0 <= i < |list| && list[i].id == id
  }

  /** The `prev.map(...)` of `handleSubmitAssignment`: every entry with
      identifier `id` becomes submitted on `today`. */
  function MarkSubmitted(list: seq<Assignment>, id: string, today: string): (r: seq<Assignment>)
    ensures |r| == |list|
    ensures forall i :: 0 <= i < |list| && list[i].id == id ==>
      r[i] == list[i].(submitted := true, submissionDate := Some(today))
    ensures forall i :: 0 <= i < |list| && list[i].id != id ==> r[i] == list[i]
  {
    if list == [] then []
    else
      var head := if list[0].id == id then list[0].(submitted := true, submissionDate := Some(today)) else list[0];
      [head] + MarkSubmitted(list[1..], id, today)
  }

  /** Submitting an identifier that is not in the list changes nothing. */
  lemma MarkSubmittedAbsent(list: seq<Assignment>, id: string, today: string)
    requires !HasId(list, id)
    ensures MarkSubmitted(list, id, today) == list
  {
  }

  /** Submitting the same identifier twice on the same day is submitting it once. */
  lemma MarkSubmittedIdempotent(list: seq<Assignment>, id: string, today: string)
    ensures MarkSubmitted(MarkSubmitted(list, id, today), id, today) == MarkSubmitted(list, id, today)
  {
  }

  /** `assignments.filter(a => a.submitted)`. */
  function SubmittedOnes(list: seq<Assignment>): (r: seq<Assignment>)
    ensures |r| <= |list|
    ensures forall a :: a in r ==> a in list && a.submitted
    ensures forall a :: a in list && a.submitted ==> a in r
  {
    if list == [] then []
    else if list[0].submitted then [list[0]] + SubmittedOnes(list[1..])
    else SubmittedOnes(list[1..])
  }

  /** `assignments.filter(a => !a.submitted)`: the "Pending" count and the
      "Upcoming Deadlines" list. */
  function PendingOnes(list: seq<Assignment>): (r: seq<Assignment>)
    ensures |r| <= |list|
    ensures forall a :: a in r ==> a in list && !a.submitted
    ensures forall a :: a in list && !a.submitted ==> a in r
  {
    if list == [] then []
    else if !list[0].submitted then [list[0]] + PendingOnes(list[1..])
    else PendingOnes(list[1..])
  }

  /** Every assignment is counted exactly once, as submitted or as pending:
      the two filters split the list's multiset of entries. */
  lemma {:induction false} SubmittedPendingPartition(list: seq<Assignment>)
    ensures multiset(SubmittedOnes(list)) + multiset(PendingOnes(list)) == multiset(list)
    ensures |SubmittedOnes(list)| + |PendingOnes(list)| == |list|
  {
    if list != [] {
      SubmittedPendingPartition(list[1..]);
      assert list == [list[0]] + list[1..];
    }
  }

  /** "Upcoming Deadlines" keeps the list's order: filtering a concatenation
      is concatenating the filtered parts. */
  lemma {:induction false} PendingAppend(s: seq<Assignment>, t: seq<Assignment>)
    ensures PendingOnes(s + t) == PendingOnes(s) + PendingOnes(t)
  {
    if s == [] {
      assert s + t == t;
    } else {
      assert (s + t)[1..] == s[1..] + t;
      PendingAppend(s[1..], t);
    }
  }

  /** A list whose entries are all unsubmitted is its own "Upcoming Deadlines". */
  lemma {:induction false} PendingOfPending(list: seq<Assignment>)
    requires forall i :: 0 <= i < |list| ==> !list[i].submitted
    ensures PendingOnes(list) == list
  {
    if list != [] {
      PendingOfPending(list[1..]);
    }
  }

  /** The entries of `list` whose identifier is not `id`, in order. */
  function WithoutId(list: seq<Assignment>, id: string): (r: seq<Assignment>)
    ensures forall a :: a in r ==> a in list && a.id != id
  {
    if list == [] then []
    else if list[0].id == id then WithoutId(list[1..], id)
    else [list[0]] + WithoutId(list[1..], id)
  }

  /** After submitting `id`, "Upcoming Deadlines" is the old one with the
      entries of that identifier dropped, the rest in the same order. */
  lemma {:induction false} SubmitLeavesUpcoming(list: seq<Assignment>, id: string, today: string)
    ensures PendingOnes(MarkSubmitted(list, id, today)) == WithoutId(PendingOnes(list), id)
  {
    if list != [] {
      var r := MarkSubmitted(list, id, today);
      assert r[1..] == MarkSubmitted(list[1..], id, today);
      SubmitLeavesUpcoming(list[1..], id, today);
    }
  }

  /** The status badge of an assignment card, where `overdue` is the
      clock's verdict on its due date. */
  function StatusOf(a: Assignment, overdue: bool): (s: Status)
    ensures s == SubmittedStatus <==> a.submitted
    ensures s == OverdueStatus <==> !a.submitted && overdue
    ensures s == PendingStatus <==> !a.submitted && !overdue
  {
    if a.submitted then SubmittedStatus
    else if overdue then OverdueStatus
    else PendingStatus
  }

  /** The card offers "Upload Assignment" exactly when its badge says Pending. */
  function UploadOffered(a: Assignment, overdue: bool): (offered: bool)
    ensures offered <==> StatusOf(a, overdue) == PendingStatus
  {
    !a.submitted && !overdue
  }

  /** Once submitted, a card shows "Submitted" whatever its due date and
      offers no upload. */
  lemma SubmittedCardIsFinal(list: seq<Assignment>, id: string, today: string, i: nat, overdue: bool)
    requires i < |list| && list[i].id == id
    ensures StatusOf(MarkSubmitted(list, id, today)[i], overdue) == SubmittedStatus
    ensures !UploadOffered(MarkSubmitted(list, id, today)[i], overdue)
  {
  }

  /** The state of one mounted student dashboard. */
  class Dashboard {
    var assignments: seq<Assignment>
    var info: StudentInfo

    /** The initial state: two sample assignments, the second already
        submitted and graded, and an empty profile. */
    constructor ()
      ensures assignments == [
        Assignment("1", "Data Structures Assignment",
          "Implement Binary Search Tree with insertion, deletion, and traversal operations",
          "Data Structures", "2024-01-15", false, None, None),
        Assignment("2", "Database Design Project",
          "Design a complete database schema for a library management system",
          "Database Management", "2024-01-20", true, Some("A"), Some("2024-01-18"))]
      ensures info == StudentInfo("", "", "")
    {
      assignments := [
        Assignment("1", "Data Structures Assignment",
          "Implement Binary Search Tree with insertion, deletion, and traversal operations",
          "Data Structures", "2024-01-15", false, None, None),
        Assignment("2", "Database Design Project",
          "Design a complete database schema for a library management system",
          "Database Management", "2024-01-20", true, Some("A"), Some("2024-01-18"))];
      info := StudentInfo("", "", "");
    }

    /** `handleSubmitAssignment(id, file)`, where `today` is the date part
        of the clock's ISO timestamp; the file itself is not used. */
    method SubmitAssignment(id: string, file: File, today: string)
      modifies this
      ensures assignments == MarkSubmitted(old(assignments), id, today)
      ensures info == old(info)
    {
      assignments := MarkSubmitted(assignments, id, today);
    }

    /** The "Submit" button of card `id`: submits when a file is selected,
        otherwise reports "No File Selected" and changes nothing. */
    method ClickSubmit(id: string, selected: Option<File>, today: string) returns (outcome: SubmitOutcome)
      modifies this
      ensures outcome == AssignmentSubmitted <==> selected.Some?
      ensures selected.Some? ==> assignments == MarkSubmitted(old(assignments), id, today)
      ensures selected.None? ==> assignments == old(assignments)
      ensures info == old(info)
    {
      if selected.Some? {
        SubmitAssignment(id, selected.value, today);
        outcome := AssignmentSubmitted;
      } else {
        outcome := NoFileSelected;
      }
    }

    method SelectSemester(value: string)
      modifies this
      ensures info == old(info).(semester := value)
      ensures assignments == old(assignments)
    {
      info := info.(semester := value);
    }

    method SelectBranch(value: string)
      modifies this
      ensures info == old(info).(branch := value)
      ensures assignments == old(assignments)
    {
      info := info.(branch := value);
    }

    method SelectSection(value: string)
      modifies this
      ensures info == old(info).(section := value)
      ensures assignments == old(assignments)
    {
      info := info.(section := value);
    }

    /** The "Total Assignments", "Submitted" and "Pending" cards and the
        "Upcoming Deadlines" list. */
    method Counts() returns (total: nat, submitted: nat, pending: nat, upcoming: seq<Assignment>)
      ensures total == |assignments| && submitted + pending == total
      ensures submitted == |SubmittedOnes(assignments)| && upcoming == PendingOnes(assignments)
      ensures pending == |upcoming|
    {
      SubmittedPendingPartition(assignments);
      total := |assignments|;
      submitted := |SubmittedOnes(assignments)|;
      upcoming := PendingOnes(assignments);
      pending := |upcoming|;
    }
  }
}
