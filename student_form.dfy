/**
 * The three-step assessment form (components/StudentForm.tsx): its subject
 * list editor, the two figures it derives from that list (the rounded
 * average mark and the backlog count) and its step counter with the
 * Previous and Next/Submit buttons.
 *
 * The derived figures are folds over the subject list and are modelled as
 * functions; the component's state (`step`, `formData`) is a class whose
 * methods are the handlers.
 */
module StudentForm {
  import opened Types

  // ---------------------------------------------------------------------
  // Subject rows and partial updates
  // ---------------------------------------------------------------------

  /** The row "Add Another Subject" appends: no name, 50 marks, no backlog. */
  const NewSubject := SubjectMarks("", 50, false)

  /** A partial subject record: each field is either present or absent. */
  datatype SubjectUpdate = SubjectUpdate(name: Option<string>, marks: Option<int>, hasBacklog: Option<bool>)

  function Pick<T>(o: Option<T>, otherwise: T): T {
    match o
    case Some(v) => v
    case None => otherwise
  }

  /** The object spread `{ ...subject, ...update }`: present fields of the update win, absent ones keep the row's value. */
  function Merge(subject: SubjectMarks, update: SubjectUpdate): (r: SubjectMarks)
    ensures update.name.Some? ==> r.name == update.name.value
    ensures update.name.None? ==> r.name == subject.name
    ensures update.marks.Some? ==> r.marks == update.marks.value
    ensures update.marks.None? ==> r.marks == subject.marks
    ensures update.hasBacklog.Some? ==> r.hasBacklog == update.hasBacklog.value
    ensures update.hasBacklog.None? ==> r.hasBacklog == subject.hasBacklog
  {
    SubjectMarks(
      Pick(update.name, subject.name),
      Pick(update.marks, subject.marks),
      Pick(update.hasBacklog, subject.hasBacklog))
  }

  /** The spread of two partial records: fields present in `later` win. */
  function Combine(earlier: SubjectUpdate, later: SubjectUpdate): SubjectUpdate {
    SubjectUpdate(
      if later.name.Some? then later.name else earlier.name,
      if later.marks.Some? then later.marks else earlier.marks,
      if later.hasBacklog.Some? then later.hasBacklog else earlier.hasBacklog)
  }

  /** Two successive merges are one merge of the combined update; in particular a merge is idempotent. */
  lemma MergeTwice(subject: SubjectMarks, first: SubjectUpdate, second: SubjectUpdate)
    ensures Merge(Merge(subject, first), second) == Merge(subject, Combine(first, second))
    ensures Merge(Merge(subject, first), first) == Merge(subject, first)
  {
  }

  // ---------------------------------------------------------------------
  // Removing a row: Array.prototype.splice(index, 1)
  // ---------------------------------------------------------------------

  /**
   * Where `splice(index, 1)` starts on a list of length `len`: a negative
   * index counts from the end (clamped at 0), a too large one is clamped at
   * the length.
   */
  function SpliceStart(len: nat, index: int): (k: nat)
    ensures k <= len
    ensures 0 <= index <= len ==> k == index
    ensures index < 0 && len + index >= 0 ==> k == len + index
    ensures index > len ==> k == len
    ensures len + index < 0 ==> k == 0
  {
    if index < 0 then (if len + index < 0 then 0 else len + index)
    else if index > len then len
    else index
  }

  /** The list after `splice(index, 1)`: the row at the start position goes, if there is one. */
  function RemovedAt(s: seq<SubjectMarks>, index: int): (r: seq<SubjectMarks>)
    ensures 0 <= index < |s| ==> |r| == |s| - 1
    ensures 0 <= index < |s| ==> forall j :: 0 <= j < index ==> r[j] == s[j]
    ensures 0 <= index < |s| ==> forall j :: index <= j < |r| ==> r[j] == s[j + 1]
    ensures 0 <= index < |s| ==> multiset(r) + multiset{s[index]} == multiset(s)
    ensures index >= |s| ==> r == s
    ensures index < |s| && s != [] ==> |r| == |s| - 1
  {
    var k := SpliceStart(|s|, index);
    if k < |s| then
      assert s == s[..k] + [s[k]] + s[k + 1..];
      s[..k] + s[k + 1..]
    else
      s
  }

  /** A negative index removes the row that many places from the end, or the first row. */
  lemma RemoveFromEnd(s: seq<SubjectMarks>, index: int)
    requires index < 0
    ensures -|s| <= index ==> RemovedAt(s, index) == RemovedAt(s, |s| + index)
    ensures index < -|s| ==> RemovedAt(s, index) == RemovedAt(s, 0)
  {
  }

  // ---------------------------------------------------------------------
  // Derived figures
  // ---------------------------------------------------------------------

  /** `subjects.reduce((acc, s) => acc + s.marks, 0)`: a left fold over the marks. */
  function Sum(s: seq<SubjectMarks>): (r: int)
    ensures s == [] ==> r == 0
    ensures (forall j :: 0 <= j < |s| ==> s[j].marks >= 0) ==> r >= 0
  {
    if |s| == 0 then 0 else Sum(s[..|s| - 1]) + s[|s| - 1].marks
  }

  /** `subjects.length || 1`: the length, or 1 for an empty list. */
  function Divisor(s: seq<SubjectMarks>): (n: int)
    ensures n >= 1
    ensures s == [] ==> n == 1
    ensures s != [] ==> n == |s|
  {
    if |s| == 0 then 1 else |s|
  }

  /**
   * `Math.round(sum / divisor)`. `Math.round(x)` is floor(x + 1/2) for every
   * x, so on integers it is (2 * sum + n) div (2 * n).
   * The result is the integer nearest to the mean, halves rounded up.
   */
  function AvgMarks(s: seq<SubjectMarks>): (r: int)
    ensures s == [] ==> r == 0
    ensures 2 * Divisor(s) * r - Divisor(s) <= 2 * Sum(s) < 2 * Divisor(s) * r + Divisor(s)
  {
    var n := Divisor(s);
    var q := (2 * Sum(s) + n) / (2 * n);
    assert 2 * Sum(s) + n == (2 * n) * q + (2 * Sum(s) + n) % (2 * n);
    assert (2 * n) * q == 2 * n * q;
    q
  }

  /** `subjects.filter(s => s.hasBacklog)`, which keeps order. */
  function WithBacklog(s: seq<SubjectMarks>): (r: seq<SubjectMarks>)
    ensures |r| <= |s|
    ensures forall j :: 0 <= j < |r| ==> r[j].hasBacklog
  {
    if s == [] then []
    else
      (if s[0].hasBacklog then [s[0]] else []) + WithBacklog(s[1..])
  }

  /** The filter keeps every flagged row as often as it occurs and drops every other row. */
  lemma {:induction false} WithBacklogKeepsFlagged(s: seq<SubjectMarks>)
    ensures forall x :: multiset(WithBacklog(s))[x] == if x.hasBacklog then multiset(s)[x] else 0
    decreases |s|
  {
    if s != [] {
      assert s == [s[0]] + s[1..];
      WithBacklogKeepsFlagged(s[1..]);
    }
  }

  /** The backlog count: the length of the filtered list. */
  function Backlogs(s: seq<SubjectMarks>): (r: nat)
    ensures r <= |s|
    ensures s == [] ==> r == 0
  {
    |WithBacklog(s)|
  }

  lemma {:induction false} SumAppend(a: seq<SubjectMarks>, b: seq<SubjectMarks>)
    ensures Sum(a + b) == Sum(a) + Sum(b)
    decreases |b|
  {
    if b == [] {
      assert a + b == a;
    } else {
      var init := b[..|b| - 1];
      assert (a + b)[..|a + b| - 1] == a + init;
      SumAppend(a, init);
    }
  }

  lemma {:induction false} WithBacklogAppend(a: seq<SubjectMarks>, b: seq<SubjectMarks>)
    ensures WithBacklog(a + b) == WithBacklog(a) + WithBacklog(b)
    decreases |a|
  {
    if a == [] {
      assert a + b == b;
    } else {
      assert (a + b)[0] == a[0];
      assert (a + b)[1..] == a[1..] + b;
      WithBacklogAppend(a[1..], b);
    }
  }

  /** The backlog count adds up over a split list. */
  lemma BacklogsAppend(a: seq<SubjectMarks>, b: seq<SubjectMarks>)
    ensures Backlogs(a + b) == Backlogs(a) + Backlogs(b)
  {
    WithBacklogAppend(a, b);
  }

  /** 1 if the row counts as a backlog, 0 otherwise. */
  function BacklogOf(x: SubjectMarks): nat {
    if x.hasBacklog then 1 else 0
  }

  lemma BacklogsSingle(x: SubjectMarks)
    ensures Backlogs([x]) == BacklogOf(x)
  {
    assert [x][1..] == [];
  }

  /** The backlog count never exceeds the number of subjects; it is 0 exactly when no row is flagged. */
  lemma {:induction false} BacklogsBounded(s: seq<SubjectMarks>)
    ensures 0 <= Backlogs(s) <= |s|
    ensures Backlogs(s) == 0 <==> forall j :: 0 <= j < |s| ==> !s[j].hasBacklog
    ensures Backlogs(s) == |s| <==> forall j :: 0 <= j < |s| ==> s[j].hasBacklog
    decreases |s|
  {
    if s != [] {
      assert s == [s[0]] + s[1..];
      BacklogsAppend([s[0]], s[1..]);
      BacklogsSingle(s[0]);
      BacklogsBounded(s[1..]);
      assert forall j :: 1 <= j < |s| ==> s[j] == s[1..][j - 1];
    }
  }

  /** When every mark lies in lo..hi, so does the sum divided by the count. */
  lemma {:induction false} SumBetween(s: seq<SubjectMarks>, lo: int, hi: int)
    requires forall j :: 0 <= j < |s| ==> lo <= s[j].marks <= hi
    ensures lo * |s| <= Sum(s) <= hi * |s|
    decreases |s|
  {
    if s != [] {
      SumBetween(s[..|s| - 1], lo, hi);
      assert lo * |s| == lo * (|s| - 1) + lo;
      assert hi * |s| == hi * (|s| - 1) + hi;
    }
  }

  /** An integer within half a unit of a mean that lies in lo..hi lies in lo..hi itself. */
  lemma NearestBetween(n: int, total: int, r: int, lo: int, hi: int)
    requires n >= 1
    requires lo * n <= total <= hi * n
    requires 2 * n * r - n <= 2 * total < 2 * n * r + n
    ensures lo <= r <= hi
  {
    assert n * (2 * (r - hi) - 1) <= 0;
    SignOfFactor(n, 2 * (r - hi) - 1);
    assert n * (2 * (lo - r) - 1) < 0;
    SignOfFactor(n, 2 * (lo - r) - 1);
  }

  lemma SignOfFactor(n: int, x: int)
    requires n >= 1
    ensures n * x <= 0 ==> x <= 0
  {
  }

  /** The rounded average of a non-empty list lies between the smallest and the largest possible mark. */
  lemma AvgMarksBetween(s: seq<SubjectMarks>, lo: int, hi: int)
    requires s != []
    requires forall j :: 0 <= j < |s| ==> lo <= s[j].marks <= hi
    ensures lo <= AvgMarks(s) <= hi
  {
    SumBetween(s, lo, hi);
    NearestBetween(|s|, Sum(s), AvgMarks(s), lo, hi);
  }

  /** With every mark on the 0..100 slider, the displayed average is a percentage too (0 for no subjects). */
  lemma AvgMarksInRange(s: seq<SubjectMarks>)
    requires forall j :: 0 <= j < |s| ==> 0 <= s[j].marks <= 100
    ensures 0 <= AvgMarks(s) <= 100
  {
    if s != [] {
      AvgMarksBetween(s, 0, 100);
    }
  }

  /** Adding a subject adds its 50 marks to the sum and leaves the backlog count alone. */
  lemma FiguresAfterAdd(s: seq<SubjectMarks>)
    ensures Sum(s + [NewSubject]) == Sum(s) + 50
    ensures Backlogs(s + [NewSubject]) == Backlogs(s)
  {
    assert (s + [NewSubject])[..|s|] == s;
    BacklogsAppend(s, [NewSubject]);
    BacklogsSingle(NewSubject);
  }

  /** The sum and the backlog count of a list split around row i. */
  lemma SumSplit(s: seq<SubjectMarks>, i: int)
    requires 0 <= i < |s|
    ensures Sum(s) == Sum(s[..i]) + s[i].marks + Sum(s[i + 1..])
  {
    var front, back := s[..i], s[i + 1..];
    var upTo := front + [s[i]];
    assert s == upTo + back;
    SumAppend(upTo, back);
    assert upTo[..|upTo| - 1] == front;
    assert Sum(upTo) == Sum(front) + s[i].marks;
  }

  lemma BacklogsSplit(s: seq<SubjectMarks>, i: int)
    requires 0 <= i < |s|
    ensures Backlogs(s) == Backlogs(s[..i]) + BacklogOf(s[i]) + Backlogs(s[i + 1..])
  {
    assert s == s[..i] + [s[i]] + s[i + 1..];
    BacklogsAppend(s[..i] + [s[i]], s[i + 1..]);
    BacklogsAppend(s[..i], [s[i]]);
    BacklogsSingle(s[i]);
  }

  /** Removing row i takes exactly its marks off the sum and its flag off the backlog count. */
  lemma FiguresAfterRemove(s: seq<SubjectMarks>, i: int)
    requires 0 <= i < |s|
    ensures Sum(RemovedAt(s, i)) == Sum(s) - s[i].marks
    ensures Backlogs(RemovedAt(s, i)) == Backlogs(s) - BacklogOf(s[i])
  {
    SumSplit(s, i);
    BacklogsSplit(s, i);
    assert RemovedAt(s, i) == s[..i] + s[i + 1..];
    SumAppend(s[..i], s[i + 1..]);
    BacklogsAppend(s[..i], s[i + 1..]);
  }

  /** Replacing row i changes the sum and the backlog count by that row's difference only. */
  lemma FiguresAfterReplace(s: seq<SubjectMarks>, i: int, x: SubjectMarks)
    requires 0 <= i < |s|
    ensures Sum(s[i := x]) == Sum(s) - s[i].marks + x.marks
    ensures Backlogs(s[i := x]) == Backlogs(s) - BacklogOf(s[i]) + BacklogOf(x)
  {
    SumSplit(s, i);
    BacklogsSplit(s, i);
    var t := s[i := x];
    SumSplit(t, i);
    BacklogsSplit(t, i);
    assert t[..i] == s[..i];
    assert t[i + 1..] == s[i + 1..];
  }

  // ---------------------------------------------------------------------
  // The form's initial state
  // ---------------------------------------------------------------------

  /** The data the form opens with; the name comes from the signed-in user, if any. */
  function InitialData(initialName: Option<string>): (r: StudentData)
    ensures initialName.Some? ==> r.fullName == initialName.value
    ensures initialName.None? ==> r.fullName == ""
    ensures |r.subjects| == 3
    ensures forall j :: 0 <= j < |r.subjects| ==> 0 <= r.subjects[j].marks <= 100
    ensures 1 <= r.semester <= 8 && 0 <= r.attendance <= 100
    ensures 1 <= r.stressLevel <= 10 && 0 <= r.studyHours <= 16 && 0 <= r.sleepHours <= 12
  {
    StudentData(
      Pick(initialName, ""),
      "",
      3,
      75,
      [SubjectMarks("Mathematics", 26, true),
       SubjectMarks("Physics", 83, false),
       SubjectMarks("Programming", 85, false)],
      8,
      6,
      7)
  }

  /** The opening form shows an average of 65 (194 / 3 rounded) and one backlog. */
  lemma InitialFigures(initialName: Option<string>)
    ensures AvgMarks(InitialData(initialName).subjects) == 65
    ensures Backlogs(InitialData(initialName).subjects) == 1
  {
    var s := InitialData(initialName).subjects;
    assert Sum(s[..1]) == 26 by { assert s[..1][..0] == []; }
    assert Sum(s[..2]) == 109 by { assert s[..2][..1] == s[..1]; }
    assert Sum(s) == 194 by { assert s[..|s| - 1] == s[..2]; }
    BacklogsAppend([s[0]], s[1..]);
    BacklogsAppend([s[1]], s[2..]);
    BacklogsSingle(s[0]);
    BacklogsSingle(s[1]);
    BacklogsSingle(s[2]);
    assert s[1..] == [s[1]] + s[2..];
    assert s[2..] == [s[2]];
  }

  /** All fields but the subject list agree (the `...formData` spread). */
  predicate SameDetails(a: StudentData, b: StudentData) {
    && a.fullName == b.fullName
    && a.rollNumber == b.rollNumber
    && a.semester == b.semester
    && a.attendance == b.attendance
    && a.stressLevel == b.stressLevel
    && a.studyHours == b.studyHours
    && a.sleepHours == b.sleepHours
  }

  /** The last step: its primary button submits instead of advancing. */
  const LastStep := 3

  /** The component's state: the wizard step and the data entered so far. */
  class AssessmentForm {
    var step: int
    var formData: StudentData

    /** The step is always one of the three pages. */
    predicate Valid()
      reads this
    {
      1 <= step <= LastStep
    }

    constructor (initialName: Option<string>)
      ensures Valid()
      ensures step == 1
      ensures formData == InitialData(initialName)
    {
      step := 1;
      formData := InitialData(initialName);
    }

    /** "Add Another Subject": one default row at the end. */
    method AddSubject()
      modifies this
      ensures step == old(step)
      ensures SameDetails(formData, old(formData))
      ensures formData.subjects == old(formData.subjects) + [NewSubject]
    {
      formData := formData.(subjects := formData.subjects + [NewSubject]);
    }

    /** The bin button of row `index`: `splice(index, 1)` on a copy of the list. */
    method RemoveSubject(index: int)
      modifies this
      ensures step == old(step)
      ensures SameDetails(formData, old(formData))
      ensures formData.subjects == RemovedAt(old(formData.subjects), index)
    {
      formData := formData.(subjects := RemovedAt(formData.subjects, index));
    }

    /** An edit of row `index`: the row becomes `{ ...row, ...update }`, the others stay. */
    method UpdateSubject(index: int, update: SubjectUpdate)
      requires 0 <= index < |formData.subjects|
      modifies this
      ensures step == old(step)
      ensures SameDetails(formData, old(formData))
      ensures |formData.subjects| == |old(formData.subjects)|
      ensures formData.subjects[index] == Merge(old(formData.subjects[index]), update)
      ensures forall j :: 0 <= j < |formData.subjects| && j != index ==>
                formData.subjects[j] == old(formData.subjects[j])
    {
      var subjects := formData.subjects;
      formData := formData.(subjects := subjects[index := Merge(subjects[index], update)]);
    }

    /** "Previous": disabled on the first step and while the analysis is loading. */
    method PressPrevious(isLoading: bool)
      requires Valid()
      modifies this
      ensures Valid()
      ensures formData == old(formData)
      ensures step == if old(step) == 1 || isLoading then old(step) else old(step) - 1
    {
      if !(step == 1 || isLoading) {
        step := step - 1;
      }
    }

    /**
     * "Next" / "Analyze Risk": disabled while loading; before the last step it
     * advances, on the last step it hands the form data to the submit callback,
     * which is returned here.
     */
    method PressPrimary(isLoading: bool) returns (submitted: Option<StudentData>)
      requires Valid()
      modifies this
      ensures Valid()
      ensures formData == old(formData)
      ensures isLoading ==> step == old(step) && submitted == None
      ensures !isLoading && old(step) < LastStep ==> step == old(step) + 1 && submitted == None
      ensures !isLoading && old(step) == LastStep ==> step == LastStep && submitted == Some(formData)
    {
      submitted := None;
      if !isLoading {
        if step < LastStep {
          step := step + 1;
        } else {
          submitted := Some(formData);
        }
      }
    }
  }
}
