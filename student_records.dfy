/** The student records manager of 08_mvc/main.py: a table model over an
    ordered list of students, the add/edit dialog's value domain, and the
    application's add, edit and delete handlers, which reach the model
    through a sort/filter proxy. */
module StudentRecords {
  import opened Strings
  import opened Gui
  import opened Wrappers

  /** One student record; the defaults are those of the Python constructor. */
  datatype Student = Student(id: int := 0, name: string := "", age: int := 0, grade: string := "", major: string := "")

  /** A value the model hands to a view: Python returns an int, a str or a QColor. */
  datatype Variant = IntValue(i: int) | TextValue(s: string) | ColorValue(c: Color)

  /** A QModelIndex: invalid, or a cell of the table. */
  datatype ModelIndex = InvalidIndex | Index(row: int, column: int)

  /** The item roles the model distinguishes; every other role is `OtherRole`. */
  datatype ItemRole = DisplayRole | BackgroundRole | OtherRole

  datatype Orientation = Horizontal | Vertical

  /** What the model announces to its views. An insertion or a removal is one
      bracketed begin/end pair in Qt and one entry here. */
  datatype Signal =
    | RowsInserted(first: int, last: int)
    | RowsRemoved(first: int, last: int)
    | DataChanged(topLeft: ModelIndex, bottomRight: ModelIndex)

  const Headers: seq<string> := ["ID", "Name", "Age", "Grade", "Major"]

  /** Light green, the background of an "A" grade cell. */
  const HighlightColor := Color(220, 255, 220)

  /** The items of the dialog's grade combo box, in order. */
  const GradeOptions: seq<string> := ["A", "A-", "B+", "B", "B-", "C+", "C", "C-", "D+", "D", "F"]

  const MinId := 1
  const MaxId := 9999
  const MinAge := 16
  const MaxAge := 99

  /** The four records the model is seeded with. */
  function InitialStudents(): seq<Student> {
    [ Student(1, "Alice Smith", 20, "A", "Computer Science"),
      Student(2, "Bob Johnson", 19, "B", "Mathematics"),
      Student(3, "Carol White", 21, "A-", "Physics"),
      Student(4, "David Brown", 20, "C+", "Chemistry") ]
  }

  /** The display values of a record, one per header, in header order. */
  function Fields(s: Student): (cells: seq<Variant>)
    ensures |cells| == |Headers|
  {
    [IntValue(s.id), TextValue(s.name), IntValue(s.age), TextValue(s.grade), TextValue(s.major)]
  }

  /** Reads a record back from the display values of its row. */
  function StudentOfFields(cells: seq<Variant>): Option<Student> {
    if |cells| == 5 && cells[0].IntValue? && cells[1].TextValue? && cells[2].IntValue?
       && cells[3].TextValue? && cells[4].TextValue?
    then Some(Student(cells[0].i, cells[1].s, cells[2].i, cells[3].s, cells[4].s))
    else None
  }

  /** A row's display values lose nothing: the record can be read back from them. */
  lemma FieldsRoundTrip(s: Student)
    ensures StudentOfFields(Fields(s)) == Some(s)
  {
  }

  /** Python's `del s[k]`. */
  function RemoveAt<T>(s: seq<T>, k: int): (r: seq<T>)
    requires 0 <= k < |s|
    ensures |r| == |s| - 1
    ensures forall i :: 0 <= i < k ==> r[i] == s[i]
    ensures forall i :: k <= i < |r| ==> r[i] == s[i + 1]
  {
    s[..k] + s[k + 1..]
  }

  /** Removing a row deletes exactly that record and keeps every other one. */
  lemma RemoveAtMultiset<T>(s: seq<T>, k: int)
    requires 0 <= k < |s|
    ensures multiset(RemoveAt(s, k)) + multiset{s[k]} == multiset(s)
  {
    assert s == s[..k] + [s[k]] + s[k + 1..];
  }

  /** The table model: the ordered list of students, and the log of the
      signals it has emitted. */
  class StudentTableModel {
    var students: seq<Student>
    const headers: seq<string> := Headers
    ghost var signals: seq<Signal>

    /** The model is seeded with four students, each added at the end. */
    constructor ()
      ensures students == InitialStudents()
      ensures RowCount() == 4 && ColumnCount() == 5
      ensures signals == [RowsInserted(0, 0), RowsInserted(1, 1), RowsInserted(2, 2), RowsInserted(3, 3)]
    {
      students := [];
      signals := [];
      new;
      var added := AddStudent(Student(1, "Alice Smith", 20, "A", "Computer Science"));
      added := AddStudent(Student(2, "Bob Johnson", 19, "B", "Mathematics"));
      added := AddStudent(Student(3, "Carol White", 21, "A-", "Physics"));
      added := AddStudent(Student(4, "David Brown", 20, "C+", "Chemistry"));
    }

    function RowCount(): nat
      reads this
    {
      |students|
    }

    function ColumnCount(): nat {
      |headers|
    }

    /** The cell lookup. Qt hands `data` only valid indexes of this model, so
        a valid index names an existing row. */
    function Data(index: ModelIndex, role: ItemRole): (v: Option<Variant>)
      reads this
      requires index.Index? ==> 0 <= index.row < |students|
      ensures index.InvalidIndex? ==> v == None
      ensures index.Index? && role == DisplayRole ==>
        v == if 0 <= index.column < ColumnCount() then Some(Fields(students[index.row])[index.column]) else None
      ensures role == BackgroundRole ==>
        (v == Some(ColorValue(HighlightColor)) <==>
          index.Index? && index.column == 3 && StartsWith(students[index.row].grade, "A"))
      ensures role == BackgroundRole ==> v == None || v == Some(ColorValue(HighlightColor))
      ensures role.OtherRole? ==> v == None
    {
      if index.InvalidIndex? then None
      else match role
        case DisplayRole =>
          var student := students[index.row];
          var col := index.column;
          if col == 0 then Some(IntValue(student.id))
          else if col == 1 then Some(TextValue(student.name))
          else if col == 2 then Some(IntValue(student.age))
          else if col == 3 then Some(TextValue(student.grade))
          else if col == 4 then Some(TextValue(student.major))
          else None
        case BackgroundRole =>
          var student := students[index.row];
          if index.column == 3 && StartsWith(student.grade, "A") then Some(ColorValue(HighlightColor)) else None
        case OtherRole => None
    }

    /** Column titles; Qt asks for horizontal sections below `ColumnCount()`. */
    function HeaderData(section: int, orientation: Orientation, role: ItemRole): (h: Option<string>)
      requires role == DisplayRole && orientation == Horizontal ==> 0 <= section < |headers|
      ensures h.Some? <==> role == DisplayRole && orientation == Horizontal
      ensures h.Some? ==> h.value == Headers[section]
    {
      if role == DisplayRole && orientation == Horizontal then Some(headers[section]) else None
    }

    /** Appends a student; the insertion is announced at the old row count. */
    method AddStudent(student: Student) returns (ok: bool)
      modifies this
      ensures ok
      ensures students == old(students) + [student]
      ensures signals == old(signals) + [RowsInserted(|old(students)|, |old(students)|)]
    {
      var row := RowCount();
      students := students + [student];
      signals := signals + [RowsInserted(row, row)];
      return true;
    }

    /** Deletes the student at `row`, if there is one. */
    method RemoveStudent(row: int) returns (ok: bool)
      modifies this
      ensures ok <==> 0 <= row < |old(students)|
      ensures ok ==> students == RemoveAt(old(students), row) && signals == old(signals) + [RowsRemoved(row, row)]
      ensures !ok ==> students == old(students) && signals == old(signals)
    {
      if row < 0 || row >= RowCount() {
        return false;
      }
      students := students[..row] + students[row + 1..];
      signals := signals + [RowsRemoved(row, row)];
      return true;
    }

    /** Replaces the student at `row`, if there is one, and announces that
        every column of that row changed. */
    method UpdateStudent(row: int, student: Student) returns (ok: bool)
      modifies this
      ensures ok <==> 0 <= row < |old(students)|
      ensures ok ==> students == old(students)[row := student]
                     && signals == old(signals) + [DataChanged(Index(row, 0), Index(row, ColumnCount() - 1))]
      ensures !ok ==> students == old(students) && signals == old(signals)
    {
      if row < 0 || row >= RowCount() {
        return false;
      }
      students := students[row := student];
      signals := signals + [DataChanged(Index(row, 0), Index(row, ColumnCount() - 1))];
      return true;
    }
  }

  /** Of the grades the dialog offers, exactly "A" and "A-" are highlighted. */
  lemma HighlightedGrades(g: string)
    requires g in GradeOptions
    ensures StartsWith(g, "A") <==> g == "A" || g == "A-"
  {
    assert StartsWith(g, "A") <==> |g| > 0 && g[0] == 'A' by {
      if |g| > 0 { assert g[..1] == [g[0]]; }
    }
  }

  /** QSpinBox's setValue: a value outside the range is moved to its nearer end. */
  function Clamp(v: int, lo: int, hi: int): (r: int)
    requires lo <= hi
    ensures lo <= r <= hi
    ensures lo <= v <= hi ==> r == v
    ensures v < lo ==> r == lo
    ensures v > hi ==> r == hi
  {
    if v < lo then lo else if v > hi then hi else v
  }

  /** QComboBox's findText (exact, case-sensitive): the first index of
      `text`, or -1. */
  function FindText(items: seq<string>, text: string): (r: int)
    ensures -1 <= r < |items|
    ensures r == -1 <==> text !in items
    ensures r >= 0 ==> items[r] == text && text !in items[..r]
  {
    if |items| == 0 then -1
    else if items[0] == text then 0
    else
      var k := FindText(items[1..], text);
      if k == -1 then -1
      else
        assert items[..k + 1] == [items[0]] + items[1..][..k];
        k + 1
  }

  /** The records the dialog can produce. */
  predicate InDialogDomain(s: Student) {
    && MinId <= s.id <= MaxId && MinAge <= s.age <= MaxAge && s.grade in GradeOptions
    && Utf16Length(s.name) <= MaxLength && Utf16Length(s.major) <= MaxLength
  }

  /** One thing a user does in the dialog. A spin box takes any typed number
      to its range, a line edit keeps at most `MaxLength` UTF-16 code units of the
      text, and the combo box only offers its own items. */
  datatype DialogInput =
    | EnterId(id: int)
    | EnterName(name: string)
    | EnterAge(age: int)
    | ChooseGrade(index: int)
    | EnterMajor(major: string)
  {
    predicate Offered() {
      ChooseGrade? ==> 0 <= index < |GradeOptions|
    }
  }

  predicate AllOffered(inputs: seq<DialogInput>) {
    forall i :: 0 <= i < |inputs| ==> inputs[i].Offered()
  }

  /** The values held by the dialog's widgets: the id and age spin boxes,
      the name and major line edits, the grade combo box's current index. */
  datatype StudentDialog = StudentDialog(idValue: int, name: string, ageValue: int, gradeIndex: int, major: string)
  {
    /** The ranges the widgets enforce. */
    predicate Valid() {
      && MinId <= idValue <= MaxId && MinAge <= ageValue <= MaxAge && 0 <= gradeIndex < |GradeOptions|
      && Utf16Length(name) <= MaxLength && Utf16Length(major) <= MaxLength
    }

    function Edit(input: DialogInput): (d: StudentDialog)
      requires Valid() && input.Offered()
      ensures d.Valid()
    {
      match input
      case EnterId(v) => this.(idValue := Clamp(v, MinId, MaxId))
      case EnterName(t) => this.(name := LineEditText(t))
      case EnterAge(v) => this.(ageValue := Clamp(v, MinAge, MaxAge))
      case ChooseGrade(i) => this.(gradeIndex := i)
      case EnterMajor(t) => this.(major := LineEditText(t))
    }

    /** The widgets after the user's inputs, in order. */
    function Run(inputs: seq<DialogInput>): (d: StudentDialog)
      requires Valid() && AllOffered(inputs)
      ensures d.Valid()
      decreases |inputs|
    {
      if inputs == [] then this else Edit(inputs[0]).Run(inputs[1..])
    }

    /** `get_student`: a record made of the widgets' current values. */
    function GetStudent(): (s: Student)
      requires Valid()
      ensures InDialogDomain(s)
    {
      Student(id := idValue, name := name, age := ageValue, grade := GradeOptions[gradeIndex], major := major)
    }
  }

  /** The dialog as `__init__` leaves it: spin boxes at their lower bounds,
      the first grade selected, and, when editing, the record's values. */
  function OpenDialog(student: Option<Student>): (d: StudentDialog)
    ensures d.Valid()
    ensures student.None? ==> d.GetStudent() == Student(id := MinId, age := MinAge, grade := "A")
  {
    var blank := StudentDialog(Clamp(0, MinId, MaxId), "", Clamp(0, MinAge, MaxAge), 0, "");
    match student
    case None => blank
    case Some(s) =>
      var index := FindText(GradeOptions, s.grade);
      blank.(idValue := Clamp(s.id, MinId, MaxId), name := LineEditText(s.name), ageValue := Clamp(s.age, MinAge, MaxAge),
             gradeIndex := if index >= 0 then index else blank.gradeIndex, major := LineEditText(s.major))
  }

  /** Opening the edit dialog and accepting it unchanged gives back the same
      record exactly when that record lies in the dialog's domain. */
  lemma EditDialogRoundTrip(s: Student)
    ensures OpenDialog(Some(s)).GetStudent() == s <==> InDialogDomain(s)
  {
    var index := FindText(GradeOptions, s.grade);
    if InDialogDomain(s) {
      assert GradeOptions[index] == s.grade;
    }
  }

  /** Inputs that fill a blank dialog with `s`, choosing grade item `k`. */
  function InputsFor(s: Student, k: int): seq<DialogInput> {
    [EnterId(s.id), EnterName(s.name), EnterAge(s.age), ChooseGrade(k), EnterMajor(s.major)]
  }

  lemma InputsProduce(s: Student, k: int)
    requires InDialogDomain(s) && 0 <= k < |GradeOptions| && GradeOptions[k] == s.grade
    ensures AllOffered(InputsFor(s, k))
    ensures OpenDialog(None).Run(InputsFor(s, k)).GetStudent() == s
  {
    var inputs := InputsFor(s, k);
    var d0 := OpenDialog(None);
    var d1 := d0.Edit(inputs[0]);
    var d2 := d1.Edit(inputs[1]);
    var d3 := d2.Edit(inputs[2]);
    var d4 := d3.Edit(inputs[3]);
    var d5 := d4.Edit(inputs[4]);
    assert d4.Run(inputs[4..]) == d5.Run([]) == d5;
    assert d3.Run(inputs[3..]) == d4.Run(inputs[4..]);
    assert d2.Run(inputs[2..]) == d3.Run(inputs[3..]);
    assert d1.Run(inputs[1..]) == d2.Run(inputs[2..]);
    assert d0.Run(inputs) == d1.Run(inputs[1..]);
    assert d5 == StudentDialog(s.id, s.name, s.age, k, s.major);
  }

  /** The dialog's domain is exactly what it can produce: `GetStudent` only
      yields records of the domain, and every record of the domain is the
      result of some inputs to a blank "Add Student" dialog. */
  lemma DialogDomainReachable(s: Student)
    requires InDialogDomain(s)
    ensures exists inputs :: AllOffered(inputs) && OpenDialog(None).Run(inputs).GetStudent() == s
  {
    var k :| 0 <= k < |GradeOptions| && GradeOptions[k] == s.grade;
    InputsProduce(s, k);
  }

  /** The seed records can all be edited without change. */
  lemma InitialStudentsEditable()
    ensures forall i :: 0 <= i < |InitialStudents()| ==> InDialogDomain(InitialStudents()[i])
  {
  }

  /** The one fact the handlers use about the sort/filter proxy: it maps each
      of its rows to a distinct row of the source model. */
  datatype ProxyMap = ProxyMap(sourceRows: seq<int>)
  {
    predicate Valid(rowCount: int) {
      && (forall i :: 0 <= i < |sourceRows| ==> 0 <= sourceRows[i] < rowCount)
      && (forall i, j :: 0 <= i < j < |sourceRows| ==> sourceRows[i] != sourceRows[j])
    }

    function MapToSource(proxyRow: int): int
      requires 0 <= proxyRow < |sourceRows|
    {
      sourceRows[proxyRow]
    }
  }

  /** A proxy never shows more rows than the source model has. */
  lemma {:induction false} ProxyRowsBounded(p: ProxyMap, rowCount: nat)
    requires p.Valid(rowCount)
    ensures |p.sourceRows| <= rowCount
    decreases rowCount
  {
    var s := p.sourceRows;
    if |s| > 0 {
      assert 0 <= s[0] < rowCount;
      var m := rowCount - 1;
      if k :| 0 <= k < |s| && s[k] == m {
        var t := RemoveAt(s, k);
        forall i | 0 <= i < |t|
          ensures 0 <= t[i] < m
        {
          if i < k { assert t[i] == s[i]; } else { assert t[i] == s[i + 1]; }
        }
        forall i, j | 0 <= i < j < |t|
          ensures t[i] != t[j]
        {
          var i' := if i < k then i else i + 1;
          var j' := if j < k then j else j + 1;
          assert t[i] == s[i'] && t[j] == s[j'] && i' < j';
        }
        ProxyRowsBounded(ProxyMap(t), m);
      } else {
        ProxyRowsBounded(p, m);
      }
    }
  }

  /** The main window's handlers. Each reads the model through the proxy's
      current mapping; Qt keeps that mapping, so it is passed in. */
  class StudentRecordsApp {
    const model: StudentTableModel

    constructor ()
      ensures fresh(model) && model.students == InitialStudents()
    {
      model := new StudentTableModel();
    }

    /** "Add Student": opens a blank dialog and, if the user accepts it,
        appends the dialog's record. */
    method AddStudent(inputs: seq<DialogInput>, accepted: bool)
      requires AllOffered(inputs)
      modifies model
      ensures accepted ==>
        model.students == old(model.students) + [OpenDialog(None).Run(inputs).GetStudent()]
        && model.signals == old(model.signals) + [RowsInserted(|old(model.students)|, |old(model.students)|)]
      ensures !accepted ==> model.students == old(model.students) && model.signals == old(model.signals)
    {
      var dialog := OpenDialog(None).Run(inputs);
      if accepted {
        var newStudent := dialog.GetStudent();
        var ok := model.AddStudent(newStudent);
      }
    }

    /** "Edit Student": the first selected proxy row is translated to a
        source row, and that row of the model is the one replaced. */
    method EditStudent(proxy: ProxyMap, selection: seq<int>, inputs: seq<DialogInput>, accepted: bool)
      returns (warned: bool)
      requires proxy.Valid(|model.students|)
      requires forall i :: 0 <= i < |selection| ==> 0 <= selection[i] < |proxy.sourceRows|
      requires AllOffered(inputs)
      modifies model
      ensures warned <==> |selection| == 0
      ensures |selection| == 0 || !accepted ==>
        model.students == old(model.students) && model.signals == old(model.signals)
      ensures |selection| > 0 && accepted ==>
        var row := proxy.sourceRows[selection[0]];
        && model.students == old(model.students)[row := OpenDialog(Some(old(model.students)[row])).Run(inputs).GetStudent()]
        && model.signals == old(model.signals) + [DataChanged(Index(row, 0), Index(row, |Headers| - 1))]
    {
      if |selection| == 0 {
        return true;
      }
      var proxyRow := selection[0];
      var sourceRow := proxy.MapToSource(proxyRow);
      var student := model.students[sourceRow];
      var dialog := OpenDialog(Some(student)).Run(inputs);
      if accepted {
        var updated := dialog.GetStudent();
        var ok := model.UpdateStudent(sourceRow, updated);
      }
      return false;
    }

    /** "Delete Student": the first selected proxy row is translated to a
        source row; the confirmation names that row's student, and that row
        is the one removed. */
    method DeleteStudent(proxy: ProxyMap, selection: seq<int>, confirmed: bool)
      returns (warned: bool, question: Option<string>)
      requires proxy.Valid(|model.students|)
      requires forall i :: 0 <= i < |selection| ==> 0 <= selection[i] < |proxy.sourceRows|
      modifies model
      ensures warned <==> |selection| == 0
      ensures |selection| == 0 ==> question == None
      ensures |selection| == 0 || !confirmed ==>
        model.students == old(model.students) && model.signals == old(model.signals)
      ensures |selection| > 0 ==>
        var row := proxy.sourceRows[selection[0]];
        && question == Some("Are you sure you want to delete " + old(model.students)[row].name + "?")
        && (confirmed ==>
              model.students == RemoveAt(old(model.students), row)
              && model.signals == old(model.signals) + [RowsRemoved(row, row)])
    {
      if |selection| == 0 {
        return true, None;
      }
      var proxyRow := selection[0];
      var sourceRow := proxy.MapToSource(proxyRow);
      var student := model.students[sourceRow];
      question := Some("Are you sure you want to delete " + student.name + "?");
      if confirmed {
        var ok := model.RemoveStudent(sourceRow);
      }
      warned := false;
    }
  }
}
