/** The project form: its state (the form record, the loading flag, the error text)
    and the handlers that edit the budget rows and the references. Each handler is
    one atomic step; the budget rows are values, while every reference is an object
    that `handleReferenceChange` mutates in place. */
module ProjectForm {
  import opened Common
  import opened GptApi

  /** The form's one project type. */
  const DesignProjectType: string := "design"

  const SubmitErrorMessage: string := "Failed to generate brief. Please try again."

  /** A reference entry `{ type, value }`, an object that may be shared with the
      record the form was seeded from. */
  class RefEntry {
    var kind: RefType
    var value: string

    constructor (kind: RefType, value: string)
      ensures this.kind == kind && this.value == value
    {
      this.kind := kind;
      this.value := value;
    }
  }

  /** The form record. */
  datatype FormData = FormData(
    projectName: string,
    goals: string,
    deadline: string,
    budget: string,
    budgetBreakdown: seq<BudgetItem>,
    references: seq<RefEntry>)

  /** The text inputs `handleInputChange` serves, by their `name` attribute. */
  datatype Field = ProjectName | Goals | Deadline | Budget

  /** The two inputs of a budget row, by their `name` attribute. */
  datatype RowField = Item | Amount

  /** What `handleSubmit` passes to `onSubmit`: the record plus the project type. */
  datatype Submission = Submission(data: FormData, projectType: string)

  /** The form a fresh page starts with. */
  const BlankForm: FormData := FormData("", "", "", "", [BudgetItem("", "")], [])

  function FieldValue(d: FormData, name: Field): string
  {
    match name
    case ProjectName => d.projectName
    case Goals => d.goals
    case Deadline => d.deadline
    case Budget => d.budget
  }

  /** `{ ...d, [name]: value }` for a text input. */
  function WithField(d: FormData, name: Field, value: string): (r: FormData)
    ensures FieldValue(r, name) == value
    ensures forall other :: other != name ==> FieldValue(r, other) == FieldValue(d, other)
    ensures r.budgetBreakdown == d.budgetBreakdown && r.references == d.references
  {
    match name
    case ProjectName => d.(projectName := value)
    case Goals => d.(goals := value)
    case Deadline => d.(deadline := value)
    case Budget => d.(budget := value)
  }

  /** `{ ...row, [name]: value }` for a budget row. */
  function WithRowField(row: BudgetItem, name: RowField, value: string): (r: BudgetItem)
    ensures name == Item ==> r.item == value && r.amount == row.amount
    ensures name == Amount ==> r.amount == value && r.item == row.item
  {
    match name
    case Item => row.(item := value)
    case Amount => row.(amount := value)
  }

  /** `s.filter((_, j) => j !== i)`: every element whose index is not `i`, in order. */
  function WithoutIndex<T>(s: seq<T>, i: int): (r: seq<T>)
    ensures 0 <= i < |s| ==> r == s[..i] + s[i + 1..]
    ensures !(0 <= i < |s|) ==> r == s
    decreases |s|
  {
    if s == [] then []
    else (if i == 0 then [] else [s[0]]) + WithoutIndex(s[1..], i - 1)
  }

  /** No reference entry object appears twice. */
  ghost predicate DistinctEntries(entries: seq<RefEntry>)
  {
    forall i, j :: 0 <= i < j < |entries| ==> entries[i] != entries[j]
  }

  /** The value of each entry, as the `references` list reads at this moment. */
  function Snapshot(entries: seq<RefEntry>): (r: seq<Reference>)
    reads entries
    ensures |r| == |entries|
    ensures forall i :: 0 <= i < |entries| ==> r[i] == Reference(entries[i].kind, entries[i].value)
  {
    if entries == [] then [] else [Reference(entries[0].kind, entries[0].value)] + Snapshot(entries[1..])
  }

  /** Removing an entry removes its value from the snapshot, at the same index. */
  lemma {:induction false} SnapshotWithoutIndex(entries: seq<RefEntry>, i: int)
    ensures Snapshot(WithoutIndex(entries, i)) == WithoutIndex(Snapshot(entries), i)
    decreases |entries|
  {
    if entries != [] {
      SnapshotWithoutIndex(entries[1..], i - 1);
      var rest := WithoutIndex(entries[1..], i - 1);
      if i != 0 {
        assert WithoutIndex(entries, i) == [entries[0]] + rest;
        assert ([entries[0]] + rest)[1..] == rest;
        assert Snapshot(entries)[1..] == Snapshot(entries[1..]);
      } else {
        assert WithoutIndex(entries, i) == rest;
        assert Snapshot(entries)[1..] == Snapshot(entries[1..]);
      }
    }
  }

  /** Removing an entry keeps the others distinct. */
  lemma DistinctWithoutIndex(entries: seq<RefEntry>, i: int)
    requires DistinctEntries(entries)
    ensures DistinctEntries(WithoutIndex(entries, i))
  {
    if 0 <= i < |entries| {
      var r := WithoutIndex(entries, i);
      forall a, b | 0 <= a < b < |r| ensures r[a] != r[b] {
        var a' := if a < i then a else a + 1;
        var b' := if b < i then b else b + 1;
        assert r[a] == entries[a'] && r[b] == entries[b'];
      }
    }
  }

  class Form {
    var formData: FormData
    var showBudgetBreakdown: bool
    var isLoading: bool
    var error: Option<string>

    ghost predicate Valid()
      reads this
    {
      DistinctEntries(formData.references)
    }

    /** The references as the form shows them. */
    function References(): seq<Reference>
      reads this, formData.references
    {
      Snapshot(formData.references)
    }

    /** The initial state. Without initial data: empty text fields, one blank budget
        row and no references. With it: its fields, and its rows and reference entries
        as they are (an empty list is truthy, so it is kept). */
    constructor (initialData: Option<FormData>)
      requires initialData.Some? ==> DistinctEntries(initialData.value.references)
      ensures Valid()
      ensures initialData.None? ==> formData == BlankForm
      ensures initialData.Some? ==> formData == initialData.value
      ensures !showBudgetBreakdown && !isLoading && error == None
    {
      match initialData {
        case None =>
          formData := BlankForm;
        case Some(d) =>
          formData := FormData(
            if d.projectName != "" then d.projectName else "",
            if d.goals != "" then d.goals else "",
            if d.deadline != "" then d.deadline else "",
            if d.budget != "" then d.budget else "",
            d.budgetBreakdown,
            d.references);
      }
      showBudgetBreakdown := false;
      isLoading := false;
      error := None;
    }

    /** `handleInputChange`: only the named text field changes. */
    method HandleInputChange(name: Field, value: string)
      modifies this
      ensures formData == WithField(old(formData), name, value)
      ensures showBudgetBreakdown == old(showBudgetBreakdown) && isLoading == old(isLoading)
      ensures error == old(error)
    {
      formData := WithField(formData, name, value);
    }

    /** `handleBudgetBreakdownChange`: only field `name` of row `index` changes. The
        index is always that of a rendered row. */
    method HandleBudgetBreakdownChange(index: nat, name: RowField, value: string)
      requires index < |formData.budgetBreakdown|
      modifies this
      ensures formData == old(formData).(budgetBreakdown :=
        old(formData.budgetBreakdown)[index := WithRowField(old(formData.budgetBreakdown[index]), name, value)])
      ensures |formData.budgetBreakdown| == |old(formData.budgetBreakdown)|
      ensures forall j :: 0 <= j < |formData.budgetBreakdown| && j != index ==>
        formData.budgetBreakdown[j] == old(formData.budgetBreakdown[j])
      ensures showBudgetBreakdown == old(showBudgetBreakdown) && isLoading == old(isLoading)
      ensures error == old(error)
    {
      var rows := formData.budgetBreakdown;
      rows := rows[index := WithRowField(rows[index], name, value)];
      formData := formData.(budgetBreakdown := rows);
    }

    /** `addBudgetBreakdownItem`: one blank row at the end, earlier rows unchanged. */
    method AddBudgetBreakdownItem()
      modifies this
      ensures formData == old(formData).(budgetBreakdown := old(formData.budgetBreakdown) + [BudgetItem("", "")])
      ensures showBudgetBreakdown == old(showBudgetBreakdown) && isLoading == old(isLoading)
      ensures error == old(error)
    {
      formData := formData.(budgetBreakdown := formData.budgetBreakdown + [BudgetItem("", "")]);
    }

    /** `removeBudgetBreakdownItem`: exactly row `index` goes, the others keep their
        order; an index outside the list removes nothing. */
    method RemoveBudgetBreakdownItem(index: int)
      modifies this
      ensures formData == old(formData).(budgetBreakdown := WithoutIndex(old(formData.budgetBreakdown), index))
      ensures 0 <= index < |old(formData.budgetBreakdown)| ==>
        formData.budgetBreakdown == old(formData.budgetBreakdown[..index] + formData.budgetBreakdown[index + 1..])
      ensures !(0 <= index < |old(formData.budgetBreakdown)|) ==> formData == old(formData)
      ensures showBudgetBreakdown == old(showBudgetBreakdown) && isLoading == old(isLoading)
      ensures error == old(error)
    {
      formData := formData.(budgetBreakdown := WithoutIndex(formData.budgetBreakdown, index));
    }

    /** The "Show Budget Breakdown" checkbox. */
    method ToggleBudgetBreakdown()
      modifies this
      ensures showBudgetBreakdown == !old(showBudgetBreakdown)
      ensures formData == old(formData) && isLoading == old(isLoading) && error == old(error)
    {
      showBudgetBreakdown := !showBudgetBreakdown;
    }

    /** `handleAddReference`: a new entry `{ type: kind, value: '' }` at the end. */
    method HandleAddReference(kind: RefType)
      requires Valid()
      modifies this
      ensures Valid()
      ensures |formData.references| == |old(formData.references)| + 1
      ensures formData.references[..|old(formData.references)|] == old(formData.references)
      ensures fresh(formData.references[|old(formData.references)|])
      ensures References() == old(References()) + [Reference(kind, "")]
      ensures formData == old(formData).(references := formData.references)
      ensures showBudgetBreakdown == old(showBudgetBreakdown) && isLoading == old(isLoading)
      ensures error == old(error)
    {
      var entry := new RefEntry(kind, "");
      formData := formData.(references := formData.references + [entry]);
    }

    /** `handleReferenceChange`: the new value is written into entry `index` itself,
        the same object, so whoever else holds that entry sees it too. The list, the
        entry's type and every other entry are unchanged. The index is always that of
        a rendered entry. */
    method HandleReferenceChange(index: nat, value: string)
      requires Valid()
      requires index < |formData.references|
      modifies formData.references[index]
      ensures Valid()
      ensures formData.references[index].value == value
      ensures formData.references[index].kind == old(formData.references[index].kind)
      ensures References() == old(References())[index := Reference(old(formData.references[index].kind), value)]
    {
      formData.references[index].value := value;
    }

    /** `handleRemoveReference`: exactly entry `index` goes, the others keep their
        order; an index outside the list removes nothing. */
    method HandleRemoveReference(index: int)
      requires Valid()
      modifies this
      ensures Valid()
      ensures formData == old(formData).(references := WithoutIndex(old(formData.references), index))
      ensures References() == WithoutIndex(old(References()), index)
      ensures showBudgetBreakdown == old(showBudgetBreakdown) && isLoading == old(isLoading)
      ensures error == old(error)
    {
      var refs := formData.references;
      SnapshotWithoutIndex(refs, index);
      DistinctWithoutIndex(refs, index);
      formData := formData.(references := WithoutIndex(refs, index));
    }

    /** `handleImageUpload`, given what the upload produced. On success the URL is first
        written into entry `index` in place, and then entry `index` of the list is
        replaced by a new entry `{ type: 'image', value: url }`. On failure (the
        alert is not modelled) nothing changes. */
    method HandleImageUpload(index: nat, upload: Result<string, string>)
      requires Valid()
      requires index < |formData.references|
      modifies this, formData.references[index]
      ensures Valid()
      ensures upload.Err? ==> formData == old(formData) && References() == old(References())
      ensures upload.Ok? ==>
        && |formData.references| == |old(formData.references)|
        && fresh(formData.references[index])
        && (forall j :: 0 <= j < |formData.references| && j != index ==>
              formData.references[j] == old(formData.references[j]))
        && References() == old(References())[index := Reference(Image, upload.value)]
        && old(formData.references[index]).value == upload.value
        && old(formData.references[index]).kind == old(formData.references[index].kind)
      ensures formData.projectName == old(formData.projectName) && formData.goals == old(formData.goals)
      ensures formData.deadline == old(formData.deadline) && formData.budget == old(formData.budget)
      ensures formData.budgetBreakdown == old(formData.budgetBreakdown)
      ensures showBudgetBreakdown == old(showBudgetBreakdown) && isLoading == old(isLoading)
      ensures error == old(error)
    {
      match upload
      case Err(_) =>
      case Ok(url) =>
        var refs := formData.references;
        refs[index].value := url;
        var entry := new RefEntry(Image, url);
        formData := formData.(references := refs[index := entry]);
    }

    /** `handleSubmit`, given whether `onSubmit` threw. It passes the record and the
        project type `'design'`; afterwards the form is not loading, and it shows the
        error message exactly when the callback threw. */
    method HandleSubmit(callbackThrows: bool) returns (submitted: Submission)
      modifies this
      ensures submitted == Submission(old(formData), DesignProjectType)
      ensures !isLoading
      ensures error == (if callbackThrows then Some(SubmitErrorMessage) else None)
      ensures formData == old(formData) && showBudgetBreakdown == old(showBudgetBreakdown)
    {
      isLoading := true;
      error := None;
      submitted := Submission(formData, DesignProjectType);
      if callbackThrows {
        error := Some(SubmitErrorMessage);
      }
      isLoading := false;
    }
  }
}
