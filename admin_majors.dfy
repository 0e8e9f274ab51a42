/**
 * The majors admin page (src/pages/Admin/Majors.tsx): the edit dialog's form,
 * the checkbox lists of exam blocks and Holland types, and the save rule.
 */
module AdminMajors {
  import opened Wrappers
  import opened JsArray

  /** A major as the admin service returns it. */
  datatype AdminMajor = AdminMajor(id: Option<string>, name: string, description: string,
                                   examBlocks: seq<string>, hollandTypes: seq<string>,
                                   characteristics: Option<string>)

  /** The dialog's `formData`. */
  datatype MajorForm = MajorForm(name: string, description: string, characteristics: string,
                                 examBlocks: seq<string>, hollandTypes: seq<string>)

  /** What a save sends to the admin service: a new major, or an update of the one being edited. */
  datatype Request = Create(data: MajorForm) | Update(id: Option<string>, data: MajorForm)

  const EmptyForm := MajorForm("", "", "", [], [])

  /** The form filled from a major; missing characteristics read as ''. */
  function FormOf(m: AdminMajor): MajorForm
  {
    MajorForm(m.name, m.description, if m.characteristics.Some? then m.characteristics.value else "",
              m.examBlocks, m.hollandTypes)
  }

  /** A checkbox change: checking appends the id, unchecking drops every copy of it. */
  function CheckboxChange(list: seq<string>, id: string, checked: bool): (r: seq<string>)
    ensures checked ==> |r| == |list| + 1
    ensures !checked ==> |r| <= |list|
  {
    if checked then list + [id] else Filter(list, (x: string) => x != id)
  }

  /** `!formData.name || !formData.description` rejects the save. */
  predicate CanSave(form: MajorForm)
  {
    form.name != "" && form.description != ""
  }

  /** The request a save sends, or `None` when it is rejected before any request. */
  function SaveRequest(form: MajorForm, editing: Option<AdminMajor>): (r: Option<Request>)
    ensures r.None? <==> !CanSave(form)
    ensures r.Some? ==> r.value.data == form && (r.value.Update? <==> editing.Some?)
  {
    if !CanSave(form) then None
    else if editing.Some? then Some(Update(editing.value.id, form))
    else Some(Create(form))
  }

  class MajorsPage {
    var formData: MajorForm
    var editingMajor: Option<AdminMajor>
    var isDialogOpen: bool

    constructor()
      ensures formData == EmptyForm && editingMajor == None && !isDialogOpen
    {
      formData := EmptyForm;
      editingMajor := None;
      isDialogOpen := false;
    }

    /** `handleOpenDialog`: edit the given major, or start a new one. */
    method OpenDialog(major: Option<AdminMajor>)
      modifies this
      ensures formData == if major.Some? then FormOf(major.value) else EmptyForm
      ensures editingMajor == major && isDialogOpen
    {
      if major.Some? {
        editingMajor := major;
        formData := FormOf(major.value);
      } else {
        editingMajor := None;
        formData := EmptyForm;
      }
      isDialogOpen := true;
    }

    /** `handleCloseDialog`: close and reset the form. */
    method CloseDialog()
      modifies this
      ensures formData == EmptyForm && editingMajor == None && !isDialogOpen
    {
      isDialogOpen := false;
      editingMajor := None;
      formData := EmptyForm;
    }

    /** `handleExamBlockChange`: only the exam-block list changes. */
    method ExamBlockChange(examBlockId: string, checked: bool)
      modifies this`formData
      ensures formData == old(formData).(examBlocks := CheckboxChange(old(formData).examBlocks, examBlockId, checked))
    {
      formData := formData.(examBlocks := CheckboxChange(formData.examBlocks, examBlockId, checked));
    }

    /** `handleHollandTypeChange`: only the Holland-type list changes. */
    method HollandTypeChange(typ: string, checked: bool)
      modifies this`formData
      ensures formData == old(formData).(hollandTypes := CheckboxChange(old(formData).hollandTypes, typ, checked))
    {
      formData := formData.(hollandTypes := CheckboxChange(formData.hollandTypes, typ, checked));
    }

    /**
     * `handleSave`: a rejected form sends nothing and changes nothing; otherwise
     * the request is sent and, when the service accepts it (`serviceOk`), the
     * dialog closes and the form is reset. A failed request leaves the dialog as it was.
     */
    method Save(serviceOk: bool) returns (request: Option<Request>)
      modifies this
      ensures request == SaveRequest(old(formData), old(editingMajor))
      ensures if request.Some? && serviceOk
              then formData == EmptyForm && editingMajor == None && !isDialogOpen
              else formData == old(formData) && editingMajor == old(editingMajor) && isDialogOpen == old(isDialogOpen)
    {
      request := SaveRequest(formData, editingMajor);
      if request.Some? && serviceOk {
        CloseDialog();
      }
    }
  }

  // ---- The checkbox lists ----

  /** Checking appends the id at the end, even when it is already in the list. */
  lemma {:induction false} CheckAppends(list: seq<string>, id: string)
    ensures CheckboxChange(list, id, true)[..|list|] == list
    ensures CheckboxChange(list, id, true)[|list|] == id
    ensures multiset(CheckboxChange(list, id, true))[id] == multiset(list)[id] + 1
  {
    assert CheckboxChange(list, id, true) == list + [id];
  }

  /**
   * Unchecking removes every copy of the id and keeps each other entry, as
   * often as it occurred and in its order.
   */
  lemma {:induction false} UncheckRemovesAll(list: seq<string>, id: string)
    ensures id !in CheckboxChange(list, id, false)
    ensures forall x :: x != id ==> multiset(CheckboxChange(list, id, false))[x] == multiset(list)[x]
    ensures Subsequence(CheckboxChange(list, id, false), list)
  {
    var p := (x: string) => x != id;
    FilterMembers(list, p, id);
    forall x | x != id ensures multiset(Filter(list, p))[x] == multiset(list)[x] {
      FilterCount(list, p, x);
    }
    FilterSubsequence(list, p);
  }

  /** Unchecking after checking removes the id altogether, whatever copies there were. */
  lemma {:induction false} CheckThenUncheck(list: seq<string>, id: string)
    ensures CheckboxChange(CheckboxChange(list, id, true), id, false) == CheckboxChange(list, id, false)
  {
    var p := (x: string) => x != id;
    FilterConcat(list, [id], p);
    assert Filter([id], p) == [];
  }

  /** Unchecking twice is unchecking once. */
  lemma {:induction false} UncheckIdempotent(list: seq<string>, id: string)
    ensures CheckboxChange(CheckboxChange(list, id, false), id, false) == CheckboxChange(list, id, false)
  {
    var p := (x: string) => x != id;
    var r := Filter(list, p);
    FilterMembers(list, p, id);
    forall i | 0 <= i < |r| ensures p(r[i]) {
      assert r[i] in r;
      FilterMembers(list, p, r[i]);
    }
    FilterAll(r, p);
  }

  // ---- Saving ----

  /** Only the name and the description are required: characteristics and both lists may be empty. */
  lemma SaveNeedsNameAndDescription(name: string, description: string)
    requires name != "" && description != ""
    ensures SaveRequest(MajorForm(name, description, "", [], []), None) ==
            Some(Create(MajorForm(name, description, "", [], [])))
    ensures SaveRequest(MajorForm("", description, "", [], []), None) == None
    ensures SaveRequest(MajorForm(name, "", "", [], []), None) == None
  {
  }

  /**
   * Opening a major and saving it unchanged sends an update of that major with
   * its own fields; only missing characteristics become ''.
   */
  lemma {:induction false} ReopenedMajorSavesItself(m: AdminMajor)
    requires m.name != "" && m.description != ""
    ensures SaveRequest(FormOf(m), Some(m)).Some?
    ensures SaveRequest(FormOf(m), Some(m)).value.Update?
    ensures SaveRequest(FormOf(m), Some(m)).value.id == m.id
    ensures var d := SaveRequest(FormOf(m), Some(m)).value.data;
      d.name == m.name && d.description == m.description && d.examBlocks == m.examBlocks &&
      d.hollandTypes == m.hollandTypes && (m.characteristics.Some? ==> d.characteristics == m.characteristics.value)
  {
  }

  /** Whatever was edited, opening then closing the dialog leaves an empty, closed form. */
  method OpenThenClose(major: Option<AdminMajor>) returns (form: MajorForm, open: bool)
    ensures form == EmptyForm && !open
  {
    var page := new MajorsPage();
    page.OpenDialog(major);
    page.ExamBlockChange("A00", true);
    page.CloseDialog();
    form, open := page.formData, page.isDialogOpen;
  }
}
