/**
 * The Holland-question admin page (src/pages/Admin/HollandQuestions.tsx): the
 * type filter and its counts, the edit dialog's form, the save rule and the id
 * a saved question gets.
 */
module AdminQuestions {
  import opened Wrappers
  import opened JsArray
  import opened JsString

  /** A question as the admin service returns it. */
  datatype AdminQuestion = AdminQuestion(id: int, text: string, typ: string)

  /** The dialog's `formData`; the id is edited as text. */
  datatype QuestionForm = QuestionForm(id: string, text: string, typ: string)

  /** What a save sends: a new question, or an update of the edited question's original id. */
  datatype Request = Create(data: AdminQuestion) | Update(target: int, data: AdminQuestion)

  const EmptyForm := QuestionForm("", "", "")
  const All := "all"

  /** The six filter buttons after "all", in their order on the page. */
  const TypeValues: seq<string> := ["R", "I", "A", "S", "E", "C"]

  /** The filter effect: "all" shows every question, any other value the questions of that type. */
  function Filtered(questions: seq<AdminQuestion>, filterType: string): (r: seq<AdminQuestion>)
    ensures filterType == All ==> r == questions
    ensures filterType != All ==> forall q :: q in r <==> q in questions && q.typ == filterType
    ensures filterType != All ==> forall q :: multiset(r)[q] == if q.typ == filterType then multiset(questions)[q] else 0
  {
    if filterType == All then questions
    else
      FilterMembersAll(questions, filterType);
      Filter(questions, (q: AdminQuestion) => q.typ == filterType)
  }

  /** The type filter keeps exactly the questions of that type, each as often as it occurs. */
  lemma FilterMembersAll(questions: seq<AdminQuestion>, t: string)
    ensures forall q :: q in Filter(questions, (q: AdminQuestion) => q.typ == t) <==> q in questions && q.typ == t
    ensures forall q :: multiset(Filter(questions, (q: AdminQuestion) => q.typ == t))[q] ==
                        (if q.typ == t then multiset(questions)[q] else 0)
  {
    var p := (q: AdminQuestion) => q.typ == t;
    forall q ensures q in Filter(questions, p) <==> q in questions && q.typ == t {
      FilterMembers(questions, p, q);
    }
    forall q ensures multiset(Filter(questions, p))[q] == if q.typ == t then multiset(questions)[q] else 0 {
      FilterCount(questions, p, q);
    }
  }

  /** The count on a type's button: `questions.filter(q => q.type === t).length`. */
  function TypeCount(questions: seq<AdminQuestion>, t: string): nat
  {
    |Filter(questions, (q: AdminQuestion) => q.typ == t)|
  }

  /** The six per-type counts, in button order. */
  function Counts(questions: seq<AdminQuestion>): (r: seq<nat>)
    ensures |r| == 6
  {
    Map(TypeValues, (t: string) => TypeCount(questions, t))
  }

  function Total(xs: seq<nat>): nat
  {
    if xs == [] then 0 else xs[0] + Total(xs[1..])
  }

  /** `!formData.type || !formData.text` rejects the save. */
  predicate CanSave(form: QuestionForm)
  {
    form.typ != "" && form.text != ""
  }

  /** `parseInt(formData.id) || Date.now()`: a missing, unreadable or zero id falls back to the time. */
  function SavedId(idField: string, now: int): (r: int)
    ensures r != now ==> ParseInt(idField) == Some(r) && r != 0
    ensures ParseInt(idField).Some? && ParseInt(idField).value != 0 ==> r == ParseInt(idField).value
  {
    match ParseInt(idField)
    case Some(n) => if n != 0 then n else now
    case None => now
  }

  /** The request a save sends at time `now`, or `None` when it is rejected. */
  function SaveRequest(form: QuestionForm, editing: Option<AdminQuestion>, now: int): (r: Option<Request>)
    ensures r.None? <==> !CanSave(form)
    ensures r.Some? ==> r.value.data == AdminQuestion(SavedId(form.id, now), form.text, form.typ)
    ensures r.Some? ==> (r.value.Update? <==> editing.Some?)
    ensures r.Some? && editing.Some? ==> r.value.target == editing.value.id
  {
    if !CanSave(form) then None
    else
      var data := AdminQuestion(SavedId(form.id, now), form.text, form.typ);
      if editing.Some? then Some(Update(editing.value.id, data)) else Some(Create(data))
  }

  /** The form filled from a question; the id becomes its decimal text. */
  function FormOf(q: AdminQuestion): QuestionForm
  {
    QuestionForm(IntToString(q.id), q.text, q.typ)
  }

  class QuestionsPage {
    var questions: seq<AdminQuestion>
    var filteredQuestions: seq<AdminQuestion>
    var filterType: string
    var formData: QuestionForm
    var editingQuestion: Option<AdminQuestion>
    var isDialogOpen: bool

    /** The filter effect has run for the current list and filter. */
    ghost predicate Valid()
      reads this
    {
      filteredQuestions == Filtered(questions, filterType)
    }

    /** The page once the question list has been fetched. */
    constructor(fetched: seq<AdminQuestion>)
      ensures Valid() && questions == fetched && filterType == All && filteredQuestions == fetched
      ensures formData == EmptyForm && editingQuestion == None && !isDialogOpen
    {
      questions := fetched;
      filterType := All;
      filteredQuestions := fetched;
      formData := EmptyForm;
      editingQuestion := None;
      isDialogOpen := false;
    }

    /** A filter button, with the effect that refilters the list. */
    method SetFilterType(t: string)
      modifies this`filterType, this`filteredQuestions
      ensures filterType == t && filteredQuestions == Filtered(questions, t) && Valid()
    {
      filterType := t;
      if t == All {
        filteredQuestions := questions;
      } else {
        filteredQuestions := Filter(questions, (q: AdminQuestion) => q.typ == t);
      }
    }

    /** `handleOpenDialog`: edit the given question, or start a new one. */
    method OpenDialog(question: Option<AdminQuestion>)
      modifies this`formData, this`editingQuestion, this`isDialogOpen
      ensures formData == if question.Some? then FormOf(question.value) else EmptyForm
      ensures editingQuestion == question && isDialogOpen
    {
      editingQuestion := question;
      formData := if question.Some? then FormOf(question.value) else EmptyForm;
      isDialogOpen := true;
    }

    /** `handleCloseDialog`: close and reset the form. */
    method CloseDialog()
      modifies this`formData, this`editingQuestion, this`isDialogOpen
      ensures formData == EmptyForm && editingQuestion == None && !isDialogOpen
    {
      isDialogOpen := false;
      editingQuestion := None;
      formData := EmptyForm;
    }

    /**
     * `handleSave` at time `now`: a rejected form sends nothing and changes
     * nothing; a request the service accepts closes the dialog, a failed one
     * leaves it as it was.
     */
    method Save(now: int, serviceOk: bool) returns (request: Option<Request>)
      modifies this`formData, this`editingQuestion, this`isDialogOpen
      ensures request == SaveRequest(old(formData), old(editingQuestion), now)
      ensures if request.Some? && serviceOk
              then formData == EmptyForm && editingQuestion == None && !isDialogOpen
              else formData == old(formData) && editingQuestion == old(editingQuestion) && isDialogOpen == old(isDialogOpen)
    {
      request := SaveRequest(formData, editingQuestion, now);
      if request.Some? && serviceOk {
        CloseDialog();
      }
    }
  }

  // ---- Filter and counts ----

  /** A type filter keeps the questions of that type in their original order. */
  lemma {:induction false} FilterKeepsOrder(questions: seq<AdminQuestion>, filterType: string)
    ensures Subsequence(Filtered(questions, filterType), questions)
  {
    if filterType == All {
      SubsequenceRefl(questions);
    } else {
      FilterSubsequence(questions, (q: AdminQuestion) => q.typ == filterType);
    }
  }

  /** Each type's count is the length of the list its filter button shows. */
  lemma CountIsFilteredLength(questions: seq<AdminQuestion>, k: int)
    requires 0 <= k < 6
    ensures Counts(questions)[k] == |Filtered(questions, TypeValues[k])|
  {
  }

  /** One question adds one to the count of its own type and nothing to the others. */
  lemma {:induction false} CountStep(q: AdminQuestion, rest: seq<AdminQuestion>, t: string)
    ensures TypeCount([q] + rest, t) == (if q.typ == t then 1 else 0) + TypeCount(rest, t)
  {
    assert ([q] + rest)[1..] == rest;
  }

  /** The six counts added up. */
  lemma {:induction false} CountsTotal(questions: seq<AdminQuestion>)
    ensures Total(Counts(questions)) ==
      TypeCount(questions, "R") + TypeCount(questions, "I") + TypeCount(questions, "A") +
      TypeCount(questions, "S") + TypeCount(questions, "E") + TypeCount(questions, "C")
  {
    var c := Counts(questions);
    assert c[0] == TypeCount(questions, "R") && c[1] == TypeCount(questions, "I");
    assert c[2] == TypeCount(questions, "A") && c[3] == TypeCount(questions, "S");
    assert c[4] == TypeCount(questions, "E") && c[5] == TypeCount(questions, "C");
    assert c[5..][1..] == [];
    assert Total(c[5..]) == c[5];
    assert Total(c[4..]) == c[4] + Total(c[5..]) by { assert c[4..][1..] == c[5..]; }
    assert Total(c[3..]) == c[3] + Total(c[4..]) by { assert c[3..][1..] == c[4..]; }
    assert Total(c[2..]) == c[2] + Total(c[3..]) by { assert c[2..][1..] == c[3..]; }
    assert Total(c[1..]) == c[1] + Total(c[2..]) by { assert c[1..][1..] == c[2..]; }
  }

  /** The six counts of a list whose questions all have one of the six types add up to its length. */
  lemma {:induction false} SixCountsCoverAll(questions: seq<AdminQuestion>)
    requires forall i :: 0 <= i < |questions| ==> questions[i].typ in TypeValues
    ensures TypeCount(questions, "R") + TypeCount(questions, "I") + TypeCount(questions, "A") +
            TypeCount(questions, "S") + TypeCount(questions, "E") + TypeCount(questions, "C") == |questions|
  {
    if questions != [] {
      var q, rest := questions[0], questions[1..];
      assert questions == [q] + rest;
      SixCountsCoverAll(rest);
      CountStep(q, rest, "R");
      CountStep(q, rest, "I");
      CountStep(q, rest, "A");
      CountStep(q, rest, "S");
      CountStep(q, rest, "E");
      CountStep(q, rest, "C");
    }
  }

  /** When every question has one of the six types, the six counts add up to the "all" count. */
  lemma {:induction false} CountsSumToTotal(questions: seq<AdminQuestion>)
    requires forall i :: 0 <= i < |questions| ==> questions[i].typ in TypeValues
    ensures Total(Counts(questions)) == |Filtered(questions, All)|
  {
    CountsTotal(questions);
    SixCountsCoverAll(questions);
  }

  // ---- Saving ----

  /** Saving needs a type and a text; an empty id field is allowed. */
  lemma SaveNeedsTypeAndText(text: string, typ: string, now: int)
    requires text != "" && typ != ""
    ensures SaveRequest(QuestionForm("", text, typ), None, now) == Some(Create(AdminQuestion(now, text, typ)))
    ensures SaveRequest(QuestionForm("", "", typ), None, now) == None
    ensures SaveRequest(QuestionForm("", text, ""), None, now) == None
  {
  }

  /** A question opened and saved unchanged keeps its id, unless that id is 0, which the time replaces. */
  lemma {:induction false} ReopenedIdRoundTrip(q: AdminQuestion, now: int)
    ensures q.id != 0 ==> SavedId(FormOf(q).id, now) == q.id
    ensures q.id == 0 ==> SavedId(FormOf(q).id, now) == now
  {
    ParseIntToString(q.id);
  }

  /**
   * `parseInt` reads the leading digits only: an id field holding a nonzero
   * number followed by other text ("12abc", say) saves as that number.
   */
  lemma {:induction false} SavedIdReadsLeadingDigits(n: int, rest: string, now: int)
    requires n != 0
    requires rest != [] && DigitValue(rest[0], 10).None? && rest[0] != 'x' && rest[0] != 'X'
    ensures SavedId(IntToString(n) + rest, now) == n
  {
    ParseIntPrefix(n, rest);
  }
}
