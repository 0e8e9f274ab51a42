/**
 * The exam-block admin page (src/pages/Admin/ExamBlocks.tsx): the dialog's
 * form, where the block's subjects are edited as one comma-separated text that
 * the save parses back into a list.
 */
module AdminExamBlocks {
  import opened Wrappers
  import opened JsArray
  import opened JsString

  /** A block as the admin service returns it; `mongoId` is its `_id`. */
  datatype AdminBlock = AdminBlock(mongoId: Option<string>, id: string, name: string,
                                   subjects: seq<string>, description: Option<string>)

  /** The dialog's `formData`. */
  datatype BlockForm = BlockForm(id: string, name: string, subjects: string, description: string)

  /** The block data a save sends. */
  datatype BlockData = BlockData(id: string, name: string, subjects: seq<string>, description: string)

  /** What a save sends: a new block, or an update of the edited block's `_id`. */
  datatype Request = Create(data: BlockData) | Update(target: Option<string>, data: BlockData)

  const EmptyForm := BlockForm("", "", "", "")
  const ListSeparator := ", "

  predicate NonEmpty(s: string)
  {
    s != ""
  }

  /** `subjects.split(',').map(s => s.trim()).filter(s => s)`. */
  function ParseSubjects(text: string): (r: seq<string>)
    ensures forall k :: 0 <= k < |r| ==> r[k] != ""
  {
    var parts := Map(Split(text, ","), Trim);
    var r := Filter(parts, NonEmpty);
    forall k | 0 <= k < |r| ensures r[k] != "" {
      assert r[k] in r;
      FilterMembers(parts, NonEmpty, r[k]);
    }
    r
  }

  /** `subjects.join(', ')`. */
  function FormatSubjects(subjects: seq<string>): string
  {
    Join(subjects, ListSeparator)
  }

  /** The form filled from a block; a missing description reads as ''. */
  function FormOf(b: AdminBlock): BlockForm
  {
    BlockForm(b.id, b.name, FormatSubjects(b.subjects), if b.description.Some? then b.description.value else "")
  }

  /** The request a save sends; there is no required field. */
  function SaveRequest(form: BlockForm, editing: Option<AdminBlock>): (r: Request)
    ensures r.data == BlockData(form.id, form.name, ParseSubjects(form.subjects), form.description)
    ensures r.Update? <==> editing.Some?
    ensures r.Update? ==> r.target == editing.value.mongoId
  {
    var data := BlockData(form.id, form.name, ParseSubjects(form.subjects), form.description);
    if editing.Some? then Update(editing.value.mongoId, data) else Create(data)
  }

  class ExamBlocksPage {
    var formData: BlockForm
    var editingBlock: Option<AdminBlock>
    var isDialogOpen: bool

    constructor()
      ensures formData == EmptyForm && editingBlock == None && !isDialogOpen
    {
      formData := EmptyForm;
      editingBlock := None;
      isDialogOpen := false;
    }

    /** `handleOpenDialog`: edit the given block, or start a new one. */
    method OpenDialog(block: Option<AdminBlock>)
      modifies this
      ensures formData == if block.Some? then FormOf(block.value) else EmptyForm
      ensures editingBlock == block && isDialogOpen
    {
      editingBlock := block;
      formData := if block.Some? then FormOf(block.value) else EmptyForm;
      isDialogOpen := true;
    }

    /** `handleCloseDialog`: close and reset all four fields to ''. */
    method CloseDialog()
      modifies this
      ensures formData == EmptyForm && editingBlock == None && !isDialogOpen
    {
      isDialogOpen := false;
      editingBlock := None;
      formData := EmptyForm;
    }

    /** `handleSave`: the request is always sent; the dialog closes when the service accepts it. */
    method Save(serviceOk: bool) returns (request: Request)
      modifies this
      ensures request == SaveRequest(old(formData), old(editingBlock))
      ensures if serviceOk
              then formData == EmptyForm && editingBlock == None && !isDialogOpen
              else formData == old(formData) && editingBlock == old(editingBlock) && isDialogOpen == old(isDialogOpen)
    {
      request := SaveRequest(formData, editingBlock);
      if serviceOk {
        CloseDialog();
      }
    }
  }

  // ---- Parsing the subject list ----

  /** Every parsed subject is trimmed at both ends. */
  lemma {:induction false} ParsedSubjectsTrimmed(text: string)
    ensures forall k :: 0 <= k < |ParseSubjects(text)| ==> Trimmed(ParseSubjects(text)[k])
  {
    var fragments := Split(text, ",");
    var parts := Map(fragments, Trim);
    var r := ParseSubjects(text);
    forall j | 0 <= j < |parts| ensures Trimmed(parts[j]) {
      TrimIsTrimmed(fragments[j]);
    }
    forall k | 0 <= k < |r| ensures Trimmed(r[k]) {
      assert r[k] in r;
      FilterMembers(parts, NonEmpty, r[k]);
    }
  }

  /**
   * The parsed subjects are the non-empty trimmed fragments, in the order of
   * the text and each as often as it occurs there.
   */
  lemma {:induction false} ParsedSubjectsInOrder(text: string)
    ensures Subsequence(ParseSubjects(text), Map(Split(text, ","), Trim))
    ensures forall x :: x in ParseSubjects(text) <==> x in Map(Split(text, ","), Trim) && x != ""
    ensures forall x :: multiset(ParseSubjects(text))[x] == if x != "" then multiset(Map(Split(text, ","), Trim))[x] else 0
  {
    var parts := Map(Split(text, ","), Trim);
    FilterSubsequence(parts, NonEmpty);
    forall x ensures x in ParseSubjects(text) <==> x in parts && x != "" {
      FilterMembers(parts, NonEmpty, x);
    }
    forall x ensures multiset(ParseSubjects(text))[x] == if x != "" then multiset(parts)[x] else 0 {
      FilterCount(parts, NonEmpty, x);
    }
  }

  /** Each fragment of a split on "," is made of characters of the text other than ','. */
  lemma {:induction false} SplitFragmentChars(s: string)
    ensures forall f, c :: f in Split(s, ",") && c in f ==> c in s && c != ','
    decreases |s|
  {
    if s != [] {
      if At(s, 0, ",") {
        SplitFragmentChars(s[1..]);
      } else {
        SplitFragmentChars(s[1..]);
        var rest := Split(s[1..], ",");
        assert s[0] != ',' by { assert s[0..1] != ","; }
        forall f, c | f in Split(s, ",") && c in f ensures c in s && c != ',' {
          if f == [s[0]] + rest[0] {
            if c != s[0] {
              assert c in rest[0];
              assert rest[0] in rest;
            }
          } else {
            assert f in rest[1..];
            assert f in rest;
          }
        }
      }
    }
  }

  /** Trimming white space alone leaves nothing. */
  lemma {:induction false} TrimAllSpace(f: string)
    requires forall c :: c in f ==> IsSpace(c)
    ensures Trim(f) == ""
  {
    var a := TrimStart(f);
    assert a == [];
  }

  /** A text of white space and commas alone gives no subject. */
  lemma {:induction false} BlankTextParsesEmpty(text: string)
    requires forall c :: c in text ==> c == ',' || IsSpace(c)
    ensures ParseSubjects(text) == []
  {
    var fragments := Split(text, ",");
    var parts := Map(fragments, Trim);
    SplitFragmentChars(text);
    forall i | 0 <= i < |parts| ensures !NonEmpty(parts[i]) {
      assert fragments[i] in fragments;
      TrimAllSpace(fragments[i]);
    }
    FilterNone(parts, NonEmpty);
  }

  // ---- The round trip ----

  /** The list with a space put before every item but the first. */
  function Spaced(xs: seq<string>): (r: seq<string>)
    ensures |r| == |xs|
  {
    if xs == [] then [] else [xs[0]] + Map(xs[1..], (x: string) => " " + x)
  }

  /** Text put in front of a join joins onto the first item. */
  lemma {:induction false} JoinFront(p: string, ys: seq<string>, sep: string)
    requires |ys| >= 1
    ensures p + Join(ys, sep) == Join([p + ys[0]] + ys[1..], sep)
  {
    var zs := [p + ys[0]] + ys[1..];
    assert zs[1..] == ys[1..];
  }

  /** Joining with ", " is joining the spaced list with ",". */
  lemma {:induction false} JoinCommaSpace(xs: seq<string>)
    ensures Join(xs, ", ") == Join(Spaced(xs), ",")
  {
    if |xs| >= 2 {
      JoinCommaSpace(xs[1..]);
      var tail := Spaced(xs[1..]);
      JoinFront(" ", tail, ",");
      var sp := Spaced(xs);
      assert sp[1..] == [" " + tail[0]] + tail[1..] by {
        assert tail[0] == xs[1];
        assert tail[1..] == Map(xs[2..], (x: string) => " " + x);
        assert sp[1..] == Map(xs[1..], (x: string) => " " + x);
        assert Map(xs[1..], (x: string) => " " + x)[1..] == Map(xs[2..], (x: string) => " " + x);
      }
      assert Join(xs, ", ") == xs[0] + ", " + Join(xs[1..], ", ");
      assert Join(sp, ",") == sp[0] + "," + Join(sp[1..], ",");
      assert xs[0] + ", " + Join(tail, ",") == xs[0] + "," + (" " + Join(tail, ","));
    }
  }

  /** A trimmed, non-empty item with a space in front trims back to itself. */
  lemma {:induction false} TrimSpaced(x: string)
    requires x != "" && Trimmed(x)
    ensures Trim(" " + x) == x
  {
    assert (" " + x)[1..] == x;
    assert TrimStart(" " + x) == TrimStart(x);
    assert TrimStart(x) == x;
  }

  /**
   * Formatting a block's subjects for the form and parsing the form's text on
   * save gives back the same list, when every subject is trimmed, non-empty
   * and free of commas.
   */
  lemma {:induction false} SubjectsRoundTrip(xs: seq<string>)
    requires forall i :: 0 <= i < |xs| ==> xs[i] != "" && Trimmed(xs[i]) && ',' !in xs[i]
    ensures ParseSubjects(FormatSubjects(xs)) == xs
  {
    if xs == [] {
      assert FormatSubjects(xs) == "";
      assert Split("", ",") == [""];
      assert Map([""], Trim) == [""];
      assert Filter([""], NonEmpty) == [];
    } else {
      var sp := Spaced(xs);
      JoinCommaSpace(xs);
      forall i | 0 <= i < |sp| ensures ',' !in sp[i] && Trim(sp[i]) == xs[i] {
        if i == 0 {
          TrimIsTrimmed(xs[0]);
        } else {
          assert sp[i] == " " + xs[i];
          TrimSpaced(xs[i]);
        }
      }
      assert forall i :: 0 <= i < |sp| ==> ","[0] !in sp[i];
      SplitJoin(sp, ",");
      var parts := Map(sp, Trim);
      assert parts == xs;
      FilterAll(xs, NonEmpty);
    }
  }

  /** Opening a block of such subjects and saving it unchanged sends the block's own subject list. */
  lemma {:induction false} ReopenedBlockKeepsSubjects(b: AdminBlock)
    requires forall i :: 0 <= i < |b.subjects| ==> b.subjects[i] != "" && Trimmed(b.subjects[i]) && ',' !in b.subjects[i]
    ensures SaveRequest(FormOf(b), Some(b)) == Update(b.mongoId, BlockData(b.id, b.name, b.subjects,
                                                      if b.description.Some? then b.description.value else ""))
  {
    SubjectsRoundTrip(b.subjects);
  }
}
