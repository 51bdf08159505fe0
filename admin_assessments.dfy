/** The assessment editor of the admin area: the form record, its tag and
    question list editors, the defaults used when an existing assessment is
    opened, and the visibility labels. Loading, saving and deleting rows
    are outside the model. */
module AdminAssessments {
  import opened Text

  datatype QuestionDraft = QuestionDraft(question: string, options: seq<string>)

  /** The editable fields of an assessment. The free-form `scoring_logic` and
      `result_narratives` objects are carried through unchanged by every
      editor operation and are not modelled. */
  datatype Form = Form(
    title: string,
    description: string,
    shortDescription: string,
    icon: string,
    questionsCount: int,
    durationMinutes: int,
    visibility: string,
    isActive: bool,
    category: string,
    tags: seq<string>,
    questions: seq<QuestionDraft>)

  /** The record the editor starts from and returns to after saving. */
  const InitialForm: Form := Form("", "", "", "Brain", 0, 10, "public", true, "", [], [])

  // ---------------------------------------------------------------------------
  // Opening a stored assessment
  // ---------------------------------------------------------------------------

  /** The stored `questions` column: JSON that may or may not be an array. */
  datatype QuestionsJson = JsonArray(items: seq<QuestionDraft>) | NotAnArray

  /** A stored row; a column that is null is `None`. */
  datatype Row = Row(
    title: Option<string>,
    description: Option<string>,
    shortDescription: Option<string>,
    icon: Option<string>,
    questionsCount: Option<int>,
    durationMinutes: Option<int>,
    visibility: Option<string>,
    isActive: Option<bool>,
    category: Option<string>,
    tags: Option<seq<string>>,
    questions: QuestionsJson)

  /** `x || d` for a nullable string column. */
  function TextOr(o: Option<string>, d: string): (r: string)
    ensures r == d <==> o.None? || o.value == "" || o.value == d
  {
    if o.Some? && o.value != "" then o.value else d
  }

  /** `x || d` for a nullable number column. */
  function NumberOr(o: Option<int>, d: int): (r: int)
    ensures r == d <==> o.None? || o.value == 0 || o.value == d
  {
    if o.Some? && o.value != 0 then o.value else d
  }

  /** `handleEdit`: the form filled from a row, each missing (or, for `||`,
      empty) column replaced by its default. */
  function FormFor(row: Row): (f: Form)
    ensures f.icon == TextOr(row.icon, "Brain") && f.durationMinutes == NumberOr(row.durationMinutes, 10)
    ensures f.visibility == TextOr(row.visibility, "public")
    ensures f.isActive <==> row.isActive != Some(false)
    ensures f.tags == (if row.tags.Some? then row.tags.value else [])
    ensures f.questions == (if row.questions.JsonArray? then row.questions.items else [])
  {
    Form(
      TextOr(row.title, ""),
      TextOr(row.description, ""),
      TextOr(row.shortDescription, ""),
      TextOr(row.icon, "Brain"),
      NumberOr(row.questionsCount, 0),
      NumberOr(row.durationMinutes, 10),
      TextOr(row.visibility, "public"),
      if row.isActive.Some? then row.isActive.value else true,
      TextOr(row.category, ""),
      if row.tags.Some? then row.tags.value else [],
      if row.questions.JsonArray? then row.questions.items else [])
  }

  /** A row with every column missing opens as the initial form: the
      defaults of `handleEdit` and of `resetForm` agree. */
  lemma EmptyRowOpensInitialForm()
    ensures FormFor(Row(None, None, None, None, None, None, None, None, None, None, NotAnArray)) == InitialForm
  {
  }

  // ---------------------------------------------------------------------------
  // Tags and questions
  // ---------------------------------------------------------------------------

  predicate NoDuplicates(s: seq<string>)
  {
    forall i, j :: 0 <= i < j < |s| ==> s[i] != s[j]
  }

  /** `tags.filter(tag => tag !== t)`. */
  function WithoutTag(tags: seq<string>, t: string): (r: seq<string>)
  {
    Filter(tags, x => x != t)
  }

  /** Removing a tag keeps every other tag, in order, and only those. */
  lemma WithoutTagSpec(tags: seq<string>, t: string)
    ensures IsSubsequence(WithoutTag(tags, t), tags)
    ensures forall x :: x in WithoutTag(tags, t) <==> x in tags && x != t
  {
    FilterIsSubsequence(tags, x => x != t);
    forall x
      ensures x in WithoutTag(tags, t) <==> x in tags && x != t
    {
      FilterMembership(tags, x => x != t, x);
    }
  }

  /** On a duplicate-free list, removing a present tag shortens it by one and
      removing an absent one changes nothing; it stays duplicate-free. */
  lemma {:induction false} WithoutTagCount(tags: seq<string>, t: string)
    requires NoDuplicates(tags)
    ensures |WithoutTag(tags, t)| == (if t in tags then |tags| - 1 else |tags|)
    ensures NoDuplicates(WithoutTag(tags, t))
  {
    if tags != [] {
      var rest := tags[1..];
      assert NoDuplicates(rest) by {
        forall i, j | 0 <= i < j < |rest|
          ensures rest[i] != rest[j]
        {
          assert rest[i] == tags[i + 1] && rest[j] == tags[j + 1];
        }
      }
      WithoutTagCount(rest, t);
      assert t in tags <==> t == tags[0] || t in rest;
      assert tags[0] !in rest by {
        forall k | 0 <= k < |rest|
          ensures rest[k] != tags[0]
        {
          assert rest[k] == tags[k + 1];
        }
      }
      if tags[0] != t {
        var r := WithoutTag(rest, t);
        assert WithoutTag(tags, t) == [tags[0]] + r;
        FilterMembership(rest, x => x != t, tags[0]);
        assert tags[0] !in r;
        var w := [tags[0]] + r;
        forall i, j | 0 <= i < j < |w|
          ensures w[i] != w[j]
        {
          if i == 0 {
            assert w[j] == r[j - 1];
          } else {
            assert w[i] == r[i - 1] && w[j] == r[j - 1];
          }
        }
      } else {
        assert WithoutTag(tags, t) == WithoutTag(rest, t);
      }
    }
  }

  /** The tags that are saved: all but the blank ones. */
  function SubmittedTags(tags: seq<string>): (r: seq<string>)
  {
    Filter(tags, (tag: string) => !Blank(tag))
  }

  /** Saving drops exactly the blank tags and keeps the order of the rest. */
  lemma SubmittedTagsSpec(tags: seq<string>)
    ensures IsSubsequence(SubmittedTags(tags), tags)
    ensures forall k :: 0 <= k < |SubmittedTags(tags)| ==> !Blank(SubmittedTags(tags)[k])
    ensures forall x :: x in SubmittedTags(tags) <==> x in tags && !Blank(x)
  {
    FilterIsSubsequence(tags, (tag: string) => !Blank(tag));
    forall x
      ensures x in SubmittedTags(tags) <==> x in tags && !Blank(x)
    {
      FilterMembership(tags, (tag: string) => !Blank(tag), x);
    }
  }

  /** `questions.filter((_, i) => i !== index)`: an index outside the list
      removes nothing. */
  function RemoveAt<T>(s: seq<T>, index: int): (r: seq<T>)
    ensures 0 <= index < |s| ==> |r| == |s| - 1
    ensures 0 <= index < |s| ==> forall k :: 0 <= k < index ==> r[k] == s[k]
    ensures 0 <= index < |s| ==> forall k :: index <= k < |r| ==> r[k] == s[k + 1]
    ensures !(0 <= index < |s|) ==> r == s
  {
    if 0 <= index < |s| then s[..index] + s[index + 1..] else s
  }

  /** The question fields `updateQuestion` can set. */
  datatype QuestionField = QuestionText(text: string) | Options(options: seq<string>)

  function WithField(q: QuestionDraft, field: QuestionField): (r: QuestionDraft)
    ensures field.QuestionText? ==> r.question == field.text && r.options == q.options
    ensures field.Options? ==> r.options == field.options && r.question == q.question
  {
    match field
    case QuestionText(text) => q.(question := text)
    case Options(options) => q.(options := options)
  }

  /** `getVisibilityLabel`. */
  function VisibilityLabel(visibility: string): (shown: string)
    ensures visibility == "public" ==> shown == "Public"
    ensures visibility == "authenticated" ==> shown == "Authenticated Users"
    ensures visibility == "members_only" ==> shown == "Members Only"
    ensures visibility !in {"public", "authenticated", "members_only"} ==> shown == visibility
  {
    if visibility == "public" then "Public"
    else if visibility == "authenticated" then "Authenticated Users"
    else if visibility == "members_only" then "Members Only"
    else visibility
  }

  /** The three known values get three different labels. */
  lemma VisibilityLabelsDistinct()
    ensures |{VisibilityLabel("public"), VisibilityLabel("authenticated"), VisibilityLabel("members_only")}| == 3
  {
  }

  // ---------------------------------------------------------------------------
  // The editor
  // ---------------------------------------------------------------------------

  class Editor {
    var form: Form
    var tagInput: string

    constructor ()
      ensures form == InitialForm && tagInput == ""
    {
      form, tagInput := InitialForm, "";
    }

    /** `resetForm`. */
    method Reset()
      modifies this
      ensures form == InitialForm && tagInput == ""
    {
      form, tagInput := InitialForm, "";
    }

    /** `handleEdit`. */
    method Open(row: Row)
      modifies this`form
      ensures form == FormFor(row)
    {
      form := FormFor(row);
    }

    /** `addTag`: the trimmed input is appended, and the input cleared, only
        when it is non-empty and not already a tag; so a duplicate-free tag
        list stays duplicate-free. */
    method AddTag()
      modifies this
      ensures var t := Trim(old(tagInput));
        if t != "" && t !in old(form.tags) then
          form == old(form).(tags := old(form.tags) + [t]) && tagInput == ""
        else
          form == old(form) && tagInput == old(tagInput)
      ensures NoDuplicates(old(form.tags)) ==> NoDuplicates(form.tags)
    {
      var t := Trim(tagInput);
      if t != "" && t !in form.tags {
        var tags := form.tags + [t];
        assert forall i :: 0 <= i < |form.tags| ==> tags[i] == form.tags[i] && tags[i] != t;
        form := form.(tags := tags);
        tagInput := "";
      }
    }

    /** `removeTag`. */
    method RemoveTag(tag: string)
      modifies this`form
      ensures form == old(form).(tags := WithoutTag(old(form.tags), tag))
      ensures tag !in form.tags
      ensures NoDuplicates(old(form.tags)) ==> NoDuplicates(form.tags)
    {
      WithoutTagSpec(form.tags, tag);
      if NoDuplicates(form.tags) {
        WithoutTagCount(form.tags, tag);
      }
      form := form.(tags := WithoutTag(form.tags, tag));
    }

    /** `addQuestion`: one blank question with four empty options. */
    method AddQuestion()
      modifies this`form
      ensures form == old(form).(questions := old(form.questions) + [QuestionDraft("", ["", "", "", ""])])
    {
      form := form.(questions := form.questions + [QuestionDraft("", ["", "", "", ""])]);
    }

    /** `updateQuestion`: sets one field of question `index`; the others,
        and every other question, are untouched. An index outside the list
        makes the source throw, so callers pass an existing one. */
    method UpdateQuestion(index: int, field: QuestionField)
      requires 0 <= index < |form.questions|
      modifies this`form
      ensures form == old(form).(questions := old(form.questions)[index := WithField(old(form.questions)[index], field)])
    {
      var questions := form.questions;
      questions := questions[index := WithField(questions[index], field)];
      form := form.(questions := questions);
    }

    /** `removeQuestion`. */
    method RemoveQuestion(index: int)
      modifies this`form
      ensures form == old(form).(questions := RemoveAt(old(form.questions), index))
    {
      form := form.(questions := RemoveAt(form.questions, index));
    }

    /** What `handleSubmit` saves: the form with blank tags dropped (see
        `SubmittedTagsSpec`). */
    function Submission(): (f: Form)
      reads this
    {
      form.(tags := SubmittedTags(form.tags))
    }
  }
}
