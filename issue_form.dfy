/** The issue form's local state: its initial values, derived from the
    issue being edited (if any), and the single-field update an input's
    change event performs. */
module IssueForm {
  import opened Types

  /** The three controlled inputs' values. */
  datatype FormData = FormData(title: string, description: string, status: string)

  /** The form's inputs, by their `name` attribute. */
  datatype Field = TitleField | DescriptionField | StatusField

  function FieldName(f: Field): string
  {
    match f
    case TitleField => "title"
    case DescriptionField => "description"
    case StatusField => "status"
  }

  /** The value of one input. */
  function Get(form: FormData, f: Field): string
  {
    match f
    case TitleField => form.title
    case DescriptionField => form.description
    case StatusField => form.status
  }

  /** The blank form a new issue starts from. */
  const BlankForm: FormData := FormData("", "", "open")

  /** The initial values: each field of the issue, or its default when the
      issue is absent or the field is falsy (`issue?.title || ''`). */
  function InitialForm(issue: Option<Issue>): (form: FormData)
    ensures issue.None? ==> form == BlankForm
    ensures issue.Some? ==> form.title == issue.value.title
    ensures issue.Some? ==> form.status == StatusName(issue.value.status)
    ensures issue.Some? && issue.value.description.None? ==> form.description == ""
    ensures issue.Some? && issue.value.description.Some? ==> form.description == issue.value.description.value
  {
    var title := if issue.Some? then Some(issue.value.title) else None;
    var description := if issue.Some? then issue.value.description else None;
    var status := if issue.Some? then Some(StatusName(issue.value.status)) else None;
    FormData(OrDefault(title, ""), OrDefault(description, ""), OrDefault(status, "open"))
  }

  /** `{...prev, [name]: value}`: the named input takes the value and the
      other two keep theirs. */
  function HandleChange(prev: FormData, name: Field, value: string): (next: FormData)
    ensures Get(next, name) == value
    ensures forall f :: f != name ==> Get(next, f) == Get(prev, f)
  {
    match name
    case TitleField => prev.(title := value)
    case DescriptionField => prev.(description := value)
    case StatusField => prev.(status := value)
  }

  /** Forms agree exactly when every input does. */
  lemma FormExtensionality(a: FormData, b: FormData)
    ensures (forall f :: Get(a, f) == Get(b, f)) <==> a == b
  {
    if forall f :: Get(a, f) == Get(b, f) {
      assert Get(a, TitleField) == Get(b, TitleField);
      assert Get(a, DescriptionField) == Get(b, DescriptionField);
      assert Get(a, StatusField) == Get(b, StatusField);
    }
  }

  /** A later change to the same input overrides an earlier one. */
  lemma {:induction false} ChangeOverwrites(prev: FormData, name: Field, v: string, w: string)
    ensures HandleChange(HandleChange(prev, name, v), name, w) == HandleChange(prev, name, w)
  {
    forall f ensures Get(HandleChange(HandleChange(prev, name, v), name, w), f) == Get(HandleChange(prev, name, w), f) {
    }
    FormExtensionality(HandleChange(HandleChange(prev, name, v), name, w), HandleChange(prev, name, w));
  }

  /** Changes to different inputs commute. */
  lemma ChangesCommute(prev: FormData, m: Field, v: string, n: Field, w: string)
    requires m != n
    ensures HandleChange(HandleChange(prev, m, v), n, w) == HandleChange(HandleChange(prev, n, w), m, v)
  {
    var a := HandleChange(HandleChange(prev, m, v), n, w);
    var b := HandleChange(HandleChange(prev, n, w), m, v);
    forall f ensures Get(a, f) == Get(b, f) {
    }
    FormExtensionality(a, b);
  }

  /** Re-entering an input's current value changes nothing. */
  lemma ChangeToSameValue(prev: FormData, name: Field)
    ensures HandleChange(prev, name, Get(prev, name)) == prev
  {
    var a := HandleChange(prev, name, Get(prev, name));
    forall f ensures Get(a, f) == Get(prev, f) {
    }
    FormExtensionality(a, prev);
  }

  /** The values the status selector offers. */
  const StatusOptions: seq<string> := ["open", "in-progress", "closed"]

  /** The selector offers exactly the three statuses, each once. */
  lemma StatusOptionsExact()
    ensures forall v :: v in StatusOptions <==> ParseStatus(v).Some?
    ensures forall s: Status :: StatusName(s) in StatusOptions
    ensures forall i, j :: 0 <= i < j < |StatusOptions| ==> StatusOptions[i] != StatusOptions[j]
  {
    forall s: Status ensures StatusName(s) in StatusOptions {
      match s
      case Open => assert StatusOptions[0] == StatusName(s);
      case InProgress => assert StatusOptions[1] == StatusName(s);
      case Closed => assert StatusOptions[2] == StatusName(s);
    }
  }

  /** The initial form of an existing issue shows a status the selector
      offers, and that status reads back as the issue's own. */
  lemma InitialStatusReadsBack(issue: Issue)
    ensures InitialForm(Some(issue)).status in StatusOptions
    ensures ParseStatus(InitialForm(Some(issue)).status) == Some(issue.status)
  {
    StatusOptionsExact();
    ParseStatusName(issue.status);
  }
}
