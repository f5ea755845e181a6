/** The issue list page: the pure transforms its handlers apply to the list
    of issues on screen, the normalisation of the filter strings, the
    empty-state hint, and the page state itself as an object whose handlers
    update its fields. Each call to the issues API is a function parameter
    that either gives back the response data or fails. */
module IssueList {
  import opened Types
  import opened IssueForm

  /** The outcome of one API call: its data, or a rejected promise. */
  datatype ApiResult<T> = Ok(value: T) | Failed

  const LoadFailed: string := "Failed to load issues"
  const CreateFailed: string := "Failed to create issue"
  const UpdateFailed: string := "Failed to update issue"
  const DeleteFailed: string := "Failed to delete issue"

  const AdjustFiltersHint: string := "Try adjusting your filters"
  const FirstIssueHint: string := "Create your first issue to get started"

  // ----- list transforms -----

  /** `[newIssue, ...issues]`. */
  function Prepend(issues: seq<Issue>, newIssue: Issue): (r: seq<Issue>)
    ensures |r| == |issues| + 1
    ensures r[0] == newIssue
    ensures forall i :: 0 <= i < |issues| ==> r[i + 1] == issues[i]
  {
    [newIssue] + issues
  }

  /** `issues.map(issue => issue.id === id ? updated : issue)`. */
  function ReplaceById(issues: seq<Issue>, id: int, updated: Issue): (r: seq<Issue>)
    ensures |r| == |issues|
    ensures forall i :: 0 <= i < |issues| && issues[i].id == id ==> r[i] == updated
    ensures forall i :: 0 <= i < |issues| && issues[i].id != id ==> r[i] == issues[i]
  {
    if issues == [] then []
    else [if issues[0].id == id then updated else issues[0]] + ReplaceById(issues[1..], id, updated)
  }

  /** `issues.filter(issue => issue.id !== id)`. */
  function RemoveById(issues: seq<Issue>, id: int): (r: seq<Issue>)
    ensures |r| <= |issues|
    ensures forall x :: x in r <==> x in issues && x.id != id
  {
    if issues == [] then []
    else (if issues[0].id != id then [issues[0]] else []) + RemoveById(issues[1..], id)
  }

  /** Removing from a concatenation removes from each part, so the issues
      that stay keep their relative order. */
  lemma {:induction false} RemoveAppend(a: seq<Issue>, b: seq<Issue>, id: int)
    ensures RemoveById(a + b, id) == RemoveById(a, id) + RemoveById(b, id)
  {
    if a == [] {
      assert a + b == b;
    } else {
      assert (a + b)[1..] == a[1..] + b;
      RemoveAppend(a[1..], b, id);
    }
  }

  /** A list with no issue of that id is left as it is. */
  lemma {:induction false} RemoveAbsent(issues: seq<Issue>, id: int)
    requires forall i :: 0 <= i < |issues| ==> issues[i].id != id
    ensures RemoveById(issues, id) == issues
  {
    if issues != [] {
      RemoveAbsent(issues[1..], id);
    }
  }

  /** Deleting twice is deleting once. */
  lemma RemoveIdempotent(issues: seq<Issue>, id: int)
    ensures RemoveById(RemoveById(issues, id), id) == RemoveById(issues, id)
  {
    var r := RemoveById(issues, id);
    forall i | 0 <= i < |r| ensures r[i].id != id {
      assert r[i] in r;
    }
    RemoveAbsent(r, id);
  }

  /** Deleting a just-created issue, whose id was new to the list, gives the
      list back as it was. */
  lemma RemoveUndoesPrepend(issues: seq<Issue>, newIssue: Issue)
    requires forall i :: 0 <= i < |issues| ==> issues[i].id != newIssue.id
    ensures RemoveById(Prepend(issues, newIssue), newIssue.id) == issues
  {
    assert Prepend(issues, newIssue) == [newIssue] + issues;
    RemoveAppend([newIssue], issues, newIssue.id);
    RemoveAbsent(issues, newIssue.id);
    assert RemoveById([newIssue], newIssue.id) == [];
  }

  /** After an edit the list holds the server's copy in place of every entry
      with that id, so removing by that id afterwards is the same as removing
      before. */
  lemma {:induction false} RemoveAfterReplace(issues: seq<Issue>, id: int, updated: Issue)
    requires updated.id == id
    ensures RemoveById(ReplaceById(issues, id, updated), id) == RemoveById(issues, id)
  {
    if issues != [] {
      RemoveAfterReplace(issues[1..], id, updated);
    }
  }

  /** Replacing by id where no issue has that id is the identity. */
  lemma {:induction false} ReplaceAbsent(issues: seq<Issue>, id: int, updated: Issue)
    requires forall i :: 0 <= i < |issues| ==> issues[i].id != id
    ensures ReplaceById(issues, id, updated) == issues
  {
    if issues != [] {
      ReplaceAbsent(issues[1..], id, updated);
    }
  }

  // ----- filters and the empty state -----

  /** `s || undefined`: an empty filter is not sent at all. */
  function FilterArg(s: string): (r: Option<string>)
    ensures r.None? <==> s == ""
    ensures r.Some? ==> r.value == s
    ensures Truthy(r) <==> s != ""
  {
    if s != "" then Some(s) else None
  }

  /** The hint under "No issues found". */
  function EmptyHint(search: string, status: string): (h: string)
    ensures h == AdjustFiltersHint <==> search != "" || status != ""
    ensures h == FirstIssueHint <==> search == "" && status == ""
  {
    if search != "" || status != "" then AdjustFiltersHint else FirstIssueHint
  }

  // ----- requests the form is submitted as -----

  /** The create request built from the submitted form: every field is sent. */
  function CreateRequestOf(form: FormData): (r: CreateIssueRequest)
    ensures r.title == Some(Get(form, TitleField))
    ensures r.description == Some(Get(form, DescriptionField))
    ensures r.status == Some(Get(form, StatusField))
  {
    CreateIssueRequest(Some(form.title), Some(form.description), Some(form.status))
  }

  /** The update request built from the submitted form: every field is sent. */
  function UpdateRequestOf(form: FormData): (r: UpdateIssueRequest)
    ensures r.title == Some(Get(form, TitleField))
    ensures r.description == Some(Get(form, DescriptionField))
    ensures r.status == Some(Get(form, StatusField))
  {
    UpdateIssueRequest(Some(form.title), Some(form.description), Some(form.status))
  }

  // ----- the page state -----

  class IssueListState {
    var issues: seq<Issue>
    var loading: bool
    var error: Option<string>
    var editingIssue: Option<Issue>
    var isFormOpen: bool
    var status: string
    var search: string
    var deletingId: Option<int>

    /** The issue being edited is always shown in the open form. */
    predicate EditingShown()
      reads this
    {
      editingIssue.Some? ==> isFormOpen
    }

    /** "No issues found" is shown. */
    predicate EmptyState()
      reads this
    {
      !loading && issues == []
    }

    /** The hint the empty state shows. */
    function Hint(): string
      reads this
    {
      EmptyHint(search, status)
    }

    constructor ()
      ensures issues == [] && !loading && error.None? && editingIssue.None? && !isFormOpen
      ensures status == "" && search == "" && deletingId.None?
      ensures EditingShown() && EmptyState() && Hint() == FirstIssueHint
    {
      issues := [];
      loading := false;
      error := None;
      editingIssue := None;
      isFormOpen := false;
      status := "";
      search := "";
      deletingId := None;
    }

    /** loadIssues: asks for the issues with the empty filters left out, and
        on success shows exactly what came back. */
    method LoadIssues(getAll: (Option<string>, Option<string>) -> ApiResult<seq<Issue>>)
      returns (asked: (Option<string>, Option<string>))
      modifies this
      ensures asked == (FilterArg(status), FilterArg(search))
      ensures getAll(asked.0, asked.1).Ok? ==> issues == getAll(asked.0, asked.1).value && error.None?
      ensures getAll(asked.0, asked.1).Failed? ==> issues == old(issues) && error == Some(LoadFailed)
      ensures !loading
      ensures editingIssue == old(editingIssue) && isFormOpen == old(isFormOpen)
      ensures status == old(status) && search == old(search) && deletingId == old(deletingId)
    {
      loading := true;
      error := None;
      asked := (FilterArg(status), FilterArg(search));
      var result := getAll(asked.0, asked.1);
      if result.Ok? {
        issues := result.value;
      } else {
        error := Some(LoadFailed);
      }
      loading := false;
    }

    /** The status filter changes; the list is reloaded when its value did. */
    method OnStatusChange(v: string, getAll: (Option<string>, Option<string>) -> ApiResult<seq<Issue>>)
      returns (asked: Option<(Option<string>, Option<string>)>)
      modifies this
      ensures status == v && search == old(search)
      ensures asked.None? <==> v == old(status)
      ensures asked.None? ==> issues == old(issues) && loading == old(loading) && error == old(error)
      ensures asked.Some? ==> asked.value == (FilterArg(v), FilterArg(search)) && !loading
      ensures asked.Some? && getAll(asked.value.0, asked.value.1).Ok? ==> issues == getAll(asked.value.0, asked.value.1).value && error.None?
      ensures asked.Some? && getAll(asked.value.0, asked.value.1).Failed? ==> issues == old(issues) && error == Some(LoadFailed)
      ensures editingIssue == old(editingIssue) && isFormOpen == old(isFormOpen) && deletingId == old(deletingId)
    {
      if v == status {
        asked := None;
        return;
      }
      status := v;
      var a := LoadIssues(getAll);
      asked := Some(a);
    }

    /** The search text changes; the list is reloaded when its value did. */
    method OnSearchChange(v: string, getAll: (Option<string>, Option<string>) -> ApiResult<seq<Issue>>)
      returns (asked: Option<(Option<string>, Option<string>)>)
      modifies this
      ensures search == v && status == old(status)
      ensures asked.None? <==> v == old(search)
      ensures asked.None? ==> issues == old(issues) && loading == old(loading) && error == old(error)
      ensures asked.Some? ==> asked.value == (FilterArg(status), FilterArg(v)) && !loading
      ensures asked.Some? && getAll(asked.value.0, asked.value.1).Ok? ==> issues == getAll(asked.value.0, asked.value.1).value && error.None?
      ensures asked.Some? && getAll(asked.value.0, asked.value.1).Failed? ==> issues == old(issues) && error == Some(LoadFailed)
      ensures editingIssue == old(editingIssue) && isFormOpen == old(isFormOpen) && deletingId == old(deletingId)
    {
      if v == search {
        asked := None;
        return;
      }
      search := v;
      var a := LoadIssues(getAll);
      asked := Some(a);
    }

    /** handleCreateIssue: on success the new issue goes first and the form
        closes; on failure only the error changes. */
    method HandleCreateIssue(form: FormData, create: CreateIssueRequest -> ApiResult<Issue>)
      returns (sent: CreateIssueRequest)
      modifies this
      ensures sent == CreateRequestOf(form)
      ensures create(sent).Ok? ==>
        issues == Prepend(old(issues), create(sent).value) && !isFormOpen && error.None?
      ensures create(sent).Failed? ==>
        issues == old(issues) && isFormOpen == old(isFormOpen) && error == Some(CreateFailed)
      ensures !loading
      ensures editingIssue == old(editingIssue) && status == old(status) && search == old(search)
      ensures deletingId == old(deletingId)
    {
      loading := true;
      sent := CreateRequestOf(form);
      var result := create(sent);
      if result.Ok? {
        issues := Prepend(issues, result.value);
        isFormOpen := false;
        error := None;
      } else {
        error := Some(CreateFailed);
      }
      loading := false;
    }

    /** handleEditIssue: does nothing unless an issue is being edited; on
        success that issue's entries are replaced by the server's copy and
        the form closes; on failure only the error changes. */
    method HandleEditIssue(form: FormData, update: (int, UpdateIssueRequest) -> ApiResult<Issue>)
      returns (sent: Option<(int, UpdateIssueRequest)>)
      modifies this
      ensures sent.None? <==> old(editingIssue).None?
      ensures sent.None? ==>
        issues == old(issues) && loading == old(loading) && error == old(error) &&
        editingIssue == old(editingIssue) && isFormOpen == old(isFormOpen)
      ensures sent.Some? ==> sent.value == (old(editingIssue).value.id, UpdateRequestOf(form)) && !loading
      ensures sent.Some? && update(sent.value.0, sent.value.1).Ok? ==>
        issues == ReplaceById(old(issues), sent.value.0, update(sent.value.0, sent.value.1).value) &&
        editingIssue.None? && !isFormOpen && error.None?
      ensures sent.Some? && update(sent.value.0, sent.value.1).Failed? ==>
        issues == old(issues) && editingIssue == old(editingIssue) && isFormOpen == old(isFormOpen) &&
        error == Some(UpdateFailed)
      ensures status == old(status) && search == old(search) && deletingId == old(deletingId)
      ensures old(EditingShown()) ==> EditingShown()
    {
      if editingIssue.None? {
        sent := None;
        return;
      }
      loading := true;
      var id := editingIssue.value.id;
      var request := UpdateRequestOf(form);
      sent := Some((id, request));
      var result := update(id, request);
      if result.Ok? {
        issues := ReplaceById(issues, id, result.value);
        editingIssue := None;
        isFormOpen := false;
        error := None;
      } else {
        error := Some(UpdateFailed);
      }
      loading := false;
    }

    /** handleDeleteIssue: does nothing unless confirmed; on success every
        issue with that id leaves the list; whatever the outcome, no delete
        is marked in progress afterwards. */
    method HandleDeleteIssue(id: int, confirmed: bool, delete: int -> ApiResult<()>)
      returns (called: bool)
      modifies this
      ensures called == confirmed
      ensures !confirmed ==> issues == old(issues) && error == old(error) && deletingId == old(deletingId)
      ensures confirmed && delete(id).Ok? ==> issues == RemoveById(old(issues), id) && error.None?
      ensures confirmed && delete(id).Failed? ==> issues == old(issues) && error == Some(DeleteFailed)
      ensures confirmed ==> deletingId.None?
      ensures loading == old(loading) && editingIssue == old(editingIssue) && isFormOpen == old(isFormOpen)
      ensures status == old(status) && search == old(search)
    {
      if !confirmed {
        called := false;
        return;
      }
      called := true;
      deletingId := Some(id);
      var result := delete(id);
      if result.Ok? {
        issues := RemoveById(issues, id);
        error := None;
      } else {
        error := Some(DeleteFailed);
      }
      deletingId := None;
    }

    /** handleEditClick: opens the form on the chosen issue. */
    method HandleEditClick(issue: Issue)
      modifies this
      ensures editingIssue == Some(issue) && isFormOpen
      ensures issues == old(issues) && loading == old(loading) && error == old(error)
      ensures status == old(status) && search == old(search) && deletingId == old(deletingId)
      ensures EditingShown()
    {
      editingIssue := Some(issue);
      isFormOpen := true;
    }

    /** handleCloseForm: closes the form and forgets the issue being edited. */
    method HandleCloseForm()
      modifies this
      ensures !isFormOpen && editingIssue.None?
      ensures issues == old(issues) && loading == old(loading) && error == old(error)
      ensures status == old(status) && search == old(search) && deletingId == old(deletingId)
      ensures EditingShown()
    {
      isFormOpen := false;
      editingIssue := None;
    }

    /** The "Create New Issue" button: opens the form. */
    method OpenCreateForm()
      modifies this
      ensures isFormOpen
      ensures editingIssue == old(editingIssue)
      ensures issues == old(issues) && loading == old(loading) && error == old(error)
      ensures status == old(status) && search == old(search) && deletingId == old(deletingId)
      ensures EditingShown()
    {
      isFormOpen := true;
    }

    /** The form's submit: an edit while an issue is being edited, a create
        otherwise; the form data goes to the request unmodified. */
    method Submit(form: FormData, create: CreateIssueRequest -> ApiResult<Issue>,
                  update: (int, UpdateIssueRequest) -> ApiResult<Issue>)
      returns (created: Option<CreateIssueRequest>, edited: Option<(int, UpdateIssueRequest)>)
      modifies this
      ensures created.Some? <==> old(editingIssue).None?
      ensures edited.Some? <==> old(editingIssue).Some?
      ensures created.Some? ==> created.value == CreateRequestOf(form)
      ensures edited.Some? ==> edited.value == (old(editingIssue).value.id, UpdateRequestOf(form))
      ensures created.Some? && create(created.value).Ok? ==>
        issues == Prepend(old(issues), create(created.value).value) && error.None?
      ensures created.Some? && create(created.value).Failed? ==>
        issues == old(issues) && error == Some(CreateFailed)
      ensures edited.Some? && update(edited.value.0, edited.value.1).Ok? ==>
        issues == ReplaceById(old(issues), edited.value.0, update(edited.value.0, edited.value.1).value) &&
        error.None?
      ensures edited.Some? && update(edited.value.0, edited.value.1).Failed? ==>
        issues == old(issues) && error == Some(UpdateFailed)
      ensures created.Some? ==> editingIssue.None?
      ensures created.Some? && create(created.value).Ok? ==> !isFormOpen
      ensures created.Some? && create(created.value).Failed? ==> isFormOpen == old(isFormOpen)
      ensures edited.Some? && update(edited.value.0, edited.value.1).Ok? ==> editingIssue.None? && !isFormOpen
      ensures edited.Some? && update(edited.value.0, edited.value.1).Failed? ==>
        editingIssue == old(editingIssue) && isFormOpen == old(isFormOpen)
      ensures !loading
      ensures status == old(status) && search == old(search) && deletingId == old(deletingId)
      ensures old(EditingShown()) ==> EditingShown()
    {
      if editingIssue.Some? {
        edited := HandleEditIssue(form, update);
        created := None;
      } else {
        var sent := HandleCreateIssue(form, create);
        created := Some(sent);
        edited := None;
      }
    }
  }
}
