/** How what the issue list page sends meets what the backend handlers
    build from it. The page's API wrapper adds a query key only for a
    truthy filter and forwards request bodies as they are. */
module EndToEnd {
  import opened Types
  import opened SqlText
  import opened Handlers
  import opened IssueForm
  import opened IssueList

  /** Leaving an empty filter out, as the page does, gives the backend the
      same list statement as sending it: the normalisation only saves a
      query key. */
  lemma FilterNormalisationPreservesQuery(status: string, search: string)
    ensures ListQuery(FilterArg(status), FilterArg(search)) == ListQuery(Some(status), Some(search))
  {
    assert Truthy(FilterArg(status)) == Truthy(Some(status));
    assert Truthy(FilterArg(search)) == Truthy(Some(search));
  }

  /** The page's filters reach the backend as a statement with one bound
      parameter per non-empty filter. */
  lemma PageFiltersBound(status: string, search: string)
    ensures |ListQuery(FilterArg(status), FilterArg(search)).params|
      == (if status != "" then 1 else 0) + (if search != "" then 1 else 0)
    ensures Aligned(ListQuery(FilterArg(status), FilterArg(search)))
  {
    ListQueryAligned(FilterArg(status), FilterArg(search));
  }

  /** A new issue with only its title typed in is inserted with a NULL
      description and the status "open". */
  lemma CreateFromBlankForm(title: string)
    requires title != ""
    ensures var q := InsertQuery(CreateRequestOf(HandleChange(BlankForm, TitleField, title)));
      q.Some? && q.value.params == [Str(title), Null, Str("open")]
  {
    var form := HandleChange(BlankForm, TitleField, title);
    assert form == FormData(title, "", "open");
  }

  /** Submitting the new-issue form without a title is refused by the
      backend before any statement is issued. */
  lemma CreateWithoutTitle(form: FormData)
    requires Get(form, TitleField) == ""
    ensures InsertQuery(CreateRequestOf(form)).None?
  {
  }

  /** Saving the edit form of an issue untouched rewrites all three columns
      with the issue's own values, except that a NULL description is
      written back as an empty string. */
  lemma EditUntouched(issue: Issue, id: string)
    ensures var q := UpdateQuery(UpdateRequestOf(InitialForm(Some(issue))), id);
      q.Some? &&
      q.value.params == [Str(issue.title),
                         Str(if issue.description.Some? then issue.description.value else ""),
                         Str(StatusName(issue.status)),
                         Str(id)]
  {
    var req := UpdateRequestOf(InitialForm(Some(issue)));
    assert Supplied(req) == [TitleColumn, DescriptionColumn, StatusColumn];
  }
}
