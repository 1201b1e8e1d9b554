/**
  The client-side schema of the create-post form: a title of 3 to 80 characters
  and a description of 3 to 280 characters.
 */
module CreateForm {
  import opened Wrappers
  import opened StringSchema
  import PostRouter

  /** The values the form submits. */
  datatype Form = Form(title: string, description: string)

  const TitleChecks: seq<Check> := Between(3, 80)
  const DescriptionChecks: seq<Check> := Between(3, 280)

  /** The title field alone: accepted exactly when its length is in [3, 80]. */
  function TitleIssues(title: string): (r: seq<Issue>)
    ensures r == [] <==> 3 <= |title| <= 80
    ensures forall i :: 0 <= i < |r| ==> r[i].field == "title"
  {
    BetweenPassesIff("title", 3, 80, title);
    StringIssues("title", TitleChecks, title)
  }

  /** The description field alone: accepted exactly when its length is in [3, 280]. */
  function DescriptionIssues(description: string): (r: seq<Issue>)
    ensures r == [] <==> 3 <= |description| <= 280
    ensures forall i :: 0 <= i < |r| ==> r[i].field == "description"
  {
    BetweenPassesIff("description", 3, 280, description);
    StringIssues("description", DescriptionChecks, description)
  }

  /**
    Parsing the form with the object schema: the values pass unchanged exactly
    when both fields pass; otherwise every issue of both fields is reported,
    the title's first.
   */
  function Parse(form: Form): (r: Result<Form, seq<Issue>>)
    ensures r.Success? <==> TitleIssues(form.title) == [] && DescriptionIssues(form.description) == []
    ensures r.Success? <==> 3 <= |form.title| <= 80 && 3 <= |form.description| <= 280
    ensures r.Success? ==> r.value == form
    ensures r.Failure? ==> r.error == TitleIssues(form.title) + DescriptionIssues(form.description) && r.error != []
  {
    var issues := TitleIssues(form.title) + DescriptionIssues(form.description);
    if issues == [] then Success(form) else Failure(issues)
  }

  /**
    The client bounds are within the server's: a title and description the form
    accepts also pass the `create` input schema's checks for those two fields.
   */
  lemma {:induction false} ClientValidImpliesServerValid(form: Form)
    requires Parse(form).Success?
    ensures StringIssues("title", PostRouter.TitleChecks, form.title) == []
    ensures StringIssues("description", PostRouter.DescriptionChecks, form.description) == []
  {
    BetweenPassesIff("title", 3, 380, form.title);
    BetweenPassesIff("description", 3, 1000, form.description);
  }

  /** The converse fails: the server accepts titles the form rejects. */
  lemma ServerAcceptsLongerTitles()
    ensures var title := seq(81, _ => 'a');
            && StringIssues("title", PostRouter.TitleChecks, title) == []
            && TitleIssues(title) != []
  {
    var title := seq(81, _ => 'a');
    BetweenPassesIff("title", 3, 380, title);
  }
}
