/**
 * The `create_repo_modal` submission check: four tests in a fixed order, the
 * first one that fails decides the field-level error, and only a submission
 * that passes all four is accepted.
 */
module Submission {
  import opened Wrappers
  import opened Validation

  /** The three input blocks of the form, by their block ids. */
  datatype Field = RepoName | RepoDescription | RepoOwner

  /** The four ways a submission is refused, in the order they are tested. */
  datatype Rejection = InvalidName | DuplicateName | MissingDescription | InvalidOwner {
    /** The input block the error is attached to. */
    function FieldOf(): Field {
      match this
      case InvalidName => RepoName
      case DuplicateName => RepoName
      case MissingDescription => RepoDescription
      case InvalidOwner => RepoOwner
    }
  }

  /** The three values of an accepted submission. */
  datatype Request = Request(name: string, description: string, owner: string)

  datatype Verdict = Rejected(error: Rejection) | Accepted(request: Request)

  /** JavaScript truthiness of a form value: neither missing nor the empty string. */
  predicate Present(v: Option<string>) {
    v.Some? && v.value != []
  }

  predicate NameValid(name: Option<string>) {
    Present(name) && IsRepoName(name.value)
  }

  predicate OwnerValid(owner: Option<string>) {
    Present(owner) && IsGithubUsername(owner.value)
  }

  /** The submission handler's if / else-if chain over the three form values and the startup snapshot. */
  function Validate(name: Option<string>, description: Option<string>, owner: Option<string>,
                    repos: seq<string>): (v: Verdict)
    ensures v.Accepted? ==>
      && Present(name) && Present(description) && Present(owner)
      && v.request == Request(name.value, description.value, owner.value)
  {
    if !NameValid(name) then Rejected(InvalidName)
    else if name.value in repos then Rejected(DuplicateName)
    else if !Present(description) then Rejected(MissingDescription)
    else if !OwnerValid(owner) then Rejected(InvalidOwner)
    else Accepted(Request(name.value, description.value, owner.value))
  }

  // ---------------------------------------------------------------------------
  // An independent statement of "first failure wins"
  // ---------------------------------------------------------------------------

  /** One test: whether it passed, and the error it reports if not. */
  datatype Check = Check(passed: bool, error: Rejection)

  /** The four tests in the order the handler runs them. */
  function Checks(name: Option<string>, description: Option<string>, owner: Option<string>,
                  repos: seq<string>): seq<Check>
  {
    [ Check(NameValid(name), InvalidName),
      Check(!(Present(name) && name.value in repos), DuplicateName),
      Check(Present(description), MissingDescription),
      Check(OwnerValid(owner), InvalidOwner) ]
  }

  /** The error of the first test that failed, if any. */
  function FirstFailure(checks: seq<Check>): (r: Option<Rejection>)
    ensures r == None <==> forall k :: 0 <= k < |checks| ==> checks[k].passed
    ensures r.Some? ==> exists k :: 0 <= k < |checks| && !checks[k].passed && checks[k].error == r.value
                                 && forall m :: 0 <= m < k ==> checks[m].passed
  {
    if checks == [] then None
    else if !checks[0].passed then Some(checks[0].error)
    else
      var r := FirstFailure(checks[1..]);
      assert forall k :: 1 <= k < |checks| ==> checks[k] == checks[1..][k - 1];
      if r.Some? then
        var k :| 0 <= k < |checks[1..]| && !checks[1..][k].passed && checks[1..][k].error == r.value
                 && forall m :: 0 <= m < k ==> checks[1..][m].passed;
        assert !checks[k + 1].passed && checks[k + 1].error == r.value;
        assert forall m :: 0 <= m < k + 1 ==> checks[m].passed;
        r
      else r
  }

  /** The handler's verdict is the first failing test of the list, or acceptance when none fails. */
  lemma ValidateIsFirstFailure(name: Option<string>, description: Option<string>, owner: Option<string>,
                               repos: seq<string>)
    ensures var f := FirstFailure(Checks(name, description, owner, repos));
      && (f.Some? ==> Validate(name, description, owner, repos) == Rejected(f.value))
      && (f.None? ==> Validate(name, description, owner, repos).Accepted?)
  {
    var c := Checks(name, description, owner, repos);
    assert c[1..] == [c[1], c[2], c[3]];
    assert c[1..][1..] == [c[2], c[3]];
    assert c[1..][1..][1..] == [c[3]];
    assert c[1..][1..][1..][1..] == [];
  }

  /** A submission is accepted exactly when all four tests pass. */
  lemma AcceptedIffAllPass(name: Option<string>, description: Option<string>, owner: Option<string>,
                           repos: seq<string>)
    ensures Validate(name, description, owner, repos).Accepted? <==>
      && NameValid(name) && name.value !in repos && Present(description) && OwnerValid(owner)
  {
    ValidateIsFirstFailure(name, description, owner, repos);
    var c := Checks(name, description, owner, repos);
    if forall k :: 0 <= k < |c| ==> c[k].passed {
      assert c[0].passed && c[1].passed && c[2].passed && c[3].passed;
    }
  }

  /**
   * A well-formed name that is already in the snapshot is always reported as a
   * duplicate, whatever the description and the owner are.
   */
  lemma DuplicateAlwaysReported(name: string, description: Option<string>, owner: Option<string>,
                                repos: seq<string>)
    requires IsRepoName(name) && name in repos
    ensures Validate(Some(name), description, owner, repos) == Rejected(DuplicateName)
    ensures Validate(Some(name), description, owner, repos).error.FieldOf() == RepoName
  {
  }

  /** Each error is reported exactly when every earlier test passed and its own failed. */
  lemma ErrorConditions(name: Option<string>, description: Option<string>, owner: Option<string>,
                        repos: seq<string>)
    ensures var v := Validate(name, description, owner, repos);
      && (v == Rejected(InvalidName) <==> !NameValid(name))
      && (v == Rejected(DuplicateName) <==> NameValid(name) && name.value in repos)
      && (v == Rejected(MissingDescription) <==>
            NameValid(name) && name.value !in repos && !Present(description))
      && (v == Rejected(InvalidOwner) <==>
            NameValid(name) && name.value !in repos && Present(description) && !OwnerValid(owner))
  {
  }

  /** An empty string counts as missing for every field. */
  lemma EmptyIsMissing(name: Option<string>, description: Option<string>, owner: Option<string>,
                       repos: seq<string>)
    ensures Validate(Some(""), description, owner, repos) == Validate(None, description, owner, repos)
    ensures Validate(Some(""), description, owner, repos) == Rejected(InvalidName)
    ensures Validate(name, Some(""), owner, repos) == Validate(name, None, owner, repos)
    ensures Validate(name, description, Some(""), repos) == Validate(name, description, None, repos)
  {
  }

  /** A submission with a malformed name is refused on the name field and never on any other. */
  lemma MalformedNameWins(name: string, description: Option<string>, owner: Option<string>, repos: seq<string>)
    requires !IsRepoName(name)
    ensures Validate(Some(name), description, owner, repos) == Rejected(InvalidName)
    ensures Validate(Some(name), description, owner, repos).error.FieldOf() == RepoName
  {
  }

  /** `Hack_Tools` is one such name. */
  lemma MalformedNameExample(description: Option<string>, owner: Option<string>, repos: seq<string>)
    ensures Validate(Some("Hack_Tools"), description, owner, repos) == Rejected(InvalidName)
  {
    RepoNameRejected();
    MalformedNameWins("Hack_Tools", description, owner, repos);
  }
}
