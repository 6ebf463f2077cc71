/**
 * The bot's four event handlers as one object: the `/repo-create` command, the
 * form submission, and the Approve and Deny buttons of the approval card. The
 * object holds the single `userID` slot, the startup snapshot of the
 * organisation's repository names and a log of the effects the handlers have
 * issued so far (chat messages and repository-host calls), to which each
 * handler only appends.
 */
module Workflow {
  import opened Wrappers
  import opened Text
  import opened Validation
  import opened Submission
  import opened Card

  // ---------------------------------------------------------------------------
  // Fixed configuration
  // ---------------------------------------------------------------------------

  /** The only channel `/repo-create` may be used in. */
  const CreationChannel: string := "C0643HAAE87"
  /** The channel the approval cards are posted to. */
  const ApprovalsChannel: string := "C064QCFNNBE"
  /** The organisation that owns the template and every generated repository. */
  const Org: string := "hacksnowbound"
  const TemplateRepo: string := "project-template"
  /** The only permission the requester is given on the new repository. */
  const CollaboratorPermission: string := "write"

  /** The repository settings the approve path applies after generating. */
  datatype RepoSettings = RepoSettings(
    hasIssues: bool, hasProjects: bool, hasWiki: bool, hasDownloads: bool,
    teamId: nat, autoInit: bool,
    allowSquashMerge: bool, allowMergeCommit: bool, allowRebaseMerge: bool,
    allowAutoMerge: bool, deleteBranchOnMerge: bool)

  const Settings: RepoSettings := RepoSettings(
    hasIssues := true, hasProjects := true, hasWiki := true, hasDownloads := true,
    teamId := 8886814, autoInit := true,
    allowSquashMerge := false, allowMergeCommit := true, allowRebaseMerge := false,
    allowAutoMerge := true, deleteBranchOnMerge := true)

  // ---------------------------------------------------------------------------
  // Messages
  // ---------------------------------------------------------------------------

  datatype Button = Button(text: string, style: string, value: string, actionId: string)

  const ApproveButton: Button := Button("Approve", "primary", "approve", "approve_repo")
  const DenyButton: Button := Button("Deny", "danger", "deny", "deny_repo")

  /** The three kinds of message block the handlers use. */
  datatype Block = Section(text: string) | Actions(buttons: seq<Button>) | Context(text: string)

  /** Whether some block of `blocks` carries buttons. */
  predicate HasActions(blocks: seq<Block>) {
    exists k :: 0 <= k < |blocks| && blocks[k].Actions?
  }

  const WrongChannelLead: string := "Sorry, you can only use this command in the <#"
  const WrongChannelTail: string := "> channel."
  const RepoLead: string := "Your repo "
  const PendingTail: string := " has been requested. Please wait for an admin to approve it."
  const DeniedTail: string := " has been denied. Please contact an admin for more information."
  const ReadyLead: string := "Your repo is ready! :tada: You can find it at "
  const ReadyTail: string := ". Happy creating!"
  const ReadyFootnote: string :=
    "If you need to add more people to your repo, or have any other questions, please ask in the <#C0643HAAE87|repo-creation> channel."
  const ApprovedTitle: string := "Repo Creation Request (Approved)"
  const DeniedTitle: string := "Repo Creation Request (Denied)"
  const ApprovedByLead: string := "This repo has been _approved_ by <@"
  const DeniedByLead: string := "This repo has been *denied* by <@"
  const MentionTail: string := ">."
  const AnnounceLead: string := "The repo"
  const AnnounceCreatedBy: string := "has been created by <@"
  const AnnounceCheckOut: string := ">. Go check it out at "
  const AnnounceTail: string := "! :rocket:"

  /** The two ephemeral notices: the refusal outside the creation channel, and "request received". */
  datatype Notice = WrongChannel | Pending(name: string) {
    function Text(): string {
      match this
      case WrongChannel => WrongChannelLead + CreationChannel + WrongChannelTail
      case Pending(name) => RepoLead + name + PendingTail
    }
  }

  /** The approval card's three blocks: the requester, the request and the two buttons. */
  function RequestCard(mention: Option<string>, request: Request): seq<Block> {
    [ Section(Header(Display(mention))),
      Section(Body(request.name, request.description, request.owner)),
      Actions([ApproveButton, DenyButton]) ]
  }

  /** The summary of the ready message and of the denied card: the owner line holds the bare handle. */
  function Summary(name: string, description: string, owner: string): string {
    Line("Repo Name:", name) + "\n" + Line("Repo Description:", description) + "\n" + Line("Repo Owner:", owner)
  }

  /** The approved card's summary, whose owner line has the key and nothing after it. */
  function ApprovedSummary(name: string, description: string): string {
    Line("Repo Name:", name) + "\n" + Line("Repo Description:", description) + "\n" + Bold("Repo Owner:")
  }

  /** The two direct messages to the requester. */
  datatype Letter = Ready(url: string, name: string, description: string, owner: string) | Refusal(name: string) {
    /** The message's fallback text. */
    function Text(): string {
      match this
      case Ready(url, _, _, _) => ReadyLead + url + ReadyTail
      case Refusal(name) => RepoLead + name + DeniedTail
    }

    /** The message's blocks; the refusal is text only. */
    function Blocks(): seq<Block> {
      match this
      case Ready(_, name, description, owner) =>
        [ Section(Text()), Section(Summary(name, description, owner)), Context(ReadyFootnote) ]
      case Refusal(_) => []
    }
  }

  /**
   * The two ways the approval card is closed. The denial shows the description
   * exactly as parsed, `undefined` included.
   */
  datatype Decision =
    | Approved(requester: string, name: string, description: string, reviewer: string)
    | Denied(requester: string, name: string, parsed: Option<string>, owner: string, reviewer: string)
  {
    /** The updated message's fallback text. */
    function Title(): string {
      if Approved? then ApprovedTitle else DeniedTitle
    }

    /** The updated card: the original header, the summary and who decided. */
    function Blocks(): seq<Block> {
      match this
      case Approved(requester, name, description, reviewer) =>
        [ Section(Header(requester)),
          Section(ApprovedSummary(name, description)),
          Context(ApprovedByLead + reviewer + MentionTail) ]
      case Denied(requester, name, parsed, owner, reviewer) =>
        [ Section(Header(requester)),
          Section(Summary(name, Display(parsed), owner)),
          Context(DeniedByLead + reviewer + MentionTail) ]
    }
  }

  /** The announcement, as written: no space on either side of the name. */
  function AnnounceText(name: string, requester: string, url: string): string {
    AnnounceLead + name + AnnounceCreatedBy + requester + AnnounceCheckOut + url + AnnounceTail
  }

  /** The submission handler's answer to the form: one field-level error, or close the form. */
  datatype FormResponse = FieldError(field: Field) | Clear

  // ---------------------------------------------------------------------------
  // Effects
  // ---------------------------------------------------------------------------

  /**
   * One call the handlers make to the chat platform or the repository host.
   * The recipient of an ephemeral, and the mention on a card, may be
   * `undefined`: the submission handler uses whatever the `userID` slot holds.
   */
  datatype Effect =
    | Ephemeral(channel: string, recipient: Option<string>, notice: Notice)
    | OpenModal(trigger: string)
    | Respond(response: FormResponse)
    | PostCard(channel: string, mention: Option<string>, request: Request)
    | DirectMessage(user: string, letter: Letter)
    | UpdateCard(channel: string, ts: string, decision: Decision)
    | Announce(channel: string, repo: string, requester: string, url: string)
    | GhGenerate(templateOwner: string, templateRepo: string, owner: string, name: string,
                 description: string, isPrivate: bool)
    | GhAddCollaborator(org: string, repo: string, username: string, permission: string)
    | GhPatch(org: string, repo: string, settings: RepoSettings)
  {
    /** A call to the repository host. */
    predicate IsHostCall() {
      GhGenerate? || GhAddCollaborator? || GhPatch?
    }

    /** A message posted, sent or edited in the chat. */
    predicate IsChatMessage() {
      Ephemeral? || PostCard? || DirectMessage? || UpdateCard? || Announce?
    }

    /** The plain text of the message this effect posts, sends or edits (empty for a card post and a host call). */
    function Text(): string {
      match this
      case Ephemeral(_, _, notice) => notice.Text()
      case DirectMessage(_, letter) => letter.Text()
      case UpdateCard(_, _, decision) => decision.Title()
      case Announce(_, repo, requester, url) => AnnounceText(repo, requester, url)
      case _ => []
    }

    /** The blocks of the message this effect posts, sends or edits. */
    function Blocks(): seq<Block> {
      match this
      case PostCard(_, mention, request) => RequestCard(mention, request)
      case DirectMessage(_, letter) => letter.Blocks()
      case UpdateCard(_, _, decision) => decision.Blocks()
      case _ => []
    }
  }

  /** How many effects of `effects` satisfy `p`. */
  function Count(effects: seq<Effect>, p: Effect -> bool): (n: nat)
    ensures n <= |effects|
    ensures n == 0 <==> forall k :: 0 <= k < |effects| ==> !p(effects[k])
  {
    if effects == [] then 0
    else
      var rest := Count(effects[1..], p);
      assert forall k :: 1 <= k < |effects| ==> effects[k] == effects[1..][k - 1];
      (if p(effects[0]) then 1 else 0) + rest
  }

  /** Counting distributes over concatenation. */
  lemma {:induction false} CountAppend(xs: seq<Effect>, ys: seq<Effect>, p: Effect -> bool)
    ensures Count(xs + ys, p) == Count(xs, p) + Count(ys, p)
    decreases |xs|
  {
    if xs == [] {
      assert xs + ys == ys;
    } else {
      CountAppend(xs[1..], ys, p);
      assert (xs + ys)[1..] == xs[1..] + ys;
    }
  }

  // ---------------------------------------------------------------------------
  // What each handler issues
  // ---------------------------------------------------------------------------

  /** The command handler's calls: the ephemeral refusal outside the creation channel, the form inside it. */
  function CommandEffects(channel: string, user: string, trigger: string): seq<Effect> {
    if channel != CreationChannel then [Ephemeral(channel, Some(user), WrongChannel)]
    else [OpenModal(trigger)]
  }

  /** The submission handler's calls for a verdict, with the `userID` slot holding `requester`. */
  function SubmissionEffects(v: Verdict, requester: Option<string>): seq<Effect> {
    match v
    case Rejected(e) => [Respond(FieldError(e.FieldOf()))]
    case Accepted(r) =>
      [ Respond(Clear),
        PostCard(ApprovalsChannel, requester, r),
        Ephemeral(CreationChannel, requester, Pending(r.name)) ]
  }

  /**
   * The calls of the approve path, for the card with sections `header` and
   * `body` and message timestamp `ts`, clicked by `reviewer`, when the
   * generated repository's page is `url`: nothing when the parse throws,
   * otherwise those of `createGithubrepo` on the parsed values.
   */
  function ApprovalPlan(header: string, body: string, ts: string, reviewer: string, url: string): seq<Effect> {
    match ParseCard(header, body)
    case None => []
    case Some(c) => CreationPlan(c.name, c.description, c.owner, c.requester, ts, reviewer, url)
  }

  /**
   * The calls of `createGithubrepo` in the order they are awaited: nothing when
   * the description is `undefined` (trimming it throws), otherwise the three
   * host calls with the normalised description and then the three chat calls.
   */
  function CreationPlan(name: string, description: Option<string>, owner: string, requester: string,
                        ts: string, reviewer: string, url: string): seq<Effect> {
    match description
    case None => []
    case Some(raw) => CreationCalls(name, NormalizeDescription(raw), owner, requester, ts, reviewer, url)
  }

  /** The six calls of `createGithubrepo` once the description has been normalised to `d`. */
  function CreationCalls(name: string, d: string, owner: string, requester: string,
                         ts: string, reviewer: string, url: string): seq<Effect> {
    HostCalls(name, d, owner) + ChatCalls(name, d, owner, requester, ts, reviewer, url)
  }

  /** Generate the repository from the template, add the owner as a collaborator, apply the settings. */
  function HostCalls(name: string, d: string, owner: string): seq<Effect> {
    [ GhGenerate(Org, TemplateRepo, Org, name, d, false),
      GhAddCollaborator(Org, name, owner, CollaboratorPermission),
      GhPatch(Org, name, Settings) ]
  }

  /** Tell the requester, close the card, announce the repository. */
  function ChatCalls(name: string, d: string, owner: string, requester: string,
                     ts: string, reviewer: string, url: string): seq<Effect> {
    [ DirectMessage(requester, Ready(url, name, d, owner)),
      UpdateCard(ApprovalsChannel, ts, Approved(requester, name, d, reviewer)),
      Announce(CreationChannel, name, requester, url) ]
  }

  /** The calls of the deny path in the order they are awaited; nothing when the parse throws. */
  function DenialPlan(header: string, body: string, ts: string, reviewer: string): seq<Effect> {
    match ParseCard(header, body)
    case None => []
    case Some(c) =>
      [ DirectMessage(c.requester, Refusal(c.name)),
        UpdateCard(ApprovalsChannel, ts, Denied(c.requester, c.name, c.description, c.owner, reviewer)) ]
  }

  /**
   * The calls a handler that awaits each call of `plan` in turn issues when
   * the first `succeeded` of them succeed: those, and the one that fails,
   * which ends the handler.
   */
  function Issued(plan: seq<Effect>, succeeded: nat): (r: seq<Effect>)
    ensures |r| == if succeeded < |plan| then succeeded + 1 else |plan|
  {
    if succeeded < |plan| then plan[..succeeded + 1] else plan
  }

  /** Awaiting two plans one after the other: the second starts only once the first has fully succeeded. */
  lemma IssuedAppend(a: seq<Effect>, b: seq<Effect>, k: nat)
    ensures Issued(a + b, k) == if k < |a| then Issued(a, k) else a + Issued(b, k - |a|)
  {
    if k < |a| {
      assert (a + b)[..k + 1] == a[..k + 1];
    } else if k < |a| + |b| {
      assert (a + b)[..k + 1] == a + b[..k - |a| + 1];
    }
  }

  // ---------------------------------------------------------------------------
  // The handlers
  // ---------------------------------------------------------------------------

  class Bot {
    /** The names of the organisation's repositories, fetched once at startup. */
    const repos: seq<string>
    /** The single slot naming whoever last opened the form. */
    var userID: Option<string>
    /** Every call issued so far, oldest first. */
    var log: seq<Effect>

    constructor(repos: seq<string>)
      ensures this.repos == repos && userID == None && log == []
    {
      this.repos := repos;
      userID := None;
      log := [];
    }

    /**
     * `/repo-create` typed by `user` in `channel`; `shown` is whether the
     * platform opened the form. Outside the creation channel only the
     * refusal is sent; inside it the slot is overwritten once the form is open.
     */
    method Command(channel: string, user: string, trigger: string, shown: bool)
      modifies this
      ensures log == old(log) + CommandEffects(channel, user, trigger)
      ensures userID == if channel == CreationChannel && shown then Some(user) else old(userID)
    {
      if channel != CreationChannel {
        log := log + [Ephemeral(channel, Some(user), WrongChannel)];
        return;
      }
      log := log + [OpenModal(trigger)];
      if shown {
        userID := Some(user);
      }
    }

    /** The form submitted with these three values (`None` for a missing value). */
    method Submit(name: Option<string>, description: Option<string>, owner: Option<string>)
      returns (v: Verdict)
      modifies this`log
      ensures v == Validate(name, description, owner, repos)
      ensures log == old(log) + SubmissionEffects(v, userID)
    {
      if !Present(name) || !IsRepoName(name.value) {
        v := Rejected(InvalidName);
        log := log + [Respond(FieldError(RepoName))];
        return;
      } else if name.value in repos {
        v := Rejected(DuplicateName);
        log := log + [Respond(FieldError(RepoName))];
        return;
      } else if !Present(description) {
        v := Rejected(MissingDescription);
        log := log + [Respond(FieldError(RepoDescription))];
        return;
      } else if !Present(owner) || !IsGithubUsername(owner.value) {
        v := Rejected(InvalidOwner);
        log := log + [Respond(FieldError(RepoOwner))];
        return;
      }
      var request := Request(name.value, description.value, owner.value);
      v := Accepted(request);
      log := log + [Respond(Clear)];
      log := log + [PostCard(ApprovalsChannel, userID, request)];
      log := log + [Ephemeral(CreationChannel, userID, Pending(request.name))];
    }

    /**
     * The Approve button on the card with sections `header` and `body`: the
     * request is parsed back out of the card and handed to `CreateRepo`.
     */
    method Approve(header: string, body: string, ts: string, reviewer: string, url: string, succeeded: nat)
      modifies this`log
      ensures log == old(log) + Issued(ApprovalPlan(header, body, ts, reviewer, url), succeeded)
    {
      var card := ParseCard(header, body);
      if card.None? {
        return;
      }
      var c := card.value;
      CreateRepo(c.name, c.description, c.owner, c.requester, ts, reviewer, url, succeeded);
    }

    /**
     * `createGithubrepo`. Its calls are awaited one after another; the first
     * `succeeded` succeed and the next one, if any, throws and ends the handler.
     */
    method CreateRepo(name: string, description: Option<string>, owner: string, requester: string,
                      ts: string, reviewer: string, url: string, succeeded: nat)
      modifies this`log
      ensures log == old(log) + Issued(CreationPlan(name, description, owner, requester, ts, reviewer, url), succeeded)
    {
      if description.None? {
        return;
      }
      var d := NormalizeDescription(description.value);
      ghost var host, chat := HostCalls(name, d, owner), ChatCalls(name, d, owner, requester, ts, reviewer, url);
      assert CreationPlan(name, description, owner, requester, ts, reviewer, url) == host + chat;
      IssuedAppend(host, chat, succeeded);
      var provisioned := ProvisionRepo(name, d, owner, succeeded);
      if !provisioned {
        return;
      }
      NotifyRequester(name, d, owner, requester, ts, reviewer, url, succeeded - 3);
    }

    /** The three host calls, in order; `provisioned` tells whether all three succeeded. */
    method ProvisionRepo(name: string, d: string, owner: string, succeeded: nat) returns (provisioned: bool)
      modifies this`log
      ensures log == old(log) + Issued(HostCalls(name, d, owner), succeeded)
      ensures provisioned <==> succeeded >= 3
    {
      ghost var plan := HostCalls(name, d, owner);
      var calls := [GhGenerate(Org, TemplateRepo, Org, name, d, false)];
      provisioned := false;
      if succeeded > 0 {
        calls := calls + [GhAddCollaborator(Org, name, owner, CollaboratorPermission)];
        if succeeded > 1 {
          calls := calls + [GhPatch(Org, name, Settings)];
          provisioned := succeeded > 2;
        }
      }
      assert calls == Issued(plan, succeeded);
      log := log + calls;
    }

    /** The direct message, then (once it is sent) the card update, then the announcement. */
    method NotifyRequester(name: string, d: string, owner: string, requester: string,
                           ts: string, reviewer: string, url: string, succeeded: nat)
      modifies this`log
      ensures log == old(log) + Issued(ChatCalls(name, d, owner, requester, ts, reviewer, url), succeeded)
    {
      ghost var plan := ChatCalls(name, d, owner, requester, ts, reviewer, url);
      var calls := [DirectMessage(requester, Ready(url, name, d, owner))];
      if succeeded > 0 {
        calls := calls + [UpdateCard(ApprovalsChannel, ts, Approved(requester, name, d, reviewer))];
        if succeeded > 1 {
          calls := calls + [Announce(CreationChannel, name, requester, url)];
        }
      }
      assert calls == Issued(plan, succeeded);
      log := log + calls;
    }

    /** The Deny button, with the same reading of `succeeded` as `Approve`. */
    method Deny(header: string, body: string, ts: string, reviewer: string, succeeded: nat)
      modifies this`log
      ensures log == old(log) + Issued(DenialPlan(header, body, ts, reviewer), succeeded)
    {
      var card := ParseCard(header, body);
      if card.None? {
        return;
      }
      var c := card.value;
      log := log + [DirectMessage(c.requester, Refusal(c.name))];
      if succeeded == 0 {
        return;
      }
      log := log + [UpdateCard(ApprovalsChannel, ts, Denied(c.requester, c.name, c.description, c.owner, reviewer))];
    }
  }

  // ---------------------------------------------------------------------------
  // Properties of the handlers
  // ---------------------------------------------------------------------------

  /** Outside the creation channel the command sends the refusal and nothing else. */
  lemma CommandOutsideChannel(channel: string, user: string, trigger: string)
    requires channel != CreationChannel
    ensures var es := CommandEffects(channel, user, trigger);
      && Count(es, (e: Effect) => e.OpenModal?) == 0
      && Count(es, (e: Effect) => e.IsChatMessage()) == 1
      && es[0] == Ephemeral(channel, Some(user), WrongChannel)
      && es[0].Text() == WrongChannelLead + CreationChannel + WrongChannelTail
  {
  }

  /** In the creation channel the command only opens the form. */
  lemma CommandInsideChannel(user: string, trigger: string)
    ensures var es := CommandEffects(CreationChannel, user, trigger);
      && Count(es, (e: Effect) => e.IsChatMessage()) == 0
      && es == [OpenModal(trigger)]
  {
  }

  /**
   * An accepted submission closes the form, posts exactly one card, to the
   * approvals channel and with the Approve and Deny buttons, and sends exactly
   * one ephemeral, to whoever the slot names, in the creation channel.
   */
  lemma AcceptedSubmissionEffects(v: Verdict, requester: Option<string>)
    requires v.Accepted?
    ensures var es := SubmissionEffects(v, requester);
      && Count(es, (e: Effect) => e.PostCard?) == 1
      && Count(es, (e: Effect) => e.Ephemeral?) == 1
      && Count(es, (e: Effect) => e.IsChatMessage()) == 2
      && es[0] == Respond(Clear)
      && es[1].PostCard? && es[1].channel == ApprovalsChannel && es[1].request == v.request
      && es[1].Blocks()[2] == Actions([ApproveButton, DenyButton])
      && HasActions(es[1].Blocks())
      && es[2] == Ephemeral(CreationChannel, requester, Pending(v.request.name))
      && es[2].Text() == RepoLead + v.request.name + PendingTail
  {
    var es := SubmissionEffects(v, requester);
    assert es == [es[0]] + [es[1]] + [es[2]];
    CountAppend([es[0]] + [es[1]], [es[2]], (e: Effect) => e.PostCard?);
    CountAppend([es[0]], [es[1]], (e: Effect) => e.PostCard?);
    CountAppend([es[0]] + [es[1]], [es[2]], (e: Effect) => e.Ephemeral?);
    CountAppend([es[0]], [es[1]], (e: Effect) => e.Ephemeral?);
    CountAppend([es[0]] + [es[1]], [es[2]], (e: Effect) => e.IsChatMessage());
    CountAppend([es[0]], [es[1]], (e: Effect) => e.IsChatMessage());
  }

  /** A rejected submission only answers the form, on the field of its error: no chat message at all. */
  lemma RejectedSubmissionEffects(v: Verdict, requester: Option<string>)
    requires v.Rejected?
    ensures var es := SubmissionEffects(v, requester);
      && Count(es, (e: Effect) => e.IsChatMessage()) == 0
      && es == [Respond(FieldError(v.error.FieldOf()))]
  {
  }

  /**
   * The order of `createGithubrepo`, whatever fails: generate, add the owner
   * as a `write` collaborator, apply the settings, and only then the direct
   * message, the card update and the announcement.
   */
  lemma CreationOrder(name: string, description: Option<string>, owner: string, requester: string,
                       ts: string, reviewer: string, url: string, succeeded: nat)
    ensures var r := Issued(CreationPlan(name, description, owner, requester, ts, reviewer, url), succeeded);
      && |r| <= 6
      && (forall i :: 0 <= i < |r| ==> (r[i].IsHostCall() <==> i < 3) && (r[i].IsChatMessage() <==> 3 <= i))
      && (|r| > 0 ==> r[0].GhGenerate? && r[0].templateOwner == Org && r[0].templateRepo == TemplateRepo
                      && r[0].owner == Org && r[0].name == name && !r[0].isPrivate)
      && (|r| > 1 ==> r[1].GhAddCollaborator? && r[1].repo == name && r[1].username == owner
                      && r[1].permission == CollaboratorPermission)
      && (|r| > 2 ==> r[2].GhPatch? && r[2].repo == name && r[2].settings == Settings)
      && (|r| > 3 ==> r[3].DirectMessage? && r[3].user == requester && r[3].letter.Ready?)
      && (|r| > 4 ==> r[4].UpdateCard? && r[4].channel == ApprovalsChannel && r[4].decision.Approved?)
      && (|r| > 5 ==> r[5].Announce? && r[5].channel == CreationChannel)
  {
    match description
    case None =>
    case Some(raw) =>
      var plan := CreationCalls(name, NormalizeDescription(raw), owner, requester, ts, reviewer, url);
      CallsOrder(name, NormalizeDescription(raw), owner, requester, ts, reviewer, url);
      var r := Issued(plan, succeeded);
      assert forall i :: 0 <= i < |r| ==> r[i] == plan[i];
  }

  /** The kinds of the six calls of `createGithubrepo`, position by position. */
  lemma CallsOrder(name: string, d: string, owner: string, requester: string,
                   ts: string, reviewer: string, url: string)
    ensures var plan := CreationCalls(name, d, owner, requester, ts, reviewer, url);
      && |plan| == 6
      && (forall i :: 0 <= i < 6 ==> (plan[i].IsHostCall() <==> i < 3) && (plan[i].IsChatMessage() <==> 3 <= i))
      && plan[0].GhGenerate? && plan[0].templateOwner == Org && plan[0].templateRepo == TemplateRepo
      && plan[0].owner == Org && plan[0].name == name && !plan[0].isPrivate
      && plan[1].GhAddCollaborator? && plan[1].repo == name && plan[1].username == owner
      && plan[1].permission == CollaboratorPermission
      && plan[2].GhPatch? && plan[2].repo == name && plan[2].settings == Settings
      && plan[3].DirectMessage? && plan[3].user == requester && plan[3].letter.Ready?
      && plan[4].UpdateCard? && plan[4].channel == ApprovalsChannel && plan[4].decision.Approved?
      && plan[5].Announce? && plan[5].channel == CreationChannel
  {
  }

  /** The same order for the Approve button, whatever the card holds. */
  lemma ApprovalOrder(header: string, body: string, ts: string, reviewer: string, url: string, succeeded: nat)
    ensures var r := Issued(ApprovalPlan(header, body, ts, reviewer, url), succeeded);
      && |r| <= 6
      && (forall i :: 0 <= i < |r| ==> (r[i].IsHostCall() <==> i < 3) && (r[i].IsChatMessage() <==> 3 <= i))
      && (|r| > 0 ==> r[0].GhGenerate? && r[0].templateRepo == TemplateRepo && !r[0].isPrivate)
      && (|r| > 1 ==> r[1].GhAddCollaborator? && r[1].permission == CollaboratorPermission)
      && (|r| > 2 ==> r[2].GhPatch? && r[2].settings == Settings)
      && (|r| > 3 ==> r[3].DirectMessage? && r[3].letter.Ready?)
      && (|r| > 4 ==> r[4].UpdateCard? && r[4].decision.Approved?)
      && (|r| > 5 ==> r[5].Announce?)
  {
    match ParseCard(header, body)
    case None =>
    case Some(c) =>
      CreationOrder(c.name, c.description, c.owner, c.requester, ts, reviewer, url, succeeded);
  }

  /**
   * No chat message is followed by a repository-host call, and a chat message
   * is issued only once all three host calls have succeeded.
   */
  lemma ChatOnlyAfterHostCalls(header: string, body: string, ts: string, reviewer: string, url: string,
                               succeeded: nat)
    ensures var r := Issued(ApprovalPlan(header, body, ts, reviewer, url), succeeded);
      && (forall i, j :: 0 <= i < j < |r| && r[i].IsChatMessage() ==> !r[j].IsHostCall())
      && (Count(r, (e: Effect) => e.IsChatMessage()) > 0 ==> succeeded >= 3)
  {
    ApprovalOrder(header, body, ts, reviewer, url, succeeded);
  }

  /** The Deny button makes no repository-host call: only the refusal, then the card update. */
  lemma DenialMakesNoHostCall(header: string, body: string, ts: string, reviewer: string, succeeded: nat)
    ensures var r := Issued(DenialPlan(header, body, ts, reviewer), succeeded);
      && Count(r, (e: Effect) => e.IsHostCall()) == 0
      && |r| <= 2
      && (|r| > 0 ==> r[0].DirectMessage? && r[0].letter.Refusal?)
      && (|r| > 1 ==> r[1].UpdateCard? && r[1].channel == ApprovalsChannel && r[1].decision.Denied?)
  {
    match ParseCard(header, body)
    case None =>
    case Some(c) =>
      var plan := DenialPlan(header, body, ts, reviewer);
      var r := Issued(plan, succeeded);
      assert forall i :: 0 <= i < |r| ==> r[i] == plan[i];
  }

  /** A closed card keeps its header, ends with who decided, and has no buttons left. */
  lemma ClosedCardHasNoButtons(d: Decision)
    ensures var b := d.Blocks();
      && |b| == 3
      && !HasActions(b)
      && b[0] == Section(Header(d.requester))
      && b[1] == Section(match d
                         case Approved(_, name, description, _) => ApprovedSummary(name, description)
                         case Denied(_, name, parsed, owner, _) => Summary(name, Display(parsed), owner))
      && b[2] == Context((if d.Approved? then ApprovedByLead else DeniedByLead) + d.reviewer + MentionTail)
  {
  }

  /** The part of `ClosedCardHasNoButtons` the update lemmas need. */
  lemma ClosedCardKeepsNoButtons(d: Decision)
    ensures !HasActions(d.Blocks())
  {
    ClosedCardHasNoButtons(d);
  }

  /** The only card update of `createGithubrepo` is an approved, closed card, with no buttons. */
  lemma CreationUpdateHasNoButtons(name: string, description: Option<string>, owner: string, requester: string,
                                   ts: string, reviewer: string, url: string)
    ensures var plan := CreationPlan(name, description, owner, requester, ts, reviewer, url);
      forall i :: 0 <= i < |plan| && plan[i].UpdateCard? ==>
        plan[i].decision.Approved? && !HasActions(plan[i].Blocks())
  {
    if description.Some? {
      var d := NormalizeDescription(description.value);
      var plan := CreationCalls(name, d, owner, requester, ts, reviewer, url);
      CallsOrder(name, d, owner, requester, ts, reviewer, url);
      ClosedCardKeepsNoButtons(plan[4].decision);
    }
  }

  /** Every card update the Approve button issues is an approved, closed card, with no buttons. */
  lemma ApprovedUpdateHasNoButtons(header: string, body: string, ts: string, reviewer: string, url: string)
    ensures var plan := ApprovalPlan(header, body, ts, reviewer, url);
      forall i :: 0 <= i < |plan| && plan[i].UpdateCard? ==>
        plan[i].decision.Approved? && !HasActions(plan[i].Blocks())
  {
    match ParseCard(header, body)
    case None =>
    case Some(c) =>
      CreationUpdateHasNoButtons(c.name, c.description, c.owner, c.requester, ts, reviewer, url);
  }

  /** Every card update the Deny button issues is a denied, closed card, with no buttons. */
  lemma DeniedUpdateHasNoButtons(header: string, body: string, ts: string, reviewer: string)
    ensures var plan := DenialPlan(header, body, ts, reviewer);
      forall i :: 0 <= i < |plan| && plan[i].UpdateCard? ==>
        plan[i].decision.Denied? && !HasActions(plan[i].Blocks())
  {
    var plan := DenialPlan(header, body, ts, reviewer);
    if plan != [] {
      ClosedCardKeepsNoButtons(plan[1].decision);
    }
  }

  /**
   * Approving the card an accepted submission posted, whether or not the owner
   * URL came back as a link: the repository is generated under the submitted
   * name with the submitted description normalised, the submitted owner is
   * added with `write`, and the slot's user is the one told.
   */
  lemma ApproveSubmittedCard(r: Request, id: string, ts: string, reviewer: string, url: string, linked: bool)
    requires IsRepoName(r.name) && IsGithubUsername(r.owner) && '*' !in r.description && RecoverableId(id)
    ensures RequestCard(Some(id), r)[0] == Section(Header(id))
    ensures RequestCard(Some(id), r)[1] == Section(ReceivedBody(r.name, r.description, r.owner, false))
    ensures ApprovalPlan(Header(id), ReceivedBody(r.name, r.description, r.owner, linked), ts, reviewer, url) ==
            CreationCalls(r.name, NormalizeDescription(r.description), r.owner, id, ts, reviewer, url)
  {
    CardRoundTrip(r.name, r.description, r.owner, id, linked);
    NormalizeIgnoresPadding(" ", r.description, "\n");
  }

  /**
   * Denying the card an accepted submission posted: the slot's user is told
   * the submitted name, and the closed card shows the description with the
   * whitespace the template put around it and the bare owner handle.
   */
  lemma DenySubmittedCard(r: Request, id: string, ts: string, reviewer: string, linked: bool)
    requires IsRepoName(r.name) && IsGithubUsername(r.owner) && '*' !in r.description && RecoverableId(id)
    ensures DenialPlan(Header(id), ReceivedBody(r.name, r.description, r.owner, linked), ts, reviewer) ==
            [ DirectMessage(id, Refusal(r.name)),
              UpdateCard(ApprovalsChannel, ts, Denied(id, r.name, Some(" " + r.description + "\n"), r.owner, reviewer)) ]
  {
    CardRoundTrip(r.name, r.description, r.owner, id, linked);
  }
}
