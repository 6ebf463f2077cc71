# snowball-bot repository-request workflow, in Dafny

This project models the chat bot that runs repository requests for the
`hacksnowbound` GitHub organisation (`src/app.js`). It proves properties of
that model.

The request workflow runs as follows:

1. A member types `/repo-create` in the creation channel.
2. The bot opens a form asking for a repository name, a description and a
   GitHub handle.
3. The bot checks the submission against two regular expressions and a startup
   snapshot of the organisation's repository names.
4. An accepted request is posted to the approvals channel as a card with
   Approve and Deny buttons.
5. A reviewer's click parses the request back out of the card's text.
6. On Approve, the bot generates the repository from the organisation's
   template, adds the owner as a collaborator and patches the settings. It
   then messages the requester, closes the card and announces the repository.
7. On Deny, the bot messages the requester and closes the card.

The model has six modules:

- `Wrappers`: an `Option` type.
- `Text`: the JavaScript string built-ins the bot uses, as recursive functions
  over `string`. These are `trim` (with the ECMAScript whitespace set),
  `split` on a string separator, `replace` of a first occurrence and the
  global `replace(/c/g, …)`.
- `Validation`: the two patterns `isRepoName` and `isGithubUsername`. Each is a
  predicate that consumes its input the way the regular expression does, and
  each is proved equal to a plain description of the strings it accepts.
- `Submission`: the form-submission check, a four-step if / else-if chain,
  proved equal to "the first failing test decides the error".
- `Card`: the card's header and body templates, the `split`-based parsers of
  the two button handlers and the description normaliser. It also proves the
  round trip from a well-formed submission, through the card, back to the
  parsed request.
- `Workflow`: the handlers as a class `Bot`. Its `const repos` is the startup
  snapshot. Its `var userID` is the single slot that links a command to the
  next submission. `log` is an append-only list of every chat message and
  repository-host call issued.

Each handler method is specified by a function of its inputs: it appends
exactly that list of effects. Lemmas about those functions state the workflow
properties: the channel guard, the first-failure order, the order of the
approval calls, that Deny never calls the host, and that closed cards lose
their buttons.

The button handlers await every call they make, and none of them catches
an error. The `succeeded` parameter of `Approve` and `Deny` is the number of
awaited calls that succeed. The call that fails is still issued, and its
rejection ends the handler.

## Notes on the code

- **Handle pattern.** The lookahead in `-(?=[a-z\d])` (src/app.js:41) means
  every dash must be followed by a letter or digit. So `a--b` is refused even
  though it is an alphanumeric followed by alphanumerics and dashes, within
  39 characters (`Validation.HandleStricterThanLoose`).
- **A failed call ends the handler.** The deny handler (src/app.js:271-314)
  and `createGithubrepo` (src/app.js:326-448) await each call in turn and
  have no `try`/`catch`. A rejected call therefore stops every call after
  it. Repository generation is never undone
  (`Workflow.ChatOnlyAfterHostCalls`, `Workflow.DenialMakesNoHostCall`).
- **A `*` in a description breaks the card.** The submission handler only
  tests that the description is non-empty (src/app.js:153). A description
  holding `*` is accepted, but the button handlers split the card text on `*`.
  That description is then not given back, and with a single `*` the owner
  cannot be found at all (`Card.StarInDescriptionBreaksCard`).

## Model

| member | source | states |
|---|---|---|
| Validation.IsRepoName | src/app.js:40 | the name pattern, as a predicate that consumes the string the way the regular expression does; its accepted strings are described by `Validation.RepoNameShape` |
| Validation.RepoNameShape | src/app.js:40 | `isRepoName` accepts a string exactly when it is non-empty, uses only `a-z` and `0-9` and dashes, does not start or end with a dash and has no two dashes in a row |
| Validation.RepoNameAccepted | src/app.js:40 | `hack-tools` is a valid repository name |
| Validation.RepoNameWithDigitAccepted | src/app.js:40 | `my-repo-1` is a valid repository name |
| Validation.RepoNameRejected | src/app.js:40 | `Hack_Tools`, `-repo` and the empty string are refused |
| Validation.RepoNameDashesRejected | src/app.js:40 | a doubled dash (`repo--x`) and a trailing dash (`repo-`) are refused |
| Validation.AfterSlugCharShape | src/app.js:40 | the part of the name pattern after the first character accepts exactly the dash-separated strings (both directions) |
| Validation.IsGithubUsername | src/app.js:41 | the handle pattern, as a predicate counting at most 38 repetitions of the lookahead group; its accepted strings are described by `Validation.GithubUsernameShape` |
| Validation.GithubUsernameShape | src/app.js:41 | `isGithubUsername` accepts a string exactly when it has 1 to 39 characters, uses only ASCII letters of either case, digits and dashes, starts with a letter or digit, and has a letter or digit after every dash |
| Validation.HandleRepeatsShape | src/app.js:41 | at most `n` repetitions of the lookahead group consume a string exactly when it has at most `n` characters of the handle set and every dash is followed by a letter or digit |
| Validation.HandleStricterThanLoose | src/app.js:41 | every valid handle is an alphanumeric followed by at most 38 alphanumerics or dashes, but `a--b` is one of those and is refused |
| Validation.HandleLengthBound | src/app.js:41 | a valid handle has between 1 and 39 characters |
| Validation.GithubUsernameAccepted | src/app.js:41 | `octocat` is a valid handle |
| Validation.MixedCaseUsernameAccepted | src/app.js:41 | under the `i` flag, `Octo-Cat9` is a valid handle |
| Validation.GithubUsernameRejected | src/app.js:41 | the empty string, a leading dash and an underscore are refused |
| Validation.TrailingDashRejected | src/app.js:41 | a handle ending in a dash is refused |
| Validation.DoubledDashRejected | src/app.js:41 | a handle with two dashes in a row is refused |
| Submission.Validate | src/app.js:135-173 | an accepted submission has all three values present and non-empty, and the request is made of exactly those values |
| Submission.FirstFailure | src/app.js:135-170 | no error exactly when every test passes; otherwise the error of a failing test all of whose predecessors passed |
| Submission.ValidateIsFirstFailure | src/app.js:135-173 | the handler's verdict is the error of the first failing test, in the order name, duplicate, description, owner, or acceptance when none fails |
| Submission.AcceptedIffAllPass | src/app.js:135-173 | a submission is accepted exactly when the name is present and matches, is not in the snapshot, the description is non-empty and the owner is present and matches |
| Submission.DuplicateAlwaysReported | src/app.js:144-152 | a well-formed name in the snapshot is always refused as a duplicate on the name field, whatever the description and owner are |
| Submission.ErrorConditions | src/app.js:135-169 | each of the four errors is reported exactly when every earlier test passed and its own failed |
| Submission.EmptyIsMissing | src/app.js:135-162 | an empty string is treated like a missing value for each of the three fields, and an empty name is refused as invalid |
| Submission.MalformedNameWins | src/app.js:135-143 | any string the name pattern refuses is refused on the name field, whatever the other two values are |
| Submission.MalformedNameExample | src/app.js:135-143 | `Hack_Tools` is refused as an invalid name |
| Text.Trim | src/app.js:236 | the result is no longer than the input and has no whitespace at either end |
| Text.TrimUnique | src/app.js:236 | any slice with only whitespace before and after it and none at its ends is what `trim` returns |
| Text.TrimPadded | src/app.js:236 | adding whitespace on either side of a string does not change its trimmed value |
| Text.Split | src/app.js:233 | `split` on a non-empty string separator: always at least one piece; the pieces are pinned down by `Text.JoinSplit`, `Text.SplitConcat` and `Text.SplitLeadPiece` |
| Text.JoinSplit | src/app.js:233 | joining the pieces of `split(sep)` with `sep` gives back the original string |
| Text.SplitConcat | src/app.js:233 | for a one-character separator, splitting `x + y` splits each part and joins the two pieces where they meet |
| Text.SplitLeadPiece | src/app.js:244-245 | a piece free of the separator's first character, followed by the separator, comes off as the first piece |
| Text.ReplaceAll | src/app.js:324 | `replace(/c/g, rep)`; what it leaves and keeps is stated by `Text.ReplaceAllProps` and `Text.ReplaceAllAppend` |
| Text.ReplaceAllProps | src/app.js:324 | a global replacement that does not contain the character leaves none of it behind; a string without the character is unchanged; the ends of the result come from the ends of the input |
| Text.ReplaceAllAppend | src/app.js:324 | global replacement acts on each part of a concatenation separately |
| Text.RemoveFirst | src/app.js:243 | `replace(">", "")` with a one-character string pattern; what it removes is stated by `Text.RemoveFirstLength` and `Text.RemoveFirstAt` |
| Text.RemoveFirstLength | src/app.js:243 | a string without the character is unchanged; otherwise exactly one character is removed |
| Text.RemoveFirstAt | src/app.js:243 | `replace(">", "")` removes the first `>` and keeps everything after it |
| Card.NormalizeDescription | src/app.js:324 | `trim()` then the global line-feed replacement; its properties are stated by `Card.NormalizeDescriptionProps` and `Card.NormalizeIgnoresPadding` |
| Card.NormalizeDescriptionProps | src/app.js:324 | the normalised description has no line feed and no whitespace at either end; it is empty exactly when the trimmed description is; it equals the trimmed description when that has no line feed |
| Card.NormalizeIgnoresPadding | src/app.js:324 | whitespace around the description does not change its normalised form |
| Card.Header | src/app.js:183 | the card's first section, mentioning the requester; `Card.ParseRequesterRoundTrip` gives the id back from it |
| Card.Body | src/app.js:190 | the card's second section with the three values, one `*Key:* value` line each; `Card.ParseBodyRoundTrip` gives them back from it |
| Card.ParseName | src/app.js:233-236 | the third `*`-piece, trimmed, and `None` where the handler throws; see `Card.NameFromPiece` |
| Card.ParseDescription | src/app.js:238-239 | the fifth `*`-piece, which may be `undefined`; see `Card.ParseBodyRoundTrip` and `Card.StarInDescriptionBreaksCard` |
| Card.ParseOwner | src/app.js:240-243 | the fourth `/`-piece of the seventh `*`-piece with its first `>` removed, and `None` where the handler throws; see `Card.OwnerFromPiece` and `Card.NoOwnerInLabel` |
| Card.ParseRequester | src/app.js:244-246 | the text between the first `<@` and the next `>`, and `None` where the handler throws; see `Card.ParseRequesterRoundTrip` |
| Card.ParseCard | src/app.js:254-269 | the four parsers together, shared by both button handlers; `Card.CardRoundTrip` gives back the submitted request from a posted card |
| Card.NameFromPiece | src/app.js:233-236 | a third `*`-piece that is a space, a valid name and a line feed parses to that name |
| Card.OwnerFromValue | src/app.js:240-243 | the owner's profile URL, sent as posted or as `<url>`, gives the handle back as the fourth `/`-piece with the first `>` removed |
| Card.OwnerFromPiece | src/app.js:240-243 | a seventh `*`-piece holding the owner's URL, linked or not, parses to the owner |
| Card.ParseBodyRoundTrip | src/app.js:233-243 | the body template filled with a valid name, a description without `*` and a valid handle parses back to the name, the description with the template's leading space and line feed, and the handle, whether or not the URL was turned into a link |
| Card.ParseRequesterRoundTrip | src/app.js:244-246 | the header for a requester id without `>` or `<@` parses back to that id |
| Card.CardRoundTrip | src/app.js:233-246 | parsing the card built from a valid submission gives back the name, the padded description, the owner and the requester |
| Card.NoOwnerInLabel | src/app.js:240-243 | when the seventh `*`-piece is the owner line's key, the owner parser throws |
| Card.StarInDescriptionBreaksCard | src/app.js:238-243 | a description with a `*` comes back cut at the `*`; with exactly one `*` the whole parse throws |
| Workflow.CommandEffects | src/app.js:46-122 | the command's calls: the refusal outside the creation channel, the form inside it; see `Workflow.CommandOutsideChannel` and `Workflow.CommandInsideChannel` |
| Workflow.SubmissionEffects | src/app.js:135-226 | the submission's calls for a verdict; see `Workflow.AcceptedSubmissionEffects` and `Workflow.RejectedSubmissionEffects` |
| Workflow.ApprovalPlan | src/app.js:230-249 | the approve handler's calls: nothing when the card does not parse, else the creation plan of the parsed values; see `Workflow.ApprovalOrder` and `Workflow.ApproveSubmittedCard` |
| Workflow.CreationPlan | src/app.js:317-449 | `createGithubrepo`'s calls: nothing when the description is `undefined`, else the host calls and then the chat calls; see `Workflow.CreationOrder` |
| Workflow.HostCalls | src/app.js:326-370 | generate from the template, add the owner with `write`, patch the settings; see `Workflow.CallsOrder` |
| Workflow.ChatCalls | src/app.js:372-448 | the ready message, the approved card update, the announcement; see `Workflow.CallsOrder` |
| Workflow.DenialPlan | src/app.js:251-315 | the deny handler's calls: nothing when the card does not parse, else the refusal and the denied card update; see `Workflow.DenialMakesNoHostCall` and `Workflow.DenySubmittedCard` |
| Workflow.Letter.Blocks | src/app.js:379-409 | the ready message: its text, the summary with the bare owner handle, and the note about the creation channel; the refusal has no blocks |
| Workflow.Decision.Blocks | src/app.js:411-441 | the closed card: the original header, the summary (with no owner on approval) and who decided; see `Workflow.ClosedCardHasNoButtons` |
| Workflow.Issued | src/app.js:326-379 | a chain of awaited calls whose first `succeeded` calls succeed issues those calls plus the failing one, or the whole chain |
| Workflow.IssuedAppend | src/app.js:326-448 | awaiting one chain after another: the second starts only once the first has fully succeeded |
| Workflow.Bot.constructor | src/app.js:31-39 | the bot starts with the repository snapshot, an empty `userID` slot and nothing issued |
| Workflow.Bot.Command | src/app.js:43-126 | outside the creation channel, appends the ephemeral refusal to the user and leaves the slot alone. Inside it, appends the form opening, and sets the slot to the user only when the form opened |
| Workflow.Bot.Submit | src/app.js:128-227 | returns the verdict of the if / else-if chain. A rejection appends one field-level error. An acceptance appends the form's closing, the card to the approvals channel mentioning the slot's user, and the ephemeral confirmation to that user |
| Workflow.Bot.Approve | src/app.js:230-249 | appends exactly the awaited calls of the approve path, cut at the first failure: nothing when the card does not parse |
| Workflow.Bot.CreateRepo | src/app.js:317-449 | appends the three host calls and then the three chat calls with the normalised description, cut at the first failure; nothing when the description is `undefined` |
| Workflow.Bot.ProvisionRepo | src/app.js:326-370 | appends generate, add-collaborator and patch in that order, cut at the first failure, and reports whether all three succeeded |
| Workflow.Bot.NotifyRequester | src/app.js:372-448 | appends the ready message, the card update and the announcement in that order, cut at the first failure |
| Workflow.Bot.Deny | src/app.js:251-315 | appends the refusal to the requester and then the card update, cut at the first failure; nothing when the card does not parse |
| Workflow.CommandOutsideChannel | src/app.js:46-54 | outside the creation channel the command opens no form and sends exactly one chat message: the ephemeral refusal to the user in that channel, naming the creation channel |
| Workflow.CommandInsideChannel | src/app.js:56-122 | inside the creation channel the command sends no chat message and only opens the form |
| Workflow.AcceptedSubmissionEffects | src/app.js:170-226 | an accepted submission closes the form, posts exactly one card (to the approvals channel, with the request and the Approve and Deny buttons) and sends exactly one ephemeral confirmation, to the requester in the creation channel, naming the repository |
| Workflow.RejectedSubmissionEffects | src/app.js:135-169 | a rejected submission sends no chat message and answers with the error on the failing test's field |
| Workflow.CallsOrder | src/app.js:326-448 | the creation plan has six calls: generate (public, into the organisation from its template), add-collaborator with `write`, patch with the settings, then the ready message to the requester, the approved card update and the announcement |
| Workflow.CreationOrder | src/app.js:317-449 | the first three issued calls are the host calls and the rest are chat messages. The positions hold, in order: generate (public, from the template), add the owner with `write`, patch with the settings, the ready message to the requester, the approved card update and the announcement |
| Workflow.ApprovalOrder | src/app.js:230-249 | whatever the approve handler issues, cut at any failure, the first three calls are host calls and the rest chat messages. The positions hold, in order: generate (public, from the template), add-collaborator with `write`, patch with the settings, the ready message, the approved card update and the announcement |
| Workflow.ChatOnlyAfterHostCalls | src/app.js:326-379 | no host call is issued after a chat message, and a chat message is issued only when all three host calls succeeded |
| Workflow.DenialMakesNoHostCall | src/app.js:251-315 | the deny handler never calls the repository host; it issues at most the refusal to the requester and then the denied card update |
| Workflow.ClosedCardHasNoButtons | src/app.js:289-313 | a closed card has three blocks and no actions block. The three are the original header, the summary (no owner on approval; the owner and the description as parsed on denial) and a context line naming the reviewer, approving or denying |
| Workflow.CreationUpdateHasNoButtons | src/app.js:411-441 | every card update of the creation plan is an approval and has no buttons |
| Workflow.ApprovedUpdateHasNoButtons | src/app.js:411-441 | every card update the approve handler issues is an approval and has no buttons |
| Workflow.DeniedUpdateHasNoButtons | src/app.js:284-314 | every card update the deny handler issues is a denial and has no buttons |
| Workflow.ApproveSubmittedCard | src/app.js:175-248 | approving the card posted for a valid request makes the host and chat calls for exactly that request, with its description normalised and the mentioned requester, whether or not the owner URL came back as a link |
| Workflow.DenySubmittedCard | src/app.js:251-314 | denying the card posted for a valid request sends the refusal for its name to the mentioned requester and closes the card showing its name, padded description and owner |

## Left out

- Transport is out of scope: the chat platform's socket connection, request signing, tokens, the environment variables and the port. The model starts from the values the handlers read out of the events.
- The repository snapshot is an input to the constructor. The listing call is not modelled. Nor is its pagination: the source reads only the first page of the organisation's repositories.
- The `cleanup` routine (src/app.js:451-479) is not modelled: nothing calls it.
- Concurrency is not modelled: several events in flight at once, and so the race on the single `userID` slot between two requesters. Each handler runs to completion before the next event.
- The acknowledgements without a payload are not logged: those of the command and of the two buttons. The form submission's acknowledgement is logged, as `Respond`.
- Opening the requester's direct-message channel and posting to it are one `DirectMessage` effect, and count as one call for `succeeded`.
- The generated repository's `html_url` is a parameter (`url`), as are the message timestamp and the reviewer id that the button handlers read from the event.
- Error wording is not modelled: form errors are identified by their field, not by their text. The chat messages keep their text, but Slack's block JSON is reduced to `Section`, `Actions` and `Context` blocks.
- The repository settings are one constant record. The API-version header is not modelled.
- Logging is not modelled (`logger.error`, `console.log`).
- The unawaited card post and ephemeral confirmation of an accepted submission are always issued. Their own failure is not modelled.
- Workflow.Bot.Submit: acknowledgement failures are not modelled. When the `ack` that closes the form (src/app.js:171) is rejected, the source posts neither the card nor the confirmation, but the model always logs both. The same holds for the plain `ack` at the start of the command and button handlers (src/app.js:44, 231, 252).
- Workflow.Bot.Approve: a failing call is modelled as ending the handler. Whether the chat platform or the host rejected the call, and what was logged, is not modelled.
- Workflow.Bot.Command: `shown` is an input saying whether the form opened. The platform's reason for refusing to open it is not modelled.
