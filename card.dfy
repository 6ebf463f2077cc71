/**
 * The approval card: the two text templates the submission handler posts, the
 * `split`-based parsers the approve and deny handlers use to get the request
 * back out of the card's text, and the description normaliser applied before
 * the repository is generated.
 */
module Card {
  import opened Wrappers
  import opened Text
  import opened Validation

  /** A template literal's rendering of a value that may be `undefined`. */
  function Display(v: Option<string>): string {
    match v
    case Some(s) => s
    case None => "undefined"
  }

  // ---------------------------------------------------------------------------
  // The templates
  // ---------------------------------------------------------------------------

  const HeaderLead: string := "A new repo has been requested by "
  const HeaderTail: string := ">! :tada:"

  /** The first section of the card, `A new repo has been requested by <@id>! :tada:`. */
  function Header(id: string): string {
    HeaderLead + "<@" + id + HeaderTail
  }

  /** Bold text in the chat platform's markup: `*text*`. */
  function Bold(text: string): string {
    "*" + text + "*"
  }

  /** One line of a card body: a bold key, a space and the value. */
  function Line(key: string, value: string): string {
    Bold(key) + " " + value
  }

  /** `https://github.com/owner`. */
  function ProfileUrl(owner: string): string {
    "https:" + "//" + "github.com" + "/" + owner
  }

  /**
   * The second section of the card, with the three submitted values:
   * `*Repo Name:* name`, `*Repo Description:* description` and
   * `*Repo Owner:* https://github.com/owner`, one per line.
   */
  function Body(name: string, description: string, owner: string): string {
    ReceivedBody(name, description, owner, false)
  }

  /** The owner URL as posted, or as the chat platform's link markup `<url>`. */
  function OwnerValue(owner: string, linked: bool): string {
    if linked then "<" + ProfileUrl(owner) + ">" else ProfileUrl(owner)
  }

  /**
   * The second section as the chat platform hands it back to the button
   * handlers: either as posted, or with the owner URL turned into a link.
   */
  function ReceivedBody(name: string, description: string, owner: string, linked: bool): string {
    Line("Repo Name:", name) + "\n" + Line("Repo Description:", description) + "\n" + Line("Repo Owner:", OwnerValue(owner, linked))
  }

  // ---------------------------------------------------------------------------
  // The parsers of the approve and deny handlers
  // ---------------------------------------------------------------------------

  /** `parts[k]`: `undefined` past the end of the array. */
  function Piece(parts: seq<string>, k: nat): Option<string> {
    if k < |parts| then Some(parts[k]) else None
  }

  /** `body.split("*")[2].trim()`; `None` where the handler would throw. */
  function ParseName(body: string): Option<string> {
    match Piece(Split(body, "*"), 2)
    case None => None
    case Some(p) => Some(Trim(p))
  }

  /** `body.split("*")[4]`, which may be `undefined`. */
  function ParseDescription(body: string): Option<string> {
    Piece(Split(body, "*"), 4)
  }

  /** `body.split("*")[6].split("/")[3].replace(">", "")`; `None` where the handler would throw. */
  function ParseOwner(body: string): Option<string> {
    match Piece(Split(body, "*"), 6)
    case None => None
    case Some(p) =>
      match Piece(Split(p, "/"), 3)
      case None => None
      case Some(q) => Some(RemoveFirst(q, '>'))
  }

  /** `header.split("<@")[1].split(">")[0]`; `None` where the handler would throw. */
  function ParseRequester(header: string): Option<string> {
    match Piece(Split(header, "<@"), 1)
    case None => None
    case Some(p) => Some(Split(p, ">")[0])
  }

  /** What the button handlers rebuild from the card; the description may be `undefined`. */
  datatype ParsedCard = ParsedCard(name: string, description: Option<string>, owner: string, requester: string)

  /**
   * All four parsers together; `None` when one of the three that dereference
   * an array element throws, which ends the handler before any call it makes.
   */
  function ParseCard(header: string, body: string): Option<ParsedCard> {
    var name, owner, requester := ParseName(body), ParseOwner(body), ParseRequester(header);
    if name.None? || owner.None? || requester.None? then None
    else Some(ParsedCard(name.value, ParseDescription(body), owner.value, requester.value))
  }

  // ---------------------------------------------------------------------------
  // The description normaliser of createGithubrepo
  // ---------------------------------------------------------------------------

  /** `description.trim().replace(/\n/g, "\\n")`. */
  function NormalizeDescription(d: string): string {
    ReplaceAll(Trim(d), '\n', "\\n")
  }

  /**
   * The normalised description holds no line feed and has no whitespace at
   * either end; it is empty exactly when the trimmed description is, and it is
   * the trimmed description itself when that holds no line feed.
   */
  lemma NormalizeDescriptionProps(d: string)
    ensures var r := NormalizeDescription(d);
      && '\n' !in r
      && Trimmed(r)
      && (r == [] <==> Trim(d) == [])
      && ('\n' !in Trim(d) ==> r == Trim(d))
  {
    var t := Trim(d);
    var r := ReplaceAll(t, '\n', "\\n");
    ReplaceAllProps(t, '\n', "\\n");
    assert t != [] ==> r != [] && r[0] == t[0] && r[|r| - 1] == t[|t| - 1];
  }

  /** The whitespace the card puts around the description is lost again on normalising. */
  lemma NormalizeIgnoresPadding(l: string, d: string, r: string)
    requires AllWhitespace(l) && AllWhitespace(r)
    ensures NormalizeDescription(l + d + r) == NormalizeDescription(d)
  {
    TrimPadded(l, d, r);
  }

  // ---------------------------------------------------------------------------
  // The round trip
  // ---------------------------------------------------------------------------

  /** A requester id the header parser can recover: no `>` and no `<@` in it. */
  predicate RecoverableId(id: string) {
    '>' !in id && !Occurs(id, "<@")
  }

  lemma NameCharsSafe(s: string)
    requires IsRepoName(s)
    ensures '*' !in s && Trimmed(s) && s != []
  {
    RepoNameShape(s);
  }

  lemma OwnerCharsSafe(s: string)
    requires IsGithubUsername(s)
    ensures '*' !in s && '/' !in s && '>' !in s
  {
    GithubUsernameShape(s);
  }

  // The body, split on `*`.

  /** A line whose key and value hold no `*` splits into an empty piece, the key, and the rest. */
  lemma LineSplit(key: string, value: string)
    requires '*' !in key && '*' !in value
    ensures var r := Split(Line(key, value), "*");
      |r| == 3 && r[0] == [] && r[1] == key && r[2] == " " + value
  {
    SplitAtSeparator("*", "");
    SplitNoChar(key, "*");
    SplitNoChar(" ", "*");
    SplitNoChar(value, "*");
    SplitConcat("*", key, "*");
    SplitConcat("*" + key, "*", "*");
    SplitConcat(Bold(key), " ", "*");
    SplitConcat(Bold(key) + " ", value, "*");
    assert [] + key == key;
    assert [] + " " == " ";
  }

  /**
   * A line whose value holds a `*`: the third piece stops at it, and with a
   * single `*` a fourth piece holds the rest.
   */
  lemma StarredLineSplit(key: string, v1: string, v2: string)
    requires '*' !in key && '*' !in v1
    ensures var r := Split(Line(key, v1 + "*" + v2), "*");
      |r| >= 4 && r[0] == [] && r[1] == key && r[2] == " " + v1
    ensures '*' !in v2 ==> var r := Split(Line(key, v1 + "*" + v2), "*");
      |r| == 4 && r[3] == v2
  {
    var x := Line(key, v1);
    LineSplit(key, v1);
    assert Line(key, v1 + "*" + v2) == x + "*" + v2;
    SplitAtSeparator("*", "");
    SplitConcat(x, "*", "*");
    SplitConcat(x + "*", v2, "*");
    assert " " + v1 + [] == " " + v1;
    if '*' !in v2 {
      SplitNoChar(v2, "*");
      assert [] + v2 == v2;
    }
  }

  /** Two pieces of text joined by a line break: the piece at the break glued together. */
  lemma TwoLines(x: string, y: string)
    ensures Split(x + "\n" + y, "*") == Glue(Glue(Split(x, "*"), ["\n"]), Split(y, "*"))
  {
    SplitNoChar("\n", "*");
    SplitConcat(x, "\n", "*");
    SplitConcat(x + "\n", y, "*");
  }

  /** Gluing a single piece between two lists of pieces. */
  lemma GlueAround(a: seq<string>, m: string, b: seq<string>)
    requires |a| >= 1 && |b| >= 1
    ensures var r := Glue(Glue(a, [m]), b);
      && |r| == |a| + |b| - 1
      && (forall k :: 0 <= k < |a| - 1 ==> r[k] == a[k])
      && r[|a| - 1] == a[|a| - 1] + m + b[0]
      && (forall k :: |a| <= k < |r| ==> r[k] == b[k - |a| + 1])
  {
    var s1 := Glue(a, [m]);
    assert |s1| == |a| && s1[|a| - 1] == a[|a| - 1] + m;
  }

  /** Three lines joined by line breaks: the pieces of each, the ones at a break glued together. */
  lemma ThreeLines(x: string, y: string, z: string)
    requires |Split(x, "*")| == 3 && |Split(y, "*")| >= 3 && |Split(z, "*")| == 3
    ensures var r, a, b, c := Split(x + "\n" + y + "\n" + z, "*"), Split(x, "*"), Split(y, "*"), Split(z, "*");
      && |r| == |b| + 4
      && r[2] == a[2] + "\n" + b[0]
      && (forall j :: 1 <= j < |b| - 1 ==> r[2 + j] == b[j])
      && r[|b| + 1] == b[|b| - 1] + "\n" + c[0]
      && r[|b| + 2] == c[1] && r[|b| + 3] == c[2]
  {
    var a, b, c := Split(x, "*"), Split(y, "*"), Split(z, "*");
    var s2 := Split(x + "\n" + y, "*");
    var r := Split(x + "\n" + y + "\n" + z, "*");
    TwoLines(x, y);
    GlueAround(a, "\n", b);
    assert |s2| == |b| + 2;
    assert s2[2] == a[2] + "\n" + b[0];
    assert s2[|b| + 1] == b[|b| - 1];
    TwoLines(x + "\n" + y, z);
    GlueAround(s2, "\n", c);
    assert |r| == |b| + 4;
    assert r[2] == s2[2];
    forall j | 1 <= j < |b| - 1 ensures r[2 + j] == b[j] {
      assert r[2 + j] == s2[2 + j] == b[j];
    }
    assert r[|b| + 1] == s2[|b| + 1] + "\n" + c[0];
  }

  lemma OwnerValueStarFree(owner: string, linked: bool)
    requires '*' !in owner
    ensures '*' !in OwnerValue(owner, linked)
  {
    assert '*' !in "https:" + "//" + "github.com" + "/";
    assert ProfileUrl(owner) == "https:" + "//" + "github.com" + "/" + owner;
  }

  /** The pieces of the body the three parsers pick. */
  lemma BodyParts(name: string, description: string, owner: string, linked: bool)
    requires '*' !in name && '*' !in description && '*' !in owner
    ensures var parts := Split(ReceivedBody(name, description, owner, linked), "*");
      && |parts| == 7
      && parts[2] == " " + name + "\n"
      && parts[4] == " " + description + "\n"
      && parts[6] == " " + OwnerValue(owner, linked)
  {
    OwnerValueStarFree(owner, linked);
    LineSplit("Repo Name:", name);
    LineSplit("Repo Description:", description);
    LineSplit("Repo Owner:", OwnerValue(owner, linked));
    ThreeLines(Line("Repo Name:", name), Line("Repo Description:", description), Line("Repo Owner:", OwnerValue(owner, linked)));
    assert " " + name + "\n" + [] == " " + name + "\n";
    assert " " + description + "\n" + [] == " " + description + "\n";
  }

  // The owner URL, split on `/`.

  /** `a//h/o` with no `/` in `a`, `h`, `o` splits into `a`, an empty piece, `h` and `o`. */
  lemma SlashPieces(a: string, h: string, o: string)
    requires '/' !in a && '/' !in h && '/' !in o
    ensures var r := Split(a + "//" + h + "/" + o, "/");
      |r| == 4 && r[0] == a && r[1] == [] && r[2] == h && r[3] == o
  {
    SplitNoChar(a, "/");
    SplitNoChar(h, "/");
    SplitNoChar(o, "/");
    SplitAtSeparator("/", "");
    SplitAtSeparator("/", "/");
    assert "/" + "/" == "//";
    SplitConcat(a, "//", "/");
    assert a + [] == a;
    var s1 := Split(a + "//", "/");
    assert |s1| == 3 && s1[0] == a && s1[1] == [] && s1[2] == [];
    SplitConcat(a + "//", h, "/");
    assert [] + h == h;
    SplitConcat(a + "//" + h, "/", "/");
    SplitConcat(a + "//" + h + "/", o, "/");
    assert [] + o == o;
  }

  lemma ProfileUrlSplit(owner: string)
    requires '/' !in owner
    ensures var r := Split(ProfileUrl(owner), "/");
      |r| == 4 && r[0] == "https:" && r[1] == [] && r[2] == "github.com" && r[3] == owner
  {
    SlashPieces("https:", "github.com", owner);
  }

  /** The URL with text around it that holds no `/`: the fourth piece is the owner and what follows. */
  lemma UrlPath(p: string, owner: string, q: string)
    requires '/' !in p && '/' !in owner && '/' !in q
    ensures var r := Split(p + ProfileUrl(owner) + q, "/");
      |r| == 4 && r[3] == owner + q
  {
    ProfileUrlSplit(owner);
    SplitNoChar(p, "/");
    SplitNoChar(q, "/");
    SplitConcat(p, ProfileUrl(owner), "/");
    SplitConcat(p + ProfileUrl(owner), q, "/");
  }

  /** The name parser trims the third `*`-piece. */
  lemma NameFromPiece(body: string, name: string)
    requires IsRepoName(name)
    requires |Split(body, "*")| > 2 && Split(body, "*")[2] == " " + name + "\n"
    ensures ParseName(body) == Some(name)
  {
    NameCharsSafe(name);
    TrimPadded(" ", name, "\n");
    TrimUnique(name, 0, |name|);
  }

  /** The fourth `/`-piece of the owner line's value, less its first `>`, is the owner. */
  lemma OwnerFromValue(owner: string, linked: bool)
    requires IsGithubUsername(owner)
    ensures var r := Split(" " + OwnerValue(owner, linked), "/");
      |r| > 3 && RemoveFirst(r[3], '>') == owner
  {
    OwnerCharsSafe(owner);
    var url := ProfileUrl(owner);
    if linked {
      assert " " + ("<" + url + ">") == " " + "<" + url + ">";
      UrlPath(" " + "<", owner, ">");
      RemoveFirstAt(owner, '>', []);
      assert owner + ">" == owner + ['>'] + [];
    } else {
      assert " " + url == " " + url + [];
      UrlPath(" ", owner, []);
      assert owner + [] == owner;
      RemoveFirstLength(owner, '>');
    }
  }

  /** The owner parser takes the fourth `/`-piece of the seventh `*`-piece and drops a `>`. */
  lemma OwnerFromPiece(body: string, owner: string, linked: bool)
    requires IsGithubUsername(owner)
    requires |Split(body, "*")| > 6 && Split(body, "*")[6] == " " + OwnerValue(owner, linked)
    ensures ParseOwner(body) == Some(owner)
  {
    OwnerFromValue(owner, linked);
    var p := " " + OwnerValue(owner, linked);
    assert Piece(Split(body, "*"), 6) == Some(p);
    assert Piece(Split(p, "/"), 3) == Some(Split(p, "/")[3]);
  }

  lemma ParseBodyRoundTrip(name: string, description: string, owner: string, linked: bool)
    requires IsRepoName(name) && IsGithubUsername(owner) && '*' !in description
    ensures var body := ReceivedBody(name, description, owner, linked);
      && ParseName(body) == Some(name)
      && ParseDescription(body) == Some(" " + description + "\n")
      && ParseOwner(body) == Some(owner)
  {
    NameCharsSafe(name);
    OwnerCharsSafe(owner);
    var body := ReceivedBody(name, description, owner, linked);
    BodyParts(name, description, owner, linked);
    NameFromPiece(body, name);
    OwnerFromPiece(body, owner, linked);
  }

  // The header.

  lemma HeaderTailSplit()
    ensures var r := Split(HeaderTail, ">");
      |r| == 2 && r[0] == [] && r[1] == "! :tada:"
  {
    assert HeaderTail == ">" + "! :tada:";
    SplitAtSeparator(">", "! :tada:");
    SplitNoChar("! :tada:", ">");
  }

  /** No `<@` after a recoverable id once the rest of the header follows it. */
  lemma NoMentionAfter(id: string)
    requires RecoverableId(id)
    ensures !Occurs(id + HeaderTail, "<@")
  {
    var rest := id + HeaderTail;
    assert '<' !in HeaderTail;
    forall i | 0 <= i < |rest| && |rest[i..]| >= 2 ensures rest[i..][..2] != "<@" {
      if i + 1 < |id| {
        assert rest[i..][..2] == id[i..][..2];
        assert !StartsWith(id[i..], "<@");
      } else if i + 1 == |id| {
        assert rest[i..][1] == rest[i + 1] == '>';
      } else {
        assert rest[i..][0] == rest[i] == HeaderTail[i - |id|];
      }
    }
  }

  /** The header split on `<@`: the lead text, then the rest of the header after the mention opens. */
  lemma HeaderPieces(id: string)
    requires RecoverableId(id)
    ensures var r := Split(Header(id), "<@");
      |r| == 2 && r[0] == HeaderLead && r[1] == id + HeaderTail
  {
    var rest := id + HeaderTail;
    assert Header(id) == HeaderLead + "<@" + rest;
    assert '<' !in HeaderLead;
    SplitLeadPiece(HeaderLead, "<@", rest);
    NoMentionAfter(id);
    SplitWithout(rest, "<@");
  }

  lemma ParseRequesterRoundTrip(id: string)
    requires RecoverableId(id)
    ensures ParseRequester(Header(id)) == Some(id)
  {
    HeaderPieces(id);
    HeaderTailSplit();
    SplitNoChar(id, ">");
    SplitConcat(id, HeaderTail, ">");
    assert id + [] == id;
  }

  /**
   * Parsing the card built from a well-formed submission gives back the name,
   * the description with the whitespace the template puts around it, the owner
   * (whether or not the URL came back as a link) and the requester id.
   */
  lemma CardRoundTrip(name: string, description: string, owner: string, id: string, linked: bool)
    requires IsRepoName(name) && IsGithubUsername(owner) && '*' !in description && RecoverableId(id)
    ensures ParseCard(Header(id), ReceivedBody(name, description, owner, linked)) ==
            Some(ParsedCard(name, Some(" " + description + "\n"), owner, id))
  {
    ParseBodyRoundTrip(name, description, owner, linked);
    ParseRequesterRoundTrip(id);
  }

  // A `*` in the description.

  /** The pieces of a body whose description holds a `*`. */
  lemma StarredBodyParts(name: string, d1: string, d2: string, owner: string)
    requires '*' !in name && '*' !in d1 && '*' !in owner
    ensures var parts := Split(Body(name, d1 + "*" + d2, owner), "*");
      |parts| > 4 && parts[4] == " " + d1
    ensures '*' !in d2 ==> var parts := Split(Body(name, d1 + "*" + d2, owner), "*");
      |parts| == 8 && parts[6] == "Repo Owner:"
  {
    OwnerValueStarFree(owner, false);
    LineSplit("Repo Name:", name);
    StarredLineSplit("Repo Description:", d1, d2);
    LineSplit("Repo Owner:", ProfileUrl(owner));
    ThreeLines(Line("Repo Name:", name), Line("Repo Description:", d1 + "*" + d2), Line("Repo Owner:", ProfileUrl(owner)));
    var b := Split(Line("Repo Description:", d1 + "*" + d2), "*");
    assert 2 < |b| - 1 ==> Split(Body(name, d1 + "*" + d2, owner), "*")[4] == b[2];
  }

  /** The owner parser throws when the seventh `*`-piece is the owner's key. */
  lemma NoOwnerInLabel(body: string)
    requires |Split(body, "*")| > 6 && Split(body, "*")[6] == "Repo Owner:"
    ensures ParseOwner(body) == None
  {
    SplitNoChar("Repo Owner:", "/");
  }

  /**
   * A description with a `*` in it is accepted by the form, but the card built
   * from it does not give that description back; with exactly one `*` the owner
   * cannot be found at all and the parse fails.
   */
  lemma StarInDescriptionBreaksCard(name: string, d1: string, d2: string, owner: string, id: string)
    requires IsRepoName(name) && IsGithubUsername(owner) && '*' !in d1
    ensures ParseDescription(Body(name, d1 + "*" + d2, owner)) == Some(" " + d1)
    ensures '*' !in d2 ==> ParseCard(Header(id), Body(name, d1 + "*" + d2, owner)) == None
  {
    NameCharsSafe(name);
    OwnerCharsSafe(owner);
    StarredBodyParts(name, d1, d2, owner);
    if '*' !in d2 {
      NoOwnerInLabel(Body(name, d1 + "*" + d2, owner));
    }
  }
}
