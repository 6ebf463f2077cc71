/**
 * The two patterns the submission handler tests: the repository-name slug
 * `/^[a-z0-9]+(?:-[a-z0-9]+)*$/` and the GitHub handle
 * `/^[a-z\d](?:[a-z\d]|-(?=[a-z\d])){0,38}$/i`, each written as a recursive
 * predicate that consumes its input the way the regular expression does, and
 * each proved equal to a plain description of the strings it accepts.
 */
module Validation {

  // ---------------------------------------------------------------------------
  // Character classes
  // ---------------------------------------------------------------------------

  /** `[a-z0-9]`, without the `i` flag. */
  predicate IsSlugChar(c: char) {
    ('a' <= c <= 'z') || ('0' <= c <= '9')
  }

  /**
   * `[a-z\d]` under the `i` flag: ASCII letters of either case and ASCII digits.
   * (Without the `u` flag, case-insensitive matching never maps a non-ASCII
   * character onto an ASCII one, so nothing else matches.)
   */
  predicate IsAlnum(c: char) {
    IsSlugChar(c) || ('A' <= c <= 'Z')
  }

  // ---------------------------------------------------------------------------
  // Repository name: ^[a-z0-9]+(?:-[a-z0-9]+)*$
  // ---------------------------------------------------------------------------

  /** The pattern `isRepoName`: one alphanumeric, then the rest of the pattern. */
  predicate IsRepoName(s: string) {
    |s| > 0 && IsSlugChar(s[0]) && AfterSlugChar(s[1..])
  }

  /**
   * What may follow an alphanumeric: the end, another alphanumeric, or a dash
   * that is itself followed by an alphanumeric.
   */
  predicate AfterSlugChar(t: string)
    decreases |t|
  {
    || t == []
    || (IsSlugChar(t[0]) && AfterSlugChar(t[1..]))
    || (|t| >= 2 && t[0] == '-' && IsSlugChar(t[1]) && AfterSlugChar(t[2..]))
  }

  /** Lower-case alphanumerics and dashes, no dash at the end and no two dashes in a row. */
  predicate DashSeparated(t: string) {
    && (forall i :: 0 <= i < |t| ==> IsSlugChar(t[i]) || t[i] == '-')
    && (t != [] ==> t[|t| - 1] != '-')
    && (forall i :: 0 <= i < |t| - 1 && t[i] == '-' ==> t[i + 1] != '-')
  }

  /**
   * Runs of `[a-z0-9]` joined by single dashes: non-empty, only lower-case
   * alphanumerics and dashes, no leading, trailing or doubled dash.
   */
  predicate SlugShape(s: string) {
    && |s| > 0
    && (forall i :: 0 <= i < |s| ==> IsSlugChar(s[i]) || s[i] == '-')
    && s[0] != '-'
    && s[|s| - 1] != '-'
    && (forall i :: 0 <= i < |s| - 1 && s[i] == '-' ==> s[i + 1] != '-')
  }

  lemma {:induction false} AfterSlugCharShape(t: string)
    ensures AfterSlugChar(t) <==> DashSeparated(t)
    decreases |t|
  {
    if t == [] {
    } else if IsSlugChar(t[0]) {
      AfterSlugCharShape(t[1..]);
      var u := t[1..];
      assert forall i :: 0 <= i < |u| ==> u[i] == t[i + 1];
      if DashSeparated(u) {
        assert DashSeparated(t);
      }
      if DashSeparated(t) {
        assert DashSeparated(u);
      }
    } else if |t| >= 2 && t[0] == '-' && IsSlugChar(t[1]) {
      AfterSlugCharShape(t[2..]);
      var u := t[2..];
      assert forall i :: 0 <= i < |u| ==> u[i] == t[i + 2];
      if DashSeparated(u) {
        assert DashSeparated(t);
      }
      if DashSeparated(t) {
        assert DashSeparated(u);
      }
    }
  }

  /** `isRepoName` accepts exactly the dash-separated runs of lower-case alphanumerics. */
  lemma RepoNameShape(s: string)
    ensures IsRepoName(s) <==> SlugShape(s)
  {
    if |s| > 0 {
      var u := s[1..];
      AfterSlugCharShape(u);
      assert forall i :: 0 <= i < |u| ==> u[i] == s[i + 1];
      if IsSlugChar(s[0]) && DashSeparated(u) {
        assert SlugShape(s);
      }
      if SlugShape(s) {
        assert DashSeparated(u);
      }
    }
  }

  lemma RepoNameAccepted()
    ensures IsRepoName("hack-tools")
  {
  }

  lemma RepoNameWithDigitAccepted()
    ensures IsRepoName("my-repo-1")
  {
  }

  lemma RepoNameRejected()
    ensures !IsRepoName("Hack_Tools") && !IsRepoName("-repo") && !IsRepoName("")
  {
  }

  lemma RepoNameDashesRejected()
    ensures !IsRepoName("repo--x") && !IsRepoName("repo-")
  {
  }

  // ---------------------------------------------------------------------------
  // GitHub handle: ^[a-z\d](?:[a-z\d]|-(?=[a-z\d])){0,38}$ with the i flag
  // ---------------------------------------------------------------------------

  /** The longest handle: one leading character and up to 38 repetitions. */
  const MaxHandleLength: nat := 39

  /** The pattern `isGithubUsername`: one alphanumeric, then at most 38 repetitions of the group. */
  predicate IsGithubUsername(s: string) {
    |s| > 0 && IsAlnum(s[0]) && HandleRepeats(s[1..], MaxHandleLength - 1)
  }

  /**
   * At most `n` repetitions of `(?:[a-z\d]|-(?=[a-z\d]))` that consume all of `t`:
   * each repetition takes one alphanumeric, or one dash whose next character
   * (left for the next repetition) is alphanumeric.
   */
  predicate HandleRepeats(t: string, n: nat)
    decreases |t|
  {
    || t == []
    || (&& n > 0
        && (IsAlnum(t[0]) || (t[0] == '-' && |t| >= 2 && IsAlnum(t[1])))
        && HandleRepeats(t[1..], n - 1))
  }

  /** Every dash in `t` is followed by an alphanumeric. */
  predicate DashesFollowed(t: string) {
    forall i :: 0 <= i < |t| && t[i] == '-' ==> i + 1 < |t| && IsAlnum(t[i + 1])
  }

  /** Only alphanumerics (either case) and dashes. */
  predicate HandleChars(t: string) {
    forall i :: 0 <= i < |t| ==> IsAlnum(t[i]) || t[i] == '-'
  }

  /**
   * A GitHub handle as the pattern defines it: 1 to 39 characters, letters of
   * either case, digits and dashes, starting with an alphanumeric, and every
   * dash followed by an alphanumeric (so no `--` and no trailing dash).
   */
  predicate HandleShape(s: string) {
    && 1 <= |s| <= MaxHandleLength
    && HandleChars(s)
    && IsAlnum(s[0])
    && DashesFollowed(s)
  }

  lemma {:induction false} HandleRepeatsShape(t: string, n: nat)
    ensures HandleRepeats(t, n) <==> (|t| <= n && HandleChars(t) && DashesFollowed(t))
    decreases |t|
  {
    if t != [] {
      var u := t[1..];
      assert forall i :: 0 <= i < |u| ==> u[i] == t[i + 1];
      if n > 0 {
        HandleRepeatsShape(u, n - 1);
        if HandleChars(t) && DashesFollowed(t) {
          assert HandleChars(u) && DashesFollowed(u);
        }
        if HandleChars(u) && DashesFollowed(u) && (IsAlnum(t[0]) || (t[0] == '-' && |t| >= 2 && IsAlnum(t[1]))) {
          assert HandleChars(t) && DashesFollowed(t);
        }
      }
    }
  }

  /** `isGithubUsername` accepts exactly the strings of `HandleShape`. */
  lemma GithubUsernameShape(s: string)
    ensures IsGithubUsername(s) <==> HandleShape(s)
  {
    if |s| > 0 {
      var u := s[1..];
      HandleRepeatsShape(u, MaxHandleLength - 1);
      assert forall i :: 0 <= i < |u| ==> u[i] == s[i + 1];
      if IsAlnum(s[0]) && HandleChars(u) && DashesFollowed(u) {
        assert HandleChars(s) && DashesFollowed(s);
      }
      if HandleShape(s) {
        assert HandleChars(u) && DashesFollowed(u);
      }
    }
  }

  lemma GithubUsernameAccepted()
    ensures IsGithubUsername("octocat")
  {
  }

  lemma MixedCaseUsernameAccepted()
    ensures IsGithubUsername("Octo-Cat9")
  {
  }

  lemma GithubUsernameRejected()
    ensures !IsGithubUsername("") && !IsGithubUsername("-octocat") && !IsGithubUsername("octo_cat")
  {
  }

  lemma TrailingDashRejected()
    ensures !IsGithubUsername("octocat-")
  {
  }

  lemma DoubledDashRejected()
    ensures !IsGithubUsername("octo--cat")
  {
  }

  /** The character set a handle may use, with the length limit, and nothing about dashes. */
  predicate LooseHandle(s: string) {
    1 <= |s| <= MaxHandleLength && IsAlnum(s[0]) && HandleChars(s)
  }

  /**
   * The handle pattern is stricter than "an alphanumeric followed by up to 38
   * alphanumerics or dashes": a doubled dash is refused.
   */
  lemma HandleStricterThanLoose()
    ensures LooseHandle("a--b") && !IsGithubUsername("a--b")
    ensures forall s :: IsGithubUsername(s) ==> LooseHandle(s)
  {
    assert "a--b"[1] == '-' && "a--b"[2] == '-';
    GithubUsernameShape("a--b");
    forall s | IsGithubUsername(s) ensures LooseHandle(s) {
      GithubUsernameShape(s);
    }
  }

  /** A 40-character handle is refused whatever its characters. */
  lemma HandleLengthBound(s: string)
    requires IsGithubUsername(s)
    ensures 1 <= |s| <= 39
  {
    GithubUsernameShape(s);
  }
}
