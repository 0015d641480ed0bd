/**
 * The older host environment manager, `tools/amgctl/host.go`: the
 * activation-script prompt edit, the yes/no prompt, the conda guard, the
 * recorded setup state, the git checkout mode, the requirement install
 * commands and the preconditions of `host update`. Every `git`/`uv`
 * invocation is an input outcome; the model records which commands run.
 */
module HostLegacy {
  import opened Wrappers
  import opened Strings

  // ---------------------------------------------------------------------
  // Activation script
  // ---------------------------------------------------------------------

  const PromptKey: string := "VIRTUAL_ENV_PROMPT="
  const EnvKey: string := "VIRTUAL_ENV="
  const AmgPrompt: string := "VIRTUAL_ENV_PROMPT=\"amg\""

  /** A line the edit may act on: it holds `key` and no `#` anywhere. */
  predicate Marked(line: string, key: string) {
    Contains(line, key) && !Contains(line, "#")
  }

  /** The index of the first marked line, if any. */
  function FirstMarked(lines: seq<string>, key: string): (r: Option<nat>)
    ensures r.Some? ==> r.value < |lines| && Marked(lines[r.value], key)
    ensures r.Some? ==> forall j :: 0 <= j < r.value ==> !Marked(lines[j], key)
    ensures r.None? ==> forall j :: 0 <= j < |lines| ==> !Marked(lines[j], key)
    decreases |lines|
  {
    if |lines| == 0 then None
    else if Marked(lines[0], key) then Some(0)
    else
      var rest := FirstMarked(lines[1..], key);
      if rest.Some? then Some(rest.value + 1) else None
  }

  lemma FirstMarkedAt(lines: seq<string>, key: string, i: nat)
    requires i < |lines| && Marked(lines[i], key)
    requires forall j :: 0 <= j < i ==> !Marked(lines[j], key)
    ensures FirstMarked(lines, key) == Some(i)
  {
  }

  /** The first marked prompt line replaced wholesale. */
  function ReplacedLines(lines: seq<string>): (r: seq<string>)
    ensures |r| == |lines|
  {
    match FirstMarked(lines, PromptKey)
    case None => lines
    case Some(i) => lines[i := AmgPrompt]
  }

  /** The prompt line inserted right after the first marked `VIRTUAL_ENV=` line. */
  function InsertedLines(lines: seq<string>): (r: seq<string>)
  {
    match FirstMarked(lines, EnvKey)
    case None => lines
    case Some(i) => lines[..i + 1] + [AmgPrompt] + lines[i + 1..]
  }

  /** The edit: replace when the text mentions the prompt anywhere, insert otherwise. */
  function LegacyCustomize(content: string): string {
    var lines := Split(content, '\n');
    Join(if Contains(content, PromptKey) then ReplacedLines(lines) else InsertedLines(lines), "\n")
  }

  /** The replacing loop, which overwrites `lines[i]` and stops. */
  method ReplacePromptLine(lines: array<string>)
    modifies lines
    ensures lines[..] == ReplacedLines(old(lines[..]))
  {
    ghost var original := lines[..];
    var i := 0;
    while i < lines.Length
      invariant 0 <= i <= lines.Length
      invariant lines[..] == original
      invariant forall j :: 0 <= j < i ==> !Marked(original[j], PromptKey)
    {
      if Contains(lines[i], PromptKey) && !Contains(lines[i], "#") {
        FirstMarkedAt(original, PromptKey, i);
        lines[i] := AmgPrompt;
        return;
      }
      i := i + 1;
    }
  }

  /** The inserting loop, which copies the lines into one longer array around the new line. */
  method InsertPromptLine(lines: seq<string>) returns (r: seq<string>)
    ensures r == InsertedLines(lines)
  {
    var i := 0;
    while i < |lines|
      invariant 0 <= i <= |lines|
      invariant forall j :: 0 <= j < i ==> !Marked(lines[j], EnvKey)
    {
      if Contains(lines[i], EnvKey) && !Contains(lines[i], "#") {
        FirstMarkedAt(lines, EnvKey, i);
        var at := i;
        var newLines := new string[|lines| + 1](j requires 0 <= j <= |lines| =>
          if j <= at then lines[j] else if j == at + 1 then AmgPrompt else lines[j - 1]);
        r := newLines[..];
        assert r == lines[..at + 1] + [AmgPrompt] + lines[at + 1..];
        return;
      }
      i := i + 1;
    }
    r := lines;
  }

  /** `customizeActivationScript` with the file read and write as inputs. */
  method CustomizeLegacyActivationScript(read: Result<string>, writeError: Option<string>)
    returns (r: Outcome, written: Option<string>)
    ensures read.Err? ==> r == Fail("failed to read activation script: " + read.error) && written == None
    ensures read.Ok? ==> written == Some(LegacyCustomize(read.value))
    ensures read.Ok? ==> r == if writeError.Some?
                              then Fail("failed to write modified activation script: " + writeError.value)
                              else Pass
  {
    if read.Err? {
      return Fail("failed to read activation script: " + read.error), None;
    }
    var content := read.value;
    var parts := Split(content, '\n');
    var edited: seq<string>;
    if Contains(content, PromptKey) {
      var lines := new string[|parts|](i requires 0 <= i < |parts| => parts[i]);
      assert lines[..] == parts;
      ReplacePromptLine(lines);
      edited := lines[..];
    } else {
      edited := InsertPromptLine(parts);
    }
    written := Some(Join(edited, "\n"));
    if writeError.Some? {
      return Fail("failed to write modified activation script: " + writeError.value), written;
    }
    r := Pass;
  }

  lemma AmgPromptPlain()
    ensures '\n' !in AmgPrompt
  {
  }

  /** Splitting the edited text gives back the edited line list. */
  lemma LegacySplitBack(content: string)
    ensures Split(LegacyCustomize(content), '\n') ==
      (if Contains(content, PromptKey) then ReplacedLines(Split(content, '\n'))
       else InsertedLines(Split(content, '\n')))
  {
    var lines := Split(content, '\n');
    var edited := if Contains(content, PromptKey) then ReplacedLines(lines) else InsertedLines(lines);
    AmgPromptPlain();
    assert forall j :: 0 <= j < |edited| ==> '\n' !in edited[j];
    SplitJoin(edited, '\n');
  }

  /**
   * When the text mentions the prompt, the line count is unchanged, the
   * first uncommented prompt line becomes the `amg` prompt and every other
   * line stays as it was.
   */
  lemma LegacyReplaceKeepsOtherLines(content: string, i: nat)
    requires Contains(content, PromptKey)
    requires FirstMarked(Split(content, '\n'), PromptKey) == Some(i)
    ensures |Split(LegacyCustomize(content), '\n')| == |Split(content, '\n')|
    ensures Split(LegacyCustomize(content), '\n')[i] == AmgPrompt
    ensures forall j :: 0 <= j < |Split(content, '\n')| && j != i ==>
      Split(LegacyCustomize(content), '\n')[j] == Split(content, '\n')[j]
  {
    LegacySplitBack(content);
  }

  /**
   * Otherwise the prompt is inserted right after the first uncommented
   * `VIRTUAL_ENV=` line: exactly one line is added and the others keep their order.
   */
  lemma LegacyInsertAddsOneLine(content: string, i: nat)
    requires !Contains(content, PromptKey)
    requires FirstMarked(Split(content, '\n'), EnvKey) == Some(i)
    ensures |Split(LegacyCustomize(content), '\n')| == |Split(content, '\n')| + 1
    ensures Split(LegacyCustomize(content), '\n')[..i + 1] == Split(content, '\n')[..i + 1]
    ensures Split(LegacyCustomize(content), '\n')[i + 1] == AmgPrompt
    ensures Split(LegacyCustomize(content), '\n')[i + 2..] == Split(content, '\n')[i + 1..]
  {
    LegacySplitBack(content);
  }

  /**
   * With no line to act on the text is written back unchanged; this includes
   * a text whose only prompt lines are commented, where nothing is inserted either.
   */
  lemma LegacyNothingToEdit(content: string)
    requires Contains(content, PromptKey) ==> FirstMarked(Split(content, '\n'), PromptKey) == None
    requires !Contains(content, PromptKey) ==> FirstMarked(Split(content, '\n'), EnvKey) == None
    ensures LegacyCustomize(content) == content
  {
    JoinSplit(content, '\n');
  }

  // ---------------------------------------------------------------------
  // Prompts and guards
  // ---------------------------------------------------------------------

  /** The reply to a yes/no prompt: accepted iff trimmed and lower-cased it is `y` or `yes`. */
  function AskForConfirmation(reply: Result<string>): (r: Result<bool>)
    ensures reply.Err? <==> r.Err?
    ensures reply.Err? ==> r.error == "failed to read user input: " + reply.error
  {
    match reply
    case Err(e) => Err("failed to read user input: " + e)
    case Ok(line) =>
      var response := TrimSpace(AsciiLower(line));
      Ok(response == "y" || response == "yes")
  }

  /** The accepted replies, spelled out case by case. */
  predicate YesWord(t: string) {
    (|t| == 1 && (t[0] == 'y' || t[0] == 'Y'))
    || (|t| == 3 && (t[0] == 'y' || t[0] == 'Y') && (t[1] == 'e' || t[1] == 'E') && (t[2] == 's' || t[2] == 'S'))
  }

  lemma LowerKeepsSpace(c: char)
    ensures IsSpace(LowerChar(c)) == IsSpace(c)
  {
  }

  lemma {:induction false} LowerTrimStart(s: string)
    ensures TrimStart(AsciiLower(s)) == TrimStart(s)
    decreases |s|
  {
    if |s| > 0 {
      LowerKeepsSpace(s[0]);
      assert AsciiLower(s)[0] == LowerChar(s[0]);
      LowerSlice(s, 1, |s|);
      assert s[1..|s|] == s[1..];
      assert AsciiLower(s)[1..] == AsciiLower(s[1..]);
      LowerTrimStart(s[1..]);
    }
  }

  lemma {:induction false} LowerTrimEnd(s: string)
    ensures TrimEnd(AsciiLower(s)) == TrimEnd(s)
    decreases |s|
  {
    if |s| > 0 {
      LowerKeepsSpace(s[|s| - 1]);
      LowerSlice(s, 0, |s| - 1);
      LowerTrimEnd(s[..|s| - 1]);
    }
  }

  lemma LowerSlice(s: string, i: nat, j: nat)
    requires i <= j <= |s|
    ensures AsciiLower(s)[i..j] == AsciiLower(s[i..j])
  {
  }

  /** Lower-casing and trimming commute, since neither letters nor their lower case are spaces. */
  lemma LowerTrimSpace(s: string)
    ensures TrimSpace(AsciiLower(s)) == AsciiLower(TrimSpace(s))
  {
    var a := TrimStart(s);
    LowerTrimStart(s);
    LowerSuffix(s, a);
    LowerTrimEnd(s[a..]);
    LowerSlice(s, a, a + TrimEnd(s[a..]));
  }

  lemma LowerSuffix(s: string, a: nat)
    requires a <= |s|
    ensures AsciiLower(s)[a..] == AsciiLower(s[a..])
  {
    LowerSlice(s, a, |s|);
    assert s[a..|s|] == s[a..];
  }

  /** A reply is accepted exactly when, trimmed, it is `y` or `yes` in any mix of cases. */
  lemma ConfirmationAccepts(line: string)
    ensures AskForConfirmation(Ok(line)) == Ok(YesWord(TrimSpace(line)))
  {
    LowerTrimSpace(line);
    var t := TrimSpace(line);
    var l := AsciiLower(t);
    if l == "y" || l == "yes" {
      assert l[0] == LowerChar(t[0]);
      if |t| == 3 {
        assert l[1] == LowerChar(t[1]) && l[2] == LowerChar(t[2]);
      }
      assert YesWord(t);
    }
    if YesWord(t) {
      assert l == if |t| == 1 then "y" else "yes";
    }
  }

  /** `isCondaActive`: either conda variable is set. */
  predicate IsCondaActive(condaDefaultEnv: string, condaPrefix: string) {
    condaDefaultEnv != "" || condaPrefix != ""
  }

  const CondaActiveError: string :=
    "conda environment is currently active. Please deactivate your conda environment before using amgctl host commands:\n  conda deactivate"

  /** `checkCondaDeactivated`. */
  function CheckCondaDeactivated(condaDefaultEnv: string, condaPrefix: string): (r: Outcome)
    ensures r.Pass? <==> condaDefaultEnv == "" && condaPrefix == ""
    ensures r.Fail? ==> r.error == CondaActiveError
  {
    if IsCondaActive(condaDefaultEnv, condaPrefix) then Fail(CondaActiveError) else Pass
  }

  // ---------------------------------------------------------------------
  // Setup state
  // ---------------------------------------------------------------------

  const DefaultRepoUrl: string := "git@github.com:weka/weka-LMCache.git"
  const DefaultBranch: string := "dev"
  const DefaultVllmVersion: string := "0.9.2"

  datatype SetupState = SetupState(
    lmcacheRepo: string, lmcacheCommit: string, lmcacheBranch: string,
    vllmVersion: string, skipHotfixes: bool)

  /** The state recorded by `host setup`: the flags, with the commit cleared when a branch is followed. */
  function NewSetupState(skipHotfixes: bool, repo: string, commit: string, branch: string, vllmVersion: string)
    : (st: SetupState)
    ensures st.lmcacheRepo == repo && st.lmcacheBranch == branch
    ensures st.vllmVersion == vllmVersion && st.skipHotfixes == skipHotfixes
    ensures branch != "" ==> st.lmcacheCommit == ""
    ensures branch == "" ==> st.lmcacheCommit == commit
  {
    var st := SetupState(repo, commit, branch, vllmVersion, skipHotfixes);
    if branch != "" then st.(lmcacheCommit := "") else st
  }

  /** At most one of commit and branch is ever recorded. */
  lemma SetupStateOneMode(skipHotfixes: bool, repo: string, commit: string, branch: string, vllmVersion: string)
    ensures var st := NewSetupState(skipHotfixes, repo, commit, branch, vllmVersion);
      st.lmcacheCommit == "" || st.lmcacheBranch == ""
  {
  }

  datatype SetupPlan = LinuxSetup(state: SetupState) | MacPlaceholder | WindowsPlaceholder

  /** `runHostSetup` up to the per-platform setup: the conda guard, the state, the platform choice. */
  function PlanHostSetup(condaDefaultEnv: string, condaPrefix: string, goos: string,
                         skipHotfixes: bool, repo: string, commit: string, branch: string, vllmVersion: string)
    : (r: Result<SetupPlan>)
    ensures IsCondaActive(condaDefaultEnv, condaPrefix) ==> r == Err(CondaActiveError)
    ensures !IsCondaActive(condaDefaultEnv, condaPrefix) && goos == "linux" ==>
      r == Ok(LinuxSetup(NewSetupState(skipHotfixes, repo, commit, branch, vllmVersion)))
    ensures r.Ok? ==> goos in {"linux", "darwin", "windows"}
  {
    if IsCondaActive(condaDefaultEnv, condaPrefix) then Err(CondaActiveError)
    else if goos == "linux" then Ok(LinuxSetup(NewSetupState(skipHotfixes, repo, commit, branch, vllmVersion)))
    else if goos == "darwin" then Ok(MacPlaceholder)
    else if goos == "windows" then Ok(WindowsPlaceholder)
    else Err("unsupported operating system: " + goos)
  }

  const UvMissingError: string := "uv command not found. Please install uv: https://docs.astral.sh/uv/getting-started/installation/"
  const GitMissingError: string := "git command not found. Please install Git"

  /** The first checks of the Linux setup: uv, then git. */
  function LinuxSetupChecks(uvFound: bool, gitFound: bool): (r: Outcome)
    ensures r.Pass? <==> uvFound && gitFound
    ensures !uvFound ==> r == Fail(UvMissingError)
  {
    if !uvFound then Fail(UvMissingError)
    else if !gitFound then Fail(GitMissingError)
    else Pass
  }

  // ---------------------------------------------------------------------
  // Checkout
  // ---------------------------------------------------------------------

  /** The git commands a checkout runs, and how it ends. */
  datatype GitRun = GitRun(commands: seq<seq<string>>, outcome: Outcome)

  function FetchCommand(repoPath: string): seq<string> { ["git", "-C", repoPath, "fetch", "origin"] }
  function RevParseCommand(repoPath: string): seq<string> { ["git", "-C", repoPath, "rev-parse", "HEAD"] }

  /**
   * `checkoutCommitOrBranch`: the outcomes of the fetch, the branch checkout,
   * `rev-parse HEAD` and the commit checkout are inputs.
   */
  function CheckoutCommitOrBranch(repoPath: string, st: SetupState, fetch: Outcome, checkoutBranch: Outcome,
                                  head: Result<string>, checkoutCommit: Outcome): (r: GitRun)
  {
    if st.lmcacheBranch != "" then
      var checkout := ["git", "-C", repoPath, "checkout", "-B", st.lmcacheBranch, "origin/" + st.lmcacheBranch];
      if fetch.Fail? then GitRun([FetchCommand(repoPath)], Fail("failed to fetch origin: " + fetch.error))
      else if checkoutBranch.Fail? then
        GitRun([FetchCommand(repoPath), checkout],
               Fail("failed to checkout branch '" + st.lmcacheBranch + "': " + checkoutBranch.error))
      else GitRun([FetchCommand(repoPath), checkout], Pass)
    else if st.lmcacheCommit != "" then
      if head.Err? then GitRun([RevParseCommand(repoPath)], Fail("failed to get current commit: " + head.error))
      else if TrimSpace(head.value) != st.lmcacheCommit then
        var checkout := ["git", "-C", repoPath, "checkout", st.lmcacheCommit];
        GitRun([RevParseCommand(repoPath), checkout],
               if checkoutCommit.Fail? then Fail("failed to checkout commit '" + st.lmcacheCommit + "': " + checkoutCommit.error)
               else Pass)
      else GitRun([RevParseCommand(repoPath)], Pass)
    else GitRun([], Pass)
  }

  /** Branch mode wins: whenever a branch is recorded, the commit is never looked at. */
  lemma BranchModeWins(repoPath: string, st: SetupState, fetch: Outcome, checkoutBranch: Outcome,
                       head: Result<string>, checkoutCommit: Outcome)
    requires st.lmcacheBranch != ""
    ensures var r := CheckoutCommitOrBranch(repoPath, st, fetch, checkoutBranch, head, checkoutCommit);
      r.commands[0] == FetchCommand(repoPath)
      && (fetch.Pass? ==> |r.commands| == 2 && r.commands[1][3..5] == ["checkout", "-B"])
      && (fetch.Pass? && checkoutBranch.Pass? ==> r.outcome == Pass)
      && r == CheckoutCommitOrBranch(repoPath, st.(lmcacheCommit := ""), fetch, checkoutBranch, head, checkoutCommit)
  {
  }

  /** Commit mode checks out exactly when HEAD is somewhere else. */
  lemma CommitModeChecksOutOnlyOnMismatch(repoPath: string, st: SetupState, fetch: Outcome, checkoutBranch: Outcome,
                                          headCommit: string, checkoutCommit: Outcome)
    requires st.lmcacheBranch == "" && st.lmcacheCommit != ""
    ensures var r := CheckoutCommitOrBranch(repoPath, st, fetch, checkoutBranch, Ok(headCommit), checkoutCommit);
      (|r.commands| == 2 <==> TrimSpace(headCommit) != st.lmcacheCommit)
      && (TrimSpace(headCommit) == st.lmcacheCommit ==> r == GitRun([RevParseCommand(repoPath)], Pass))
  {
  }

  /** With neither a branch nor a commit nothing is run. */
  lemma NoModeRunsNothing(repoPath: string, st: SetupState, fetch: Outcome, checkoutBranch: Outcome,
                          head: Result<string>, checkoutCommit: Outcome)
    requires st.lmcacheBranch == "" && st.lmcacheCommit == ""
    ensures CheckoutCommitOrBranch(repoPath, st, fetch, checkoutBranch, head, checkoutCommit) == GitRun([], Pass)
  {
  }

  // ---------------------------------------------------------------------
  // Requirement install
  // ---------------------------------------------------------------------

  const PipInstall: seq<string> := ["pip", "install", "--no-cache-dir", "--no-build-isolation"]
  const EditableInstall: seq<string> := ["pip", "install", "-e", ".", "--no-build-isolation"]
  const TransformersHotfix: seq<string> := ["pip", "install", "--no-cache-dir", "transformers<4.54.0"]

  /** `-r f` for each requirement file, in order. */
  function RequirementFlags(reqFiles: seq<string>): (r: seq<string>)
    ensures |r| == 2 * |reqFiles|
    ensures forall k :: 0 <= k < |reqFiles| ==> r[2 * k] == "-r" && r[2 * k + 1] == reqFiles[k]
  {
    if |reqFiles| == 0 then [] else RequirementFlags(reqFiles[..|reqFiles| - 1]) + ["-r", reqFiles[|reqFiles| - 1]]
  }

  predicate AllExist(reqFiles: seq<string>, present: string -> bool) {
    forall k :: 0 <= k < |reqFiles| ==> present(reqFiles[k])
  }

  /**
   * The argument lists passed to `uv` by `installRepositoryDependencies`, in
   * order; failures of these commands are only warnings, so the function always succeeds.
   */
  function InstallCommands(reqFiles: seq<string>, present: string -> bool, skipHotfixes: bool): seq<seq<string>> {
    (if AllExist(reqFiles, present) then [PipInstall + RequirementFlags(reqFiles)] else [])
    + [EditableInstall]
    + (if skipHotfixes then [] else [TransformersHotfix])
  }

  /** The install loop: the existence scan with early exit, then the `-r` arguments by append. */
  method InstallRepositoryDependencies(reqFiles: seq<string>, present: string -> bool, skipHotfixes: bool)
    returns (commands: seq<seq<string>>)
    ensures commands == InstallCommands(reqFiles, present, skipHotfixes)
  {
    var allExist := true;
    var i := 0;
    while i < |reqFiles|
      invariant 0 <= i <= |reqFiles|
      invariant allExist <==> forall k :: 0 <= k < i ==> present(reqFiles[k])
    {
      if !present(reqFiles[i]) {
        allExist := false;
        break;
      }
      i := i + 1;
    }
    commands := [];
    if allExist {
      var args := PipInstall;
      var j := 0;
      while j < |reqFiles|
        invariant 0 <= j <= |reqFiles|
        invariant args == PipInstall + RequirementFlags(reqFiles[..j])
      {
        assert reqFiles[..j + 1][..j] == reqFiles[..j];
        args := args + ["-r", reqFiles[j]];
        j := j + 1;
      }
      assert reqFiles[..j] == reqFiles;
      commands := [args];
    }
    commands := commands + [EditableInstall];
    if !skipHotfixes {
      commands := commands + [TransformersHotfix];
    }
  }

  /** The three requirement files, under `requirements/` of the repository. */
  function RequirementFiles(join: (string, string, string) -> string, repoPath: string): seq<string> {
    [join(repoPath, "requirements", "build.txt"), join(repoPath, "requirements", "common.txt"),
     join(repoPath, "requirements", "cuda.txt")]
  }

  /**
   * With all three files present the first command is `pip install
   * --no-cache-dir --no-build-isolation -r build -r common -r cuda`; with
   * any missing it is the editable install.
   */
  lemma RequirementInstallArgs(join: (string, string, string) -> string, repoPath: string, present: string -> bool,
                               skipHotfixes: bool)
    ensures var files := RequirementFiles(join, repoPath);
      var cmds := InstallCommands(files, present, skipHotfixes);
      (AllExist(files, present) ==>
        cmds[0] == PipInstall + ["-r", files[0], "-r", files[1], "-r", files[2]])
      && (!AllExist(files, present) ==> cmds[0] == EditableInstall)
      && (TransformersHotfix in cmds <==> !skipHotfixes)
  {
    var files := RequirementFiles(join, repoPath);
    var flags := RequirementFlags(files);
    assert flags == ["-r", files[0], "-r", files[1], "-r", files[2]];
    assert TransformersHotfix != EditableInstall;
    assert TransformersHotfix != PipInstall + flags by {
      assert |PipInstall + flags| != |TransformersHotfix|;
    }
  }

  // ---------------------------------------------------------------------
  // host update
  // ---------------------------------------------------------------------

  const NoStateError: string := "no setup state found. Please run 'amgctl host setup' first"
  const NotFollowingBranchError: string :=
    "LMCache is not configured to follow a branch. Update is only available when following a branch instead of a specific commit"

  /** How `host update` ends: an error, already current, or moved on and dependencies reinstalled. */
  datatype UpdateResult = UpdateFailed(error: string) | AlreadyCurrent(commit: string) | Updated(before: string, after: string)

  /** The git steps of an update, as inputs: fetch, `rev-parse` before, pull, `rev-parse` after. */
  datatype GitSteps = GitSteps(fetch: Outcome, before: Result<string>, pull: Outcome, after: Result<string>)

  /**
   * `runHostUpdate`. The state load is `Err` on a read or parse failure and
   * `Ok(None)` when no state file exists.
   */
  function RunHostUpdate(condaDefaultEnv: string, condaPrefix: string, loaded: Result<Option<SetupState>>,
                         repoPath: string, repoExists: bool, git: GitSteps): (r: UpdateResult)
    ensures IsCondaActive(condaDefaultEnv, condaPrefix) ==> r == UpdateFailed(CondaActiveError)
  {
    if IsCondaActive(condaDefaultEnv, condaPrefix) then UpdateFailed(CondaActiveError)
    else if loaded.Err? then UpdateFailed("failed to load setup state: " + loaded.error)
    else if loaded.value.None? then UpdateFailed(NoStateError)
    else if loaded.value.value.lmcacheBranch == "" then UpdateFailed(NotFollowingBranchError)
    else if !repoExists then
      UpdateFailed("LMCache repository not found at '" + repoPath + "'. Please run 'amgctl host setup' first")
    else if git.fetch.Fail? then UpdateFailed("failed to fetch latest changes: " + git.fetch.error)
    else if git.before.Err? then UpdateFailed("failed to get current commit: " + git.before.error)
    else if git.pull.Fail? then UpdateFailed("failed to pull latest changes: " + git.pull.error)
    else if git.after.Err? then UpdateFailed("failed to get updated commit: " + git.after.error)
    else
      var before := TrimSpace(git.before.value);
      var after := TrimSpace(git.after.value);
      if before == after then AlreadyCurrent(after) else Updated(before, after)
  }

  /**
   * Update needs a recorded state that follows a branch: with none, or with
   * a commit-only state, it fails before touching the repository.
   */
  lemma UpdateNeedsBranch(condaDefaultEnv: string, condaPrefix: string, loaded: Result<Option<SetupState>>,
                          repoPath: string, repoExists: bool, git: GitSteps)
    requires !IsCondaActive(condaDefaultEnv, condaPrefix)
    ensures loaded == Ok(None) ==>
      RunHostUpdate(condaDefaultEnv, condaPrefix, loaded, repoPath, repoExists, git) == UpdateFailed(NoStateError)
    ensures loaded.Ok? && loaded.value.Some? && loaded.value.value.lmcacheBranch == "" ==>
      RunHostUpdate(condaDefaultEnv, condaPrefix, loaded, repoPath, repoExists, git) == UpdateFailed(NotFollowingBranchError)
    ensures !RunHostUpdate(condaDefaultEnv, condaPrefix, loaded, repoPath, repoExists, git).UpdateFailed? ==>
      loaded.Ok? && loaded.value.Some? && loaded.value.value.lmcacheBranch != "" && repoExists
  {
  }

  /** Dependencies are reinstalled exactly when the pull moved HEAD. */
  lemma UpdateReinstallsOnlyOnMove(condaDefaultEnv: string, condaPrefix: string, st: SetupState,
                                   repoPath: string, before: string, after: string)
    requires !IsCondaActive(condaDefaultEnv, condaPrefix) && st.lmcacheBranch != ""
    ensures var r := RunHostUpdate(condaDefaultEnv, condaPrefix, Ok(Some(st)), repoPath, true,
                                   GitSteps(Pass, Ok(before), Pass, Ok(after)));
      (r.Updated? <==> TrimSpace(before) != TrimSpace(after))
      && (r.AlreadyCurrent? <==> TrimSpace(before) == TrimSpace(after))
  {
  }
}
