/**
 * `customizeActivationScript` of `tools/amgctl/cmd/host.go`: the uv
 * virtual-environment activation script is edited so that the shell prompt
 * shows `(amg)`. The file is read and written by the caller of this model;
 * the text edit is modelled in full.
 */
module ActivationScript {
  import opened Wrappers
  import opened Strings

  /** The condition uv puts around the prompt assignment, and its always-true rewrite. */
  const OldCondition: string := "if [ \"x\" != x ] ; then"
  const NewCondition: string := "if [ \"x\" = \"x\" ] ; then"
  const PromptPrefix: string := "VIRTUAL_ENV_PROMPT=\""
  const AmgPrompt: string := "VIRTUAL_ENV_PROMPT=\"amg\""

  /** Every occurrence of the old condition rewritten, guarded by `strings.Contains` as in the source. */
  function FixCondition(content: string): string {
    if Contains(content, OldCondition) then ReplaceAll(content, OldCondition, NewCondition) else content
  }

  /** A line the prompt rewrite applies to: it sets the prompt and has no `#` anywhere. */
  predicate IsPromptLine(line: string) {
    HasPrefix(TrimSpace(line), PromptPrefix) && !Contains(line, "#")
  }

  /** The index of the first prompt line, if any. */
  function FirstPromptLine(lines: seq<string>): (r: Option<nat>)
    ensures r.Some? ==> r.value < |lines| && IsPromptLine(lines[r.value])
    ensures r.Some? ==> forall j :: 0 <= j < r.value ==> !IsPromptLine(lines[j])
    ensures r.None? ==> forall j :: 0 <= j < |lines| ==> !IsPromptLine(lines[j])
    decreases |lines|
  {
    if |lines| == 0 then None
    else if IsPromptLine(lines[0]) then Some(0)
    else
      var rest := FirstPromptLine(lines[1..]);
      if rest.Some? then Some(rest.value + 1) else None
  }

  lemma FirstPromptLineAt(lines: seq<string>, i: nat)
    requires i < |lines| && IsPromptLine(lines[i])
    requires forall j :: 0 <= j < i ==> !IsPromptLine(lines[j])
    ensures FirstPromptLine(lines) == Some(i)
  {
  }

  /** `strings.Replace(line, trimmed, AmgPrompt, 1)`. */
  function WithAmgPrompt(line: string): string {
    ReplaceFirst(line, TrimSpace(line), AmgPrompt)
  }

  /** The line list after the loop: only the first prompt line is replaced. */
  function RewrittenLines(lines: seq<string>): (r: seq<string>)
    ensures |r| == |lines|
  {
    match FirstPromptLine(lines)
    case None => lines
    case Some(i) => lines[i := WithAmgPrompt(lines[i])]
  }

  /** The whole edit: fix the condition, split into lines, rewrite, join with newlines. */
  function Customize(content: string): string {
    Join(RewrittenLines(Split(FixCondition(content), '\n')), "\n")
  }

  /** The loop over `lines` that rewrites the first prompt line in place and stops. */
  method RewritePrompt(lines: array<string>)
    modifies lines
    ensures lines[..] == RewrittenLines(old(lines[..]))
  {
    ghost var original := lines[..];
    var i := 0;
    while i < lines.Length
      invariant 0 <= i <= lines.Length
      invariant lines[..] == original
      invariant forall j :: 0 <= j < i ==> !IsPromptLine(original[j])
    {
      var trimmed := TrimSpace(lines[i]);
      if HasPrefix(trimmed, PromptPrefix) && !Contains(lines[i], "#") {
        FirstPromptLineAt(original, i);
        lines[i] := ReplaceFirst(lines[i], trimmed, AmgPrompt);
        return;
      }
      i := i + 1;
    }
    assert FirstPromptLine(original) == None;
  }

  /**
   * `customizeActivationScript` with the file read and write as inputs: the
   * outcome, and the text written back when the read succeeded.
   */
  method CustomizeActivationScript(read: Result<string>, writeError: Option<string>)
    returns (r: Outcome, written: Option<string>)
    ensures read.Err? ==> r == Fail("failed to read activation script: " + read.error) && written == None
    ensures read.Ok? ==> written == Some(Customize(read.value))
    ensures read.Ok? ==> r == if writeError.Some?
                              then Fail("failed to write modified activation script: " + writeError.value)
                              else Pass
  {
    if read.Err? {
      return Fail("failed to read activation script: " + read.error), None;
    }
    var content := read.value;
    if Contains(content, OldCondition) {
      content := ReplaceAll(content, OldCondition, NewCondition);
    }
    var parts := Split(content, '\n');
    var lines := new string[|parts|](i requires 0 <= i < |parts| => parts[i]);
    assert lines[..] == parts;
    RewritePrompt(lines);
    written := Some(Join(lines[..], "\n"));
    if writeError.Some? {
      return Fail("failed to write modified activation script: " + writeError.value), written;
    }
    r := Pass;
  }

  /** The trimmed text of a line is found where its leading spaces end. */
  lemma TrimmedFoundAtStart(line: string)
    requires |TrimSpace(line)| > 0
    ensures IndexOf(line, TrimSpace(line)) == Some(TrimStart(line))
  {
    var t := TrimSpace(line);
    var p := TrimStart(line);
    TrimSpaceBetween(line);
    assert line[p..p + |t|] == t;
    assert HasPrefix(line[p..], t);
    forall k | 0 <= k < p ensures !HasPrefix(line[k..], t) {
      assert line[k] == line[k..][0];
    }
    IndexOfAt(line, t, p);
  }

  /** The rewritten prompt line keeps the original indentation and trailing spaces. */
  lemma PromptKeepsIndentation(line: string)
    requires IsPromptLine(line)
    ensures WithAmgPrompt(line) ==
      line[..TrimStart(line)] + AmgPrompt + line[TrimStart(line) + |TrimSpace(line)|..]
  {
    assert |TrimSpace(line)| >= |PromptPrefix|;
    TrimmedFoundAtStart(line);
    TrimSpaceBetween(line);
  }

  /** The rewritten prompt line has no newline when the original had none. */
  lemma PromptLineNoNewline(line: string)
    requires IsPromptLine(line) && '\n' !in line
    ensures '\n' !in WithAmgPrompt(line)
  {
    PromptKeepsIndentation(line);
    var a := line[..TrimStart(line)];
    var b := line[TrimStart(line) + |TrimSpace(line)|..];
    assert '\n' !in AmgPrompt;
    assert '\n' !in a && '\n' !in b;
  }

  /** No line of the rewritten list holds a newline when none of the inputs did. */
  lemma RewrittenNoNewline(lines: seq<string>)
    requires forall j :: 0 <= j < |lines| ==> '\n' !in lines[j]
    ensures forall j :: 0 <= j < |lines| ==> '\n' !in RewrittenLines(lines)[j]
  {
    var first := FirstPromptLine(lines);
    if first.Some? {
      PromptLineNoNewline(lines[first.value]);
    }
  }

  /**
   * The edit keeps the number of lines: splitting the result on newlines
   * gives the rewritten line list, as long as the content's lines.
   */
  lemma {:induction false} CustomizeKeepsLines(content: string)
    ensures Split(Customize(content), '\n') == RewrittenLines(Split(FixCondition(content), '\n'))
    ensures Count(Customize(content), '\n') == Count(content, '\n')
  {
    var fixed := FixCondition(content);
    assert '\n' !in OldCondition && '\n' !in NewCondition;
    if Contains(content, OldCondition) {
      ReplaceAllKeepsCount(content, OldCondition, NewCondition, '\n');
    }
    var lines := Split(fixed, '\n');
    RewrittenNoNewline(lines);
    SplitJoin(RewrittenLines(lines), '\n');
  }
}
