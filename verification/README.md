# Git Workflow Assistant — a Dafny model of its core

The Git Workflow Assistant is a VS Code extension with two jobs.

- It shows three tree views: local branches, changed files and recent commits.
  Each view runs a git query in the workspace folder and turns the captured standard output into tree items.
- It registers 23 `gitAssistant.*` commands.
  Each command sends at most two fixed or interpolated git command texts to a terminal, in some cases after asking the user for input, and sends none when the user cancels that prompt or answers it with an empty string.

The whole extension is one file, `src/extension.ts`.
This project takes out the pure logic that sits inside its callbacks and proves properties about it.

- `wrappers.dfy` (`Wrappers`): `Option`, which stands for a JavaScript value that may be `undefined`.
- `jsstring.dfy` (`JsString`): the JavaScript string operations the extension relies on, with their exact semantics:
  - `split` on one character;
  - `filter(Boolean)`, which drops empty strings;
  - `replace` with a string pattern, which replaces only the first occurrence;
  - `substring(start)`, which yields `""` past the end;
  - `trim`, using the ECMAScript WhiteSpace and LineTerminator characters;
  - JavaScript truthiness of an optional string.
- `tree_items.dfy` (`TreeItems`): `GitItem`, which is a tree item with a caption, a collapsible state and an optional activation command.
  It also holds the join of the workspace path with a relative path.
- `providers.dfy` (`Providers`): the three tree data providers.
  - It fixes each provider's git query.
  - It turns output lines into items.
  - `GetChildren` picks between the empty list (no workspace, or the query failed) and the mapped items.
  - It also has generators of output in the common forms git prints: `git branch` lines marked `* ` or two spaces, and `git status --short` lines `XY path` for paths git prints unquoted under its default settings (printable ASCII other than space, `"` and `\`). These state round trips: parsing that output gives back the branch names and paths it was built from. Example lemmas show what the extension does with the forms the generators leave out.
- `registry.dfy` (`Registry`): the command registry.
  - `CommandId` has one constructor per registered command.
  - Every handler is one of three `Shape`s: a fixed text; a prompt whose answer fills a `Template`, possibly after fixed texts; or checkout's argument-or-prompt.
  - `RunGitCommand` appends one text to the terminal, which is modelled as the sequence of texts it has received.
  - `Sent` gives the texts one invocation sends, `Handle` appends them, and `Replay` runs a series of invocations.
- `activation.dfy` (`Activation`): connects the two halves.
  Clicking a branch item runs the checkout command with the item's caption as its argument.

## Model

| member | source | states |
|---|---|---|
| JsString.Split | src/extension.ts:44 | `split("\n")` always yields at least one field, and no field contains the separator |
| JsString.JoinSplit | src/extension.ts:44 | joining the fields of a split with the separator gives back the original string, so splitting loses nothing |
| JsString.SplitJoin | src/extension.ts:44 | splitting a join of separator-free fields gives back exactly those fields, in order |
| JsString.SplitCons | src/extension.ts:79 | the split of `w + sep + t`, where `w` has no separator, is `w` followed by the split of `t` |
| JsString.SplitNoSeparator | src/extension.ts:114 | a string without the separator splits into the single field holding the whole string |
| JsString.DropEmpty | src/extension.ts:44 | `filter(Boolean)` keeps exactly the non-empty strings, each as often as in the input, and nothing empty |
| JsString.DropEmptyAppend | src/extension.ts:79 | filtering a concatenation is the concatenation of the filtered parts, so order is kept |
| JsString.DropEmptyKeeps | src/extension.ts:114 | filtering a list with no empty strings changes nothing |
| JsString.IndexOf | src/extension.ts:48 | the index is -1 exactly when the character is absent; otherwise it is the index of the first occurrence |
| JsString.RemoveFirst | src/extension.ts:48 | `replace("*", "")` leaves a string without `*` unchanged, and otherwise is exactly one character shorter |
| JsString.RemoveFirstAtIndexOf | src/extension.ts:48 | `replace("*", "")` deletes exactly the first `*` and keeps everything before and after it |
| JsString.SubstringFrom | src/extension.ts:83 | `substring(3)` is empty for a string of length at most 3; otherwise it is the suffix after the first three characters |
| JsString.TrimStart | src/extension.ts:48 | the result is no longer than the input, and is empty or does not start with whitespace |
| JsString.TrimEnd | src/extension.ts:48 | the result is no longer than the input, and is empty or does not end with whitespace |
| JsString.TrimStartCuts | src/extension.ts:48 | `trimStart` keeps a suffix of the input, and every character it removes is whitespace |
| JsString.TrimEndCuts | src/extension.ts:83 | `trimEnd` keeps a prefix of the input, and every character it removes is whitespace |
| JsString.Trim | src/extension.ts:48 | `trim` never lengthens a string, and its result has no whitespace at either end |
| JsString.TrimIsInfix | src/extension.ts:83 | what `trim` keeps is an infix of the input, and only whitespace lies before and after it |
| JsString.TrimPadded | src/extension.ts:48 | trimming a string with no whitespace at its ends, padded on both sides by whitespace, gives back that string; with TrimIsInfix this pins `trim` down uniquely |
| JsString.TrimIdempotent | src/extension.ts:83 | trimming twice is the same as trimming once |
| TreeItems.JoinPath | src/extension.ts:90 | joining the workspace with an empty path gives the workspace; otherwise it gives workspace, `/`, path |
| Providers.Lines | src/extension.ts:44 | the lines are exactly the non-empty fields of splitting stdout on `"\n"`; none is empty or contains a newline |
| Providers.LinesOfUnlines | src/extension.ts:114 | for non-empty lines without newlines, splitting and filtering their newline-joined text gives back exactly those lines |
| Providers.LinesAppend | src/extension.ts:79 | the lines of `a + "\n" + b` are the lines of `a` followed by the lines of `b`, so a blank line or trailing newline adds no item |
| Providers.BranchItems | src/extension.ts:44-57 | one item per non-empty output line, in order. Each caption is its line with the first `*` removed, then trimmed. Each item is a leaf whose command is `gitAssistant.checkout` titled `Checkout`, with the caption as its one argument |
| Providers.StatusItems | src/extension.ts:79-92 | one item per non-empty output line, in order. Each caption is the trimmed text from index 3 of the line (empty for short lines). Each item is a leaf whose command is `vscode.open` titled `Open File`, with the workspace joined with the caption as its file argument |
| Providers.LogItems | src/extension.ts:114-120 | one leaf item per non-empty output line, in order, whose caption is the line unchanged and which has no command |
| Providers.GetChildren | src/extension.ts:37-124 | a missing or empty workspace path, or a failed query, gives the empty list. A successful query gives that provider's items for the captured output: BranchItems for the branch view, StatusItems under the workspace for the file view, LogItems for the log view, one per output line. The list is empty exactly in those cases or when the output has no lines |
| Providers.BranchNameOfLine | src/extension.ts:48 | the branch name read from a `git branch` line of the `* ` or two-space form is the name listed. For a non-current branch the name may not contain `*` |
| Providers.StatusPathOfLine | src/extension.ts:83 | the path read from a line of two status letters, a space and a trimmed path is that path, whatever the letters |
| Providers.StatusItemExample | src/extension.ts:83-90 | the line ` M src/a.ts` in workspace `/ws` shows `src/a.ts` and opens `/ws/src/a.ts` |
| Providers.BranchItemsOfListing | src/extension.ts:44-57 | for a listing of `* `/two-space lines holding non-empty, trimmed names without `*` or newline, the items show exactly those names in order, and each checks out its own name |
| Providers.StatusItemsOfListing | src/extension.ts:79-92 | for a listing of `XY path` lines whose status letters are not newlines and whose paths git prints unquoted under its default settings (printable ASCII only, no space, `"` or `\`), the items show exactly those paths in order, and each opens the workspace joined with its path |
| Providers.LogItemsOfListing | src/extension.ts:114-120 | for non-empty, newline-free log lines, the log items show exactly those lines in order |
| Registry.RunGitCommand | src/extension.ts:7-11 | one call appends exactly the given text and keeps everything sent before it |
| Registry.RunAll | src/extension.ts:247-250 | running several texts appends them all, in order, and changes nothing else |
| Registry.PromptShown | src/extension.ts:160-251 | an input box is shown exactly for commit, merge, addRemote, setRemoteUrl and quickCommit, and for checkout when no truthy branch was passed |
| Registry.Sent | src/extension.ts:151-268 | a handler sends at most two texts |
| Registry.Handle | src/extension.ts:151-268 | a handler keeps the earlier terminal contents and appends exactly the texts `Sent` gives, at most two |
| Registry.DirectHandlers | src/extension.ts:152-202 | status, add, push, pull, fetch, listBranches, log, stash and reset each send their one fixed text, whatever the argument or answer |
| Registry.RemoteDirectHandlers | src/extension.ts:218-239 | removeRemote, listRemote, pushUpstream and fetchAll each send their one fixed text |
| Registry.AddedDirectHandlers | src/extension.ts:253-267 | autoPull, clean, openGithub and copyRepoUrl each send their one fixed text; openGithub sends the same text as listRemote |
| Registry.SinglePromptHandlers | src/extension.ts:160-227 | commit, merge, addRemote and setRemoteUrl send nothing for an empty or cancelled answer. Otherwise each sends one text with the answer inserted unchanged |
| Registry.QuickCommitHandler | src/extension.ts:243-251 | quickCommit sends nothing for an empty or cancelled message. Otherwise it sends `git add .` and then `git commit -m "<msg>"`, in send order; each runs in its own terminal |
| Registry.CheckoutHandler | src/extension.ts:179-186 | with a truthy argument, checkout shows no prompt and sends `git checkout <arg>`. Otherwise it prompts `Branch name` and sends `git checkout <answer>` for a truthy answer, or nothing |
| Registry.ReadFill | src/extension.ts:164 | reading a filled template back gives the inserted text, so interpolation is injective |
| Registry.AnswerSentVerbatim | src/extension.ts:160-251 | whenever a prompt is shown and answered, the last text sent reads back to exactly the answer |
| Registry.CommitMessageNotEscaped | src/extension.ts:164 | a commit message containing quotes and `&&` is sent as written, so the shell sees a second command |
| Registry.AnswerIgnoredWithoutPrompt | src/extension.ts:151-268 | when no prompt is shown, the answer has no effect on the terminal |
| Registry.ArgumentIgnoredExceptCheckout | src/extension.ts:151-268 | every command except checkout ignores its argument |
| Registry.ReplayAppends | src/extension.ts:151-268 | replaying invocations only appends: the earlier terminal is a prefix, and each invocation adds at most two texts |
| Registry.ReplayConcat | src/extension.ts:151-268 | replaying two series one after the other is the same as replaying their concatenation |
| Providers.RenameLineExample | src/extension.ts:83-90 | a rename line `R  old -> new` shows `old -> new` and opens that text under the workspace, not the new file |
| Providers.QuotedPathExample | src/extension.ts:83-90 | a quoted path line `?? "a b.txt"` shows the path with its quotes and opens it, quotes included, under the workspace |
| Providers.WorktreeBranchExample | src/extension.ts:48-56 | a `+ feat` line (a branch checked out in another worktree) keeps its marker, and its checkout argument is `+ feat` |
| Providers.DetachedHeadExample | src/extension.ts:48 | a detached-HEAD line `* (HEAD detached at 1a2b3c4)` gives the name `(HEAD detached at 1a2b3c4)`, and that text is its checkout argument |
| Activation.ActivateBranchItem | src/extension.ts:47-56 | clicking a branch item runs `gitAssistant.checkout` with its caption. A non-empty caption sends `git checkout <caption>` without a prompt; an empty one shows the `Branch name` prompt |
| Activation.ActivateListedBranch | src/extension.ts:179-186 | clicking the i-th item of a listing of `* `/two-space lines sends `git checkout` followed by the i-th listed name |

## Left out

- The VS Code host API is not modelled. This covers `createTerminal`, `show`, `registerCommand`, `registerTreeDataProvider`, `showInputBox` and `vscode.Uri`. A prompt's result is an input (`None` for a cancelled box), and the terminal is the sequence of texts it has received.
- A new terminal per call is not modelled. Each `runGitCommand` call creates a fresh terminal named `Git Assistant`, and all of them are modelled as one log of texts in send order. "In order" throughout the model means send order, not execution order: quickCommit's `git add .` and `git commit -m …` run in two separate shells, and nothing makes the commit wait for the add to finish. Its `cwd` parameter is never used, so it is not modelled.
- `child_process.exec` and the Promise plumbing are not modelled. A query is a total function from git command and workspace path to `Failed` or `Succeeded(stdout)`, and stderr is ignored as the source ignores it. Because `exec` always calls back, a provider never rejects.
- The workspace path captured once at activation (`src/extension.ts:130`) is not modelled. Handlers never read it beyond passing it to `runGitCommand`, which ignores it.
- `getTreeItem` returns its argument, and `deactivate` does nothing. Neither has a member.
- TreeItems.JoinPath: `path.join`'s normalisation is not modelled, including `..`, duplicate or trailing separators and Windows separators. The model joins with exactly one `/`, and gives back the workspace unchanged when the relative path is empty.
- JavaScript strings are sequences of UTF-16 code units, while Dafny strings are sequences of Unicode scalar values. Index arithmetic (`substring(3)`) differs only for characters outside the Basic Multilingual Plane.
- JsString.Trim: the infix property is stated separately, by TrimIsInfix, rather than in `Trim`'s own contract.
- JsString.TrimStart: that the result is a suffix of the input is stated by TrimStartCuts, not by `TrimStart`'s own contract.
- JsString.TrimEnd: that the result is a prefix of the input is stated by TrimEndCuts, not by `TrimEnd`'s own contract.
- The checkout argument may be any JavaScript value in the source. A tree item passes a string, and a palette invocation passes nothing. The model takes an optional string, so non-string truthy arguments, which template interpolation would stringify, are not covered.
- Providers.BranchItemsOfListing, Providers.StatusItemsOfListing, Activation.ActivateListedBranch: the round trips cover only `* `/two-space branch lines and `XY path` status lines for paths git prints unquoted. Other forms git prints are not round trips, and the extension mishandles them:
  - `+ name` for a branch in another worktree;
  - `* (HEAD detached at …)`;
  - rename and copy lines `XY ORIG -> PATH`;
  - C-quoted paths, which by default include every path with a space, a control character, `"`, `\` or a character outside ASCII.

  RenameLineExample, QuotedPathExample, WorktreeBranchExample and DetachedHeadExample show what it does with them.
- Registry.Sent: the model does not state that every text sent starts with `git `. It can be read off the literal table in `ShapeOf`, and the per-command lemmas (DirectHandlers through CheckoutHandler) give each text exactly.
