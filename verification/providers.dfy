/**
 * The three tree data providers: each runs one read-only git query in the
 * workspace folder, cuts the captured standard output into non-empty lines and
 * turns every line into a leaf item. No workspace, or a failed query, gives an
 * empty list; `getChildren` never rejects.
 */
module Providers {
  import opened Wrappers
  import opened JsString
  import opened TreeItems

  /** What the query process reports: an error, or the standard output it captured. */
  datatype QueryResult = Failed | Succeeded(stdout: string)

  datatype Provider = BranchProvider | FileStatusProvider | LogProvider

  /** The git query each provider runs. */
  function QueryCommand(p: Provider): string {
    match p
    case BranchProvider => "git branch"
    case FileStatusProvider => "git status --short"
    case LogProvider => "git log --oneline -5"
  }

  // ---------------------------------------------------------------- lines

  /** `stdout.split("\n").filter(Boolean)`: the non-empty newline-free fields of the output, in order. */
  function Lines(stdout: string): (lines: seq<string>)
    ensures forall i :: 0 <= i < |lines| ==> lines[i] != [] && '\n' !in lines[i]
    ensures forall l :: l in lines <==> l in Split(stdout, '\n') && l != []
  {
    var fields := Split(stdout, '\n');
    var lines := DropEmpty(fields);
    assert forall i :: 0 <= i < |lines| ==> lines[i] in fields;
    lines
  }

  /** Line-oriented output as git prints it: every line followed by a newline. */
  function Unlines(lines: seq<string>): string {
    if lines == [] then [] else lines[0] + "\n" + Unlines(lines[1..])
  }

  lemma {:induction false} UnlinesIsJoin(lines: seq<string>)
    ensures Unlines(lines) == Join(lines + [[]], '\n')
    decreases |lines|
  {
    if lines != [] {
      UnlinesIsJoin(lines[1..]);
      assert (lines + [[]])[1..] == lines[1..] + [[]];
    }
  }

  /** Reading back what git printed: the lines come back exactly, in order. */
  lemma LinesOfUnlines(lines: seq<string>)
    requires forall l :: l in lines ==> l != [] && '\n' !in l
    ensures Lines(Unlines(lines)) == lines
  {
    UnlinesIsJoin(lines);
    SplitJoin(lines + [[]], '\n');
    DropEmptyAppend(lines, [[]]);
    DropEmptyKeeps(lines);
  }

  lemma {:induction false} SplitAppend(a: string, b: string, sep: char)
    ensures Split(a + [sep] + b, sep) == Split(a, sep) + Split(b, sep)
    decreases |a|
  {
    if a == [] {
      SplitCons([], sep, b);
    } else {
      var s := a + [sep] + b;
      assert s[1..] == a[1..] + [sep] + b;
      SplitAppend(a[1..], b, sep);
    }
  }

  /** Output cut at a newline is read piecewise: the lines before it, then the lines after it. */
  lemma LinesAppend(a: string, b: string)
    ensures Lines(a + "\n" + b) == Lines(a) + Lines(b)
  {
    SplitAppend(a, b, '\n');
    DropEmptyAppend(Split(a, '\n'), Split(b, '\n'));
  }

  // ---------------------------------------------------------------- items

  /** `b.replace("*", "").trim()`: the branch name shown for one line of `git branch`. */
  function BranchName(line: string): string {
    Trim(RemoveFirst(line, '*'))
  }

  /** `f.substring(3).trim()`: the path shown for one line of `git status --short`. */
  function StatusPath(line: string): string {
    Trim(SubstringFrom(line, 3))
  }

  /** The activation of a branch item: checkout with the name as its single argument. */
  function CheckoutCommand(name: string): Command {
    Command("gitAssistant.checkout", "Checkout", [Text(name)])
  }

  /** The activation of a status item: open the file under the workspace folder. */
  function OpenCommand(root: string, rel: string): Command {
    Command("vscode.open", "Open File", [FileUri(JoinPath(root, rel))])
  }

  function BranchItem(line: string): GitItem {
    var name := BranchName(line);
    GitItem(name, NoChildren, Some(CheckoutCommand(name)))
  }

  function StatusItem(root: string, line: string): GitItem {
    var path := StatusPath(line);
    GitItem(path, NoChildren, Some(OpenCommand(root, path)))
  }

  function LogItem(line: string): GitItem {
    GitItem(line, NoChildren, None)
  }

  /** The branch items for the output of `git branch`: one per non-empty line,
      labelled with the line's first `*` removed and then trimmed, activating a
      checkout of exactly that label. */
  function BranchItems(stdout: string): (items: seq<GitItem>)
    ensures |items| == |Lines(stdout)|
    ensures forall i :: 0 <= i < |items| ==>
              && items[i].caption == Trim(RemoveFirst(Lines(stdout)[i], '*'))
              && IsTrimmed(items[i].caption)
              && items[i].collapsible == NoChildren
              && items[i].command == Some(Command("gitAssistant.checkout", "Checkout", [Text(items[i].caption)]))
  {
    var lines := Lines(stdout);
    seq(|lines|, i requires 0 <= i < |lines| => BranchItem(lines[i]))
  }

  /** The status items for the output of `git status --short` in `root`: one
      per non-empty line, labelled with the line from index 3 on (nothing when
      shorter), trimmed, opening `root` joined with that label. */
  function StatusItems(root: string, stdout: string): (items: seq<GitItem>)
    ensures |items| == |Lines(stdout)|
    ensures forall i :: 0 <= i < |items| ==>
              && items[i].caption == Trim(SubstringFrom(Lines(stdout)[i], 3))
              && IsTrimmed(items[i].caption)
              && (|Lines(stdout)[i]| <= 3 ==> items[i].caption == [])
              && items[i].collapsible == NoChildren
              && items[i].command == Some(Command("vscode.open", "Open File", [FileUri(JoinPath(root, items[i].caption))]))
  {
    var lines := Lines(stdout);
    seq(|lines|, i requires 0 <= i < |lines| => StatusItem(root, lines[i]))
  }

  /** The log items for the output of `git log --oneline -5`: one per non-empty
      line, labelled with the line unchanged, with no activation. */
  function LogItems(stdout: string): (items: seq<GitItem>)
    ensures |items| == |Lines(stdout)|
    ensures forall i :: 0 <= i < |items| ==>
              && items[i].caption == Lines(stdout)[i]
              && items[i].caption != []
              && items[i].collapsible == NoChildren
              && items[i].command.None?
  {
    var lines := Lines(stdout);
    seq(|lines|, i requires 0 <= i < |lines| => LogItem(lines[i]))
  }

  function Items(p: Provider, root: string, stdout: string): seq<GitItem> {
    match p
    case BranchProvider => BranchItems(stdout)
    case FileStatusProvider => StatusItems(root, stdout)
    case LogProvider => LogItems(stdout)
  }

  /** `getChildren`: with no (or an empty) workspace path nothing is queried and
      the list is empty; otherwise the provider's query runs in the workspace
      folder through `exec`, and a failure also gives the empty list. A success
      gives that provider's items for the captured output. The list is empty
      exactly in those cases and when the output has no non-empty line. */
  function GetChildren(p: Provider, workspace: Option<string>, exec: (string, string) -> QueryResult): (items: seq<GitItem>)
    ensures !Truthy(workspace) ==> items == []
    ensures Truthy(workspace) && exec(QueryCommand(p), workspace.value).Failed? ==> items == []
    ensures Truthy(workspace) && exec(QueryCommand(p), workspace.value).Succeeded? ==>
              var out := exec(QueryCommand(p), workspace.value).stdout;
              && |items| == |Lines(out)|
              && (p == BranchProvider ==> items == BranchItems(out))
              && (p == FileStatusProvider ==> items == StatusItems(workspace.value, out))
              && (p == LogProvider ==> items == LogItems(out))
    ensures items == [] <==>
              || !Truthy(workspace)
              || exec(QueryCommand(p), workspace.value).Failed?
              || Lines(exec(QueryCommand(p), workspace.value).stdout) == []
  {
    if !Truthy(workspace) then []
    else
      match exec(QueryCommand(p), workspace.value)
      case Failed => []
      case Succeeded(stdout) => Items(p, workspace.value, stdout)
  }

  // ---------------------------------------------------------------- git's formats

  /** One line of `git branch` in its two common forms: `* ` before the
      current branch, two spaces before the others. Other forms git prints
      (`+ ` for a branch checked out in another worktree, `* (HEAD detached
      at …)`) are not generated; see the examples below. */
  function BranchLine(name: string, current: bool): string {
    (if current then "* " else "  ") + name
  }

  /** A `git branch` listing of `* `/two-space lines for `names`, the one at
      index `current` being checked out. */
  function BranchListing(names: seq<string>, current: int): string {
    Unlines(seq(|names|, i requires 0 <= i < |names| => BranchLine(names[i], i == current)))
  }

  /** Names as git prints them (trimmed, and free of `*`, which git refuses in
      a ref name) come back from their `git branch` line. The current branch's
      name comes back even if it holds a `*`, since the marker is the first one. */
  lemma BranchNameOfLine(name: string, current: bool)
    requires IsTrimmed(name)
    requires current || '*' !in name
    ensures BranchName(BranchLine(name, current)) == name
  {
    var line := BranchLine(name, current);
    if current {
      assert IndexOf(line, '*') == 0;
      assert RemoveFirst(line, '*') == " " + name;
    } else {
      assert '*' !in line by {
        assert line == "  " + name;
      }
      assert RemoveFirst(line, '*') == "  " + name;
    }
    assert AllWhitespace(" ");
    assert AllWhitespace("  ");
    assert " " + name + [] == " " + name;
    assert "  " + name + [] == "  " + name;
    TrimPadded(if current then " " else "  ", name, []);
  }

  /** A path that `git status --short` prints as it is under git's default
      settings: git puts any path holding a space, a control character, a
      double quote, a backslash or (with `core.quotePath` on, the default) a
      character outside ASCII in C-style quotes. So only printable ASCII other
      than `"` and `\` is left as it is. */
  predicate PrintedUnquoted(path: string) {
    forall k :: 0 <= k < |path| ==> ' ' < path[k] < '\U{007F}' && path[k] != '"' && path[k] != '\\'
  }

  /** One line of `git status --short` in its plain form: two status letters,
      a space, the path. Git prints this form only for a path it does not
      quote; renames and copies (`XY ORIG -> PATH`) and quoted paths are not
      generated; see the examples below. */
  function StatusLine(x: char, y: char, path: string): string {
    [x, y, ' '] + path
  }

  /** An `XY path` listing for the given status letters and paths. */
  function StatusListing(codes: seq<(char, char)>, paths: seq<string>): string
    requires |codes| == |paths|
  {
    Unlines(seq(|paths|, i requires 0 <= i < |paths| => StatusLine(codes[i].0, codes[i].1, paths[i])))
  }

  /** A trimmed path comes back from its status line whatever the two status letters are. */
  lemma StatusPathOfLine(x: char, y: char, path: string)
    requires IsTrimmed(path)
    ensures StatusPath(StatusLine(x, y, path)) == path
  {
  }

  /** Given workspace `/ws` and the status line ` M src/a.ts`, the item is
      labelled `src/a.ts` and opens `/ws/src/a.ts`. */
  lemma StatusItemExample()
    ensures StatusItem("/ws", " M src/a.ts").caption == "src/a.ts"
    ensures StatusItem("/ws", " M src/a.ts").command == Some(Command("vscode.open", "Open File", [FileUri("/ws/src/a.ts")]))
  {
    assert " M src/a.ts" == StatusLine(' ', 'M', "src/a.ts");
    StatusPathOfLine(' ', 'M', "src/a.ts");
    assert StatusPath(" M src/a.ts") == "src/a.ts";
    assert JoinPath("/ws", "src/a.ts") == "/ws/src/a.ts";
  }

  /** A `* `/two-space listing of `names`, with `current` marked, yields one
      item per name, labelled with it and checking it out. */
  lemma BranchItemsOfListing(names: seq<string>, current: int)
    requires forall n :: n in names ==> n != [] && IsTrimmed(n) && '*' !in n && '\n' !in n
    ensures var items := BranchItems(BranchListing(names, current));
            && |items| == |names|
            && forall i :: 0 <= i < |names| ==> items[i].caption == names[i] && items[i].command == Some(CheckoutCommand(names[i]))
  {
    var lines := seq(|names|, i requires 0 <= i < |names| => BranchLine(names[i], i == current));
    forall i | 0 <= i < |lines|
      ensures lines[i] != [] && '\n' !in lines[i]
    {
    }
    LinesOfUnlines(lines);
    assert BranchListing(names, current) == Unlines(lines);
    forall i | 0 <= i < |names|
      ensures BranchName(lines[i]) == names[i]
    {
      BranchNameOfLine(names[i], i == current);
    }
  }

  /** An `XY path` listing yields one item per entry, labelled with its path
      and opening it under `root`. */
  lemma StatusItemsOfListing(root: string, codes: seq<(char, char)>, paths: seq<string>)
    requires |codes| == |paths|
    requires forall i :: 0 <= i < |codes| ==> codes[i].0 != '\n' && codes[i].1 != '\n'
    requires forall path :: path in paths ==> IsTrimmed(path) && '\n' !in path && PrintedUnquoted(path)
    ensures var items := StatusItems(root, StatusListing(codes, paths));
            && |items| == |paths|
            && forall i :: 0 <= i < |paths| ==> items[i].caption == paths[i] && items[i].command == Some(OpenCommand(root, paths[i]))
  {
    var lines := seq(|paths|, i requires 0 <= i < |paths| => StatusLine(codes[i].0, codes[i].1, paths[i]));
    forall i | 0 <= i < |lines|
      ensures lines[i] != [] && '\n' !in lines[i]
    {
      assert lines[i][2] == ' ';
      assert lines[i][..3] == [codes[i].0, codes[i].1, ' '];
    }
    LinesOfUnlines(lines);
    assert StatusListing(codes, paths) == Unlines(lines);
    forall i | 0 <= i < |paths|
      ensures StatusPath(lines[i]) == paths[i]
    {
      StatusPathOfLine(codes[i].0, codes[i].1, paths[i]);
    }
  }

  /** The log view shows back exactly the commit lines git printed, in order. */
  lemma LogItemsOfListing(lines: seq<string>)
    requires forall l :: l in lines ==> l != [] && '\n' !in l
    ensures var items := LogItems(Unlines(lines));
            && |items| == |lines|
            && forall i :: 0 <= i < |lines| ==> items[i] == GitItem(lines[i], NoChildren, None)
  {
    LinesOfUnlines(lines);
  }

  // ---------------------------------------------------------------- forms the generators leave out

  /** A rename line keeps both names: the item shows `old -> new` and opens
      that text under the workspace, not the new file. */
  lemma RenameLineExample()
    ensures StatusPath("R  old -> new") == "old -> new"
    ensures StatusItem("/ws", "R  old -> new").command == Some(OpenCommand("/ws", "old -> new"))
  {
    assert "R  old -> new" == StatusLine('R', ' ', "old -> new");
    StatusPathOfLine('R', ' ', "old -> new");
  }

  /** A quoted path keeps its quotes: the item shows `"a b.txt"` and opens
      that text, quotes included, under the workspace. */
  lemma QuotedPathExample()
    ensures StatusPath("?? \"a b.txt\"") == "\"a b.txt\""
    ensures StatusItem("/ws", "?? \"a b.txt\"").command == Some(OpenCommand("/ws", "\"a b.txt\""))
  {
    assert "?? \"a b.txt\"" == StatusLine('?', '?', "\"a b.txt\"");
    StatusPathOfLine('?', '?', "\"a b.txt\"");
  }

  /** A branch checked out in another worktree keeps its `+ ` marker, so its
      item's checkout argument is `+ feat`. */
  lemma WorktreeBranchExample()
    ensures BranchName("+ feat") == "+ feat"
    ensures BranchItem("+ feat").command == Some(CheckoutCommand("+ feat"))
  {
    var line := "+ feat";
    assert '*' !in line by {
      assert forall k :: 0 <= k < |line| ==> line[k] != '*';
    }
    assert [] + line + [] == line;
    TrimPadded([], "+ feat", []);
  }

  /** A detached HEAD is listed as `* (HEAD detached at …)`, and its item's
      checkout argument is the parenthesised text. */
  lemma DetachedHeadExample()
    ensures BranchName("* (HEAD detached at 1a2b3c4)") == "(HEAD detached at 1a2b3c4)"
    ensures BranchItem("* (HEAD detached at 1a2b3c4)").command == Some(CheckoutCommand("(HEAD detached at 1a2b3c4)"))
  {
    assert "* (HEAD detached at 1a2b3c4)" == BranchLine("(HEAD detached at 1a2b3c4)", true);
    BranchNameOfLine("(HEAD detached at 1a2b3c4)", true);
  }
}
