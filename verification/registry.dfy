/**
 * The command registry of `activate` and the command runner behind it. Every
 * handler is a function from what the user supplied (an argument, for
 * checkout, and the answer to an input box) to the texts it sends, and the
 * terminal is the append-only list of every text sent to it, oldest first.
 * Order here is always send order. Each `runGitCommand` call opens a fresh
 * terminal, so texts sent one after another run in separate shells, and none
 * waits for an earlier one to finish.
 */
module Registry {
  import opened Wrappers
  import opened JsString

  /** The commands `activate` registers, in registration order. */
  datatype CommandId =
    | Status | Add | Commit | Push | Pull | Fetch | Checkout | ListBranches
    | Log | Stash | Reset | Merge | AddRemote | RemoveRemote | SetRemoteUrl
    | ListRemote | PushUpstream | FetchAll | QuickCommit | AutoPull | Clean
    | OpenGithub | CopyRepoUrl

  /** The identifier each handler is registered under. */
  function Name(id: CommandId): string {
    match id
    case Status => "gitAssistant.status"
    case Add => "gitAssistant.add"
    case Commit => "gitAssistant.commit"
    case Push => "gitAssistant.push"
    case Pull => "gitAssistant.pull"
    case Fetch => "gitAssistant.fetch"
    case Checkout => "gitAssistant.checkout"
    case ListBranches => "gitAssistant.listBranches"
    case Log => "gitAssistant.log"
    case Stash => "gitAssistant.stash"
    case Reset => "gitAssistant.reset"
    case Merge => "gitAssistant.merge"
    case AddRemote => "gitAssistant.addRemote"
    case RemoveRemote => "gitAssistant.removeRemote"
    case SetRemoteUrl => "gitAssistant.setRemoteUrl"
    case ListRemote => "gitAssistant.listRemote"
    case PushUpstream => "gitAssistant.pushUpstream"
    case FetchAll => "gitAssistant.fetchAll"
    case QuickCommit => "gitAssistant.quickCommit"
    case AutoPull => "gitAssistant.autoPull"
    case Clean => "gitAssistant.clean"
    case OpenGithub => "gitAssistant.openGithub"
    case CopyRepoUrl => "gitAssistant.copyRepoUrl"
  }

  /** A command with a hole for user text, filled in verbatim: no quoting, no escaping. */
  datatype Template = Template(before: string, after: string) {

    function Fill(input: string): string {
      before + input + after
    }

    /** Reads the user text back out of a filled command, if it has the template's shape. */
    function Read(command: string): Option<string> {
      if |before| + |after| <= |command|
         && command[..|before|] == before
         && command[|command| - |after|..] == after
      then Some(command[|before|..|command| - |after|])
      else None
    }
  }

  /** The three shapes of handler. */
  datatype Shape =
      /** Sends one fixed text. */
    | Direct(text: string)
      /** Asks for text; unless the answer is falsy, sends `first` and then the filled template. */
    | Prompted(prompt: string, first: seq<string>, template: Template)
      /** Uses a truthy argument when one is supplied and asks otherwise, then as Prompted with nothing first. */
    | ArgumentOrPrompted(prompt: string, template: Template)

  function ShapeOf(id: CommandId): Shape {
    match id
    case Status => Direct("git status")
    case Add => Direct("git add .")
    case Commit => Prompted("Commit message", [], Template("git commit -m \"", "\""))
    case Push => Direct("git push")
    case Pull => Direct("git pull")
    case Fetch => Direct("git fetch")
    case Checkout => ArgumentOrPrompted("Branch name", Template("git checkout ", ""))
    case ListBranches => Direct("git branch")
    case Log => Direct("git log --oneline --graph")
    case Stash => Direct("git stash")
    case Reset => Direct("git reset --hard")
    case Merge => Prompted("Merge branch name", [], Template("git merge ", ""))
    case AddRemote => Prompted("Remote URL", [], Template("git remote add origin ", ""))
    case RemoveRemote => Direct("git remote remove origin")
    case SetRemoteUrl => Prompted("New remote URL", [], Template("git remote set-url origin ", ""))
    case ListRemote => Direct("git remote -v")
    case PushUpstream => Direct("git push -u origin HEAD")
    case FetchAll => Direct("git fetch --all")
    case QuickCommit => Prompted("Quick commit message", ["git add ."], Template("git commit -m \"", "\""))
    case AutoPull => Direct("git stash && git pull && git stash pop")
    case Clean => Direct("git clean -fd")
    case OpenGithub => Direct("git remote -v")
    case CopyRepoUrl => Direct("git config --get remote.origin.url")
  }

  /** Every text sent to the terminal, oldest first. */
  type Terminal = seq<string>

  /** `runGitCommand`: sends exactly one text, after everything sent before. */
  function RunGitCommand(t: Terminal, command: string): (t': Terminal)
    ensures |t'| == |t| + 1
    ensures t'[..|t|] == t
    ensures t'[|t|] == command
  {
    t + [command]
  }

  /** Sends the texts one `runGitCommand` call at a time, in order. */
  function RunAll(t: Terminal, commands: seq<string>): (t': Terminal)
    ensures t' == t + commands
    decreases |commands|
  {
    if commands == [] then t
    else
      assert t + commands == (t + [commands[0]]) + commands[1..];
      RunAll(RunGitCommand(t, commands[0]), commands[1..])
  }

  /** The input box a handler shows, if any: its prompt text. */
  function PromptShown(id: CommandId, arg: Option<string>): (prompt: Option<string>)
    ensures prompt.Some? <==> id in {Commit, Merge, AddRemote, SetRemoteUrl, QuickCommit} || (id == Checkout && !Truthy(arg))
  {
    match ShapeOf(id)
    case Direct(_) => None
    case Prompted(prompt, _, _) => Some(prompt)
    case ArgumentOrPrompted(prompt, _) => if Truthy(arg) then None else Some(prompt)
  }

  /** The texts the handler registered for `id` sends, in order: `arg` is the
      argument it was invoked with and `answer` what the input box returned
      (None when cancelled; it is only consulted when the box is shown). At
      most two texts. */
  function Sent(id: CommandId, arg: Option<string>, answer: Option<string>): (sent: seq<string>)
    ensures |sent| <= 2
  {
    match ShapeOf(id)
    case Direct(text) => [text]
    case Prompted(_, first, template) =>
      if Truthy(answer) then first + [template.Fill(answer.value)] else []
    case ArgumentOrPrompted(_, template) =>
      var branch := if Truthy(arg) then arg else answer;
      if Truthy(branch) then [template.Fill(branch.value)] else []
  }

  /** Runs a handler against the terminal: its texts go through `runGitCommand`
      one at a time. Texts already there stay as they were, and the handler's
      texts follow them in order. */
  function Handle(t: Terminal, id: CommandId, arg: Option<string>, answer: Option<string>): (t': Terminal)
    ensures |t| <= |t'| <= |t| + 2
    ensures t'[..|t|] == t
    ensures t'[|t|..] == Sent(id, arg, answer)
  {
    RunAll(t, Sent(id, arg, answer))
  }

  /** The handlers that send one fixed text, whatever they are given. */
  lemma DirectHandlers(arg: Option<string>, answer: Option<string>)
    ensures Sent(Status, arg, answer) == ["git status"]
    ensures Sent(Add, arg, answer) == ["git add ."]
    ensures Sent(Push, arg, answer) == ["git push"]
    ensures Sent(Pull, arg, answer) == ["git pull"]
    ensures Sent(Fetch, arg, answer) == ["git fetch"]
    ensures Sent(ListBranches, arg, answer) == ["git branch"]
    ensures Sent(Log, arg, answer) == ["git log --oneline --graph"]
    ensures Sent(Stash, arg, answer) == ["git stash"]
    ensures Sent(Reset, arg, answer) == ["git reset --hard"]
  {
  }

  /** The fixed remote and upstream handlers. */
  lemma RemoteDirectHandlers(arg: Option<string>, answer: Option<string>)
    ensures Sent(RemoveRemote, arg, answer) == ["git remote remove origin"]
    ensures Sent(ListRemote, arg, answer) == ["git remote -v"]
    ensures Sent(PushUpstream, arg, answer) == ["git push -u origin HEAD"]
    ensures Sent(FetchAll, arg, answer) == ["git fetch --all"]
  {
  }

  /** The fixed handlers added last: auto-pull chains three commands in one text. */
  lemma AddedDirectHandlers(arg: Option<string>, answer: Option<string>)
    ensures Sent(AutoPull, arg, answer) == ["git stash && git pull && git stash pop"]
    ensures Sent(Clean, arg, answer) == ["git clean -fd"]
    ensures Sent(OpenGithub, arg, answer) == ["git remote -v"]
    ensures Sent(CopyRepoUrl, arg, answer) == ["git config --get remote.origin.url"]
  {
  }

  /** The single-prompt handlers: a falsy answer sends nothing, any other is
      spliced into exactly one text, verbatim. */
  lemma SinglePromptHandlers(arg: Option<string>, answer: Option<string>)
    ensures !Truthy(answer) ==> Sent(Commit, arg, answer) == []
    ensures !Truthy(answer) ==> Sent(Merge, arg, answer) == []
    ensures !Truthy(answer) ==> Sent(AddRemote, arg, answer) == []
    ensures !Truthy(answer) ==> Sent(SetRemoteUrl, arg, answer) == []
    ensures Truthy(answer) ==> Sent(Commit, arg, answer) == ["git commit -m \"" + answer.value + "\""]
    ensures Truthy(answer) ==> Sent(Merge, arg, answer) == ["git merge " + answer.value]
    ensures Truthy(answer) ==> Sent(AddRemote, arg, answer) == ["git remote add origin " + answer.value]
    ensures Truthy(answer) ==> Sent(SetRemoteUrl, arg, answer) == ["git remote set-url origin " + answer.value]
  {
    if Truthy(answer) {
      var v := answer.value;
      assert "git merge " + v + "" == "git merge " + v;
      assert "git remote add origin " + v + "" == "git remote add origin " + v;
      assert "git remote set-url origin " + v + "" == "git remote set-url origin " + v;
    }
  }

  /** Quick commit: a falsy answer sends nothing, any other sends add-all and
      then the commit with that message, in that send order (the two run in
      separate terminals, so the commit does not wait for the add). */
  lemma QuickCommitHandler(arg: Option<string>, answer: Option<string>)
    ensures !Truthy(answer) ==> Sent(QuickCommit, arg, answer) == []
    ensures Truthy(answer) ==> Sent(QuickCommit, arg, answer) == ["git add .", "git commit -m \"" + answer.value + "\""]
  {
  }

  /** Checkout: a truthy argument is checked out without asking; otherwise the
      input box is shown and a falsy answer sends nothing. */
  lemma CheckoutHandler(arg: Option<string>, answer: Option<string>)
    ensures Truthy(arg) ==> PromptShown(Checkout, arg).None?
    ensures Truthy(arg) ==> Sent(Checkout, arg, answer) == ["git checkout " + arg.value]
    ensures !Truthy(arg) ==> PromptShown(Checkout, arg) == Some("Branch name")
    ensures !Truthy(arg) && !Truthy(answer) ==> Sent(Checkout, arg, answer) == []
    ensures !Truthy(arg) && Truthy(answer) ==> Sent(Checkout, arg, answer) == ["git checkout " + answer.value]
  {
    var branch := if Truthy(arg) then arg else answer;
    if Truthy(branch) {
      assert "git checkout " + branch.value + "" == "git checkout " + branch.value;
    }
  }

  /** What the user did when a handler ran: the argument and the input-box answer. */
  datatype Invocation = Invocation(id: CommandId, arg: Option<string>, answer: Option<string>)

  /** A session: each handler's texts are sent together, and the calls are
      listed in the order the handlers finish. A prompting handler sends only
      once its input box is answered, so a command run while the box is open
      can finish, and send, first. */
  function Replay(t: Terminal, calls: seq<Invocation>): Terminal
    decreases |calls|
  {
    if calls == [] then t
    else Replay(Handle(t, calls[0].id, calls[0].arg, calls[0].answer), calls[1..])
  }

  // ---------------------------------------------------------------- properties

  /** Filling a template and reading it back gives the user's text unchanged:
      the text reaches the shell verbatim, whatever characters it holds. */
  lemma ReadFill(template: Template, input: string)
    ensures template.Read(template.Fill(input)) == Some(input)
  {
  }

  /** A prompting handler given a truthy answer sends, last, a text from which
      the answer reads back exactly. */
  lemma AnswerSentVerbatim(t: Terminal, id: CommandId, arg: Option<string>, answer: Option<string>)
    requires PromptShown(id, arg).Some? && Truthy(answer)
    ensures var t' := Handle(t, id, arg, answer);
            |t'| > |t| && ShapeOf(id).template.Read(t'[|t'| - 1]) == Some(answer.value)
  {
    ReadFill(ShapeOf(id).template, answer.value);
  }

  /** A commit message holding a double quote closes the quoted argument
      early, so the rest of it runs as shell text. */
  lemma CommitMessageNotEscaped()
    ensures Handle([], Commit, None, Some("x\" && git push --force && echo \""))
            == ["git commit -m \"x\" && git push --force && echo \"\""]
  {
    var msg := "x\" && git push --force && echo \"";
    assert Truthy(Some(msg));
    assert "git commit -m \"" + msg + "\"" == "git commit -m \"x\" && git push --force && echo \"\"";
  }

  /** A handler that shows no input box does the same whatever the box would have said. */
  lemma AnswerIgnoredWithoutPrompt(t: Terminal, id: CommandId, arg: Option<string>, a1: Option<string>, a2: Option<string>)
    requires PromptShown(id, arg).None?
    ensures Handle(t, id, arg, a1) == Handle(t, id, arg, a2)
  {
  }

  /** Only checkout looks at its argument. */
  lemma ArgumentIgnoredExceptCheckout(t: Terminal, id: CommandId, a1: Option<string>, a2: Option<string>, answer: Option<string>)
    requires id != Checkout
    ensures Handle(t, id, a1, answer) == Handle(t, id, a2, answer)
  {
  }

  /** Handlers add to the terminal and never take away: a session keeps what
      was there and adds at most two texts per call. */
  lemma {:induction false} ReplayAppends(t: Terminal, calls: seq<Invocation>)
    ensures var t' := Replay(t, calls);
            && |t| <= |t'| <= |t| + 2 * |calls|
            && t'[..|t|] == t
    decreases |calls|
  {
    if calls != [] {
      var c := calls[0];
      var t1 := Handle(t, c.id, c.arg, c.answer);
      ReplayAppends(t1, calls[1..]);
      var t' := Replay(t1, calls[1..]);
      assert t'[..|t|] == t'[..|t1|][..|t|];
    }
  }

  /** Running one batch of calls and then another is running them all in
      order: the texts are sent in the order the handlers finish (send order,
      not execution order). */
  lemma {:induction false} ReplayConcat(t: Terminal, a: seq<Invocation>, b: seq<Invocation>)
    ensures Replay(t, a + b) == Replay(Replay(t, a), b)
    decreases |a|
  {
    if a == [] {
      assert a + b == b;
    } else {
      assert (a + b)[0] == a[0];
      assert (a + b)[1..] == a[1..] + b;
      ReplayConcat(Handle(t, a[0].id, a[0].arg, a[0].answer), a[1..], b);
    }
  }
}
