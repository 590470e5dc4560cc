/** The bridge inside a task sandbox: it starts the pinned Crush, refuses a drifted one,
    and relays commands in and events out until the task ends. */
module Bridge {
  import opened Options

  type Session = string

  /** The empty session: there is none to cancel. */
  const NO_SESSION: Session := ""

  /** An event Crush reports. */
  datatype CrushEvent = RunComplete(body: string) | Other(body: string)

  datatype Event = BridgeReady(version: string) | BridgeError | FilesRead(files: seq<string>)
    | Relayed(crush: CrushEvent)

  datatype Command = Prompt(text: string) | Grant(permission: string, answer: string) | Cancel | Unknown(kind: string)

  /** Everything the bridge does to the world, in the order it does it. */
  datatype Action =
    | WroteConfig | Started | CheckedReady | GotVersion(version: string) | CreatedWorkspace | OpenedEvents
    | SentPrompt(text: string) | SentGrant(permission: string, answer: string) | SentCancel(session: Session)
    | AskedFiles | Emitted(event: Event) | Stopped | Waited

  /** Which ready branch the select takes. */
  datatype Choice = Done | FromCrush | FromHost

  function TrimV(s: string): string {
    if "v" <= s then s[1..] else s
  }

  /** A pin names one release; only a leading v is forgiven. */
  predicate SameVersion(got: string, want: string) {
    want != "" && TrimV(got) == TrimV(want)
  }

  // ------------------------------------------------------------------
  // Projections of what was done
  // ------------------------------------------------------------------

  predicate IsCall(a: Action) {
    a.SentPrompt? || a.SentGrant? || a.SentCancel?
  }

  /** The calls that act on a task. */
  function Calls(log: seq<Action>): seq<Action> {
    if log == [] then []
    else
      var front, last := Calls(log[..|log| - 1]), log[|log| - 1];
      if IsCall(last) then front + [last] else front
  }

  /** Crush's own events, as they came out on stdout. */
  function RelayedEvents(log: seq<Action>): seq<CrushEvent> {
    if log == [] then []
    else
      var front, last := RelayedEvents(log[..|log| - 1]), log[|log| - 1];
      if last.Emitted? && last.event.Relayed? then front + [last.event.crush] else front
  }

  function ReadyCount(log: seq<Action>): nat {
    if log == [] then 0
    else ReadyCount(log[..|log| - 1]) + (if log[|log| - 1].Emitted? && log[|log| - 1].event.BridgeReady? then 1 else 0)
  }

  /** The last thing said on stdout. */
  function LastWord(log: seq<Action>): Option<Event> {
    if log == [] then None
    else if log[|log| - 1].Emitted? then Some(log[|log| - 1].event)
    else LastWord(log[..|log| - 1])
  }

  /** What one more action adds to each projection. */
  lemma OneMore(log: seq<Action>, a: Action)
    ensures Calls(log + [a]) == if IsCall(a) then Calls(log) + [a] else Calls(log)
    ensures RelayedEvents(log + [a])
         == if a.Emitted? && a.event.Relayed? then RelayedEvents(log) + [a.event.crush] else RelayedEvents(log)
    ensures ReadyCount(log + [a]) == ReadyCount(log) + (if a.Emitted? && a.event.BridgeReady? then 1 else 0)
    ensures LastWord(log + [a]) == if a.Emitted? then Some(a.event) else LastWord(log)
  {
    assert (log + [a])[..|log|] == log;
  }

  // ------------------------------------------------------------------
  // What the commands ask for
  // ------------------------------------------------------------------

  /** The session of the last prompt that went through, empty if it came back so. `replies(i)` is the answer to the
      i-th command, should it be a prompt. */
  function SessionAfter(commands: seq<Command>, replies: nat -> Option<Session>): Session {
    if commands == [] then NO_SESSION
    else
      var n := |commands| - 1;
      if commands[n].Prompt? && replies(n).Some? then replies(n).value else SessionAfter(commands[..n], replies)
  }

  /** The call a command makes, if any: one at most. */
  function CallOf(c: Command, session: Session): seq<Action> {
    match c
    case Prompt(text) => [SentPrompt(text)]
    case Grant(permission, answer) => [SentGrant(permission, answer)]
    case Cancel => if session != NO_SESSION then [SentCancel(session)] else []
    case Unknown(_) => []
  }

  function CallsOf(commands: seq<Command>, replies: nat -> Option<Session>): seq<Action> {
    if commands == [] then []
    else
      var n := |commands| - 1;
      CallsOf(commands[..n], replies) + CallOf(commands[n], SessionAfter(commands[..n], replies))
  }

  // ------------------------------------------------------------------
  // What must hold of every run
  // ------------------------------------------------------------------

  predicate ActsOnATask(a: Action) {
    a.CreatedWorkspace? || IsCall(a)
  }

  /** Nothing that could run a task comes before a version that is the pinned one. */
  ghost predicate Gated(log: seq<Action>, want: string) {
    forall i :: 0 <= i < |log| && ActsOnATask(log[i]) ==>
      exists j :: 0 <= j < i && log[j].GotVersion? && SameVersion(log[j].version, want)
  }

  /** A child that was started has been stopped after it. */
  ghost predicate StoppedAfterStart(log: seq<Action>) {
    Started in log ==> log[|log| - 1] == Stopped
  }

  /** No run completion has been relayed so far. */
  ghost predicate NotComplete(log: seq<Action>) {
    forall e :: e in RelayedEvents(log) ==> !e.RunComplete?
  }

  /** The end of a completed task: its completion, one word on the files read, nothing more. */
  ghost predicate CompletedRight(log: seq<Action>, before: seq<Action>) {
    NotComplete(before) && exists ev, word :: IsEnding(log, before, ev, word)
  }

  ghost predicate IsEnding(log: seq<Action>, before: seq<Action>, ev: CrushEvent, word: Event) {
    && ev.RunComplete? && (word.FilesRead? || word.BridgeError?)
    && log == before + [Emitted(Relayed(ev)), AskedFiles, Emitted(word), Stopped, Waited, Stopped]
  }

  lemma GatedMore(log: seq<Action>, a: Action, want: string)
    requires Gated(log, want)
    requires ActsOnATask(a) ==> exists j :: 0 <= j < |log| && log[j].GotVersion? && SameVersion(log[j].version, want)
    ensures Gated(log + [a], want)
  {
    var more := log + [a];
    forall i | 0 <= i < |more| && ActsOnATask(more[i])
      ensures exists j :: 0 <= j < i && more[j].GotVersion? && SameVersion(more[j].version, want) {
      if i < |log| {
        var j :| 0 <= j < i && log[j].GotVersion? && SameVersion(log[j].version, want);
        assert more[j] == log[j];
      } else {
        var j :| 0 <= j < |log| && log[j].GotVersion? && SameVersion(log[j].version, want);
        assert more[j] == log[j];
      }
    }
  }

  /** The pinned version has been reported. */
  ghost predicate Checked(log: seq<Action>, want: string) {
    exists j :: 0 <= j < |log| && log[j].GotVersion? && SameVersion(log[j].version, want)
  }

  lemma CheckedMore(log: seq<Action>, a: Action, want: string)
    requires Checked(log, want)
    ensures Checked(log + [a], want)
  {
    var j :| 0 <= j < |log| && log[j].GotVersion? && SameVersion(log[j].version, want);
    assert (log + [a])[j] == log[j];
  }

  /** The guest the bridge lives in: what Crush will report, what the host will say, and
      how each step goes. */
  class Sandbox {
    ghost var log: seq<Action>
    var steps: nat

    const vetted: string
    const reported: string
    const crushEvents: seq<CrushEvent>
    const streamFails: bool
    const commands: seq<Command>
    const goesWell: nat -> bool
    const choices: nat -> Choice
    const replies: nat -> Option<Session>
    const files: seq<string>

    constructor (vetted: string, reported: string, crushEvents: seq<CrushEvent>, streamFails: bool,
                 commands: seq<Command>,
                 goesWell: nat -> bool, choices: nat -> Choice, replies: nat -> Option<Session>, files: seq<string>)
      ensures log == [] && this.vetted == vetted && this.reported == reported
      ensures this.crushEvents == crushEvents && this.commands == commands && this.replies == replies
    {
      this.log, this.steps := [], 0;
      this.vetted, this.reported, this.crushEvents, this.streamFails := vetted, reported, crushEvents, streamFails;
      this.commands, this.goesWell, this.choices, this.replies, this.files :=
        commands, goesWell, choices, replies, files;
    }

    /** One step, which may fail. Whether it does or not, it has been taken. */
    method Do(ghost a: Action) returns (ok: bool)
      modifies this
      ensures log == old(log) + [a]
      ensures Calls(log) == if IsCall(a) then Calls(old(log)) + [a] else Calls(old(log))
      ensures RelayedEvents(log)
           == if a.Emitted? && a.event.Relayed? then RelayedEvents(old(log)) + [a.event.crush]
              else RelayedEvents(old(log))
      ensures ReadyCount(log) == ReadyCount(old(log)) + (if a.Emitted? && a.event.BridgeReady? then 1 else 0)
      ensures LastWord(log) == if a.Emitted? then Some(a.event) else LastWord(old(log))
    {
      OneMore(log, a);
      ok := goesWell(steps);
      steps := steps + 1;
      log := log + [a];
    }

    method Refuse()
      modifies this
      ensures log == old(log) + [Emitted(BridgeError)]
      ensures Calls(log) == Calls(old(log)) && RelayedEvents(log) == RelayedEvents(old(log))
      ensures ReadyCount(log) == ReadyCount(old(log))
      ensures LastWord(log) == Some(BridgeError)
    {
      var _ := Do(Emitted(BridgeError));
    }
  }

  /** Whatever holds between two steps of the relay. */
  ghost predicate Relaying(b: Sandbox, i: nat, j: nat)
    reads b
  {
    && i <= |b.crushEvents| && j <= |b.commands|
    && Gated(b.log, b.vetted) && Checked(b.log, b.vetted) && ReadyCount(b.log) == 1
    && RelayedEvents(b.log) == b.crushEvents[..i]
    && Calls(b.log) == CallsOf(b.commands[..j], b.replies)
  }

  lemma StaysGated(b: Sandbox, was: seq<Action>, a: Action)
    requires b.log == was + [a] && Gated(was, b.vetted) && (ActsOnATask(a) ==> Checked(was, b.vetted))
    ensures Gated(b.log, b.vetted) && (Checked(was, b.vetted) ==> Checked(b.log, b.vetted))
  {
    GatedMore(was, a, b.vetted);
    if Checked(was, b.vetted) { CheckedMore(was, a, b.vetted); }
  }

  /** A step that relays nothing, calls nothing and announces nothing. */
  predicate Aside(a: Action) {
    !ActsOnATask(a) && !(a.Emitted? && (a.event.Relayed? || a.event.BridgeReady?))
  }

  method DoAside(b: Sandbox, ghost a: Action, ghost i: nat, ghost j: nat) returns (ok: bool)
    requires Relaying(b, i, j) && Aside(a)
    modifies b
    ensures Relaying(b, i, j) && b.log == old(b.log) + [a]
    ensures LastWord(b.log) == if a.Emitted? then Some(a.event) else LastWord(old(b.log))
  {
    ghost var was := b.log;
    ok := b.Do(a);
    StaysGated(b, was, a);
  }

  /** Turns one stdin command into one API call at most. */
  method ApplyCommand(b: Sandbox, session: Session, ghost i: nat, j: nat)
    returns (session': Session, ok: bool)
    requires Relaying(b, i, j) && j < |b.commands| && session == SessionAfter(b.commands[..j], b.replies)
    modifies b
    ensures Relaying(b, i, j + 1) && session' == SessionAfter(b.commands[..j+1], b.replies)
    ensures b.log == old(b.log) + CallOf(b.commands[j], session)
  {
    hide Gated, Checked;
    assert b.commands[..j+1][..j] == b.commands[..j];
    session' := session;
    ghost var was := b.log;
    match b.commands[j]
    case Prompt(text) =>
      var _ := b.Do(SentPrompt(text));
      StaysGated(b, was, SentPrompt(text));
      ok := b.replies(j).Some?;
      if ok { session' := b.replies(j).value; }
    case Grant(permission, answer) =>
      ok := b.Do(SentGrant(permission, answer));
      StaysGated(b, was, SentGrant(permission, answer));
    case Cancel =>
      if session == NO_SESSION {
        ok := false;
      } else {
        ok := b.Do(SentCancel(session));
        StaysGated(b, was, SentCancel(session));
      }
    case Unknown(_) =>
      ok := false;
  }

  /** Crush has said its task is complete: one word on the files read, then stop. */
  method Complete(b: Sandbox, ghost e: nat, ghost c: nat) returns (ghost word: Event)
    requires Relaying(b, e, c)
    modifies b
    ensures Relaying(b, e, c) && (word.FilesRead? || word.BridgeError?)
    ensures b.log == old(b.log) + [AskedFiles, Emitted(word), Stopped, Waited]
  {
    hide Relaying, Calls, RelayedEvents, ReadyCount, LastWord;
    ghost var was := b.log;
    var ok := DoAside(b, AskedFiles, e, c);
    word := if ok then FilesRead(b.files) else BridgeError;
    var _ := DoAside(b, Emitted(word), e, c);
    var _ := DoAside(b, Stopped, e, c);
    var _ := DoAside(b, Waited, e, c);
    FourMore(was, AskedFiles, Emitted(word), Stopped, Waited);
  }

  lemma FourMore(log: seq<Action>, a: Action, b: Action, c: Action, d: Action)
    ensures log + [a] + [b] + [c] + [d] == log + [a, b, c, d]
  {
  }

  ghost predicate NoneComplete(events: seq<CrushEvent>) {
    forall e :: e in events ==> !e.RunComplete?
  }

  lemma NoneCompleteSnoc(events: seq<CrushEvent>, e: nat)
    requires e < |events|
    ensures events[..e+1] == events[..e] + [events[e]]
    ensures NoneComplete(events[..e+1]) <==> NoneComplete(events[..e]) && !events[e].RunComplete?
  {
    assert events[..e+1] == events[..e] + [events[e]];
  }

  lemma StillRunning(b: Sandbox, i: nat, j: nat)
    requires Relaying(b, i, j)
    ensures NotComplete(b.log) <==> NoneComplete(b.crushEvents[..i])
  {
  }

  /** Passes one of Crush's events on. */
  method PassOn(b: Sandbox, e: nat, ghost c: nat)
    requires Relaying(b, e, c) && e < |b.crushEvents|
    modifies b
    ensures Relaying(b, e + 1, c) && b.log == old(b.log) + [Emitted(Relayed(b.crushEvents[e]))]
  {
    hide Gated, Checked;
    ghost var was := b.log;
    var ev := b.crushEvents[e];
    var _ := b.Do(Emitted(Relayed(ev)));
    StaysGated(b, was, Emitted(Relayed(ev)));
    NoneCompleteSnoc(b.crushEvents, e);
  }

  lemma CompletedInOrder(was: seq<Action>, ev: CrushEvent, word: Event)
    requires ev.RunComplete? && NotComplete(was) && (word.FilesRead? || word.BridgeError?)
    ensures CompletedRight(was + [Emitted(Relayed(ev))] + [AskedFiles, Emitted(word), Stopped, Waited] + [Stopped], was)
  {
    var log := was + [Emitted(Relayed(ev))] + [AskedFiles, Emitted(word), Stopped, Waited] + [Stopped];
    assert log == was + [Emitted(Relayed(ev)), AskedFiles, Emitted(word), Stopped, Waited, Stopped];
    assert IsEnding(log, was, ev, word);
  }

  /** The select loop, until Crush completes, either side ends, or the task is called off.
      Every way out leaves the child to the caller's deferred stop. */
  method Relay(b: Sandbox) returns (failed: bool, ghost i: nat, ghost j: nat, ghost before: seq<Action>)
    requires Relaying(b, 0, 0)
    modifies b
    ensures Relaying(b, i, j)
    ensures NotComplete(b.log) || CompletedRight(b.log + [Stopped], before)
    ensures failed ==> LastWord(b.log) == Some(BridgeError)
  {
    hide Relaying, NotComplete, NoneComplete, CompletedRight;
    var session := NO_SESSION;
    var e, c := 0, 0;
    i, j, before, failed := 0, 0, [], false;
    StillRunning(b, 0, 0);
    NothingComplete();
    BoundsHold(b, 0, 0);
    while true
      invariant Relaying(b, e, c) && e <= |b.crushEvents| && c <= |b.commands| && NoneComplete(b.crushEvents[..e])
      invariant session == SessionAfter(b.commands[..c], b.replies)
      invariant i == e && j == c && !failed
      decreases |b.crushEvents| - e + |b.commands| - c
    {
      StillRunning(b, e, c);
      var choice := b.choices(b.steps);
      if choice.Done? {
        return;
      }
      if choice.FromCrush? {
        if e == |b.crushEvents| {
          // The stream ended before the task did: say why, if there is a why.
          if b.streamFails {
            var _ := DoAside(b, Emitted(BridgeError), e, c);
            StillRunning(b, e, c);
            failed := true;
          }
          return;
        }
        before := b.log;
        PassOn(b, e, c);
        NoneCompleteSnoc(b.crushEvents, e);
        e := e + 1;
        i := e;
        if b.crushEvents[e-1].RunComplete? {
          ghost var word := Complete(b, e, c);
          CompletedInOrder(before, b.crushEvents[e-1], word);
          return;
        }
      } else {
        if c == |b.commands| {
          // The host has closed stdin: it is done with this task.
          var _ := DoAside(b, Stopped, e, c);
          var _ := DoAside(b, Waited, e, c);
          StillRunning(b, e, c);
          return;
        }
        var ok;
        session, ok := ApplyCommand(b, session, e, c);
        c := c + 1;
        j := c;
        if !ok {
          var _ := DoAside(b, Emitted(BridgeError), e, c);
        }
      }
    }
  }

  lemma NothingComplete()
    ensures NoneComplete([])
  {
  }

  lemma BoundsHold(b: Sandbox, i: nat, j: nat)
    requires Relaying(b, i, j)
    ensures i <= |b.crushEvents| && j <= |b.commands|
  {
  }

  /** Announces the bridge before anything of the task is relayed or called. */
  ghost predicate ReadyFirst(log: seq<Action>) {
    RelayedEvents(log) != [] || Calls(log) != [] ==> ReadyCount(log) == 1
  }

  /** The bridge's whole life: prepare, assert the version, relay, stop. */
  method RunSandboxBridge(b: Sandbox) returns (failed: bool, ghost i: nat, ghost j: nat, ghost before: seq<Action>)
    requires b.log == []
    modifies b
    ensures Gated(b.log, b.vetted) && StoppedAfterStart(b.log)
    ensures ReadyCount(b.log) <= 1 && ReadyFirst(b.log)
    ensures !SameVersion(b.reported, b.vetted) ==> Quiet(b.log)
    ensures i <= |b.crushEvents| && RelayedEvents(b.log) == b.crushEvents[..i]
    ensures j <= |b.commands| && Calls(b.log) == CallsOf(b.commands[..j], b.replies)
    ensures NotComplete(b.log) || CompletedRight(b.log, before)
    ensures failed ==> LastWord(b.log) == Some(BridgeError)
  {
    NothingDone(b);
    hide Gated, Checked, Quiet, ReadyFirst, NotComplete, CompletedRight, Calls, RelayedEvents, ReadyCount, LastWord,
         CallsOf, SameVersion;
    i, j, before, failed := 0, 0, [], true;
    var ok := b.Do(WroteConfig);
    QuietMore([], WroteConfig);
    ghost var quiet := b.log;
    if ok { ok := b.goesWell(b.steps); }
    if !ok {
      b.Refuse();
      QuietMore(quiet, Emitted(BridgeError));
      QuietIsGated(b.log, b.vetted);
      return;
    }
    ok := b.Do(Started);
    QuietMore(quiet, Started);
    failed, i, j, before := RunStarted(b);
    ghost var was := b.log;
    ok := b.Do(Stopped);
    StaysGated(b, was, Stopped);
    StoppedAtLast(was);
  }

  lemma NothingDone(b: Sandbox)
    ensures Quiet([]) && b.crushEvents[..0] == [] && CallsOf(b.commands[..0], b.replies) == []
  {
  }

  lemma QuietMore(log: seq<Action>, a: Action)
    requires Quiet(log) && Aside(a)
    ensures Quiet(log + [a])
  {
    OneMore(log, a);
  }

  /** The stop that ends it all says, relays and calls nothing. */
  lemma StoppedAtLast(was: seq<Action>)
    ensures ReadyFirst(was) ==> ReadyFirst(was + [Stopped])
    ensures Quiet(was) ==> Quiet(was + [Stopped])
    ensures NotComplete(was) ==> NotComplete(was + [Stopped])
  {
    OneMore(was, Stopped);
  }

  /** Nothing has acted on a task, been relayed, or been announced. */
  ghost predicate Quiet(log: seq<Action>) {
    && Calls(log) == [] && RelayedEvents(log) == [] && ReadyCount(log) == 0
    && forall k :: 0 <= k < |log| ==> !ActsOnATask(log[k])
  }

  /** Waits for the server and asks its version; refuses anything but the pin. */
  method CheckVersion(b: Sandbox) returns (ok: bool)
    requires Quiet(b.log)
    modifies b
    ensures Quiet(b.log) && (ok ==> SameVersion(b.reported, b.vetted) && Checked(b.log, b.vetted))
    ensures !ok ==> LastWord(b.log) == Some(BridgeError)
  {
    ok := b.Do(CheckedReady);
    if !ok {
      b.Refuse();
      return;
    }
    ok := b.Do(GotVersion(b.reported));
    assert b.log[|b.log| - 1] == GotVersion(b.reported);
    if !ok || !SameVersion(b.reported, b.vetted) {
      b.Refuse();
      ok := false;
    }
  }

  lemma QuietIsGated(log: seq<Action>, want: string)
    requires Quiet(log)
    ensures Gated(log, want) && ReadyFirst(log) && NotComplete(log)
    ensures Calls(log) == [] && RelayedEvents(log) == [] && ReadyCount(log) == 0
  {
  }

  /** With the child running. */
  method RunStarted(b: Sandbox) returns (failed: bool, ghost i: nat, ghost j: nat, ghost before: seq<Action>)
    requires Quiet(b.log)
    modifies b
    ensures Gated(b.log, b.vetted) && ReadyCount(b.log) <= 1 && ReadyFirst(b.log)
    ensures !SameVersion(b.reported, b.vetted) ==> Quiet(b.log)
    ensures i <= |b.crushEvents| && RelayedEvents(b.log) == b.crushEvents[..i]
    ensures j <= |b.commands| && Calls(b.log) == CallsOf(b.commands[..j], b.replies)
    ensures NotComplete(b.log) || CompletedRight(b.log + [Stopped], before)
    ensures failed ==> LastWord(b.log) == Some(BridgeError)
  {
    hide *;
    i, j, before, failed := 0, 0, [], true;
    StartOfPrefix(b);
    var ok := CheckVersion(b);
    ghost var asked := b.log;
    QuietIsGated(asked, b.vetted);
    if !ok {
      return;
    }
    ok := CreateWorkspace(b);
    if !ok {
      NothingRelayed(b.log);
      return;
    }
    ghost var was := b.log;
    ok := b.Do(Emitted(BridgeReady(b.reported)));
    Announced(b, was);
    failed, i, j, before := Relay(b);
    RelayedSoFar(b, i, j);
  }

  /** The version is the pin's: a workspace, and its event stream. */
  method CreateWorkspace(b: Sandbox) returns (ok: bool)
    requires Quiet(b.log) && Gated(b.log, b.vetted) && Checked(b.log, b.vetted)
    modifies b
    ensures Gated(b.log, b.vetted) && Checked(b.log, b.vetted)
    ensures Calls(b.log) == [] && RelayedEvents(b.log) == [] && ReadyCount(b.log) == 0
    ensures !ok ==> LastWord(b.log) == Some(BridgeError)
  {
    hide Gated, Checked, Calls, RelayedEvents, ReadyCount, LastWord;
    ghost var asked := b.log;
    ok := b.Do(CreatedWorkspace);
    StaysGated(b, asked, CreatedWorkspace);
    ghost var made := b.log;
    if !ok {
      b.Refuse();
      StaysGated(b, made, Emitted(BridgeError));
      return;
    }
    ok := b.Do(OpenedEvents);
    StaysGated(b, made, OpenedEvents);
    ok := true;
  }

  lemma StartOfPrefix(b: Sandbox)
    ensures b.crushEvents[..0] == [] && CallsOf(b.commands[..0], b.replies) == []
  {
  }

  lemma Announced(b: Sandbox, was: seq<Action>)
    requires b.log == was + [Emitted(BridgeReady(b.reported))] && Gated(was, b.vetted) && Checked(was, b.vetted)
    requires Calls(was) == [] && RelayedEvents(was) == [] && ReadyCount(was) == 0
    ensures Relaying(b, 0, 0)
  {
    OneMore(was, Emitted(BridgeReady(b.reported)));
    StaysGated(b, was, Emitted(BridgeReady(b.reported)));
    StartOfPrefix(b);
  }

  lemma RelayedSoFar(b: Sandbox, i: nat, j: nat)
    requires Relaying(b, i, j)
    ensures Gated(b.log, b.vetted) && ReadyCount(b.log) == 1 && ReadyFirst(b.log)
    ensures i <= |b.crushEvents| && RelayedEvents(b.log) == b.crushEvents[..i]
    ensures j <= |b.commands| && Calls(b.log) == CallsOf(b.commands[..j], b.replies)
  {
  }

  lemma NothingRelayed(log: seq<Action>)
    requires RelayedEvents(log) == [] && Calls(log) == []
    ensures NotComplete(log) && ReadyFirst(log)
  {
  }
}
