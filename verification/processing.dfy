/** `AgentLoop._process_message` (nanobot/agent/loop.py): routing of one
    inbound message through the system-channel path, the `/new` and `/help`
    commands, the per-session consolidation guard, one run of the agent
    loop, and the recording of the turn in the session. */
module Processing {
  import opened Common
  import opened Registry
  import opened Context
  import opened AgentLoop

  /** One entry of a session's stored history. */
  datatype Entry = Entry(role: string, content: string, toolsUsed: Option<seq<string>>)

  /** An inbound bus message. `sessionKey` is the message's own
      `session_key`; metadata values are kept as text. */
  datatype Inbound = Inbound(
    channel: string,
    senderId: string,
    chatId: string,
    content: string,
    media: seq<string>,
    metadata: map<string, string>,
    sessionKey: string)

  datatype Outbound = Outbound(channel: string, chatId: string, content: string, metadata: map<string, string>)

  /** A background consolidation task: the archive of a session cleared by
      `/new` (working on a copy of its messages), or a windowed consolidation
      of a live session, which holds the guard for its key. */
  datatype Job = Archive(key: string, messages: seq<Entry>) | Window(key: string)

  /** What persists between messages: the session store, the set of session
      keys with a windowed consolidation in flight (`_consolidating`), and the
      spawned tasks that have not finished. */
  datatype Runtime = Runtime(sessions: map<string, seq<Entry>>, consolidating: set<string>, jobs: seq<Job>)

  /** The loop's settings and collaborators: the provider, the registry, the
      system prompt, `session.get_history`, the clock and the media lookup. */
  datatype Config = Config(
    maxIterations: int,
    memoryWindow: int,
    reg: ToolTable,
    chat: Chat,
    systemPrompt: string,
    history: (seq<Entry>, int) -> seq<Message>,
    now: string,
    tz: string,
    media: string -> MediaFile)

  /** The result of processing one message: the reply (if any), progress
      notices published on the bus, progress notices handed to a caller's
      callback, the number of provider calls, and the new runtime. */
  datatype Outcome = Outcome(
    reply: Option<Outbound>,
    published: seq<Outbound>,
    toCaller: seq<string>,
    providerCalls: nat,
    rt: Runtime)

  const NewSessionText: string := "New session started. Memory consolidation in progress."
  /** The `/help` text exactly as loop.py:356 spells it. The literal is
      UTF-8 text that was once decoded as Windows-1252 and saved again, so
      the emoji and the dashes appear as mojibake; the emoji's fourth byte
      did not survive, so the text cannot be decoded back. */
  const HelpText: string :=
    "\U{F0}\U{178}\U{2C6} nanobot commands:\n/new \U{E2}\U{20AC}\U{201D} Start a new conversation\n/help \U{E2}\U{20AC}\U{201D} Show available commands"
  const FallbackText: string := "I've completed processing but have no response to give."
  const BackgroundDoneText: string := "Background task completed."

  /** `sessions.get_or_create(key).messages`: a new session is empty. */
  function SessionOf(rt: Runtime, key: string): seq<Entry> {
    if key in rt.sessions then rt.sessions[key] else []
  }

  /** Python's `a or b` on an optional string: an absent or empty `a` gives `b`. */
  function OrElse(a: Option<string>, b: string): (r: string)
    ensures a.Some? && a.value != "" ==> r == a.value
    ensures a.None? || a.value == "" ==> r == b
  {
    if a.Some? && a.value != "" then a.value else b
  }

  // ---------------------------------------------------------------------
  // The system channel: `chat_id` carries the origin "channel:chat_id".
  // ---------------------------------------------------------------------

  datatype Origin = Origin(channel: string, chatId: string)

  /** The position of the first `c` in `s`. */
  function IndexOfChar(s: string, c: char): (r: Option<nat>)
    ensures r.Some? ==> r.value < |s| && s[r.value] == c && c !in s[..r.value]
    ensures r.None? ==> c !in s
  {
    if s == [] then None
    else if s[0] == c then Some(0)
    else match IndexOfChar(s[1..], c)
      case None => None
      case Some(i) => assert s[..i + 1] == [s[0]] + s[1..][..i]; Some(i + 1)
  }

  /** `chat_id.split(":", 1)` when the id holds a colon, else `("cli", chat_id)`. */
  function SystemOrigin(chatId: string): (r: Origin)
    ensures ':' !in r.channel
  {
    match IndexOfChar(chatId, ':')
    case Some(i) => Origin(chatId[..i], chatId[i + 1..])
    case None => Origin("cli", chatId)
  }

  function OriginKey(o: Origin): string {
    o.channel + ":" + o.chatId
  }

  /** The session key built from the origin is the `chat_id` itself when it
      names a channel, and the id under the `cli` channel otherwise. */
  lemma SystemOriginKey(chatId: string)
    ensures ':' in chatId ==> OriginKey(SystemOrigin(chatId)) == chatId
    ensures ':' !in chatId ==> SystemOrigin(chatId) == Origin("cli", chatId)
  {
    match IndexOfChar(chatId, ':')
    case Some(i) => assert chatId == chatId[..i] + [':'] + chatId[i + 1..];
    case None =>
  }

  /** The split undoes the key: a colon-free channel and any id come back
      from `channel:id`, even when the id itself holds colons. */
  lemma SystemOriginOfKey(o: Origin)
    requires ':' !in o.channel
    ensures SystemOrigin(OriginKey(o)) == o
  {
    var s := OriginKey(o);
    IndexOfCharPrefix(o.channel, ':', o.chatId);
    assert s[..|o.channel|] == o.channel;
    assert s[|o.channel| + 1..] == o.chatId;
  }

  lemma {:induction false} IndexOfCharPrefix(a: string, c: char, b: string)
    requires c !in a
    ensures IndexOfChar(a + [c] + b, c) == Some(|a|)
  {
    if a != [] {
      assert (a + [c] + b)[1..] == a[1..] + [c] + b;
      IndexOfCharPrefix(a[1..], c, b);
    }
  }

  // ---------------------------------------------------------------------
  // The consolidation guard.
  // ---------------------------------------------------------------------

  /** How many windowed consolidations for `key` are in flight. */
  function WindowCount(jobs: seq<Job>, key: string): nat {
    if jobs == [] then 0
    else (if jobs[0] == Window(key) then 1 else 0) + WindowCount(jobs[1..], key)
  }

  /** The guard's invariant: a key is in `_consolidating` exactly while one
      windowed consolidation for it is in flight, and never two. */
  ghost predicate GuardHeld(rt: Runtime) {
    forall k :: WindowCount(rt.jobs, k) == if k in rt.consolidating then 1 else 0
  }

  lemma {:induction false} WindowCountConcat(a: seq<Job>, b: seq<Job>, key: string)
    ensures WindowCount(a + b, key) == WindowCount(a, key) + WindowCount(b, key)
  {
    if a != [] {
      assert (a + b)[0] == a[0] && (a + b)[1..] == a[1..] + b;
      WindowCountConcat(a[1..], b, key);
    } else {
      assert a + b == b;
    }
  }

  /** Lines 358-365: when the session outgrows the window and no
      consolidation holds its key, the key is taken and a windowed task is
      spawned; otherwise nothing happens. */
  function TryConsolidate(rt: Runtime, key: string, size: int, window: int): (r: Runtime)
    ensures r.sessions == rt.sessions
    ensures size > window && key !in rt.consolidating ==>
      r.consolidating == rt.consolidating + {key} && r.jobs == rt.jobs + [Window(key)]
    ensures !(size > window && key !in rt.consolidating) ==> r == rt
  {
    if size > window && key !in rt.consolidating then
      rt.(consolidating := rt.consolidating + {key}, jobs := rt.jobs + [Window(key)])
    else rt
  }

  /** The end of a spawned task. A windowed consolidation releases its key in
      its `finally`, whether or not the consolidation succeeded. */
  function FinishJob(rt: Runtime, i: nat): (r: Runtime)
    requires i < |rt.jobs|
    ensures r.sessions == rt.sessions
    ensures |r.jobs| == |rt.jobs| - 1
    ensures rt.jobs[i].Window? ==> rt.jobs[i].key !in r.consolidating
    ensures r.jobs == rt.jobs[..i] + rt.jobs[i + 1..]
    ensures r.consolidating == if rt.jobs[i].Window? then rt.consolidating - {rt.jobs[i].key} else rt.consolidating
  {
    var rest := rt.jobs[..i] + rt.jobs[i + 1..];
    match rt.jobs[i]
    case Window(k) => rt.(consolidating := rt.consolidating - {k}, jobs := rest)
    case Archive(_, _) => rt.(jobs := rest)
  }

  /** Taking the guard keeps at most one windowed consolidation per key in
      flight. */
  lemma TryConsolidateKeepsGuard(rt: Runtime, key: string, size: int, window: int)
    requires GuardHeld(rt)
    ensures GuardHeld(TryConsolidate(rt, key, size, window))
  {
    var r := TryConsolidate(rt, key, size, window);
    if size > window && key !in rt.consolidating {
      forall k ensures WindowCount(r.jobs, k) == if k in r.consolidating then 1 else 0 {
        WindowCountConcat(rt.jobs, [Window(key)], k);
        assert WindowCount([Window(key)], k) == if k == key then 1 else 0 by {
          assert [Window(key)][1..] == [];
        }
      }
    }
  }

  /** Releasing the guard in `finally` keeps the invariant, so the key can be
      taken again only after its task has ended. */
  lemma FinishJobKeepsGuard(rt: Runtime, i: nat)
    requires GuardHeld(rt) && i < |rt.jobs|
    ensures GuardHeld(FinishJob(rt, i))
  {
    var r := FinishJob(rt, i);
    var j := rt.jobs[i];
    assert rt.jobs == rt.jobs[..i] + [j] + rt.jobs[i + 1..];
    forall k ensures WindowCount(r.jobs, k) == if k in r.consolidating then 1 else 0 {
      WindowCountConcat(rt.jobs[..i] + [j], rt.jobs[i + 1..], k);
      WindowCountConcat(rt.jobs[..i], [j], k);
      WindowCountConcat(rt.jobs[..i], rt.jobs[i + 1..], k);
      assert WindowCount([j], k) == if j == Window(k) then 1 else 0 by {
        assert [j][1..] == [];
      }
    }
  }

  /** While the guard holds, no key has two windowed consolidations in
      flight, and a second trigger for a held key spawns nothing. */
  lemma GuardAtMostOne(rt: Runtime, key: string, size: int, window: int)
    requires GuardHeld(rt)
    ensures WindowCount(rt.jobs, key) <= 1
    ensures key in rt.consolidating ==> TryConsolidate(rt, key, size, window) == rt
  {
  }

  // ---------------------------------------------------------------------
  // `_process_message`.
  // ---------------------------------------------------------------------

  /** The notices `_bus_progress` publishes: the message's metadata with the
      `_progress` flag set. */
  function ProgressNotices(msg: Inbound, texts: seq<string>): (r: seq<Outbound>)
    ensures |r| == |texts|
    ensures forall i :: 0 <= i < |texts| ==>
      r[i] == Outbound(msg.channel, msg.chatId, texts[i], msg.metadata["_progress" := "True"])
  {
    seq(|texts|, i requires 0 <= i < |texts| => Outbound(msg.channel, msg.chatId, texts[i], msg.metadata["_progress" := "True"]))
  }

  function MediaFiles(cfg: Config, paths: seq<string>): (r: seq<MediaFile>)
    ensures |r| == |paths|
  {
    seq(|paths|, i requires 0 <= i < |paths| => cfg.media(paths[i]))
  }

  /** The message list of an ordinary turn: history from the session,
      runtime block for the message's own channel, text with its media. */
  function ChatInitial(cfg: Config, rt: Runtime, msg: Inbound, key: string): seq<Message> {
    BuildMessages(
      cfg.systemPrompt, cfg.history(SessionOf(rt, key), cfg.memoryWindow),
      BuildRuntimeContext(Some(msg.channel), Some(msg.chatId), cfg.now, cfg.tz),
      BuildUserContent(msg.content, MediaFiles(cfg, msg.media)))
  }

  /** The loop run of an ordinary turn; progress always has a sink. */
  function ChatRun(cfg: Config, rt: Runtime, msg: Inbound, key: string): LoopResult {
    RunAgentLoop(cfg.maxIterations, cfg.reg, cfg.chat, ChatInitial(cfg, rt, msg, key), true)
  }

  /** The lines after the slash-command checks: the guard step, the message
      list, one loop run with progress routed to the caller's callback or to
      the bus, the turn appended to the session, and the reply unless the
      message tool already sent one in this turn. */
  function ChatTurn(cfg: Config, rt: Runtime, msg: Inbound, key: string, callerProgress: bool,
                    sentInTurn: bool): (o: Outcome)
    ensures var t := TryConsolidate(rt, key, |SessionOf(rt, key)|, cfg.memoryWindow);
            o.rt.consolidating == t.consolidating && o.rt.jobs == t.jobs
    ensures o.providerCalls <= Max(0, cfg.maxIterations)
  {
    var session := SessionOf(rt, key);
    var rt1 := TryConsolidate(rt, key, |session|, cfg.memoryWindow);
    var run := ChatRun(cfg, rt, msg, key);
    var final := run.final.GetOr(FallbackText);
    var turn := [Entry("user", msg.content, None),
                 Entry("assistant", final, if run.toolsUsed != [] then Some(run.toolsUsed) else None)];
    Outcome(
      if sentInTurn then None else Some(Outbound(msg.channel, msg.chatId, final, msg.metadata)),
      if callerProgress then [] else ProgressNotices(msg, run.progress),
      if callerProgress then run.progress else [],
      |run.responses|,
      rt1.(sessions := rt1.sessions[key := session + turn]))
  }

  /** The loop run of a system message: history and runtime block of the
      origin, plain text, and no progress callback. */
  function SystemRun(cfg: Config, rt: Runtime, msg: Inbound): LoopResult {
    var origin := SystemOrigin(msg.chatId);
    var initial := BuildMessages(
      cfg.systemPrompt, cfg.history(SessionOf(rt, OriginKey(origin)), cfg.memoryWindow),
      BuildRuntimeContext(Some(origin.channel), Some(origin.chatId), cfg.now, cfg.tz),
      BuildUserContent(msg.content, []));
    RunAgentLoop(cfg.maxIterations, cfg.reg, cfg.chat, initial, false)
  }

  /** Lines 317-332: a system message answers its origin, under the origin's
      session key, without progress notices. */
  function SystemTurn(cfg: Config, rt: Runtime, msg: Inbound): (o: Outcome)
    ensures o.rt.consolidating == rt.consolidating && o.rt.jobs == rt.jobs
    ensures o.providerCalls <= Max(0, cfg.maxIterations)
  {
    var origin := SystemOrigin(msg.chatId);
    var key := OriginKey(origin);
    var session := SessionOf(rt, key);
    var run := SystemRun(cfg, rt, msg);
    var text := OrElse(run.final, BackgroundDoneText);
    var turn := [Entry("user", "[System: " + msg.senderId + "] " + msg.content, None),
                 Entry("assistant", text, None)];
    Outcome(Some(Outbound(origin.channel, origin.chatId, text, map[])), [], [], |run.responses|,
            rt.(sessions := rt.sessions[key := session + turn]))
  }

  /** `/new`: the session's messages are copied for the archive task, then
      the live session is cleared and saved. */
  function NewSession(rt: Runtime, msg: Inbound, key: string): (o: Outcome)
  {
    var archived := SessionOf(rt, key);
    Outcome(Some(Outbound(msg.channel, msg.chatId, NewSessionText, map[])), [], [], 0,
            rt.(sessions := rt.sessions[key := []], jobs := rt.jobs + [Archive(key, archived)]))
  }

  /** The session key of a non-system message: a non-empty override wins. */
  function KeyFor(msg: Inbound, sessionKey: Option<string>): string {
    if sessionKey.Some? && sessionKey.value != "" then sessionKey.value else msg.sessionKey
  }

  /** The command a message names, compared after `strip().lower()`. */
  function Command(content: string): string {
    Lower(Strip(content))
  }

  /** `_process_message(msg, session_key, on_progress)`. `callerProgress` says
      whether an `on_progress` callback was passed; `sentInTurn` is the
      message tool's `_sent_in_turn` after the loop. */
  function ProcessMessage(cfg: Config, rt: Runtime, msg: Inbound, sessionKey: Option<string>,
                          callerProgress: bool, sentInTurn: bool): (o: Outcome)
    ensures o.providerCalls <= Max(0, cfg.maxIterations)
  {
    if msg.channel == "system" then SystemTurn(cfg, rt, msg)
    else UserTurn(cfg, rt, msg, KeyFor(msg, sessionKey), Command(msg.content), callerProgress, sentInTurn)
  }

  /** A message from a user channel, routed on its command `cmd`. */
  function UserTurn(cfg: Config, rt: Runtime, msg: Inbound, key: string, cmd: string,
                    callerProgress: bool, sentInTurn: bool): (o: Outcome)
    ensures o.providerCalls <= Max(0, cfg.maxIterations)
  {
    if cmd == "/new" then NewSession(rt, msg, key)
    else if cmd == "/help" then
      Outcome(Some(Outbound(msg.channel, msg.chatId, HelpText, map[])), [], [], 0, rt)
    else ChatTurn(cfg, rt, msg, key, callerProgress, sentInTurn)
  }

  /** An ordinary message: neither on the system channel nor a command. */
  predicate Ordinary(msg: Inbound) {
    msg.channel != "system" && Command(msg.content) != "/new" && Command(msg.content) != "/help"
  }

  /** `/new` and `/help` answer at once: no provider call, no progress, and
      the guard untouched; `/help` changes nothing at all. */
  lemma CommandsSkipProvider(cfg: Config, rt: Runtime, msg: Inbound, sessionKey: Option<string>,
                             callerProgress: bool, sentInTurn: bool)
    requires msg.channel != "system"
    requires Command(msg.content) == "/new" || Command(msg.content) == "/help"
    ensures var o := ProcessMessage(cfg, rt, msg, sessionKey, callerProgress, sentInTurn);
            && o.providerCalls == 0 && o.published == [] && o.toCaller == []
            && o.rt.consolidating == rt.consolidating
            && o.reply.Some? && o.reply.value.channel == msg.channel && o.reply.value.chatId == msg.chatId
            && (Command(msg.content) == "/help" ==> o.rt == rt && o.reply.value.content == HelpText)
  {
  }

  /** `/new` archives a copy of the messages taken before the clear, leaves
      the live session empty, and touches no other session. */
  lemma NewSessionArchivesCopy(cfg: Config, rt: Runtime, msg: Inbound, sessionKey: Option<string>,
                               callerProgress: bool, sentInTurn: bool)
    requires msg.channel != "system" && Command(msg.content) == "/new"
    ensures var o := ProcessMessage(cfg, rt, msg, sessionKey, callerProgress, sentInTurn);
            var key := KeyFor(msg, sessionKey);
            && SessionOf(o.rt, key) == []
            && (forall k :: k != key ==> SessionOf(o.rt, k) == SessionOf(rt, k))
            && o.rt.jobs == rt.jobs + [Archive(key, SessionOf(rt, key))]
            && o.reply.value.content == NewSessionText
  {
    var key := KeyFor(msg, sessionKey);
    ProcessNew(cfg, rt, msg, sessionKey, callerProgress, sentInTurn);
    NewSessionClears(rt, msg, key);
  }

  /** The `/new` branch of `_process_message`. */
  lemma ProcessNew(cfg: Config, rt: Runtime, msg: Inbound, sessionKey: Option<string>,
                   callerProgress: bool, sentInTurn: bool)
    requires msg.channel != "system" && Command(msg.content) == "/new"
    ensures ProcessMessage(cfg, rt, msg, sessionKey, callerProgress, sentInTurn)
            == NewSession(rt, msg, KeyFor(msg, sessionKey))
  {
  }

  lemma NewSessionClears(rt: Runtime, msg: Inbound, key: string)
    ensures var o := NewSession(rt, msg, key);
            && SessionOf(o.rt, key) == []
            && (forall k :: k != key ==> SessionOf(o.rt, k) == SessionOf(rt, k))
            && o.rt.jobs == rt.jobs + [Archive(key, SessionOf(rt, key))]
            && o.reply.value.content == NewSessionText
  {
  }

  /** Every path keeps the guard's invariant. */
  lemma ProcessKeepsGuard(cfg: Config, rt: Runtime, msg: Inbound, sessionKey: Option<string>,
                          callerProgress: bool, sentInTurn: bool)
    requires GuardHeld(rt)
    ensures GuardHeld(ProcessMessage(cfg, rt, msg, sessionKey, callerProgress, sentInTurn).rt)
  {
    var o := ProcessMessage(cfg, rt, msg, sessionKey, callerProgress, sentInTurn);
    var key := KeyFor(msg, sessionKey);
    var g := GuardStep(cfg, rt, msg, key);
    assert o.rt.jobs == g.jobs && o.rt.consolidating == g.consolidating by {
      WindowedTrigger(cfg, rt, msg, sessionKey, callerProgress, sentInTurn);
    }
    GuardStepKeepsGuard(cfg, rt, msg, key);
    GuardFrame(g, o.rt);
  }

  /** The tasks and held keys after a message, apart from the sessions. */
  function GuardStep(cfg: Config, rt: Runtime, msg: Inbound, key: string): Runtime {
    if msg.channel == "system" || Command(msg.content) == "/help" then rt
    else if Command(msg.content) == "/new" then rt.(jobs := rt.jobs + [Archive(key, SessionOf(rt, key))])
    else TryConsolidate(rt, key, |SessionOf(rt, key)|, cfg.memoryWindow)
  }

  lemma GuardStepKeepsGuard(cfg: Config, rt: Runtime, msg: Inbound, key: string)
    requires GuardHeld(rt)
    ensures GuardHeld(GuardStep(cfg, rt, msg, key))
  {
    if msg.channel != "system" && Command(msg.content) == "/new" {
      ArchiveKeepsGuard(rt, key, SessionOf(rt, key));
    } else if msg.channel != "system" && Command(msg.content) != "/help" {
      TryConsolidateKeepsGuard(rt, key, |SessionOf(rt, key)|, cfg.memoryWindow);
    }
  }

  /** Spawning an archive task neither takes nor needs the guard. */
  lemma ArchiveKeepsGuard(rt: Runtime, key: string, messages: seq<Entry>)
    requires GuardHeld(rt)
    ensures GuardHeld(rt.(jobs := rt.jobs + [Archive(key, messages)]))
  {
    var job := Archive(key, messages);
    forall k ensures WindowCount(rt.jobs + [job], k) == if k in rt.consolidating then 1 else 0 {
      WindowCountConcat(rt.jobs, [job], k);
      assert [job][1..] == [];
    }
  }

  /** The guard depends on the tasks and the held keys only. */
  lemma GuardFrame(a: Runtime, b: Runtime)
    requires GuardHeld(a) && a.jobs == b.jobs && a.consolidating == b.consolidating
    ensures GuardHeld(b)
  {
  }

  /** A windowed consolidation is spawned exactly for an ordinary message
      whose session is longer than the window and whose key is free. */
  lemma WindowedTrigger(cfg: Config, rt: Runtime, msg: Inbound, sessionKey: Option<string>,
                        callerProgress: bool, sentInTurn: bool)
    ensures var o := ProcessMessage(cfg, rt, msg, sessionKey, callerProgress, sentInTurn);
            var key := KeyFor(msg, sessionKey);
            var fire := Ordinary(msg) && |SessionOf(rt, key)| > cfg.memoryWindow && key !in rt.consolidating;
            && o.rt.consolidating == (if fire then rt.consolidating + {key} else rt.consolidating)
            && (fire ==> o.rt.jobs == rt.jobs + [Window(key)])
            && (Ordinary(msg) && !fire ==> o.rt.jobs == rt.jobs)
            && o.rt.jobs == GuardStep(cfg, rt, msg, key).jobs
            && o.rt.consolidating == GuardStep(cfg, rt, msg, key).consolidating
  {
  }

  /** An ordinary turn stores the user's text and the answer, or the
      fallback text when the loop produced none, and replies with the same
      text unless the message tool already answered. */
  lemma ChatTurnRecords(cfg: Config, rt: Runtime, msg: Inbound, sessionKey: Option<string>,
                        callerProgress: bool, sentInTurn: bool)
    requires Ordinary(msg)
    ensures var o := ProcessMessage(cfg, rt, msg, sessionKey, callerProgress, sentInTurn);
            var key := KeyFor(msg, sessionKey);
            var run := ChatRun(cfg, rt, msg, key);
            var answer := if run.final.Some? then run.final.value else FallbackText;
            && SessionOf(o.rt, key) == SessionOf(rt, key) + [
                 Entry("user", msg.content, None),
                 Entry("assistant", answer, if run.toolsUsed == [] then None else Some(run.toolsUsed))]
            && (sentInTurn <==> o.reply.None?)
            && (!sentInTurn ==> o.reply == Some(Outbound(msg.channel, msg.chatId, answer, msg.metadata)))
            && o.providerCalls == |run.responses|
  {
  }

  /** When the provider never stops asking for tools, the turn ends with the
      fallback text. */
  lemma ExhaustedTurnFallsBack(cfg: Config, rt: Runtime, msg: Inbound, sessionKey: Option<string>,
                               callerProgress: bool)
    requires Ordinary(msg)
    requires forall m, d :: HasToolCalls(cfg.chat(m, d))
    ensures var o := ProcessMessage(cfg, rt, msg, sessionKey, callerProgress, false);
            && o.reply.Some? && o.reply.value.content == FallbackText
            && o.providerCalls == Max(0, cfg.maxIterations)
  {
    var key := KeyFor(msg, sessionKey);
    AlwaysCallingExhausts(cfg.maxIterations, cfg.reg, cfg.chat, ChatInitial(cfg, rt, msg, key), true);
  }

  /** Progress of an ordinary turn goes to the caller's callback when there
      is one and to the bus otherwise, once per tool-call iteration, with the
      `_progress` flag on the bus copies. */
  lemma ProgressRouting(cfg: Config, rt: Runtime, msg: Inbound, sessionKey: Option<string>,
                        callerProgress: bool, sentInTurn: bool)
    requires Ordinary(msg)
    ensures var o := ProcessMessage(cfg, rt, msg, sessionKey, callerProgress, sentInTurn);
            var run := ChatRun(cfg, rt, msg, KeyFor(msg, sessionKey));
            var n := |Dispatching(run, 0)|;
            && (callerProgress ==> o.published == [] && |o.toCaller| == n && o.toCaller == run.progress)
            && (!callerProgress ==>
                  && o.toCaller == [] && |o.published| == n
                  && forall i :: 0 <= i < n ==>
                       o.published[i].channel == msg.channel && o.published[i].chatId == msg.chatId
                       && o.published[i].metadata == msg.metadata["_progress" := "True"]
                       && o.published[i].content == run.progress[i])
  {
    var key := KeyFor(msg, sessionKey);
    RunAgentLoopProgress(cfg.maxIterations, cfg.reg, cfg.chat, ChatInitial(cfg, rt, msg, key), true);
  }

  /** A system message answers its origin under the origin's session key,
      runs the provider even when its text looks like a command, publishes
      no progress and leaves the guard alone. */
  lemma SystemRouting(cfg: Config, rt: Runtime, msg: Inbound, sessionKey: Option<string>,
                      callerProgress: bool, sentInTurn: bool)
    requires msg.channel == "system"
    ensures var o := ProcessMessage(cfg, rt, msg, sessionKey, callerProgress, sentInTurn);
            var origin := SystemOrigin(msg.chatId);
            var text := OrElse(SystemRun(cfg, rt, msg).final, BackgroundDoneText);
            && o.reply.Some?
            && o.reply.value.channel == origin.channel && o.reply.value.chatId == origin.chatId
            && o.reply.value.content != ""
            && |SessionOf(o.rt, OriginKey(origin))| == |SessionOf(rt, OriginKey(origin))| + 2
            && o.reply == Some(Outbound(origin.channel, origin.chatId, text, map[]))
            && SessionOf(o.rt, OriginKey(origin))
               == SessionOf(rt, OriginKey(origin))
                  + [Entry("user", "[System: " + msg.senderId + "] " + msg.content, None),
                     Entry("assistant", text, None)]
            && o.published == [] && o.toCaller == []
            && o.rt.consolidating == rt.consolidating && o.rt.jobs == rt.jobs
            && (cfg.maxIterations >= 1 ==> o.providerCalls >= 1)
  {
  }
}
