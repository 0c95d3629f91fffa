# nanobot agent runtime — a Dafny model

This project models the deterministic core of the nanobot agent runtime:

- **Agent loop** (`nanobot/agent/loop.py`). This covers:
  - the bounded call-and-dispatch loop `_run_agent_loop`;
  - the `<think>` filter `_strip_think`;
  - message processing: the system-channel route, the `/new` and `/help`
    commands, the per-session consolidation guard and the fallback reply;
  - the lazy MCP connector flags of `_connect_mcp` and `close_mcp`.
- **Tool registry** (`nanobot/agent/tools/registry.py`). It is an
  insertion-ordered table of tools. Its `execute` turns an unknown name, a
  validation failure or a raising tool body into error text.
- **Context builder** (`nanobot/agent/context.py`). This covers the system
  prompt, the bootstrap files, the runtime block, the user content and the
  message-list helpers.
- **Skill scripts**:
  - `validate_skill`, the frontmatter validator;
  - the skill scaffolder: `title_case_skill_name`, the `main` argument check
    and the refusal to overwrite an existing directory;
  - the GitHub Trending report: `build_url`, `format_output` and the period
    flags of `main`.

Everything is written as immutable datatypes and pure functions. Some
collaborators are parameters:

- The language-model provider is a function from the message list and the
  tool schemas to a response.
- A tool's validator and body are functions. The body returns `Ok(text)` or
  `Raise(message)`.
- `yaml.safe_load` is a function that returns a mapping, a non-mapping or an
  error.
- The clock, the time zone, the workspace files, MIME guessing and base64
  are plain inputs.

The loop is a recursion bounded by `max_iterations`. Its result also records
the responses it received, the progress notices it sent and the message list
it grew, so that ordering and bounds can be stated. The session store, the
set `_consolidating` and the spawned background tasks form one `Runtime`
record. The MCP connector is a record of three flags.

Modules, one per file: `Common` (Option and the Python string operations
used), `Registry`, `Context`, `Think`, `AgentLoop`, `Processing`, `Mcp`,
`QuickValidate`, `InitSkill`, `Trending`.

Notes on the code as written:

- `registry.py` does not compile as written. Line 71 is indented deeper
  than the `return` on line 70, so Python raises `IndentationError` when
  the module is loaded. The model takes lines 45-70 as the body of
  `execute` and ignores the stray lines 71-77. Those lines would append a
  retry hint to error text, so the modelled `execute` never adds that hint.
- `close_mcp` only swallows `RuntimeError` and `BaseExceptionGroup`. Any
  other exception from `aclose()` propagates and leaves `_mcp_stack` set.
- The archive task started by `/new` does not take the consolidation
  guard. It works on a copy of the messages, so the guard's
  "at most one per key" invariant is about windowed consolidations only.
- The loop's marker strings are modelled by their decoded UTF-8 text. They
  are opaque constants to every property. The `/help` text is the
  exception: its literal at loop.py:356 is mojibake (UTF-8 read as
  Windows-1252), starting with U+00F0 U+0178 U+02C6 where an emoji was
  meant, with U+00E2 U+20AC U+201D for each dash. The emoji lost a byte, so the literal
  cannot be decoded back. `HelpText` therefore holds the literal's code
  points as written, and that is what `/help` replies with.

## Model

| member | source | states |
|---|---|---|
| Registry.Register | nanobot/agent/tools/registry.py:21-23 | after `register(t)`, `get(t.name)` is `t` and every other name is unchanged; a new name is appended to `tool_names`, while re-registering keeps the name's position; names stay distinct |
| Registry.Unregister | nanobot/agent/tools/registry.py:25-27 | the name is absent afterwards and all other lookups are unchanged; an absent name leaves the registry equal; the size drops by one exactly when the name was present; `tool_names` becomes the old list with that name removed, the others in their order |
| Registry.Get | nanobot/agent/tools/registry.py:29-35 | a lookup succeeds exactly when the name is in `tool_names` (so `has` and `in` agree with `tool_names`), and it returns the entry with that name |
| Registry.SizeIsDistinctNames | nanobot/agent/tools/registry.py:84-85 | `len` equals the number of distinct registered names |
| Registry.Definitions | nanobot/agent/tools/registry.py:37-39 | one schema per registered tool, in `tool_names` order |
| Registry.Execute | nanobot/agent/tools/registry.py:45-70 | an unknown name gives `Error: Tool '<name>' not found` and runs nothing; any validation error gives the invalid-parameters text with all errors joined by `; ` and the body never runs; the body runs exactly when the name is known and validation is empty |
| Registry.Run | nanobot/agent/tools/registry.py:58-70 | a body's returned text passes through unchanged; a raise becomes `Error executing <name>: <msg>` |
| Registry.ExecuteErrorClassification | nanobot/agent/tools/registry.py:45-70 | the result starts with `Error` exactly when the name is unknown, validation failed, the body raised or the body itself returned error text |
| Registry.ExecuteAfterRegister | nanobot/agent/tools/registry.py:41-70 | executing a just-registered tool runs that tool exactly when its validation passes, and returns its body's result |
| Registry.ExecuteAfterUnregister | nanobot/agent/tools/registry.py:45-48 | after `unregister(n)`, executing `n` reports not found and runs nothing |
| Think.StripThink | nanobot/agent/loop.py:153-158 | a present result is the non-empty trimmed text after block removal |
| Think.StripThinkSpec | nanobot/agent/loop.py:153-158 | the result is None exactly for a None input, an empty input, or a text that is blank after removal; a present result has no surrounding whitespace |
| Think.FirstBlockRemoved | nanobot/agent/loop.py:158 | text before the first `<think>` is kept, the shortest block up to the first following `</think>` is removed, and scanning resumes after it |
| Think.KeepsUntil | nanobot/agent/loop.py:158 | up to the next opening tag, the scan copies the text unchanged |
| Think.UnclosedUnchanged | nanobot/agent/loop.py:158 | an opening tag with no closing tag after it, and everything after it, is left unmodified |
| Think.TagFreeUnchanged | nanobot/agent/loop.py:158 | text without `<think>` is not changed by the removal |
| Think.StripThinkTagFree | nanobot/agent/loop.py:156-158 | on tag-free text, `_strip_think` is plain trimming, with None for blank text |
| Think.OnlyThinkBlockIsNone | nanobot/agent/loop.py:156-158 | a reply consisting of a single reasoning block whose body holds no closing tag yields None |
| AgentLoop.RunAgentLoop | nanobot/agent/loop.py:170-260 | at most `max_iterations` provider calls; a stop is caused by a response without tool calls; without a stop the result is None after exactly `max_iterations` calls |
| AgentLoop.Iterate | nanobot/agent/loop.py:181-258 | from any state: earlier responses are kept, a stopping response is the last one and its content is the rendered answer, and a non-stopping run reaches the cap with no answer |
| AgentLoop.RunAgentLoopAnswer | nanobot/agent/loop.py:252-258 | the final content is the stripped content of the response that ended the loop, marked with its iteration number after the first iteration |
| AgentLoop.FinalContentShape | nanobot/agent/loop.py:254-257 | for `FinalContent`: at iteration 1 the answer is the stripped content; later it starts with the final marker, the number and a blank line, a None body reads `None`, and a present body ends the text |
| AgentLoop.RunAgentLoopDispatch | nanobot/agent/loop.py:204-246 | every response before the last carried tool calls; `tools_used` is the in-order concatenation of their call names; the message list is the initial one followed by each iteration's block |
| AgentLoop.Step | nanobot/agent/loop.py:228-246 | a tool-call iteration appends one assistant message carrying the calls, then one tool message per call |
| AgentLoop.DispatchCalls | nanobot/agent/loop.py:234-246 | the per-call `add_tool_result` loop appends exactly the tool messages of the calls, in order |
| AgentLoop.ToolMessagesInOrder | nanobot/agent/loop.py:234-246 | the `j`-th tool message carries the `j`-th call's id and name and the registry's text with every line break removed |
| AgentLoop.CallNamesInOrder | nanobot/agent/loop.py:234-235 | the names recorded in one iteration are the call names in call order |
| AgentLoop.CallLinesInOrder | nanobot/agent/loop.py:242-243 | the progress line of the `j`-th call is the tool marker, that call's name, ` - ` and the preview of the registry's result for it |
| AgentLoop.Preview | nanobot/agent/loop.py:242 | results of at most 200 characters are shown whole; longer ones are cut to their first 50 characters plus `...` |
| AgentLoop.ProgressTextShape | nanobot/agent/loop.py:204-206 | each progress notice opens with the iteration marker and number |
| AgentLoop.RunAgentLoopProgress | nanobot/agent/loop.py:204-251 | with a sink, exactly one notice per tool-call iteration, numbered from 1, and none for the terminal response; without a sink, none |
| AgentLoop.RunAgentLoopAsks | nanobot/agent/loop.py:189-195 | each response answers the messages accumulated before it, sent with the registry's definitions |
| AgentLoop.AlwaysCallingExhausts | nanobot/agent/loop.py:181-182 | a provider that always returns tool calls gets exactly `max_iterations` calls, and the loop returns no content |
| AgentLoop.CapOfThreeScenario | nanobot/agent/loop.py:181-260 | with a cap of 3 and a provider always calling `search`: three calls, no content, `search` recorded three times |
| AgentLoop.DirectAnswerScenario | nanobot/agent/loop.py:252-258 | a first response without tool calls gives one call, the unmarked trimmed content, no tools and no notice |
| Processing.SystemOriginKey | nanobot/agent/loop.py:314-318 | for `SystemOrigin`: a system `chat_id` containing a colon is itself the session key; one without a colon routes to `cli` |
| Processing.SystemOriginOfKey | nanobot/agent/loop.py:315-316 | splitting `channel:id` at the first colon gives back a colon-free channel and any id |
| Processing.TryConsolidate | nanobot/agent/loop.py:358-367 | the key is added and a windowed task spawned exactly when the session is longer than the window and the key is free; otherwise nothing changes |
| Processing.FinishJob | nanobot/agent/loop.py:361-365 | a finishing windowed task releases its key whatever the outcome, and every other held key stays held; an archive task releases nothing; exactly that task leaves the in-flight list, the others keeping their order; sessions are untouched |
| Processing.TryConsolidateKeepsGuard | nanobot/agent/loop.py:358-367 | acquiring keeps the invariant: a key is held exactly while one windowed task for it is in flight |
| Processing.FinishJobKeepsGuard | nanobot/agent/loop.py:361-365 | releasing in `finally` keeps that invariant |
| Processing.GuardAtMostOne | nanobot/agent/loop.py:358-359 | under the invariant, at most one windowed consolidation per key is in flight, and a trigger for a held key spawns nothing |
| Processing.ProcessMessage | nanobot/agent/loop.py:306-410 | processing one message makes at most `max_iterations` provider calls |
| Processing.CommandsSkipProvider | nanobot/agent/loop.py:339-356 | `/new` and `/help`, after trimming and lower-casing, reply at once with no provider call, no progress, and no change to the guard; `/help` changes nothing |
| Processing.NewSessionArchivesCopy | nanobot/agent/loop.py:340-353 | for `NewSession`: `/new` archives a copy of the messages taken before the clear, leaves the live session empty and touches no other session |
| Processing.WindowedTrigger | nanobot/agent/loop.py:358-367 | a windowed consolidation is spawned exactly for an ordinary message whose session exceeds the window and whose key is free |
| Processing.ProcessKeepsGuard | nanobot/agent/loop.py:306-410 | every path through message processing keeps the guard invariant |
| Processing.ChatTurnRecords | nanobot/agent/loop.py:388-410 | for `ChatTurn`: an ordinary turn stores the user text and the answer (or the fallback); it replies with the same text unless the message tool already sent one |
| Processing.ExhaustedTurnFallsBack | nanobot/agent/loop.py:392-393 | when the provider never stops calling tools, the reply is the fixed fallback text after `max_iterations` calls |
| Processing.ProgressRouting | nanobot/agent/loop.py:381-390 | progress goes to the caller's callback if given, and the callback receives exactly the loop's notices; otherwise each notice is published to the bus, on the message's channel and chat_id with `_progress` set, once per tool-call iteration |
| Processing.SystemRouting | nanobot/agent/loop.py:314-330 | a system message replies to its origin with `final_content or "Background task completed."`, empty metadata; the origin's session gains `"[System: <sender_id>] <content>"` as a user entry, then that same reply text as an assistant entry; no progress is published and the guard is left alone |
| Processing.OrElse | nanobot/agent/loop.py:327-330 | a missing or empty answer is replaced by the default text |
| Mcp.BeginConnect | nanobot/agent/loop.py:119-124 | an attempt starts only when not connected, not connecting and servers are configured; it sets connecting and creates the stack |
| Mcp.FinishConnect | nanobot/agent/loop.py:123-137 | connecting is cleared on every exit; connected is set only on success; a caught failure drops the stack |
| Mcp.ConnectSteps | nanobot/agent/loop.py:117-137 | for `ConnectMcp`: connecting is a no-op when ineligible; otherwise the attempt ends not connecting, connected exactly on success, with the stack dropped exactly on a caught failure whose cleanup `aclose()` was not cancelled (a cancellation there counts as `Cancelled` and keeps the stack) |
| Mcp.ReentryIsNoOp | nanobot/agent/loop.py:119-121 | a second call while the first is suspended does nothing |
| Mcp.FailureRetries | nanobot/agent/loop.py:128-137 | after a caught failure the next call retries from scratch |
| Mcp.CancelledKeepsStack | nanobot/agent/loop.py:123-137 | an exception outside `Exception` still clears connecting but leaves the stack set and the connector unconnected |
| Mcp.ConnectedIsFinal | nanobot/agent/loop.py:119-120 | once connected, later calls change nothing and attempt nothing |
| Mcp.AtMostOneSuccess | nanobot/agent/loop.py:117-137 | across any sequence of calls at most one attempt succeeds, and connecting is never left set |
| Mcp.CloseMcp | nanobot/agent/loop.py:292-299 | closing never changes the connected or connecting flags |
| Mcp.CloseSteps | nanobot/agent/loop.py:292-299 | closing drops the stack unless `aclose()` raised an exception other than the two swallowed ones; closing twice is the same as once |
| Mcp.ClosedIsNotReconnected | nanobot/agent/loop.py:292-299 | closing does not reset `_mcp_connected`, so later calls never reconnect |
| Mcp.StepsKeepConsistent | nanobot/agent/loop.py:117-137 | no step makes the connector connected and connecting at once |
| Context.BootstrapSections | nanobot/agent/context.py:104-111 | one `## <name>` section per existing file at most; empty exactly when none exists |
| Context.LoadBootstrapFiles | nanobot/agent/context.py:102-112 | the result is `""` exactly when none of the bootstrap files exists |
| Context.BootstrapSectionsInOrder | nanobot/agent/context.py:102-112 | sections belong to the existing files, in the fixed `BOOTSTRAP_FILES` order |
| Context.ExistingMembers | nanobot/agent/context.py:106-108 | a file contributes exactly when it is one of `BOOTSTRAP_FILES` and exists in the workspace |
| Context.SystemPromptParts | nanobot/agent/context.py:26-55 | identity first, then one non-empty part per optional section that is present, in source order: the bootstrap files, the memory under `# 长期记忆`, the always-loaded skills under `# 已加载的技能`, the skills summary under its heading; each part sits at the index its predecessors leave |
| Context.BuildSystemPrompt | nanobot/agent/context.py:26-57 | the prompt starts with the identity, and is the identity alone when no optional section is present |
| Context.BuildSystemPromptShape | nanobot/agent/context.py:26-57 | the prompt is the parts joined by `\n\n---\n\n`: its length is the parts plus one separator between each two, the bootstrap files follow the identity after one separator, and the skills summary closes it |
| Context.BuildRuntimeContext | nanobot/agent/context.py:92-99 | the block starts with the runtime tag and a line break |
| Context.RuntimeLinesShape | nanobot/agent/context.py:94-98 | the time line comes first, with `UTC` for an empty zone; the Channel and Chat ID lines appear exactly when both values are non-empty |
| Context.RuntimeContextLines | nanobot/agent/context.py:92-99 | splitting the block at line breaks gives back the tag and its lines |
| Context.ImageParts | nanobot/agent/context.py:136-144 | at most one image part per media file; none exactly when no media file is an image |
| Context.ImagePartsInOrder | nanobot/agent/context.py:137-144 | the image parts are the data URLs of the image files, in media order |
| Context.BuildUserContent | nanobot/agent/context.py:131-147 | plain text when no media file is an image; otherwise the image parts in media order followed by exactly one text part |
| Context.BuildMessages | nanobot/agent/context.py:114-129 | length `|history| + 3`: the system message, the history verbatim, the runtime block, the user content |
| Context.AddToolResult | nanobot/agent/context.py:149-155 | exactly one tool message is appended with the given call id; the prefix is unchanged |
| Context.AddAssistantMessage | nanobot/agent/context.py:157-170 | one assistant message is appended; `tool_calls` is present exactly for a non-empty list; `reasoning_content` is present exactly when given |
| QuickValidate.FrontmatterText | nanobot/skills/skill-creator/scripts/quick_validate.py:27-31 | frontmatter is found only in content that opens with `---` and a line break |
| QuickValidate.FrontmatterShortest | nanobot/skills/skill-creator/scripts/quick_validate.py:27-31 | the extracted text is exactly the shortest one before the first following `\n---` |
| QuickValidate.FrontmatterFound | nanobot/skills/skill-creator/scripts/quick_validate.py:27-31 | a found frontmatter sits between the opening line and a closing marker of the content |
| QuickValidate.Unexpected | nanobot/skills/skill-creator/scripts/quick_validate.py:44-46 | the unexpected keys are exactly the keys outside the six allowed properties |
| QuickValidate.NameProblem | nanobot/skills/skill-creator/scripts/quick_validate.py:58-71 | a name passes exactly when it is a string whose stripped form is empty, or is kebab-case without edge or doubled hyphens and at most 64 long |
| QuickValidate.DescriptionProblem | nanobot/skills/skill-creator/scripts/quick_validate.py:73-84 | a description passes exactly when it is a string whose stripped form is empty, or has no angle brackets and is at most 1024 long |
| QuickValidate.CompatibilityProblem | nanobot/skills/skill-creator/scripts/quick_validate.py:86-92 | compatibility passes exactly when it is falsy or a string of at most 500 characters |
| QuickValidate.CheckFieldsIffRules | nanobot/skills/skill-creator/scripts/quick_validate.py:41-94 | for `CheckFields`: a parsed dict is accepted exactly when its keys are allowed and its name, description and compatibility pass their rules, and then with the success text |
| QuickValidate.ValidIffRules | nanobot/skills/skill-creator/scripts/quick_validate.py:12-94 | for `ValidateSkill`: the verdict is valid exactly when every rule holds, and then the message is the success text |
| QuickValidate.RejectedBeforeParsing | nanobot/skills/skill-creator/scripts/quick_validate.py:22-24 | content not starting with `---` is rejected whatever the parser would do |
| QuickValidate.UnexpectedKeysFirst | nanobot/skills/skill-creator/scripts/quick_validate.py:44-50 | any unexpected key rejects first, with the unexpected keys listed sorted |
| QuickValidate.MissingFieldsNext | nanobot/skills/skill-creator/scripts/quick_validate.py:52-56 | with allowed keys only, a missing name is reported, then a missing description |
| QuickValidate.ValueRulesInOrder | nanobot/skills/skill-creator/scripts/quick_validate.py:58-94 | with allowed keys and both fields present, the first failing rule decides the message: name, then description, then compatibility; when none fails the skill is valid with the success text |
| QuickValidate.NameLengthBound | nanobot/skills/skill-creator/scripts/quick_validate.py:62-71 | for a well-formed kebab-case name, the 64-character bound alone decides |
| QuickValidate.AllowedSortedIsSorted | nanobot/skills/skill-creator/scripts/quick_validate.py:42-49 | the listed allowed properties are the allowed set in sorted order |
| InitSkill.Capitalize | nanobot/skills/skill-creator/scripts/init_skill.py:191 | the first character is upper-cased and the rest lower-cased; the length is kept |
| InitSkill.TitleCaseSpec | nanobot/skills/skill-creator/scripts/init_skill.py:189-191 | for `TitleCase`: the title has the name's length; dashes become spaces, each segment's first character is upper-cased and every other character lower-cased |
| InitSkill.TitleCaseWords | nanobot/skills/skill-creator/scripts/init_skill.py:189-191 | splitting the title at spaces gives the capitalized dash-separated words |
| InitSkill.ParseArgs | nanobot/skills/skill-creator/scripts/init_skill.py:273-288 | arguments are accepted exactly when there are at least four and `argv[2]` is `--path`; name is `argv[1]` and path is `argv[3]` |
| InitSkill.ParseArgsRoundTrip | nanobot/skills/skill-creator/scripts/init_skill.py:274-288 | `init_skill.py <name> --path <path> ...` yields that name and path |
| InitSkill.InitSteps | nanobot/skills/skill-creator/scripts/init_skill.py:194-270 | for `Init`: an existing `path/skill_name` is refused before anything is created; otherwise the steps run in order until the first failure, and the directory is returned only if all succeed |
| InitSkill.ExitCode | nanobot/skills/skill-creator/scripts/init_skill.py:273-299 | the exit code is 0 or 1, and 1 for bad arguments; with good arguments it is 0 exactly when `init_skill` returns the directory, that is, exactly when the target did not exist and every creation step succeeded |
| InitSkill.SecondRunRefused | nanobot/skills/skill-creator/scripts/init_skill.py:206-211 | a second run on the same target exits with 1 |
| Trending.EncodeSpaces | nanobot/skills/github-trending/scripts/fetch_trending.py:45 | the encoded language holds no space |
| Trending.EncodeDecode | nanobot/skills/github-trending/scripts/fetch_trending.py:45 | decoding `%20` gives back a language name without `%` |
| Trending.BuildUrlShape | nanobot/skills/github-trending/scripts/fetch_trending.py:34-51 | for `BuildUrl`: the URL starts with the base, then `/<lang>` (lower-cased, stripped, spaces encoded) for a given language, then `?since=<s>` exactly for a known period |
| Trending.SinceFromFlags | nanobot/skills/github-trending/scripts/fetch_trending.py:194-200 | `main` always picks a known period |
| Trending.SincePrecedence | nanobot/skills/github-trending/scripts/fetch_trending.py:194-200 | monthly over weekly over the daily default; `--daily` never changes the period |
| Trending.MainUrlHasPeriod | nanobot/skills/github-trending/scripts/fetch_trending.py:194-205 | the URL `main` fetches always ends with its period query |
| Trending.Truncate | nanobot/skills/github-trending/scripts/fetch_trending.py:149-152 | descriptions over 80 characters become their first 80 characters plus `...`; shorter ones are unchanged |
| Trending.EntryLines | nanobot/skills/github-trending/scripts/fetch_trending.py:146-155 | an entry opens with its number and name, ends with a blank line, and has six lines with a description and five without |
| Trending.EntryLinesContent | nanobot/skills/github-trending/scripts/fetch_trending.py:147-154 | for `EntryLines`: the stars line comes second; the url and language lines come just before the blank line; a non-empty description shows as the third line, a description over 80 characters as its first 80 plus `...` and a shorter one whole |
| Trending.Shown | nanobot/skills/github-trending/scripts/fetch_trending.py:146 | at most 25 projects are shown, the first ones in input order |
| Trending.FormatOutput | nanobot/skills/github-trending/scripts/fetch_trending.py:126-129 | an empty project list gives only the fixed warning |
| Trending.EntriesNumbered | nanobot/skills/github-trending/scripts/fetch_trending.py:146-155 | entries are numbered consecutively from the first number, in input order |
| Trending.ReportShape | nanobot/skills/github-trending/scripts/fetch_trending.py:141-158 | header first, then the entries of the first 25 projects numbered from 1, then a rule, and a footer counting all projects |
| Trending.FormatOutputFrame | nanobot/skills/github-trending/scripts/fetch_trending.py:141-160 | a non-empty report starts with the header and ends with the total count on its own line |
| Trending.HeaderShape | nanobot/skills/github-trending/scripts/fetch_trending.py:131-142 | an unknown period reads as daily; the language suffix appears only when a language is given |

## Left out

- InitSkill.Init: the target is `resolved + "/" + skillName`. This is
  pathlib's `/` only for a non-empty, relative, normalised name under a
  base other than the root. Four cases differ:
  - an empty name, where pathlib gives `resolved` itself;
  - an absolute name, which replaces the base;
  - the root directory as base, where the model gives `"//x"` and pathlib `/x`;
  - a name with a trailing slash or a `.` segment, such as `a/` or `./a`,
    which pathlib normalises.
  None of these is modelled.
- Processing: the bus progress notice copies `msg.metadata` and sets
  `meta["_progress"] = True`, a Python boolean. The model keeps metadata
  values as text, so there the flag is the string `"True"`.
- The `run()` bus loop, `stop()`, `process_direct` and the fire-and-forget
  scheduling of background tasks are concurrency. Only the guard's set
  operations and the list of in-flight tasks are modelled, as sequential
  steps.
- The provider, `MemoryStore.consolidate`, the session manager,
  `connect_mcp_servers`, the individual tools, `_register_default_tools`
  and `_set_tool_context` are collaborators whose source is not part of
  this model. The provider is a function. The message tool's
  `_sent_in_turn` is a boolean input. History windowing is a function
  input.
- `_tool_hint` is never called by the loop.
- The JSON rendering of tool-call arguments is not modelled. Arguments stay
  a map.
- Logging and the `time.monotonic` timing in `execute` have no effect on
  results.
- Registry.Execute: a validator that raises is not modelled. The validator
  is a total function returning a list of errors. In the code such a raise
  would be caught and reported as `Error executing <name>: <msg>`.
- Registry.Execute: the retry hint of lines 71-77 is not appended. Those
  lines are the stray, mis-indented block that keeps `registry.py` from
  compiling, so the model follows lines 45-70 only.
- `add_tool_result` and `add_assistant_message` (context.py:154-155 and
  169-170) append to the caller's list in place and return that same list.
  The model returns a new sequence instead. The loop only ever uses the
  returned list, so the message lists it builds are the same.
- QuickValidate.UnexpectedKeysFirst: frontmatter keys are modelled as
  strings. YAML can also produce non-string keys, such as `1: x` or
  `true: y`. Mixed with string keys, these make `sorted(unexpected_keys)` on
  lines 45-49 raise `TypeError`, which `validate_skill` does not catch. That
  crash is not modelled.
- Mcp.ConnectSteps: the `import` on loop.py line 122 sits outside the `try`.
  If it failed, the exception would propagate with `_mcp_connecting` still
  set. This is not modelled: an attempt ends as connected, caught failure
  or cancellation.
- The individual MCP connections inside the exit stack and their
  reverse-order release are not modelled. The stack is a single "present"
  flag.
- The identity text of `build_system_prompt` (platform, workspace path), the
  memory context and the skills loader are inputs. So are the clock, the
  zone name, file existence and contents, MIME guessing and base64 encoding.
- Case mapping and `capitalize` are ASCII only. Python's full Unicode case
  tables are not modelled.
- `yaml.safe_load` is a function input. A parsed dict is a list of fields
  with distinct keys, and a non-string value is known only by its type name
  and truthiness.
- The `__main__` block of `quick_validate.py` is printing and exit codes
  around `validate_skill`.
- `init_skill` file contents, `chmod` and printed messages are I/O. The file
  system is a set of existing paths plus the index of the first operation
  that fails.
- `fetch_page` (network) and `parse_trending` (regular-expression HTML
  scraping) are not modelled. The `--json` output path is not modelled
  either.
- `nanobot/providers/minimax_usage.py` is a network client whose only
  computation is a floating-point percentage.
