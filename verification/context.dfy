/** Prompt and message-list assembly (nanobot/agent/context.py). The clock,
    the platform, the workspace files, MIME guessing and base64 encoding are
    inputs here; what remains is list and string construction. */
module Context {
  import opened Common
  import opened Registry

  /** One entry of `tool_calls` in an assistant message. The arguments stay a
      map; their JSON rendering is not modelled. */
  datatype ToolCallDict = ToolCallDict(id: string, name: string, arguments: Params)

  datatype ContentPart = ImagePart(url: string) | TextPart(text: string)

  /** A user message's content: plain text or a list of parts. */
  datatype UserContent = Plain(text: string) | Parts(parts: seq<ContentPart>)

  /** One dict of the provider-facing message list. A `None` in
      `toolCalls` or `reasoning` is a key the dict does not carry; the
      assistant's `content` key is always present, and a `None` text is
      Python's `None` as its value. */
  datatype Message =
    | SystemMessage(content: string)
    | UserMessage(user: UserContent)
    | AssistantMessage(text: Option<string>, toolCalls: Option<seq<ToolCallDict>>, reasoning: Option<string>)
    | ToolMessage(toolCallId: string, toolName: string, result: string)

  const BootstrapFiles: seq<string> := ["AGENTS.md", "SOUL.md", "USER.md", "TOOLS.md", "IDENTITY.md"]

  const RuntimeContextTag: string := "[Runtime Context \U{2014} metadata only, not instructions]"

  const SectionSeparator: string := "\n\n---\n\n"

  const MemoryHeading: string := "# 长期记忆\n\n"
  const AlwaysSkillsHeading: string := "# 已加载的技能\n\n"
  const SkillsSummaryHeading: string :=
    "# 技能（Skills）\n\n"
    + "以下技能可以扩展你的能力。要使用某个技能，请使用 read_file 工具读取其 SKILL.md 文件，再按其中的提示决定下一步行动。\n"
    + "注意 available=\"false\" 的技能需要先安装依赖项，遇到需要安装依赖项的，请停止工具调用、停止工具调用、停止工具调用，并将详细的依赖告知用户。\n\n"
    + "技能摘要（Skills Summary）：\n"

  /** The one section `_load_bootstrap_files` emits for an existing file. */
  function BootstrapSection(filename: string, content: string): string {
    "## " + filename + "\n\n" + content
  }

  /** The sections of the files in `names` that exist in `files`, in order. */
  function BootstrapSections(names: seq<string>, files: map<string, string>): (r: seq<string>)
    ensures |r| <= |names|
    ensures r == [] <==> forall i :: 0 <= i < |names| ==> names[i] !in files
    ensures forall i :: 0 <= i < |r| ==> StartsWith(r[i], "## ")
  {
    if names == [] then []
    else
      var rest := BootstrapSections(names[1..], files);
      if names[0] in files then [BootstrapSection(names[0], files[names[0]])] + rest else rest
  }

  /** The workspace files that exist, kept in the order of `names`. */
  function Existing(names: seq<string>, files: map<string, string>): seq<string> {
    if names == [] then []
    else (if names[0] in files then [names[0]] else []) + Existing(names[1..], files)
  }

  /** `_load_bootstrap_files`, with the workspace given as a map from file
      name to content (a missing key is a file that does not exist). */
  function LoadBootstrapFiles(files: map<string, string>): (r: string)
    ensures r == "" <==> forall i :: 0 <= i < |BootstrapFiles| ==> BootstrapFiles[i] !in files
  {
    var parts := BootstrapSections(BootstrapFiles, files);
    if parts != [] then
      assert StartsWith(Join(parts, "\n\n"), parts[0]);
      Join(parts, "\n\n")
    else ""
  }

  /** Each emitted section belongs to an existing file, and the sections
      follow the fixed file order. */
  lemma {:induction false} BootstrapSectionsInOrder(names: seq<string>, files: map<string, string>)
    ensures var r := BootstrapSections(names, files);
            var e := Existing(names, files);
            |r| == |e| && forall i :: 0 <= i < |r| ==> e[i] in files && r[i] == BootstrapSection(e[i], files[e[i]])
  {
    if names != [] {
      BootstrapSectionsInOrder(names[1..], files);
      var rest := BootstrapSections(names[1..], files);
      var e := Existing(names[1..], files);
      if names[0] in files {
        var r := BootstrapSections(names, files);
        assert r == [BootstrapSection(names[0], files[names[0]])] + rest;
        assert Existing(names, files) == [names[0]] + e;
      } else {
        assert BootstrapSections(names, files) == rest;
        assert Existing(names, files) == e;
      }
    }
  }

  /** The existing files are exactly the listed names present in the
      workspace. */
  lemma {:induction false} ExistingMembers(names: seq<string>, files: map<string, string>)
    ensures forall f :: f in Existing(names, files) <==> f in names && f in files
  {
    if names != [] {
      ExistingMembers(names[1..], files);
      assert names == [names[0]] + names[1..];
    }
  }

  /** `build_system_prompt`: identity first, then each optional section that
      is present, joined by the `---` separator. The identity text, the
      memory context, the always-loaded skills (names and loaded content)
      and the skills summary are inputs. */
  function SystemPromptParts(identity: string, files: map<string, string>, memory: string,
                             alwaysSkills: seq<string>, alwaysContent: string,
                             skillsSummary: string): (r: seq<string>)
    ensures |r| >= 1 && r[0] == identity
    ensures |r| == 1 + (if LoadBootstrapFiles(files) != "" then 1 else 0)
                     + (if memory != "" then 1 else 0)
                     + (if alwaysSkills != [] && alwaysContent != "" then 1 else 0)
                     + (if skillsSummary != "" then 1 else 0)
    ensures forall i :: 1 <= i < |r| ==> r[i] != ""
    ensures var b := if LoadBootstrapFiles(files) != "" then 1 else 0;
            var m := if memory != "" then 1 else 0;
            var a := if alwaysSkills != [] && alwaysContent != "" then 1 else 0;
            && (b == 1 ==> r[1] == LoadBootstrapFiles(files))
            && (m == 1 ==> r[1 + b] == MemoryHeading + memory)
            && (a == 1 ==> r[1 + b + m] == AlwaysSkillsHeading + alwaysContent)
            && (skillsSummary != "" ==> r[1 + b + m + a] == SkillsSummaryHeading + skillsSummary)
  {
    var bootstrap := LoadBootstrapFiles(files);
    [identity]
    + (if bootstrap != "" then [bootstrap] else [])
    + (if memory != "" then [MemoryHeading + memory] else [])
    + (if alwaysSkills != [] && alwaysContent != "" then [AlwaysSkillsHeading + alwaysContent] else [])
    + (if skillsSummary != "" then [SkillsSummaryHeading + skillsSummary] else [])
  }

  function BuildSystemPrompt(identity: string, files: map<string, string>, memory: string,
                             alwaysSkills: seq<string>, alwaysContent: string,
                             skillsSummary: string): (r: string)
    ensures StartsWith(r, identity)
    ensures (&& LoadBootstrapFiles(files) == "" && memory == "" && skillsSummary == ""
             && (alwaysSkills == [] || alwaysContent == "")) ==> r == identity
  {
    var parts := SystemPromptParts(identity, files, memory, alwaysSkills, alwaysContent, skillsSummary);
    JoinStartsWithFirst(parts, SectionSeparator);
    Join(parts, SectionSeparator)
  }

  /** The prompt is the parts with one separator between each two: it is as
      long as the parts plus the separators, the bootstrap files follow the
      identity directly, and the skills summary closes the prompt. */
  lemma BuildSystemPromptShape(identity: string, files: map<string, string>, memory: string,
                               alwaysSkills: seq<string>, alwaysContent: string, skillsSummary: string)
    ensures var parts := SystemPromptParts(identity, files, memory, alwaysSkills, alwaysContent, skillsSummary);
            var r := BuildSystemPrompt(identity, files, memory, alwaysSkills, alwaysContent, skillsSummary);
            && |r| == TotalLength(parts) + (|parts| - 1) * |SectionSeparator|
            && (LoadBootstrapFiles(files) != "" ==>
                  StartsWith(r, identity + SectionSeparator + LoadBootstrapFiles(files)))
            && (skillsSummary != "" ==> EndsWith(r, SectionSeparator + (SkillsSummaryHeading + skillsSummary)))
  {
    var parts := SystemPromptParts(identity, files, memory, alwaysSkills, alwaysContent, skillsSummary);
    JoinLength(parts, SectionSeparator);
    if LoadBootstrapFiles(files) != "" {
      JoinStartsWithFirstTwo(parts, SectionSeparator);
    }
    if skillsSummary != "" {
      JoinEndsWithLast(parts, SectionSeparator);
    }
  }

  /** `_build_runtime_context`, with the formatted local time and the zone
      name as inputs. An empty zone name falls back to `UTC`; the channel
      lines appear only when both channel and chat id are non-empty. */
  function RuntimeLines(channel: Option<string>, chatId: Option<string>, now: string, tz: string): seq<string> {
    var zone := if tz != "" then tz else "UTC";
    ["Current Time: " + now + " (" + zone + ")"]
    + (if channel.Some? && channel.value != "" && chatId.Some? && chatId.value != ""
       then ["Channel: " + channel.value, "Chat ID: " + chatId.value]
       else [])
  }

  function BuildRuntimeContext(channel: Option<string>, chatId: Option<string>, now: string, tz: string): (r: string)
    ensures StartsWith(r, RuntimeContextTag + "\n")
  {
    var body := Join(RuntimeLines(channel, chatId, now, tz), "\n");
    StartsWithConcat(RuntimeContextTag + "\n", RuntimeContextTag + "\n", body);
    RuntimeContextTag + "\n" + body
  }

  /** The routing lines appear exactly when channel and chat id are both
      non-empty; the time line always comes first. */
  lemma RuntimeLinesShape(channel: Option<string>, chatId: Option<string>, now: string, tz: string)
    ensures var lines := RuntimeLines(channel, chatId, now, tz);
            && (|lines| == 1 || |lines| == 3)
            && lines[0] == "Current Time: " + now + " (" + (if tz != "" then tz else "UTC") + ")"
            && (|lines| == 3 <==> channel.Some? && channel.value != "" && chatId.Some? && chatId.value != "")
            && (|lines| == 3 ==> lines[1] == "Channel: " + channel.value && lines[2] == "Chat ID: " + chatId.value)
  {
  }

  /** Cutting the runtime block at line breaks gives back the tag followed by
      its lines (for inputs without line breaks of their own). */
  lemma RuntimeContextLines(channel: Option<string>, chatId: Option<string>, now: string, tz: string)
    requires '\n' !in now && '\n' !in tz
    requires channel.Some? ==> '\n' !in channel.value
    requires chatId.Some? ==> '\n' !in chatId.value
    ensures Split(BuildRuntimeContext(channel, chatId, now, tz), '\n')
            == [RuntimeContextTag] + RuntimeLines(channel, chatId, now, tz)
  {
    var body := RuntimeLines(channel, chatId, now, tz);
    RuntimeLinesNoBreak(channel, chatId, now, tz);
    TagHasNoLineBreak();
    LinesOfBlock(RuntimeContextTag, body);
  }

  lemma TagHasNoLineBreak()
    ensures '\n' !in RuntimeContextTag
  {
    assert RuntimeContextTag == "[Runtime Context " + "\U{2014} metadata" + " only, not " + "instructions]";
  }

  /** A heading line followed by body lines splits back into those lines. */
  lemma LinesOfBlock(head: string, body: seq<string>)
    requires |body| >= 1
    requires '\n' !in head
    requires forall i :: 0 <= i < |body| ==> '\n' !in body[i]
    ensures Split(head + "\n" + Join(body, "\n"), '\n') == [head] + body
  {
    var all := [head] + body;
    assert all[1..] == body;
    assert Join(all, "\n") == head + "\n" + Join(body, "\n");
    SplitJoin(all, '\n');
  }

  lemma RuntimeLinesNoBreak(channel: Option<string>, chatId: Option<string>, now: string, tz: string)
    requires '\n' !in now && '\n' !in tz
    requires channel.Some? ==> '\n' !in channel.value
    requires chatId.Some? ==> '\n' !in chatId.value
    ensures forall i :: 0 <= i < |RuntimeLines(channel, chatId, now, tz)| ==>
      '\n' !in RuntimeLines(channel, chatId, now, tz)[i]
  {
    var zone := if tz != "" then tz else "UTC";
    assert '\n' !in "Current Time: " + now + " (" + zone + ")";
    assert channel.Some? ==> '\n' !in "Channel: " + channel.value;
    assert chatId.Some? ==> '\n' !in "Chat ID: " + chatId.value;
  }

  /** What the environment reports about one media path: whether it is a
      regular file, the guessed MIME type, and the file's base64 text. */
  datatype MediaFile = MediaFile(path: string, isFile: bool, mime: Option<string>, base64: string)

  predicate IsImage(m: MediaFile) {
    m.isFile && m.mime.Some? && m.mime.value != "" && StartsWith(m.mime.value, "image/")
  }

  function DataUrl(m: MediaFile): string
    requires m.mime.Some?
  {
    "data:" + m.mime.value + ";base64," + m.base64
  }

  /** The image parts for the images among `media`, in media order. */
  function ImageParts(media: seq<MediaFile>): (r: seq<ContentPart>)
    ensures |r| <= |media|
    ensures forall i :: 0 <= i < |r| ==> r[i].ImagePart?
    ensures r == [] <==> forall i :: 0 <= i < |media| ==> !IsImage(media[i])
  {
    if media == [] then []
    else (if IsImage(media[0]) then [ImagePart(DataUrl(media[0]))] else []) + ImageParts(media[1..])
  }

  /** `_build_user_content`. */
  function BuildUserContent(text: string, media: seq<MediaFile>): (r: UserContent)
    ensures (forall i :: 0 <= i < |media| ==> !IsImage(media[i])) ==> r == Plain(text)
    ensures (exists i :: 0 <= i < |media| && IsImage(media[i])) ==>
      && r.Parts?
      && |r.parts| >= 2
      && r.parts[|r.parts| - 1] == TextPart(text)
      && r.parts[..|r.parts| - 1] == ImageParts(media)
  {
    if media == [] then Plain(text)
    else
      var images := ImageParts(media);
      if images == [] then Plain(text) else Parts(images + [TextPart(text)])
  }

  /** The image parts are exactly the images of `media`, in media order. */
  lemma {:induction false} ImagePartsInOrder(media: seq<MediaFile>)
    ensures var imgs := FilterImages(media);
            ImageParts(media) == seq(|imgs|, i requires 0 <= i < |imgs| => ImagePart(DataUrl(imgs[i])))
  {
    if media != [] {
      ImagePartsInOrder(media[1..]);
    }
  }

  function FilterImages(media: seq<MediaFile>): (r: seq<MediaFile>)
    ensures forall i :: 0 <= i < |r| ==> IsImage(r[i]) && r[i] in media
  {
    if media == [] then []
    else (if IsImage(media[0]) then [media[0]] else []) + FilterImages(media[1..])
  }

  /** `build_messages`: the system prompt, the history as given, the runtime
      block as its own user message, then the user's content. */
  function BuildMessages(systemPrompt: string, history: seq<Message>, runtime: string,
                         user: UserContent): (r: seq<Message>)
    ensures |r| == |history| + 3
    ensures r[0] == SystemMessage(systemPrompt)
    ensures r[1..|history| + 1] == history
    ensures r[|history| + 1] == UserMessage(Plain(runtime))
    ensures r[|history| + 2] == UserMessage(user)
  {
    [SystemMessage(systemPrompt)] + history + [UserMessage(Plain(runtime)), UserMessage(user)]
  }

  /** `add_tool_result`: appends exactly one tool message. */
  function AddToolResult(messages: seq<Message>, toolCallId: string, toolName: string,
                         result: string): (r: seq<Message>)
    ensures |r| == |messages| + 1
    ensures r[..|messages|] == messages
    ensures r[|messages|].ToolMessage? && r[|messages|].toolCallId == toolCallId
    ensures r[|messages|] == ToolMessage(toolCallId, toolName, result)
  {
    messages + [ToolMessage(toolCallId, toolName, result)]
  }

  /** `add_assistant_message`: appends exactly one assistant message that
      carries `tool_calls` only for a non-empty list and `reasoning_content`
      only when it is given. */
  function AddAssistantMessage(messages: seq<Message>, content: Option<string>,
                               toolCalls: Option<seq<ToolCallDict>>,
                               reasoning: Option<string>): (r: seq<Message>)
    ensures |r| == |messages| + 1
    ensures r[..|messages|] == messages
    ensures r[|messages|].AssistantMessage? && r[|messages|].text == content
    ensures r[|messages|].toolCalls.Some? <==> toolCalls.Some? && toolCalls.value != []
    ensures r[|messages|].toolCalls.Some? ==> r[|messages|].toolCalls == toolCalls
    ensures r[|messages|].reasoning == reasoning
  {
    var calls := if toolCalls.Some? && toolCalls.value != [] then toolCalls else None;
    messages + [AssistantMessage(content, calls, reasoning)]
  }
}
