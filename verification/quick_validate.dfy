/** `validate_skill` of the skill creator
    (nanobot/skills/skill-creator/scripts/quick_validate.py): the frontmatter
    of a SKILL.md and the rules its fields must meet, checked in a fixed
    order, the first failure giving the message. YAML parsing is a
    parameter. */
module QuickValidate {
  import opened Common

  /** A value of the parsed frontmatter: a string, or anything else, known by
      its Python type name and its truthiness. */
  datatype YValue = YStr(s: string) | YOther(typeName: string, truthy: bool)

  datatype Field = Field(key: string, value: YValue)

  /** What `yaml.safe_load` made of the frontmatter: a dict (its items, so
      the keys are distinct), some other value, or a `YAMLError`. */
  datatype YamlOutcome = Mapping(fields: seq<Field>) | NotMapping | YamlError(message: string)

  /** The pair `validate_skill` returns. */
  datatype Verdict = Verdict(valid: bool, message: string)

  const OpenMarker: string := "---\n"
  const CloseMarker: string := "\n---"

  /** `ALLOWED_PROPERTIES`. */
  const Allowed: set<string> := {"name", "description", "license", "allowed-tools", "metadata", "compatibility"}

  /** `sorted(ALLOWED_PROPERTIES)`. */
  const AllowedSorted: seq<string> := ["allowed-tools", "compatibility", "description", "license", "metadata", "name"]

  const MaxNameLength: nat := 64
  const MaxDescriptionLength: nat := 1024
  const MaxCompatibilityLength: nat := 500

  const NoSkillFile: string := "找不到 SKILL.md"
  const NoFrontmatter: string := "未找到 YAML frontmatter"
  const BadFrontmatter: string := "frontmatter 格式无效"
  const NotDict: string := "Frontmatter 必须是 YAML 字典"
  const MissingName: string := "frontmatter 中缺少 'name'"
  const MissingDescription: string := "frontmatter 中缺少 'description'"
  const AngleBrackets: string := "description 不能包含尖括号（< 或 >）"
  const ValidText: string := "技能有效！"

  /** `re.match(r'^---\n(.*?)\n---', content, re.DOTALL).group(1)`: the
      text between a leading `---` line and the first following `\n---`. */
  function FrontmatterText(content: string): (r: Option<string>)
    ensures r.Some? ==> StartsWith(content, OpenMarker)
  {
    if !StartsWith(content, OpenMarker) then None
    else match FindFrom(content, CloseMarker, |OpenMarker|)
      case None => None
      case Some(j) => Some(content[|OpenMarker|..j])
  }

  /** The extraction finds exactly the shortest frontmatter: a document
      made of the opening line, a text, the closing marker and anything
      after yields that text precisely when the marker does not occur
      earlier, that is, when the text and the marker's newline hold no
      `\n---` of their own. */
  lemma FrontmatterShortest(t: string, rest: string)
    ensures var c := OpenMarker + t + CloseMarker + rest;
            FrontmatterText(c) == Some(t) <==>
              forall k: nat :: |OpenMarker| <= k < |OpenMarker| + |t| ==> !OccursAt(c, CloseMarker, k)
  {
    var c := OpenMarker + t + CloseMarker + rest;
    var j := |OpenMarker| + |t|;
    assert c[..|OpenMarker|] == OpenMarker;
    assert OccursAt(c, CloseMarker, j) by { assert c[j..j + |CloseMarker|] == CloseMarker; }
    assert c[|OpenMarker|..j] == t;
    if forall k: nat :: |OpenMarker| <= k < j ==> !OccursAt(c, CloseMarker, k) {
      FindFromFirst(c, CloseMarker, |OpenMarker|, j);
    } else {
      var f := FindFrom(c, CloseMarker, |OpenMarker|);
      assert f.Some? && f.value < j;
      assert |c[|OpenMarker|..f.value]| < |t|;
    }
  }

  /** Every frontmatter that is found sits in such a document. */
  lemma FrontmatterFound(content: string)
    requires FrontmatterText(content).Some?
    ensures exists rest :: content == OpenMarker + FrontmatterText(content).value + CloseMarker + rest
  {
    var j := FindFrom(content, CloseMarker, |OpenMarker|).value;
    var rest := content[j + |CloseMarker|..];
    assert content == content[..|OpenMarker|] + content[|OpenMarker|..j] + content[j..j + |CloseMarker|] + rest;
  }

  /** The value of `key`, as `dict.get` finds it. */
  function Lookup(fields: seq<Field>, key: string): (r: Option<YValue>)
    ensures r.Some? <==> exists i :: 0 <= i < |fields| && fields[i].key == key
    ensures r.Some? ==> exists i :: 0 <= i < |fields| && fields[i] == Field(key, r.value)
  {
    if fields == [] then None
    else if fields[0].key == key then Some(fields[0].value)
    else
      var r := Lookup(fields[1..], key);
      assert forall i :: 1 <= i < |fields| ==> fields[i] == fields[1..][i - 1];
      r
  }

  /** The keys outside `ALLOWED_PROPERTIES`, in dict order. */
  function Unexpected(fields: seq<Field>): (r: seq<string>)
    ensures forall i :: 0 <= i < |r| ==> r[i] !in Allowed
    ensures r == [] <==> forall i :: 0 <= i < |fields| ==> fields[i].key in Allowed
  {
    if fields == [] then []
    else (if fields[0].key in Allowed then [] else [fields[0].key]) + Unexpected(fields[1..])
  }

  /** Python truthiness of a frontmatter value. */
  predicate Truthy(v: YValue) {
    if v.YStr? then v.s != "" else v.truthy
  }

  predicate KebabChar(c: char) {
    ('a' <= c <= 'z') || ('0' <= c <= '9') || c == '-'
  }

  /** `re.match(r'^[a-z0-9-]+$', name)` for a stripped, non-empty name. */
  predicate Kebab(n: string) {
    forall i :: 0 <= i < |n| ==> KebabChar(n[i])
  }

  predicate BadHyphens(n: string) {
    StartsWith(n, "-") || EndsWith(n, "-") || Contains(n, "--")
  }

  function TypeError(field: string, typeName: string): string {
    field + " 必须是字符串，得到 " + typeName
  }

  function TooLong(field: string, len: nat, max: nat): string {
    field + " 太长（" + NatToString(len) + " 个字符）。最多 " + NatToString(max) + " 个字符。"
  }

  /** Lines 59-71: the first problem with the `name` value, if any. */
  function NameProblem(v: YValue): (r: Option<string>)
    ensures r.None? <==> v.YStr? && (var n := Strip(v.s);
              n == "" || (Kebab(n) && !BadHyphens(n) && |n| <= MaxNameLength))
  {
    if !v.YStr? then Some(TypeError("name", v.typeName))
    else
      var n := Strip(v.s);
      if n == "" then None
      else if !Kebab(n) then Some("name '" + n + "' 应该是 kebab-case（仅限小写字母、数字和连字符）")
      else if BadHyphens(n) then Some("name '" + n + "' 不能以连字符开头/结尾或包含连续连字符")
      else if |n| > MaxNameLength then Some(TooLong("name", |n|, MaxNameLength))
      else None
  }

  /** Lines 74-84: the first problem with the `description` value, if any. */
  function DescriptionProblem(v: YValue): (r: Option<string>)
    ensures r.None? <==> v.YStr? && (var d := Strip(v.s);
              d == "" || ('<' !in d && '>' !in d && |d| <= MaxDescriptionLength))
  {
    if !v.YStr? then Some(TypeError("description", v.typeName))
    else
      var d := Strip(v.s);
      if d == "" then None
      else if '<' in d || '>' in d then Some(AngleBrackets)
      else if |d| > MaxDescriptionLength then Some(TooLong("description", |d|, MaxDescriptionLength))
      else None
  }

  /** Lines 87-92: the problem with a truthy `compatibility` value, if any. */
  function CompatibilityProblem(v: YValue): (r: Option<string>)
    ensures r.None? <==> !Truthy(v) || (v.YStr? && |v.s| <= MaxCompatibilityLength)
  {
    if !Truthy(v) then None
    else if !v.YStr? then Some(TypeError("compatibility", v.typeName))
    else if |v.s| > MaxCompatibilityLength then Some(TooLong("compatibility", |v.s|, MaxCompatibilityLength))
    else None
  }

  /** The message naming the unexpected keys, sorted, and the allowed ones. */
  function UnexpectedKeys(unexpected: seq<string>): string {
    "SKILL.md frontmatter 中存在意外键：" + Join(Sort(unexpected), ", ")
    + "。 允许的属性是：" + Join(AllowedSorted, ", ")
  }

  /** Lines 42-94: the checks on a parsed dict, in source order. */
  function CheckFields(fields: seq<Field>): (r: Verdict)
  {
    var unexpected := Unexpected(fields);
    if unexpected != [] then Verdict(false, UnexpectedKeys(unexpected))
    else if Lookup(fields, "name").None? then Verdict(false, MissingName)
    else if Lookup(fields, "description").None? then Verdict(false, MissingDescription)
    else ValueVerdict(NameProblem(Lookup(fields, "name").value),
                      DescriptionProblem(Lookup(fields, "description").value),
                      CompatibilityProblem(Lookup(fields, "compatibility").GetOr(YStr(""))))
  }

  /** Lines 59-92: the value rules, the first failing one giving the
      message. */
  function ValueVerdict(name: Option<string>, description: Option<string>,
                        compatibility: Option<string>): Verdict
  {
    if name.Some? then Verdict(false, name.value)
    else if description.Some? then Verdict(false, description.value)
    else if compatibility.Some? then Verdict(false, compatibility.value)
    else Verdict(true, ValidText)
  }

  /** `validate_skill(skill_path)`: `skillMd` is the text of `SKILL.md`, or
      `None` when the file does not exist; `parse` is `yaml.safe_load`. */
  function ValidateSkill(skillMd: Option<string>, parse: string -> YamlOutcome): (r: Verdict)
  {
    if skillMd.None? then Verdict(false, NoSkillFile)
    else if !StartsWith(skillMd.value, "---") then Verdict(false, NoFrontmatter)
    else match FrontmatterText(skillMd.value)
      case None => Verdict(false, BadFrontmatter)
      case Some(text) =>
        match parse(text)
        case YamlError(e) => Verdict(false, "frontmatter 中的 YAML 无效：" + e)
        case NotMapping => Verdict(false, NotDict)
        case Mapping(fields) => CheckFields(fields)
  }

  /** A `name` entry that passes the rules: a string that, stripped, is
      empty or a kebab-case name of at most 64 characters without a leading,
      trailing or doubled hyphen. */
  predicate NameRule(v: Option<YValue>) {
    && v.Some? && v.value.YStr?
    && (var n := Strip(v.value.s);
        n == "" || (Kebab(n) && !StartsWith(n, "-") && !EndsWith(n, "-") && !Contains(n, "--") && |n| <= 64))
  }

  /** A `description` entry that passes the rules: a string that, stripped,
      is empty or at most 1024 characters without angle brackets. */
  predicate DescriptionRule(v: Option<YValue>) {
    && v.Some? && v.value.YStr?
    && (var d := Strip(v.value.s); d == "" || ('<' !in d && '>' !in d && |d| <= 1024))
  }

  /** A `compatibility` entry that passes the rules: absent, falsy, or a
      string of at most 500 characters. */
  predicate CompatibilityRule(v: Option<YValue>) {
    v.None? || !Truthy(v.value) || (v.value.YStr? && |v.value.s| <= 500)
  }

  /** The rules a parsed dict must meet: only allowed keys, and a name, a
      description and a compatibility passing their rules. */
  predicate FieldRules(fields: seq<Field>) {
    && (forall i :: 0 <= i < |fields| ==> fields[i].key in Allowed)
    && NameRule(Lookup(fields, "name"))
    && DescriptionRule(Lookup(fields, "description"))
    && CompatibilityRule(Lookup(fields, "compatibility"))
  }

  /** What a valid skill is: a `SKILL.md` whose frontmatter parses to a dict
      meeting the field rules. */
  predicate SkillRules(skillMd: Option<string>, parse: string -> YamlOutcome) {
    && skillMd.Some?
    && FrontmatterText(skillMd.value).Some?
    && parse(FrontmatterText(skillMd.value).value).Mapping?
    && FieldRules(parse(FrontmatterText(skillMd.value).value).fields)
  }

  /** The field checks accept exactly the dicts meeting the field rules. */
  lemma CheckFieldsIffRules(fields: seq<Field>)
    ensures CheckFields(fields).valid <==> FieldRules(fields)
    ensures CheckFields(fields).valid ==> CheckFields(fields).message == ValidText
  {
    if Unexpected(fields) != [] {
      assert !CheckFields(fields).valid;
    } else if Lookup(fields, "name").Some? && Lookup(fields, "description").Some? {
      var c := Lookup(fields, "compatibility");
      assert NameProblem(Lookup(fields, "name").value).None? <==> NameRule(Lookup(fields, "name"));
      assert DescriptionProblem(Lookup(fields, "description").value).None? <==> DescriptionRule(Lookup(fields, "description"));
      assert CompatibilityProblem(c.GetOr(YStr(""))).None? <==> CompatibilityRule(c);
    }
  }

  /** `validate_skill` answers `True` exactly for skills meeting the rules,
      and then with the fixed success text. */
  lemma ValidIffRules(skillMd: Option<string>, parse: string -> YamlOutcome)
    ensures ValidateSkill(skillMd, parse).valid <==> SkillRules(skillMd, parse)
    ensures ValidateSkill(skillMd, parse).valid ==> ValidateSkill(skillMd, parse).message == ValidText
  {
    if skillMd.Some? && FrontmatterText(skillMd.value).Some? {
      assert StartsWith(skillMd.value, "---") by {
        assert skillMd.value[..3] == OpenMarker[..3];
      }
      var y := parse(FrontmatterText(skillMd.value).value);
      if y.Mapping? {
        assert ValidateSkill(skillMd, parse) == CheckFields(y.fields);
        CheckFieldsIffRules(y.fields);
      }
    }
  }

  /** Content that does not start with `---` is rejected before the parser
      is consulted: the verdict is the same whatever the parser does. */
  lemma RejectedBeforeParsing(content: string, p: string -> YamlOutcome, q: string -> YamlOutcome)
    requires !StartsWith(content, "---")
    ensures ValidateSkill(Some(content), p) == ValidateSkill(Some(content), q) == Verdict(false, NoFrontmatter)
  {
  }

  /** An unexpected key is reported before any other field rule, and the
      message lists the unexpected keys in sorted order. */
  lemma UnexpectedKeysFirst(fields: seq<Field>)
    requires exists i :: 0 <= i < |fields| && fields[i].key !in Allowed
    ensures var r := CheckFields(fields);
            && !r.valid
            && r.message == "SKILL.md frontmatter 中存在意外键：" + Join(Sort(Unexpected(fields)), ", ")
                            + "。 允许的属性是：" + Join(AllowedSorted, ", ")
            && Sorted(Sort(Unexpected(fields)))
            && multiset(Sort(Unexpected(fields))) == multiset(Unexpected(fields))
  {
  }

  /** With only allowed keys, a missing name is reported before a missing
      description, and either before any value rule. */
  lemma MissingFieldsNext(fields: seq<Field>)
    requires forall i :: 0 <= i < |fields| ==> fields[i].key in Allowed
    ensures Lookup(fields, "name").None? ==> CheckFields(fields) == Verdict(false, MissingName)
    ensures Lookup(fields, "name").Some? && Lookup(fields, "description").None? ==>
      CheckFields(fields) == Verdict(false, MissingDescription)
  {
  }

  /** With only allowed keys and both required fields present, the value
      rules run in source order and the first failing one gives the
      message: the name's, then the description's, then compatibility's. */
  lemma ValueRulesInOrder(fields: seq<Field>)
    requires forall i :: 0 <= i < |fields| ==> fields[i].key in Allowed
    requires Lookup(fields, "name").Some? && Lookup(fields, "description").Some?
    ensures var name := NameProblem(Lookup(fields, "name").value);
            var description := DescriptionProblem(Lookup(fields, "description").value);
            var compatibility := CompatibilityProblem(Lookup(fields, "compatibility").GetOr(YStr("")));
            && (name.Some? ==> CheckFields(fields) == Verdict(false, name.value))
            && (name.None? && description.Some? ==> CheckFields(fields) == Verdict(false, description.value))
            && (name.None? && description.None? && compatibility.Some? ==>
                  CheckFields(fields) == Verdict(false, compatibility.value))
            && (name.None? && description.None? && compatibility.None? ==>
                  CheckFields(fields) == Verdict(true, ValidText))
  {
    CheckFieldsValues(fields);
  }

  lemma CheckFieldsValues(fields: seq<Field>)
    requires forall i :: 0 <= i < |fields| ==> fields[i].key in Allowed
    requires Lookup(fields, "name").Some? && Lookup(fields, "description").Some?
    ensures CheckFields(fields)
            == ValueVerdict(NameProblem(Lookup(fields, "name").value),
                            DescriptionProblem(Lookup(fields, "description").value),
                            CompatibilityProblem(Lookup(fields, "compatibility").GetOr(YStr(""))))
  {
    assert Unexpected(fields) == [];
  }

  /** Kebab-case text has no surrounding space, so for a well-formed name
      the sixty-four character bound alone decides. */
  lemma NameLengthBound(n: string)
    requires n != [] && Kebab(n) && !BadHyphens(n)
    ensures NameProblem(YStr(n)).None? <==> |n| <= 64
  {
    assert KebabChar(n[0]) && KebabChar(n[|n| - 1]);
    StripTrimmed(n);
  }

  /** The listing of allowed properties in the rejection message is the
      allowed set in sorted order. */
  lemma AllowedSortedIsSorted()
    ensures Sorted(AllowedSorted) && (set k | k in AllowedSorted) == Allowed
  {
    forall i, j | 0 <= i < j < |AllowedSorted| ensures LexLe(AllowedSorted[i], AllowedSorted[j]) {
      assert AllowedSorted[i][0] < AllowedSorted[j][0];
    }
  }
}
