/** The skill scaffolder (nanobot/skills/skill-creator/scripts/init_skill.py):
    the display title of a skill name, the command-line check of `main`, and
    the refusal of `init_skill` to touch an existing directory. The template
    texts are not modelled; the file system is a set of existing paths and
    an index of the first operation that fails. */
module InitSkill {
  import opened Common

  /** `word.capitalize()`: first character upper-cased, the rest lower-cased. */
  function Capitalize(w: string): (r: string)
    ensures |r| == |w|
    ensures forall i :: 0 <= i < |w| ==> r[i] == if i == 0 then UpperChar(w[0]) else LowerChar(w[i])
  {
    if w == [] then [] else [UpperChar(w[0])] + Lower(w[1..])
  }

  function CapitalizeAll(words: seq<string>): (r: seq<string>)
    ensures |r| == |words|
    ensures forall i :: 0 <= i < |words| ==> r[i] == Capitalize(words[i])
  {
    seq(|words|, i requires 0 <= i < |words| => Capitalize(words[i]))
  }

  /** `title_case_skill_name(skill_name)`. */
  function TitleCase(name: string): (r: string)
  {
    Join(CapitalizeAll(Split(name, '-')), " ")
  }

  /** What `title_case_skill_name` makes of the character at `i`: a dash
      becomes a space, the first character of each dash-separated word is
      upper-cased, and every other character is lower-cased. */
  function TitleChar(s: string, i: nat): char
    requires i < |s|
  {
    if s[i] == '-' then ' '
    else if i == 0 || s[i - 1] == '-' then UpperChar(s[i])
    else LowerChar(s[i])
  }

  /** The title has the name's length, character for character as
      `TitleChar` says; so it has one space per dash of a space-free name. */
  lemma TitleCaseSpec(name: string)
    ensures |TitleCase(name)| == |name|
    ensures forall i :: 0 <= i < |name| ==> TitleCase(name)[i] == TitleChar(name, i)
  {
    JoinSplit(name, '-');
    CapitalizedJoin(Split(name, '-'));
  }

  lemma {:induction false} CapitalizedJoin(parts: seq<string>)
    requires |parts| >= 1
    requires forall i :: 0 <= i < |parts| ==> '-' !in parts[i]
    ensures var s := Join(parts, "-");
            var r := Join(CapitalizeAll(parts), " ");
            |r| == |s| && forall i :: 0 <= i < |s| ==> r[i] == TitleChar(s, i)
  {
    var caps := CapitalizeAll(parts);
    if |parts| > 1 {
      var p := parts[0];
      var s' := Join(parts[1..], "-");
      var r' := Join(caps[1..], " ");
      CapitalizedJoin(parts[1..]);
      assert caps[1..] == CapitalizeAll(parts[1..]);
      var s := p + "-" + s';
      var r := Capitalize(p) + " " + r';
      assert Join(parts, "-") == s;
      assert Join(caps, " ") == r;
      forall i | 0 <= i < |s| ensures r[i] == TitleChar(s, i) {
        if i < |p| {
          assert s[i] == p[i] && r[i] == Capitalize(p)[i];
          if i > 0 { assert s[i - 1] == p[i - 1]; }
        } else if i > |p| {
          var k := i - |p| - 1;
          assert s[i] == s'[k] && r[i] == r'[k];
          if k > 0 { assert s[i - 1] == s'[k - 1]; }
        }
      }
    }
  }

  /** Splitting the title at spaces gives back the capitalized words of a
      name that holds no space itself. */
  lemma TitleCaseWords(name: string)
    requires ' ' !in name
    ensures Split(TitleCase(name), ' ') == CapitalizeAll(Split(name, '-'))
  {
    var words := Split(name, '-');
    var caps := CapitalizeAll(words);
    forall i | 0 <= i < |caps| ensures ' ' !in caps[i] {
      forall k | 0 <= k < |caps[i]| ensures caps[i][k] != ' ' {
        assert words[i][k] in name by { JoinSplitMember(name, i, k); }
      }
    }
    SplitJoin(caps, ' ');
  }

  /** A character of a piece of a split is a character of the input. */
  lemma JoinSplitMember(name: string, i: nat, k: nat)
    requires i < |Split(name, '-')| && k < |Split(name, '-')[i]|
    ensures Split(name, '-')[i][k] in name
  {
    JoinSplit(name, '-');
    JoinMember(Split(name, '-'), "-", i, k);
  }

  lemma {:induction false} JoinMember(parts: seq<string>, sep: string, i: nat, k: nat)
    requires i < |parts| && k < |parts[i]|
    ensures parts[i][k] in Join(parts, sep)
  {
    if |parts| > 1 {
      if i == 0 {
        assert Join(parts, sep)[k] == parts[0][k];
      } else {
        JoinMember(parts[1..], sep, i - 1, k);
        assert Join(parts, sep) == parts[0] + sep + Join(parts[1..], sep);
      }
    }
  }

  /** The arguments `main` accepts. */
  datatype Args = Args(skillName: string, path: string)

  /** Lines 274-289: `argv` needs a name, the `--path` flag in second
      position and a path; anything after them is ignored. */
  function ParseArgs(argv: seq<string>): (r: Option<Args>)
    ensures r.Some? <==> |argv| >= 4 && argv[2] == "--path"
    ensures r.Some? ==> r.value == Args(argv[1], argv[3])
  {
    if |argv| < 4 || argv[2] != "--path" then None else Some(Args(argv[1], argv[3]))
  }

  /** The command line `init_skill.py <name> --path <path> ...` gives back
      its name and path. */
  lemma ParseArgsRoundTrip(prog: string, a: Args, extra: seq<string>)
    ensures ParseArgs([prog, a.skillName, "--path", a.path] + extra) == Some(a)
  {
  }

  /** The files `init_skill` creates, relative to the skill directory, in
      order: the directory itself, `SKILL.md`, then each resource directory
      and its example file. */
  const Steps: seq<string> := ["", "/SKILL.md", "/scripts", "/scripts/example.py", "/references",
                               "/references/api_reference.md", "/assets", "/assets/example_asset.txt"]

  /** What `init_skill` returned and which paths it created. */
  datatype InitResult = InitResult(dir: Option<string>, created: seq<string>)

  /** `init_skill(skill_name, path)`. `resolved` is `Path(path).resolve()`,
      `existing` the paths that exist, and `failAt` the index in `Steps` of
      the first operation that raises (at least `|Steps|` when none does).
      The target directory is `resolved + "/" + skillName`, which is what
      `Path(path).resolve() / skill_name` gives for a non-empty relative
      name; an empty name (pathlib gives `resolved` itself) and an absolute
      name (which replaces the base) are not modelled. */
  function Init(skillName: string, resolved: string, existing: set<string>, failAt: nat): (r: InitResult)
  {
    var dir := resolved + "/" + skillName;
    if dir in existing then InitResult(None, [])
    else
      var done := if failAt < |Steps| then failAt else |Steps|;
      InitResult(if failAt < |Steps| then None else Some(dir),
                 seq(done, i requires 0 <= i < done => dir + Steps[i]))
  }

  /** An existing skill directory is refused before anything is created;
      otherwise the operations run in order until the first failure, and the
      directory is returned only when all of them succeeded. */
  lemma InitSteps(skillName: string, resolved: string, existing: set<string>, failAt: nat)
    ensures var dir := resolved + "/" + skillName;
            var r := Init(skillName, resolved, existing, failAt);
            && (dir in existing ==> r.dir.None? && r.created == [])
            && (dir !in existing ==>
                  && (r.dir.Some? <==> failAt >= |Steps|)
                  && (r.dir.Some? ==> r.dir.value == dir)
                  && |r.created| == (if failAt < |Steps| then failAt else |Steps|)
                  && forall i :: 0 <= i < |r.created| ==> r.created[i] == dir + Steps[i])
  {
  }

  /** `main`'s exit status: 1 for bad arguments or a failed initialisation,
      0 when the skill directory was created. */
  function ExitCode(argv: seq<string>, resolve: string -> string, existing: set<string>, failAt: nat): (code: int)
    ensures code == 0 || code == 1
    ensures ParseArgs(argv).None? ==> code == 1
    ensures ParseArgs(argv).Some? ==>
              var a := ParseArgs(argv).value;
              (code == 0 <==> Init(a.skillName, resolve(a.path), existing, failAt).dir.Some?)
    ensures code == 0 <==>
              && ParseArgs(argv).Some?
              && resolve(argv[3]) + "/" + argv[1] !in existing
              && failAt >= |Steps|
  {
    match ParseArgs(argv)
    case None => 1
    case Some(a) => if Init(a.skillName, resolve(a.path), existing, failAt).dir.Some? then 0 else 1
  }

  /** Running the script twice on the same target: the second run finds the
      directory the first created and exits with 1. */
  lemma SecondRunRefused(argv: seq<string>, resolve: string -> string, existing: set<string>)
    requires ParseArgs(argv).Some?
    ensures var a := ParseArgs(argv).value;
            var first := Init(a.skillName, resolve(a.path), existing, |Steps|);
            first.dir.Some? ==>
              ExitCode(argv, resolve, existing + set p | p in first.created, |Steps|) == 1
  {
    var a := ParseArgs(argv).value;
    var first := Init(a.skillName, resolve(a.path), existing, |Steps|);
    if first.dir.Some? {
      var dir := resolve(a.path) + "/" + a.skillName;
      assert Steps[0] == "" && dir + "" == dir;
      assert first.created[0] == dir;
      assert dir in existing + set p | p in first.created;
    }
  }
}
