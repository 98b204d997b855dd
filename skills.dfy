/**
 * The skill loader of src/managers/skillLoader.ts (and its older copy
 * manager/SkillLoader.ts, which has the same parser, table and lookups
 * but no `count`). A skill is a folder with a `SKILL.md` file: front matter
 * between `---` fences holding `name` and `description`, then a markdown
 * body. Loaded skills are kept by name in insertion order.
 *
 * The front matter is found by the regular expression
 * `/^---\s*\n(.*?)\n---\s*\n(.*)$/s`. The model computes its match
 * directly: the opening `\s*` is greedy, so the front matter starts after
 * the last line break of the whitespace that follows the opening fence;
 * the lazy `(.*?)` stops at the first closing fence. When no closing fence
 * follows that point, the shorter choices of the opening `\s*` can still
 * match, but only with a front matter of whitespace alone, which has no
 * `name`; the model answers "no skill" for those directly.
 */
module Skills {
  import opened Wrappers
  import opened Strings
  import opened OrderedMaps

  datatype Skill = Skill(name: string, description: string, body: string, path: string, dir: string)

  const Fence: string := "---"
  const SkillFileSuffix: string := "/SKILL.md"
  const NoSkillsText: string := "(没有可用的技能)"
  const SkillHeading: string := "# 技能: "

  /** `s[a..b]` is all whitespace. */
  predicate WhiteBetween(s: string, a: nat, b: nat)
    requires a <= b <= |s|
  {
    forall k :: a <= k < b ==> IsWhitespace(s[k])
  }

  /** The fence `---` starts at `i`. */
  predicate FenceAt(s: string, i: nat) {
    i + 3 <= |s| && s[i] == '-' && s[i + 1] == '-' && s[i + 2] == '-'
  }

  /** `s[a..b]` holds no line break. */
  predicate NoBreakBetween(s: string, a: nat, b: nat)
    requires a <= b <= |s|
  {
    forall k :: a <= k < b ==> s[k] != '\n'
  }

  /** The end of the run of whitespace that starts at `i`. */
  function WhitespaceEnd(s: string, i: nat): (e: nat)
    requires i <= |s|
    ensures i <= e <= |s|
    ensures e == |s| || !IsWhitespace(s[e])
    decreases |s| - i
  {
    if i < |s| && IsWhitespace(s[i]) then WhitespaceEnd(s, i + 1) else i
  }

  /** Everything the run skips is whitespace. */
  lemma {:induction false} WhitespaceEndWhite(s: string, i: nat)
    requires i <= |s|
    ensures WhiteBetween(s, i, WhitespaceEnd(s, i))
    decreases |s| - i
  {
    if i < |s| && IsWhitespace(s[i]) {
      WhitespaceEndWhite(s, i + 1);
    }
  }

  /** Just past the last line break of `s[i..e]`, or -1 when it has none. */
  function AfterLastBreak(s: string, i: nat, e: nat): (r: int)
    requires i <= e <= |s|
    ensures r != -1 ==> i < r <= e && s[r - 1] == '\n'
    decreases e - i
  {
    if e == i then -1
    else if s[e - 1] == '\n' then e
    else AfterLastBreak(s, i, e - 1)
  }

  /** The break found is the last one: none follows it, and none at all when -1. */
  lemma {:induction false} AfterLastBreakIsLast(s: string, i: nat, e: nat)
    requires i <= e <= |s|
    ensures AfterLastBreak(s, i, e) == -1 ==> NoBreakBetween(s, i, e)
    ensures AfterLastBreak(s, i, e) != -1 ==> NoBreakBetween(s, AfterLastBreak(s, i, e), e)
    decreases e - i
  {
    if e != i && s[e - 1] != '\n' {
      AfterLastBreakIsLast(s, i, e - 1);
    }
  }

  /**
   * Where `---\s*\n` matched at `i` ends, or -1: `\s*` is greedy, so the
   * match ends just past the last line break of the whitespace run.
   */
  function FenceEnd(s: string, i: nat): (r: int)
    requires i <= |s|
    ensures r != -1 ==> FenceAt(s, i) && i + 3 < r <= |s| && s[r - 1] == '\n'
    ensures !FenceAt(s, i) ==> r == -1
  {
    if !FenceAt(s, i) then -1
    else AfterLastBreak(s, i + 3, WhitespaceEnd(s, i + 3))
  }

  /** Between the fence and the end of its match there is only whitespace. */
  lemma FenceEndWhitespace(s: string, i: nat)
    requires i <= |s| && FenceEnd(s, i) != -1
    ensures WhiteBetween(s, i + 3, FenceEnd(s, i))
  {
    WhitespaceEndWhite(s, i + 3);
  }

  /** A closing fence `\n---\s*\n` starts at `q`. */
  predicate ClosesAt(s: string, q: nat)
    requires q < |s|
  {
    s[q] == '\n' && FenceEnd(s, q + 1) != -1
  }

  /** The first closing fence at or after `i`: its start, and where the text after it starts. */
  function ClosingFence(s: string, i: nat): (r: Option<(nat, nat)>)
    requires i <= |s|
    ensures r.Some? ==> i <= r.value.0 < |s| && ClosesAt(s, r.value.0)
    ensures r.Some? ==> FenceEnd(s, r.value.0 + 1) == r.value.1 as int
    decreases |s| - i
  {
    if i == |s| then None
    else if ClosesAt(s, i) then Some((i, FenceEnd(s, i + 1) as nat))
    else ClosingFence(s, i + 1)
  }

  /** The two groups of `/^---\s*\n(.*?)\n---\s*\n(.*)$/s`: the front matter and the body. */
  function SplitFrontMatter(content: string): (r: Option<(string, string)>)
    ensures r.Some? ==> FenceAt(content, 0)
  {
    var p := FenceEnd(content, 0);
    if p == -1 then None
    else match ClosingFence(content, p)
      case None => None
      case Some((q, b)) => Some((content[p..q], content[b..]))
  }

  predicate IsQuote(c: char) {
    c == '"' || c == '\''
  }

  /** `replace(/^["']|["']$/g, "")`: one quote off the front, then one off the end of what is left. */
  function StripQuotes(v: string): (r: string)
    ensures |v| >= 2 && IsQuote(v[0]) && IsQuote(v[|v| - 1]) ==> r == v[1..|v| - 1]
    ensures (v == [] || (!IsQuote(v[0]) && !IsQuote(v[|v| - 1]))) ==> r == v
    ensures '\n' !in v ==> '\n' !in r
  {
    var a := if |v| > 0 && IsQuote(v[0]) then v[1..] else v;
    if |a| > 0 && IsQuote(a[|a| - 1]) then a[..|a| - 1] else a
  }

  /** A line without a break trims to a string without one. */
  lemma TrimKeepsNoBreak(s: string)
    ensures '\n' !in s ==> '\n' !in Trim(s)
  {
    var t := TrimStart(s);
    assert '\n' !in s ==> '\n' !in t;
  }

  /**
   * One front-matter line: when its first colon is not its first character,
   * the trimmed text before it is the key and the trimmed, unquoted text
   * after it the value.
   */
  function ParseLine(line: string): (r: Option<(string, string)>)
  {
    var ci := IndexOf(line, ":");
    if ci > 0 then Some((Trim(line[..ci]), StripQuotes(Trim(line[ci + 1..]))))
    else None
  }

  /** A line without a break gives a key and a value without one. */
  lemma ParseLineNoBreak(line: string)
    requires '\n' !in line && ParseLine(line).Some?
    ensures '\n' !in ParseLine(line).value.0 && '\n' !in ParseLine(line).value.1
  {
    var ci := IndexOf(line, ":");
    TrimKeepsNoBreak(line[..ci]);
    TrimKeepsNoBreak(line[ci + 1..]);
  }

  /** The metadata of a list of lines: each parsed line in turn, later keys overwriting earlier ones. */
  function MetadataOf(lines: seq<string>): map<string, string>
  {
    if lines == [] then map[]
    else
      var m := MetadataOf(lines[..|lines| - 1]);
      match ParseLine(lines[|lines| - 1])
      case None => m
      case Some((k, v)) => m[k := v]
  }

  /** Lines without breaks give keys and values without breaks. */
  lemma {:induction false} MetadataNoBreak(lines: seq<string>)
    requires forall i :: 0 <= i < |lines| ==> '\n' !in lines[i]
    ensures forall k :: k in MetadataOf(lines) ==> '\n' !in k && '\n' !in MetadataOf(lines)[k]
  {
    if lines != [] {
      MetadataNoBreak(lines[..|lines| - 1]);
      if ParseLine(lines[|lines| - 1]).Some? {
        ParseLineNoBreak(lines[|lines| - 1]);
      }
    }
  }

  /** One more line: its pair, if any, goes over the metadata of the lines before it. */
  lemma MetadataStep(lines: seq<string>, j: nat)
    requires j < |lines|
    ensures MetadataOf(lines[..j + 1]) == match ParseLine(lines[j])
                                          case None => MetadataOf(lines[..j])
                                          case Some((k, v)) => MetadataOf(lines[..j])[k := v]
  {
    assert lines[..j + 1][..j] == lines[..j];
  }

  /** One more line, in the terms of the loop: a colon after the first character adds or overwrites its key. */
  lemma MetadataLineStep(lines: seq<string>, j: nat)
    requires j < |lines|
    ensures var ci := IndexOf(lines[j], ":");
            MetadataOf(lines[..j + 1]) == if ci > 0
                                          then MetadataOf(lines[..j])[Trim(lines[j][..ci]) := StripQuotes(Trim(lines[j][ci + 1..]))]
                                          else MetadataOf(lines[..j])
  {
    MetadataStep(lines, j);
  }

  /** The loop of `parseSkillMd` that fills the metadata dictionary, line by line. */
  method ParseMetadata(frontmatter: string) returns (metadata: map<string, string>)
    ensures metadata == MetadataOf(Split(Trim(frontmatter), '\n'))
  {
    var lines := Split(Trim(frontmatter), '\n');
    metadata := map[];
    for j := 0 to |lines|
      invariant metadata == MetadataOf(lines[..j])
    {
      MetadataLineStep(lines, j);
      var line := lines[j];
      var colonIndex := IndexOf(line, ":");
      if colonIndex > 0 {
        var key := Trim(line[..colonIndex]);
        var value := StripQuotes(Trim(line[colonIndex + 1..]));
        metadata := metadata[key := value];
      }
    }
    assert lines[..|lines|] == lines;
  }

  /** `path.replace(/\/SKILL\.md$/, "")`. */
  function DirOf(path: string): (r: string)
    ensures EndsWith(path, SkillFileSuffix) ==> r + SkillFileSuffix == path
    ensures !EndsWith(path, SkillFileSuffix) ==> r == path
  {
    if EndsWith(path, SkillFileSuffix) then path[..|path| - |SkillFileSuffix|] else path
  }

  /** What every loaded skill satisfies: a name and a description, each on one line. */
  predicate WellFormed(s: Skill) {
    s.name != "" && s.description != "" && '\n' !in s.name && '\n' !in s.description
  }

  /** A metadata entry that is present and not empty (`!metadata.name` is false). */
  predicate HasField(metadata: map<string, string>, key: string) {
    key in metadata && metadata[key] != ""
  }

  /** The skill a front matter and a body describe: it needs a non-empty `name` and `description`. */
  function SkillOf(path: string, frontmatter: string, body: string): (r: Option<Skill>)
    ensures r.Some? ==> WellFormed(r.value) && r.value.path == path && r.value.dir == DirOf(path)
    ensures r.Some? ==> r.value.body == Trim(body)
  {
    var metadata := MetadataOf(Split(Trim(frontmatter), '\n'));
    if HasField(metadata, "name") && HasField(metadata, "description") then
      MetadataNoBreak(Split(Trim(frontmatter), '\n'));
      Some(Skill(metadata["name"], metadata["description"], Trim(body), path, DirOf(path)))
    else None
  }

  /** `parseSkillMd` on the file's text, `None` when there is no file. */
  function ParseSkill(path: string, file: Option<string>): (r: Option<Skill>)
    ensures file.None? ==> r.None?
    ensures file.Some? && SplitFrontMatter(file.value).None? ==> r.None?
    ensures r.Some? ==> WellFormed(r.value) && r.value.path == path && r.value.dir == DirOf(path)
    ensures r.Some? ==> r.value.body == Trim(SplitFrontMatter(file.value).value.1)
  {
    if file.None? then None
    else match SplitFrontMatter(file.value)
      case None => None
      case Some((frontmatter, body)) => SkillOf(path, frontmatter, body)
  }

  /** `parseSkillMd`, with the metadata loop. */
  method ParseSkillMd(path: string, file: Option<string>) returns (r: Option<Skill>)
    ensures r == ParseSkill(path, file)
  {
    if file.None? {
      return None;
    }
    var parts := SplitFrontMatter(file.value);
    if parts.None? {
      return None;
    }
    var metadata := ParseMetadata(parts.value.0);
    if !HasField(metadata, "name") || !HasField(metadata, "description") {
      return None;
    }
    r := Some(Skill(metadata["name"], metadata["description"], Trim(parts.value.1), path, DirOf(path)));
  }

  /** The text of a `SKILL.md` file with the given front matter and body. */
  function SkillFile(frontmatter: string, body: string): string {
    "---\n" + frontmatter + "\n---\n" + body
  }

  /** Front matter the match keeps whole: it starts with a non-blank character and no line of it starts with `-`. */
  predicate PlainFrontMatter(fm: string) {
    fm != "" && !IsWhitespace(fm[0]) && forall j :: 0 <= j < |fm| - 1 && fm[j] == '\n' ==> fm[j + 1] != '-'
  }

  /** The search for a closing fence stops at the first one. */
  lemma {:induction false} ClosingFenceFirst(s: string, i: nat, q: nat)
    requires i <= q < |s| && ClosesAt(s, q)
    requires forall k :: i <= k < q ==> !ClosesAt(s, k)
    ensures ClosingFence(s, i) == Some((q, FenceEnd(s, q + 1) as nat))
    decreases q - i
  {
    if i < q {
      ClosingFenceFirst(s, i + 1, q);
    }
  }

  /** Dropping leading whitespace does not change what `trimStart` gives. */
  lemma {:induction false} TrimStartSkips(s: string, k: nat)
    requires k <= |s| && WhiteBetween(s, 0, k)
    ensures TrimStart(s[k..]) == TrimStart(s)
    decreases k
  {
    if k > 0 {
      var t := s[1..];
      assert IsWhitespace(s[0]);
      assert TrimStart(s) == TrimStart(t);
      assert WhiteBetween(t, 0, k - 1) by {
        forall j | 0 <= j < k - 1
          ensures IsWhitespace(t[j])
        {
          assert t[j] == s[j + 1];
        }
      }
      TrimStartSkips(t, k - 1);
      assert t[k - 1..] == s[k..];
    } else {
      assert s[k..] == s;
    }
  }

  /** Dropping leading whitespace does not change what trimming gives. */
  lemma TrimSkipsWhitespace(s: string, k: nat)
    requires k <= |s| && WhiteBetween(s, 0, k)
    ensures Trim(s[k..]) == Trim(s)
  {
    TrimStartSkips(s, k);
  }

  /** The opening fence of a skill file ends after its first line. */
  lemma OpeningFence(fm: string, body: string)
    requires PlainFrontMatter(fm)
    ensures FenceEnd(SkillFile(fm, body), 0) == 4
  {
    var s := SkillFile(fm, body);
    assert FenceAt(s, 0) && s[3] == '\n' && s[4] == fm[0];
    assert WhitespaceEnd(s, 4) == 4;
  }

  /** Plain front matter holds no closing fence. */
  lemma NoFenceInside(fm: string, body: string)
    requires PlainFrontMatter(fm)
    ensures forall k :: 4 <= k < 4 + |fm| ==> !ClosesAt(SkillFile(fm, body), k)
  {
    var s := SkillFile(fm, body);
    var q := 4 + |fm|;
    forall k | 4 <= k < q
      ensures !ClosesAt(s, k)
    {
      assert s[k] == fm[k - 4];
      assert s[k + 1] == if k + 1 < q then fm[k - 3] else '\n';
    }
  }

  /** The line after the front matter closes it; the body follows the whitespace after it. */
  lemma ClosingLine(fm: string, body: string)
    ensures var s := SkillFile(fm, body);
            var q := 4 + |fm|;
            q < |s| && ClosesAt(s, q) && q + 5 <= FenceEnd(s, q + 1)
            && WhiteBetween(body, 0, FenceEnd(s, q + 1) - (q + 5))
            && s[FenceEnd(s, q + 1)..] == body[FenceEnd(s, q + 1) - (q + 5)..]
  {
    var s := SkillFile(fm, body);
    var q := 4 + |fm|;
    assert s[q..q + 5] == "\n---\n";
    assert FenceAt(s, q + 1);
    assert WhitespaceEnd(s, q + 4) >= q + 5;
    AfterLastBreakIsLast(s, q + 4, WhitespaceEnd(s, q + 4));
    var b := FenceEnd(s, q + 1) as nat;
    assert s[q + 5..] == body;
    FenceEndWhitespace(s, q + 1);
    forall k | 0 <= k < b - (q + 5)
      ensures IsWhitespace(body[k])
    {
      assert body[k] == s[q + 5 + k];
    }
    assert s[b..] == body[b - (q + 5)..];
  }

  /** Where the match's pieces lie decides what the split gives. */
  lemma SplitAt(s: string, q: nat, b: nat)
    requires 4 <= q < |s| && FenceEnd(s, 0) == 4
    requires forall k :: 4 <= k < q ==> !ClosesAt(s, k)
    requires ClosesAt(s, q) && FenceEnd(s, q + 1) == b as int
    ensures SplitFrontMatter(s) == Some((s[4..q], s[b..]))
  {
    ClosingFenceFirst(s, 4, q);
  }

  /** The split of a text whose fences lie at 0 and `q`, with blank lines before the body. */
  lemma SplitBeforeBody(s: string, fm: string, body: string, q: nat, b: nat)
    requires 4 <= q < |s| && FenceEnd(s, 0) == 4 && s[4..q] == fm
    requires forall k :: 4 <= k < q ==> !ClosesAt(s, k)
    requires ClosesAt(s, q) && FenceEnd(s, q + 1) == b as int
    requires q + 5 <= b && b - (q + 5) <= |body| && WhiteBetween(body, 0, b - (q + 5))
    requires s[b..] == body[b - (q + 5)..]
    ensures var r := SplitFrontMatter(s);
            r.Some? && r.value.0 == fm && Trim(r.value.1) == Trim(body)
  {
    SplitAt(s, q, b);
    var k := b - (q + 5);
    var rest := body[k..];
    assert SplitFrontMatter(s) == Some((fm, rest));
    TrimSkipsWhitespace(body, k);
    assert Trim(rest) == Trim(body);
  }

  /** A file with plain front matter splits into that front matter and its body, up to blank lines before the body. */
  lemma SplitSkillFile(fm: string, body: string)
    requires PlainFrontMatter(fm)
    ensures var r := SplitFrontMatter(SkillFile(fm, body));
            r.Some? && r.value.0 == fm && Trim(r.value.1) == Trim(body)
  {
    var s := SkillFile(fm, body);
    var q := 4 + |fm|;
    OpeningFence(fm, body);
    NoFenceInside(fm, body);
    ClosingLine(fm, body);
    assert s[4..q] == fm;
    SplitBeforeBody(s, fm, body, q, FenceEnd(s, q + 1) as nat);
  }

  /** A metadata value that reads back as written: one line, not blank at either end, not quoted. */
  predicate CleanValue(v: string) {
    v != "" && '\n' !in v && !IsWhitespace(v[0]) && !IsWhitespace(v[|v| - 1])
    && !IsQuote(v[0]) && !IsQuote(v[|v| - 1])
  }

  /** A string that is not blank at either end trims to itself. */
  lemma TrimUnblank(v: string)
    requires v != "" && !IsWhitespace(v[0]) && !IsWhitespace(v[|v| - 1])
    ensures Trim(v) == v
  {
  }

  /** The first colon of `key + ":" + rest` is the one after the key when the key has none. */
  lemma FirstColon(key: string, rest: string)
    requires ':' !in key
    ensures IndexOf(key + ":" + rest, ":") == |key|
  {
    var line := key + ":" + rest;
    assert IsAt(line, ":", |key|);
    forall j | 0 <= j < |key|
      ensures !IsAt(line, ":", j)
    {
      assert line[j] == key[j];
    }
  }

  /** A key that reads back as written: not empty, no colon, not blank at either end. */
  predicate CleanKey(k: string) {
    k != "" && ':' !in k && '\n' !in k && !IsWhitespace(k[0]) && !IsWhitespace(k[|k| - 1])
  }

  /** The line `key: value` of a front matter. */
  function FieldLine(key: string, v: string): string {
    key + ": " + v
  }

  /** `key: value` parses to the key and the value. */
  lemma ParseFieldLine(key: string, v: string)
    requires CleanKey(key) && CleanValue(v)
    ensures ParseLine(FieldLine(key, v)) == Some((key, v))
  {
    var line := key + ": " + v;
    assert line == key + ":" + (" " + v);
    FirstColon(key, " " + v);
    assert line[..|key|] == key;
    assert line[|key| + 1..] == " " + v;
    TrimUnblank(key);
    TrimSpaceBefore(v);
  }

  /** A value after the colon's space trims to itself. */
  lemma TrimSpaceBefore(v: string)
    requires CleanValue(v)
    ensures Trim(" " + v) == v
  {
    assert (" " + v)[1..] == v;
    assert TrimStart(" " + v) == TrimStart(v);
    TrimUnblank(v);
  }

  /** Two parsed lines: the second one's pair goes over the first one's. */
  lemma MetadataOfPair(lines: seq<string>, p: (string, string), q: (string, string))
    requires |lines| == 2 && ParseLine(lines[0]) == Some(p) && ParseLine(lines[1]) == Some(q)
    ensures MetadataOf(lines) == map[p.0 := p.1][q.0 := q.1]
  {
    var first := MetadataOf(lines[..1]);
    assert first == map[p.0 := p.1] by {
      MetadataPairStep(lines, 0, p);
      EmptyMetadata(lines[..0]);
    }
    MetadataPairStep(lines, 1, q);
    assert lines[..2] == lines;
  }

  /** No lines, no metadata. */
  lemma EmptyMetadata(lines: seq<string>)
    requires |lines| == 0
    ensures MetadataOf(lines) == map[]
  {
  }

  /** A parsed line puts its pair over the metadata of the lines before it. */
  lemma MetadataPairStep(lines: seq<string>, j: nat, p: (string, string))
    requires j < |lines| && ParseLine(lines[j]) == Some(p)
    ensures MetadataOf(lines[..j + 1]) == MetadataOf(lines[..j])[p.0 := p.1]
  {
    MetadataStep(lines, j);
  }

  /** The front matter holding a name and a description. */
  function FrontMatterOf(name: string, description: string): string {
    FieldLine("name", name) + "\n" + FieldLine("description", description)
  }

  /** Such front matter has two lines, the name's and the description's. */
  lemma FrontMatterLines(name: string, description: string)
    requires CleanValue(name) && CleanValue(description)
    ensures PlainFrontMatter(FrontMatterOf(name, description))
    ensures Trim(FrontMatterOf(name, description)) == FrontMatterOf(name, description)
    ensures Split(FrontMatterOf(name, description), '\n') == [FieldLine("name", name), FieldLine("description", description)]
  {
    var a, b := FieldLine("name", name), FieldLine("description", description);
    assert a == "name: " + name && b == "description: " + description;
    var fm := FrontMatterOf(name, description);
    assert fm == a + "\n" + b;
    assert '\n' !in a && '\n' !in b;
    forall j | 0 <= j < |fm| && j != |a|
      ensures fm[j] != '\n'
    {
      if j < |a| {
        assert fm[j] == a[j];
      } else {
        assert fm[j] == b[j - |a| - 1];
      }
    }
    assert fm[|a| + 1] == 'd';
    assert fm[|fm| - 1] == description[|description| - 1];
    TrimUnblank(fm);
    assert Join([a, b], "\n") == fm;
    SplitJoin([a, b], '\n');
  }

  /** A file whose split and metadata are known parses to the skill they name. */
  lemma ParseSkillFrom(path: string, file: string, fm: string, rest: string, name: string, description: string)
    requires SplitFrontMatter(file) == Some((fm, rest))
    requires MetadataOf(Split(Trim(fm), '\n')) == map["name" := name, "description" := description]
    requires name != "" && description != ""
    ensures ParseSkill(path, Some(file)) == Some(Skill(name, description, Trim(rest), path, DirOf(path)))
  {
    var metadata := MetadataOf(Split(Trim(fm), '\n'));
    NameAndDescription(name, description);
    assert metadata["name"] == name && metadata["description"] == description;
    assert SkillOf(path, fm, rest) == Some(Skill(name, description, Trim(rest), path, DirOf(path)));
    assert ParseSkill(path, Some(file)) == SkillOf(path, fm, rest);
  }

  /** The two fields of a metadata table that holds exactly a name and a description. */
  lemma NameAndDescription(name: string, description: string)
    ensures var m := map["name" := name, "description" := description];
            "name" in m && m["name"] == name && "description" in m && m["description"] == description
  {
    assert "name" != "description";
  }

  /** The metadata of a written front matter holds its name and its description. */
  lemma WrittenMetadata(name: string, description: string)
    requires CleanValue(name) && CleanValue(description)
    ensures MetadataOf(Split(Trim(FrontMatterOf(name, description)), '\n'))
            == map["name" := name, "description" := description]
  {
    var fm := FrontMatterOf(name, description);
    FrontMatterLines(name, description);
    var lines := Split(Trim(fm), '\n');
    var x, y := FieldLine("name", name), FieldLine("description", description);
    assert lines == [x, y];
    assert CleanKey("name") && CleanKey("description");
    ParseFieldLine("name", name);
    ParseFieldLine("description", description);
    assert ParseLine(lines[0]) == Some(("name", name));
    assert ParseLine(lines[1]) == Some(("description", description));
    MetadataOfPair(lines, ("name", name), ("description", description));
  }

  /**
   * A skill file written from a name, a description and a body parses back
   * to that name and description and the trimmed body.
   */
  lemma ParseWrittenSkill(name: string, description: string, body: string, path: string)
    requires CleanValue(name) && CleanValue(description)
    ensures ParseSkill(path, Some(SkillFile(FrontMatterOf(name, description), body)))
            == Some(Skill(name, description, Trim(body), path, DirOf(path)))
  {
    var fm := FrontMatterOf(name, description);
    var file := SkillFile(fm, body);
    FrontMatterLines(name, description);
    SplitSkillFile(fm, body);
    var rest := SplitFrontMatter(file).value.1;
    WrittenMetadata(name, description);
    ParseSkillFrom(path, file, fm, rest, name, description);
  }

  /** An entry of the skills folder: its name and the text of its `SKILL.md`, `None` when there is none or it cannot be read. */
  datatype DirEntry = DirEntry(name: string, file: Option<string>)

  /** The path of an entry's `SKILL.md`; its folder is the entry's folder. */
  function SkillPath(skillsDir: string, entry: string): (r: string)
    ensures DirOf(r) == skillsDir + "/" + entry
  {
    var dir := skillsDir + "/" + entry;
    var r := dir + SkillFileSuffix;
    assert r[|r| - |SkillFileSuffix|..] == SkillFileSuffix;
    assert r[..|r| - |SkillFileSuffix|] == dir;
    r
  }

  /** The skill an entry of the skills folder holds, if any. */
  function EntrySkill(skillsDir: string, e: DirEntry): Option<Skill> {
    ParseSkill(SkillPath(skillsDir, e.name), e.file)
  }

  /** The skills the entries hold, entry by entry. */
  function Found(skillsDir: string, entries: seq<DirEntry>): (r: seq<Option<Skill>>)
    ensures |r| == |entries|
    ensures forall i :: 0 <= i < |r| ==> r[i] == EntrySkill(skillsDir, entries[i])
    ensures forall i :: 0 <= i < |r| && r[i].Some? ==> WellFormed(r[i].value)
  {
    seq(|entries|, i requires 0 <= i < |entries| => EntrySkill(skillsDir, entries[i]))
  }

  /** A table of loaded skills: each stored under its own name, each well formed. */
  ghost predicate TableValid(t: OMap<string, Skill>) {
    t.Valid() && forall k :: k in t.values ==> t.values[k].name == k && WellFormed(t.values[k])
  }

  /** The table after putting in the skills found, in order, each under its name. */
  function Insert(t: OMap<string, Skill>, found: seq<Option<Skill>>): OMap<string, Skill>
  {
    if found == [] then t
    else
      var m := Insert(t, found[..|found| - 1]);
      match found[|found| - 1]
      case None => m
      case Some(s) => m.Set(s.name, s)
  }

  lemma InsertStep(t: OMap<string, Skill>, found: seq<Option<Skill>>, j: nat)
    requires j < |found|
    ensures Insert(t, found[..j + 1]) == match found[j]
                                        case None => Insert(t, found[..j])
                                        case Some(s) => Insert(t, found[..j]).Set(s.name, s)
  {
    assert found[..j + 1][..j] == found[..j];
  }

  /** Putting in well-formed skills keeps a table valid. */
  lemma {:induction false} InsertValid(t: OMap<string, Skill>, found: seq<Option<Skill>>)
    requires TableValid(t)
    requires forall i :: 0 <= i < |found| && found[i].Some? ==> WellFormed(found[i].value)
    ensures TableValid(Insert(t, found))
  {
    if found != [] {
      var init := found[..|found| - 1];
      forall i | 0 <= i < |init| && init[i].Some?
        ensures WellFormed(init[i].value)
      {
        assert init[i] == found[i];
      }
      InsertValid(t, init);
      var m := Insert(t, init);
      match found[|found| - 1]
      case None =>
      case Some(s) =>
        m.SetValid(s.name, s);
    }
  }

  /** The names already there keep their places; new names follow them. */
  lemma {:induction false} InsertKeepsOrder(t: OMap<string, Skill>, found: seq<Option<Skill>>)
    ensures t.keys <= Insert(t, found).keys
  {
    if found != [] {
      InsertKeepsOrder(t, found[..|found| - 1]);
    }
  }

  /** A skill found is kept unless a later one has the same name. */
  lemma {:induction false} InsertLastWins(t: OMap<string, Skill>, found: seq<Option<Skill>>, i: nat, s: Skill)
    requires i < |found| && found[i] == Some(s)
    requires forall j :: i < j < |found| && found[j].Some? ==> found[j].value.name != s.name
    ensures Insert(t, found).Get(s.name) == Some(s)
  {
    var n := |found| - 1;
    var init := found[..n];
    if i < n {
      forall j | i < j < |init| && init[j].Some?
        ensures init[j].value.name != s.name
      {
        assert init[j] == found[j];
      }
      assert init[i] == found[i];
      InsertLastWins(t, init, i, s);
    }
  }

  /** Every skill in the table was there before or was found. */
  lemma {:induction false} InsertOnlyFound(t: OMap<string, Skill>, found: seq<Option<Skill>>, k: string)
    requires k in Insert(t, found).values
    ensures (k in t.values && Insert(t, found).values[k] == t.values[k])
            || Some(Insert(t, found).values[k]) in found
  {
    if found != [] {
      var n := |found| - 1;
      var init := found[..n];
      var m := Insert(t, init);
      var r := Insert(t, found);
      if found[n].Some? && found[n].value.name == k {
        assert found[n] == Some(r.values[k]);
      } else {
        assert r.values[k] == m.values[k];
        InsertOnlyFound(t, init, k);
        if !(k in t.values && m.values[k] == t.values[k]) {
          var j :| 0 <= j < |init| && init[j] == Some(m.values[k]);
          assert found[j] == init[j];
        }
      }
    }
  }

  /** A line of `getDescriptions`. */
  function DescriptionLine(name: string, s: Skill): string {
    "- " + name + ": " + s.description
  }

  /** The lines of `getDescriptions`, one per skill in the table's order. */
  function DescriptionLines(t: OMap<string, Skill>): (r: seq<string>)
    requires t.Valid()
    ensures |r| == t.Size()
    ensures forall i :: 0 <= i < |r| ==> r[i] == DescriptionLine(t.keys[i], t.values[t.keys[i]])
  {
    var skills := t.ValueList();
    seq(|skills|, i requires 0 <= i < |skills| => DescriptionLine(t.keys[i], skills[i]))
  }

  /** A description line of a well-formed skill is one line. */
  lemma DescriptionLineNoBreak(name: string, s: Skill)
    requires '\n' !in name && WellFormed(s)
    ensures '\n' !in DescriptionLine(name, s)
  {
  }

  /**
   * The skill loader: the folder it scans and the skills it has loaded,
   * by name, in the order their names were first loaded.
   */
  class SkillLoader {
    const skillsDir: string
    var skills: OMap<string, Skill>

    ghost predicate Valid()
      reads this
    {
      TableValid(skills)
    }

    constructor(skillsDir: string)
      ensures Valid() && this.skillsDir == skillsDir && skills == Empty()
    {
      this.skillsDir := skillsDir;
      skills := Empty();
    }

    /**
     * `load`: every entry of the folder in the order given, each skill under
     * its name. The folder listing is the parameter; a folder that cannot be
     * listed is an empty one.
     */
    method Load(entries: seq<DirEntry>)
      requires Valid()
      modifies this
      ensures Valid()
      ensures skills == Insert(old(skills), Found(skillsDir, entries))
    {
      ghost var found := Found(skillsDir, entries);
      var i := 0;
      while i < |entries|
        invariant 0 <= i <= |entries|
        invariant TableValid(skills)
        invariant skills == Insert(old(skills), found[..i])
      {
        LoadEntry(entries[i]);
        InsertStep(old(skills), found, i);
        i := i + 1;
      }
      assert found[..|entries|] == found;
    }

    /** One pass of the loop of `load`: the entry's skill, if it has one, goes in under its name. */
    method LoadEntry(entry: DirEntry)
      requires Valid()
      modifies this
      ensures Valid()
      ensures skills == match EntrySkill(skillsDir, entry)
                        case None => old(skills)
                        case Some(s) => old(skills).Set(s.name, s)
    {
      var skill := ParseSkillMd(SkillPath(skillsDir, entry.name), entry.file);
      Put(skill);
    }

    /** `this.skills.set(skill.name, skill)` when a skill was parsed. */
    method Put(skill: Option<Skill>)
      requires Valid() && (skill.Some? ==> WellFormed(skill.value))
      modifies this
      ensures Valid()
      ensures skills == match skill
                        case None => old(skills)
                        case Some(s) => old(skills).Set(s.name, s)
    {
      if skill.Some? {
        var s := skill.value;
        skills.SetValid(s.name, s);
        skills := skills.Set(s.name, s);
      }
    }

    /** `getDescriptions`: the sentinel for no skills, else one `- name: description` line per skill. */
    function GetDescriptions(): (r: string)
      reads this
      requires Valid()
      ensures skills.Size() == 0 ==> r == NoSkillsText
      ensures skills.Size() > 0 ==> Split(r, '\n') == DescriptionLines(skills)
    {
      if skills.Size() == 0 then NoSkillsText
      else
        var lines := DescriptionLines(skills);
        forall i | 0 <= i < |lines|
          ensures '\n' !in lines[i]
        {
          DescriptionLineNoBreak(skills.keys[i], skills.values[skills.keys[i]]);
        }
        SplitJoin(lines, '\n');
        Join(lines, "\n")
    }

    /** The sentinel is returned exactly when there are no skills. */
    lemma NoSkillsIff()
      requires Valid()
      ensures GetDescriptions() == NoSkillsText <==> skills.Size() == 0
    {
      if skills.Size() > 0 {
        var lines := DescriptionLines(skills);
        JoinStartsWithFirst(lines, "\n");
        assert lines[0][0] == '-';
        assert GetDescriptions()[0] == '-';
      }
    }

    /** `getSkillContent`: `None` for an unknown name, else the heading with the name and then the body. */
    function GetSkillContent(name: string): (r: Option<string>)
      reads this
      requires Valid()
      ensures r.None? <==> !skills.Has(name)
      ensures r.Some? ==> r.value == SkillHeading + name + "\n\n" + skills.values[name].body
    {
      match skills.Get(name)
      case None => None
      case Some(skill) => Some(SkillHeading + skill.name + "\n\n" + skill.body)
    }

    /** `listSkills`: each name once, in the table's order. */
    function ListSkills(): (r: seq<string>)
      reads this
      requires Valid()
      ensures forall k :: k in r <==> skills.Has(k)
      ensures Distinct(r)
      ensures r == skills.keys
    {
      skills.keys
    }

    /** `count`: the number of skills, which is the length of `listSkills`. */
    function Count(): (n: nat)
      reads this
      requires Valid()
      ensures n == |ListSkills()| && n == |skills.values|
    {
      skills.SizeIsCard();
      skills.Size()
    }
  }
}
