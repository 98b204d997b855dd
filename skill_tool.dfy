/**
 * The `Skill` tool handler of src/tools/handlers/skill.ts: it looks a skill
 * up in the loader and wraps its content in `<skill-loaded>` tags, or
 * answers with the names that can be loaded.
 */
module SkillTool {
  import opened Wrappers
  import opened Strings
  import opened Skills

  const UnknownSkillPrefix: string := "错误：未知的技能 '"
  const AvailableLabel: string := "'。可用技能："
  const NoneAvailable: string := "无"
  const ClosingTag: string := "\n</skill-loaded>\n\n按照上面技能的说明完成用户的任务。\n"

  /** The opening tag, which names the skill. */
  function OpeningTag(name: string): string {
    "<skill-loaded name=\"" + name + "\">\n"
  }

  /** `names.join(", ") || "无"`: the fallback is taken only for no names, as long as no name is empty. */
  function Available(names: seq<string>): (r: string)
    ensures names == [] ==> r == NoneAvailable
    ensures names != [] && (forall i :: 0 <= i < |names| ==> names[i] != "") ==> r == Join(names, ", ")
  {
    JoinEmptyIff(names, ", ");
    var joined := Join(names, ", ");
    if joined == "" then NoneAvailable else joined
  }

  /**
   * `loadSkill`: the wrapped content of a known skill, or the error naming
   * the unknown one and listing the loaded ones. The loader is only read.
   */
  function LoadSkill(loader: SkillLoader, skillName: string): (r: string)
    reads loader
    requires loader.Valid()
    ensures !loader.skills.Has(skillName) ==>
              r == UnknownSkillPrefix + skillName + AvailableLabel + Available(loader.ListSkills())
    ensures loader.skills.Has(skillName) ==>
              r == OpeningTag(skillName) + loader.GetSkillContent(skillName).value + ClosingTag
  {
    match loader.GetSkillContent(skillName)
    case None => UnknownSkillPrefix + skillName + AvailableLabel + Available(loader.ListSkills())
    case Some(content) => OpeningTag(skillName) + content + ClosingTag
  }

  /** Loaded names are never empty, so an unknown skill's answer lists every loaded name, or `无` when there is none. */
  lemma UnknownListsNames(loader: SkillLoader, skillName: string)
    requires loader.Valid() && !loader.skills.Has(skillName)
    ensures loader.Count() == 0 ==> LoadSkill(loader, skillName) == UnknownSkillPrefix + skillName + AvailableLabel + NoneAvailable
    ensures loader.Count() > 0 ==>
              LoadSkill(loader, skillName) == UnknownSkillPrefix + skillName + AvailableLabel + Join(loader.ListSkills(), ", ")
  {
    var names := loader.ListSkills();
    forall i | 0 <= i < |names|
      ensures names[i] != ""
    {
      assert loader.skills.values[names[i]].name == names[i];
    }
  }

  /** The skill's content stands verbatim between the tags. */
  lemma ContentBetweenTags(loader: SkillLoader, skillName: string)
    requires loader.Valid() && loader.skills.Has(skillName)
    ensures var r := LoadSkill(loader, skillName);
            var open := OpeningTag(skillName);
            |open| + |ClosingTag| <= |r| && StartsWith(r, open) && EndsWith(r, ClosingTag)
            && r[|open|..|r| - |ClosingTag|] == loader.GetSkillContent(skillName).value
  {
    var r := LoadSkill(loader, skillName);
    var open := OpeningTag(skillName);
    var content := loader.GetSkillContent(skillName).value;
    assert r == open + content + ClosingTag;
    assert r[..|open|] == open;
    assert r[|r| - |ClosingTag|..] == ClosingTag;
    assert r[|open|..|r| - |ClosingTag|] == content;
  }

  /** A loaded skill and an unknown one cannot be told apart by nothing: their answers start differently. */
  lemma AnswersDiffer(loader: SkillLoader, skillName: string)
    requires loader.Valid()
    ensures loader.skills.Has(skillName) <==> LoadSkill(loader, skillName)[0] == '<'
  {
    var r := LoadSkill(loader, skillName);
    if loader.skills.Has(skillName) {
      assert r[0] == OpeningTag(skillName)[0];
    } else {
      assert r[0] == UnknownSkillPrefix[0];
    }
  }
}
