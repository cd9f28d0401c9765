/** The skills table and its queries. */
module Skills {
  import opened Wrappers
  import opened Seqs

  /** A proficiency level: the type admits 1 to 5 only. */
  type Level = l: int | 1 <= l <= 5 witness 1

  /** `Skill`; `icon` and `featured` are optional properties. */
  datatype Skill = Skill(name: string, level: Level, icon: Option<string>, featured: Option<bool>)

  datatype SkillCategory = SkillCategory(key: string, skills: seq<Skill>)

  const Backend: SkillCategory := SkillCategory("backend", [
    Skill("Symfony", 5, None, Some(true)),
    Skill("Laravel", 5, None, Some(true)),
    Skill("PHP", 5, None, None),
    Skill("Node.js", 3, None, None)])

  const Frontend: SkillCategory := SkillCategory("frontend", [
    Skill("React", 4, None, Some(true)),
    Skill("Next.js", 4, None, Some(true)),
    Skill("TypeScript", 4, None, None),
    Skill("JavaScript", 5, None, None),
    Skill("Angular", 3, None, None),
    Skill("Tailwind CSS", 5, None, None),
    Skill("Bootstrap", 4, None, None),
    Skill("HTML/CSS", 5, None, None),
    Skill("TWIG", 4, None, None)])

  const MobileSkills: SkillCategory := SkillCategory("mobile", [
    Skill("Android Studio", 4, None, Some(true)),
    Skill("Java (Android)", 4, None, None)])

  const Database: SkillCategory := SkillCategory("database", [
    Skill("MySQL", 5, None, Some(true)),
    Skill("PostgreSQL", 4, None, None),
    Skill("SQL", 5, None, None),
    Skill("NoSQL", 3, None, None),
    Skill("Supabase", 3, None, None)])

  const DevOpsSkills: SkillCategory := SkillCategory("devops", [
    Skill("Docker", 4, None, Some(true)),
    Skill("Git", 5, None, Some(true)),
    Skill("GitHub", 5, None, None),
    Skill("CI/CD", 3, None, None),
    Skill("Linux", 4, None, None)])

  const Languages: SkillCategory := SkillCategory("languages", [
    Skill("C++", 4, None, None),
    Skill("C", 3, None, None),
    Skill("Python", 3, None, None),
    Skill("Java", 4, None, None)])

  /** `skillCategories`. */
  const SkillCategories: seq<SkillCategory> :=
    [Backend, Frontend, MobileSkills, Database, DevOpsSkills, Languages]

  /** No two categories of the table share a key. */
  lemma CategoryKeysDistinct()
    ensures forall i, j :: 0 <= i < j < |SkillCategories| ==> SkillCategories[i].key != SkillCategories[j].key
  {
    assert |Backend.key| == 7 && |Frontend.key| == 8 && |MobileSkills.key| == 6;
    assert |Database.key| == 8 && |DevOpsSkills.key| == 6 && |Languages.key| == 9;
    assert Frontend.key[0] != Database.key[0] && MobileSkills.key[0] != DevOpsSkills.key[0];
  }

  /** The skill list of each category, in category order. */
  function SkillLists(cats: seq<SkillCategory>): (r: seq<seq<Skill>>)
    ensures |r| == |cats| && forall i :: 0 <= i < |cats| ==> r[i] == cats[i].skills
  {
    if cats == [] then [] else [cats[0].skills] + SkillLists(cats[1..])
  }

  /** Where the skills of category `i` start in the flattened list: the skill count of the categories before it. */
  function Offset(cats: seq<SkillCategory>, i: nat): nat
    requires i <= |cats|
  {
    TotalLength(SkillLists(cats)[..i])
  }

  /** The skills of category `i` sit in the flattened lists at the category's offset. */
  lemma SkillBlocks(cats: seq<SkillCategory>)
    ensures forall i :: 0 <= i < |cats| ==>
      Offset(cats, i) + |cats[i].skills| <= |Flatten(SkillLists(cats))| &&
      Flatten(SkillLists(cats))[Offset(cats, i) .. Offset(cats, i) + |cats[i].skills|] == cats[i].skills
  {
    var lists := SkillLists(cats);
    forall i | 0 <= i < |cats|
      ensures Offset(cats, i) + |cats[i].skills| <= |Flatten(lists)|
      ensures Flatten(lists)[Offset(cats, i) .. Offset(cats, i) + |cats[i].skills|] == cats[i].skills
    {
      FlattenBlock(lists, i);
    }
  }

  /** A skill is in the flattened lists exactly when some category has it. */
  lemma SkillMembers(cats: seq<SkillCategory>)
    ensures forall s :: s in Flatten(SkillLists(cats)) <==> exists i :: 0 <= i < |cats| && s in cats[i].skills
  {
    var lists := SkillLists(cats);
    forall s
      ensures s in Flatten(lists) <==> exists i :: 0 <= i < |cats| && s in cats[i].skills
    {
      FlattenMembers(lists, s);
      if exists i :: 0 <= i < |cats| && s in cats[i].skills {
        var i :| 0 <= i < |cats| && s in cats[i].skills;
        assert s in lists[i];
      }
    }
  }

  /**
   * `cats.flatMap((category) => category.skills)`: the skill lists one after another, in
   * category order, each category's skills at its offset, and nothing else.
   */
  function FlatSkills(cats: seq<SkillCategory>): (r: seq<Skill>)
    ensures |r| == TotalLength(SkillLists(cats))
    ensures forall i :: 0 <= i < |cats| ==>
      Offset(cats, i) + |cats[i].skills| <= |r| &&
      r[Offset(cats, i) .. Offset(cats, i) + |cats[i].skills|] == cats[i].skills
    ensures forall s :: s in r <==> exists i :: 0 <= i < |cats| && s in cats[i].skills
  {
    SkillBlocks(cats);
    SkillMembers(cats);
    Flatten(SkillLists(cats))
  }

  /**
   * `getAllSkills()`: each category's skills, in table order, at the category's offset, and
   * no skill that no category lists.
   */
  function GetAllSkills(): (r: seq<Skill>)
    ensures forall i :: 0 <= i < |SkillCategories| ==>
      Offset(SkillCategories, i) + |SkillCategories[i].skills| <= |r| &&
      r[Offset(SkillCategories, i) .. Offset(SkillCategories, i) + |SkillCategories[i].skills|] == SkillCategories[i].skills
    ensures forall s :: s in r <==> exists i :: 0 <= i < |SkillCategories| && s in SkillCategories[i].skills
  {
    FlatSkills(SkillCategories)
  }

  /** The table lists 29 skills. */
  lemma SkillCount()
    ensures |GetAllSkills()| == 29
  {
    var lists := SkillLists(SkillCategories);
    assert lists[..1][..0] == [];
    assert TotalLength(lists[..1]) == 4;
    assert lists[..2][..1] == lists[..1];
    assert TotalLength(lists[..2]) == 13;
    assert lists[..3][..2] == lists[..2];
    assert TotalLength(lists[..3]) == 15;
    assert lists[..4][..3] == lists[..3];
    assert TotalLength(lists[..4]) == 20;
    assert lists[..5][..4] == lists[..4];
    assert TotalLength(lists[..5]) == 25;
    assert lists[..6][..5] == lists[..5] && lists[..6] == lists;
  }

  /**
   * `getFeaturedSkills()`: exactly the skills whose `featured` flag is `true`, in table order;
   * a skill without the flag is not featured.
   */
  function GetFeaturedSkills(): (r: seq<Skill>)
    ensures forall s :: s in r <==> s in GetAllSkills() && s.featured == Some(true)
    ensures forall s :: multiset(r)[s] == if s.featured == Some(true) then multiset(GetAllSkills())[s] else 0
    ensures IsSubsequence(r, GetAllSkills())
  {
    Filter((s: Skill) => s.featured == Some(true), GetAllSkills())
  }
}
