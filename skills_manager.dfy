// The skill list and skill editor of the admin dashboard: the search over the
// name and the optional category, the defaults of a new skill and its
// required fields.
module SkillsManager {
  import opened Wrappers
  import Seqs
  import Text
  import Entities
  import AdminManager

  /** `category?.toLowerCase().includes(…)`: a skill without a category is
      searched by its name alone. */
  predicate SkillMatches(s: Entities.Skill, query: string)
  {
    AdminManager.Mentions(s.name, query)
    || (s.category.Some? && AdminManager.Mentions(s.category.value, query))
  }

  function FilteredSkills(skills: seq<Entities.Skill>, query: string): seq<Entities.Skill>
  {
    Seqs.Filter(skills, s => SkillMatches(s, query))
  }

  lemma FilteredSkillsExact(skills: seq<Entities.Skill>, query: string, s: Entities.Skill)
    ensures s in FilteredSkills(skills, query) <==>
      s in skills
      && (AdminManager.Mentions(s.name, query)
          || (s.category.Some? && AdminManager.Mentions(s.category.value, query)))
  {
    AdminManager.FilterExact(skills, s => SkillMatches(s, query), s);
  }

  lemma FilteredSkillsAppend(a: seq<Entities.Skill>, b: seq<Entities.Skill>, query: string)
    ensures FilteredSkills(a + b, query) == FilteredSkills(a, query) + FilteredSkills(b, query)
  {
    Seqs.FilterAppend(a, b, s => SkillMatches(s, query));
  }

  lemma EmptyQueryKeepsAllSkills(skills: seq<Entities.Skill>)
    ensures FilteredSkills(skills, "") == skills
  {
    forall k | 0 <= k < |skills| ensures SkillMatches(skills[k], "") {
      AdminManager.EmptyQueryMentioned(skills[k].name);
    }
    Seqs.FilterAll(skills, s => SkillMatches(s, ""));
  }

  /** The id of a skill created at clock value `now`: `skill-<now>`. */
  function NewSkillId(now: nat): (id: string)
    ensures |id| > 6 && id[..6] == "skill-" && Text.DecimalValue(id[6..]) == now
  {
    Text.DecimalRoundTrip(now);
    "skill-" + Text.NatToString(now)
  }

  lemma NewSkillIdsDistinct(m: nat, n: nat)
    requires m != n
    ensures NewSkillId(m) != NewSkillId(n)
  {
  }

  /** A new skill: clock id, empty name and icon, empty category. */
  function NewSkill(now: nat): Entities.Skill
  {
    Entities.Skill(NewSkillId(now), "", "", Some(""))
  }

  datatype Field = Name | Category | Icon

  class SkillEditor {
    var formData: Entities.Skill

    constructor (skill: Option<Entities.Skill>, now: nat)
      ensures formData == (if skill.Some? then skill.value else NewSkill(now))
    {
      formData := if skill.Some? then skill.value else NewSkill(now);
    }

    /** `{ ...formData, [field]: value }`. */
    method HandleChange(f: Field, value: string)
      modifies this
      ensures f == Name ==> formData == old(formData).(name := value)
      ensures f == Category ==> formData == old(formData).(category := Some(value))
      ensures f == Icon ==> formData == old(formData).(icon := value)
    {
      match f
      case Name => formData := formData.(name := value);
      case Category => formData := formData.(category := Some(value));
      case Icon => formData := formData.(icon := value);
    }

    /** The skill handed to `onSave`, or None (an alert) when the name or the
        icon is empty; the category may be empty. */
    method HandleSubmit() returns (saved: Option<Entities.Skill>)
      ensures saved.Some? <==> formData.name != "" && formData.icon != ""
      ensures saved.Some? ==> saved.value == formData
    {
      if formData.name == "" || formData.icon == "" {
        return None;
      }
      return Some(formData);
    }
  }

  /** A new skill is accepted once a name and an icon are filled in, whatever
      its category, and it carries the clock id. */
  method CreateSkill(now: nat, name: string, icon: string) returns (saved: Option<Entities.Skill>)
    ensures saved.Some? <==> name != "" && icon != ""
    ensures saved.Some? ==> saved.value == Entities.Skill(NewSkillId(now), name, icon, Some(""))
  {
    var editor := new SkillEditor(None, now);
    editor.HandleChange(Name, name);
    editor.HandleChange(Icon, icon);
    saved := editor.HandleSubmit();
  }
}
