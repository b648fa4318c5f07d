/**
 * The SkillsManager editor component: its form state (`skillForm`, `isEditing`) and its
 * handlers. The list the component edits (`data`) and the save callback (`onSave`)
 * belong to its parent: the list is a parameter of each handler, the list handed to
 * `onSave` is the handler's result, and the outcome `onSave` resolves to is the
 * parameter `saved`. The delete confirmation dialog's answer is `confirmed`.
 */
module SkillEditing {
  import opened Wrappers
  import opened Portfolio

  class SkillsManager {
    var skillForm: SkillForm
    var isEditing: bool

    constructor ()
      ensures skillForm == EmptySkillForm && !isEditing
    {
      skillForm := EmptySkillForm;
      isEditing := false;
    }

    /** Adds the form's skill under a fresh id; the form is cleared and closed only if the save succeeded. */
    method AddSkill(skills: seq<Skill>, saved: bool) returns (sent: seq<Skill>)
      modifies this
      ensures sent == WithNewSkill(skills, old(skillForm))
      ensures saved ==> skillForm == EmptySkillForm && !isEditing
      ensures !saved ==> skillForm == old(skillForm) && isEditing == old(isEditing)
    {
      sent := WithNewSkill(skills, skillForm);
      if saved {
        skillForm := EmptySkillForm;
        isEditing := false;
      }
    }

    /** Opens an existing skill in the form. */
    method EditSkill(x: Skill)
      modifies this
      ensures skillForm == SkillToForm(x) && isEditing
    {
      skillForm := SkillToForm(x);
      isEditing := true;
    }

    /**
     * Saves the form over the skill with the form's id. Nothing is sent and nothing
     * changes when the form has no id (or id 0).
     */
    method SaveEditedSkill(skills: seq<Skill>, saved: bool) returns (sent: Option<seq<Skill>>)
      modifies this
      ensures !IdSet(old(skillForm.id)) ==> sent == None && skillForm == old(skillForm) && isEditing == old(isEditing)
      ensures IdSet(old(skillForm.id)) ==> sent == Some(WithEditedSkill(skills, old(skillForm.id.value), old(skillForm)))
      ensures IdSet(old(skillForm.id)) && saved ==> skillForm == EmptySkillForm && !isEditing
      ensures !saved ==> skillForm == old(skillForm) && isEditing == old(isEditing)
    {
      if !IdSet(skillForm.id) {
        return None;
      }
      sent := Some(WithEditedSkill(skills, skillForm.id.value, skillForm));
      if saved {
        skillForm := EmptySkillForm;
        isEditing := false;
      }
    }

    /** Deletes every skill with id `id`, once the user has confirmed. */
    method DeleteSkill(skills: seq<Skill>, id: int, confirmed: bool) returns (sent: Option<seq<Skill>>)
      ensures confirmed ==> sent == Some(WithoutSkill(skills, id))
      ensures !confirmed ==> sent == None
    {
      if !confirmed {
        return None;
      }
      sent := Some(WithoutSkill(skills, id));
    }
  }
}
