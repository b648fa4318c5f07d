/**
 * The ExperiencesManager editor component: its form state (`experienceForm`, `isEditing`) and its
 * handlers. The list the component edits (`data`) and the save callback (`onSave`)
 * belong to its parent: the list is a parameter of each handler, the list handed to
 * `onSave` is the handler's result, and the outcome `onSave` resolves to is the
 * parameter `saved`. The delete confirmation dialog's answer is `confirmed`.
 */
module ExperienceEditing {
  import opened Wrappers
  import opened Portfolio

  class ExperiencesManager {
    var experienceForm: ExperienceForm
    var isEditing: bool

    constructor ()
      ensures experienceForm == EmptyExperienceForm && !isEditing
    {
      experienceForm := EmptyExperienceForm;
      isEditing := false;
    }

    /** Adds the form's experience under a fresh id; the form is cleared and closed only if the save succeeded. */
    method AddExperience(experiences: seq<Experience>, saved: bool) returns (sent: seq<Experience>)
      modifies this
      ensures sent == WithNewExperience(experiences, old(experienceForm))
      ensures saved ==> experienceForm == EmptyExperienceForm && !isEditing
      ensures !saved ==> experienceForm == old(experienceForm) && isEditing == old(isEditing)
    {
      sent := WithNewExperience(experiences, experienceForm);
      if saved {
        experienceForm := EmptyExperienceForm;
        isEditing := false;
      }
    }

    /** Opens an existing experience in the form. */
    method EditExperience(x: Experience)
      modifies this
      ensures experienceForm == ExperienceToForm(x) && isEditing
    {
      experienceForm := ExperienceToForm(x);
      isEditing := true;
    }

    /**
     * Saves the form over the experience with the form's id. Nothing is sent and nothing
     * changes when the form has no id (or id 0).
     */
    method SaveEditedExperience(experiences: seq<Experience>, saved: bool) returns (sent: Option<seq<Experience>>)
      modifies this
      ensures !IdSet(old(experienceForm.id)) ==> sent == None && experienceForm == old(experienceForm) && isEditing == old(isEditing)
      ensures IdSet(old(experienceForm.id)) ==> sent == Some(WithEditedExperience(experiences, old(experienceForm.id.value), old(experienceForm)))
      ensures IdSet(old(experienceForm.id)) && saved ==> experienceForm == EmptyExperienceForm && !isEditing
      ensures !saved ==> experienceForm == old(experienceForm) && isEditing == old(isEditing)
    {
      if !IdSet(experienceForm.id) {
        return None;
      }
      sent := Some(WithEditedExperience(experiences, experienceForm.id.value, experienceForm));
      if saved {
        experienceForm := EmptyExperienceForm;
        isEditing := false;
      }
    }

    /** Deletes every experience with id `id`, once the user has confirmed. */
    method DeleteExperience(experiences: seq<Experience>, id: int, confirmed: bool) returns (sent: Option<seq<Experience>>)
      ensures confirmed ==> sent == Some(WithoutExperience(experiences, id))
      ensures !confirmed ==> sent == None
    {
      if !confirmed {
        return None;
      }
      sent := Some(WithoutExperience(experiences, id));
    }
  }
}
