/**
 * The EducationManager editor component: its form state (`educationForm`, `isEditing`) and its
 * handlers. The list the component edits (`data`) and the save callback (`onSave`)
 * belong to its parent: the list is a parameter of each handler, the list handed to
 * `onSave` is the handler's result, and the outcome `onSave` resolves to is the
 * parameter `saved`. The delete confirmation dialog's answer is `confirmed`.
 */
module EducationEditing {
  import opened Wrappers
  import opened Portfolio

  class EducationManager {
    var educationForm: EducationForm
    var isEditing: bool

    constructor ()
      ensures educationForm == EmptyEducationForm && !isEditing
    {
      educationForm := EmptyEducationForm;
      isEditing := false;
    }

    /** Adds the form's education entry under a fresh id; the form is cleared and closed only if the save succeeded. */
    method AddEducation(educationList: seq<Education>, saved: bool) returns (sent: seq<Education>)
      modifies this
      ensures sent == WithNewEducation(educationList, old(educationForm))
      ensures saved ==> educationForm == EmptyEducationForm && !isEditing
      ensures !saved ==> educationForm == old(educationForm) && isEditing == old(isEditing)
    {
      sent := WithNewEducation(educationList, educationForm);
      if saved {
        educationForm := EmptyEducationForm;
        isEditing := false;
      }
    }

    /** Opens an existing education entry in the form. */
    method EditEducation(x: Education)
      modifies this
      ensures educationForm == EducationToForm(x) && isEditing
    {
      educationForm := EducationToForm(x);
      isEditing := true;
    }

    /**
     * Saves the form over the education entry with the form's id. Nothing is sent and nothing
     * changes when the form has no id (or id 0).
     */
    method SaveEditedEducation(educationList: seq<Education>, saved: bool) returns (sent: Option<seq<Education>>)
      modifies this
      ensures !IdSet(old(educationForm.id)) ==> sent == None && educationForm == old(educationForm) && isEditing == old(isEditing)
      ensures IdSet(old(educationForm.id)) ==> sent == Some(WithEditedEducation(educationList, old(educationForm.id.value), old(educationForm)))
      ensures IdSet(old(educationForm.id)) && saved ==> educationForm == EmptyEducationForm && !isEditing
      ensures !saved ==> educationForm == old(educationForm) && isEditing == old(isEditing)
    {
      if !IdSet(educationForm.id) {
        return None;
      }
      sent := Some(WithEditedEducation(educationList, educationForm.id.value, educationForm));
      if saved {
        educationForm := EmptyEducationForm;
        isEditing := false;
      }
    }

    /** Deletes every education entry with id `id`, once the user has confirmed. */
    method DeleteEducation(educationList: seq<Education>, id: int, confirmed: bool) returns (sent: Option<seq<Education>>)
      ensures confirmed ==> sent == Some(WithoutEducation(educationList, id))
      ensures !confirmed ==> sent == None
    {
      if !confirmed {
        return None;
      }
      sent := Some(WithoutEducation(educationList, id));
    }
  }
}
