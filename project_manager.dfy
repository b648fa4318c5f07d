/**
 * The ProjectManager editor component: its form state (`projectForm`, `isEditing`) and its
 * handlers. The list the component edits (`data`) and the save callback (`onSave`)
 * belong to its parent: the list is a parameter of each handler, the list handed to
 * `onSave` is the handler's result, and the outcome `onSave` resolves to is the
 * parameter `saved`. The delete confirmation dialog's answer is `confirmed`.
 */
module ProjectEditing {
  import opened Wrappers
  import opened Portfolio

  class ProjectManager {
    var projectForm: ProjectForm
    var isEditing: bool

    constructor ()
      ensures projectForm == EmptyProjectForm && !isEditing
    {
      projectForm := EmptyProjectForm;
      isEditing := false;
    }

    /** Adds the form's project under a fresh id; the form is cleared and closed only if the save succeeded. */
    method AddProject(projects: seq<Project>, saved: bool) returns (sent: seq<Project>)
      modifies this
      ensures sent == WithNewProject(projects, old(projectForm))
      ensures saved ==> projectForm == EmptyProjectForm && !isEditing
      ensures !saved ==> projectForm == old(projectForm) && isEditing == old(isEditing)
    {
      sent := WithNewProject(projects, projectForm);
      if saved {
        projectForm := EmptyProjectForm;
        isEditing := false;
      }
    }

    /** Opens an existing project in the form. */
    method EditProject(x: Project)
      modifies this
      ensures projectForm == ProjectToForm(x) && isEditing
    {
      projectForm := ProjectToForm(x);
      isEditing := true;
    }

    /**
     * Saves the form over the project with the form's id. Nothing is sent and nothing
     * changes when the form has no id (or id 0).
     */
    method SaveEditedProject(projects: seq<Project>, saved: bool) returns (sent: Option<seq<Project>>)
      modifies this
      ensures !IdSet(old(projectForm.id)) ==> sent == None && projectForm == old(projectForm) && isEditing == old(isEditing)
      ensures IdSet(old(projectForm.id)) ==> sent == Some(WithEditedProject(projects, old(projectForm.id.value), old(projectForm)))
      ensures IdSet(old(projectForm.id)) && saved ==> projectForm == EmptyProjectForm && !isEditing
      ensures !saved ==> projectForm == old(projectForm) && isEditing == old(isEditing)
    {
      if !IdSet(projectForm.id) {
        return None;
      }
      sent := Some(WithEditedProject(projects, projectForm.id.value, projectForm));
      if saved {
        projectForm := EmptyProjectForm;
        isEditing := false;
      }
    }

    /** Deletes every project with id `id`, once the user has confirmed. */
    method DeleteProject(projects: seq<Project>, id: int, confirmed: bool) returns (sent: Option<seq<Project>>)
      ensures confirmed ==> sent == Some(WithoutProject(projects, id))
      ensures !confirmed ==> sent == None
    {
      if !confirmed {
        return None;
      }
      sent := Some(WithoutProject(projects, id));
    }
  }
}
