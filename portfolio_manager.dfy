/**
 * The combined portfolio page: one `portfolioData` record holding all five
 * collections, the five edit forms, and the status shown to the admin
 * (`isSaving`, `error`, `successMessage`). Every handler builds the new list, saves
 * it through `SaveData` (a PUT to the collection's endpoint), and only when that
 * succeeds replaces its own collection in `portfolioData`.
 *
 * The endpoint's reply is the parameter `ok` (`response.ok`; a network failure is
 * `false` as well); the delete confirmation dialog's answer is `confirmed`; the
 * results of the initial five GET requests are the parameter of `LoadPortfolioData`.
 */
module PortfolioEditing {
  import opened Wrappers
  import opened Text
  import opened Portfolio

  /** The five form states of the page, one per collection. */
  datatype Forms = Forms(
    project: ProjectForm,
    skill: SkillForm,
    experience: ExperienceForm,
    education: EducationForm,
    certificate: CertificateForm)

  const EmptyForms := Forms(EmptyProjectForm, EmptySkillForm, EmptyExperienceForm, EmptyEducationForm, EmptyCertificateForm)

  /** `s.charAt(0).toUpperCase() + s.slice(1)`. */
  function Capitalize(s: string): (r: string)
    ensures |r| == |s|
    ensures s != [] ==> r[0] == UpperChar(s[0]) && r[1..] == s[1..]
  {
    if s == [] then [] else [UpperChar(s[0])] + s[1..]
  }

  /** The message shown after a successful save of `section`. */
  function SuccessMessage(section: string): (r: string)
    ensures r != "" && |r| == |section| + 22
    ensures r[|section|..] == " updated successfully!"
  {
    Capitalize(section) + " updated successfully!"
  }

  /** The message shown after a failed save of `section`: never empty, and it names the section. */
  function SaveError(section: string): (r: string)
    ensures r != "" && |r| == |section| + 34
    ensures r[15..15 + |section|] == section
  {
    "Failed to save " + section + ". Please try again."
  }

  const LoadError := "Failed to load portfolio data. Please try refreshing the page."

  /** The success message names the section with its first letter in upper case. */
  lemma SuccessMessageNamesSection(section: string)
    requires section != [] && 'a' <= section[0] <= 'z'
    ensures var m := SuccessMessage(section);
      |m| == |section| + 22 && 'A' <= m[0] <= 'Z' && LowerChar(m[0]) == section[0]
      && m[1..|section|] == section[1..] && m[|section|..] == " updated successfully!"
  {
  }

  class PortfolioManager {
    var isLoading: bool
    var isSaving: bool
    var error: string
    var successMessage: string
    var portfolioData: PortfolioData
    var isEditing: bool
    var forms: Forms

    constructor ()
      ensures isLoading && !isSaving && error == "" && successMessage == ""
      ensures portfolioData == EmptyPortfolio && !isEditing && forms == EmptyForms
    {
      isLoading := true;
      isSaving := false;
      error := "";
      successMessage := "";
      portfolioData := EmptyPortfolio;
      isEditing := false;
      forms := EmptyForms;
    }

    /**
     * `loadPortfolioData`: `fetched` is the five collections when every GET answered
     * ok, `None` when one of them failed.
     */
    method LoadPortfolioData(fetched: Option<PortfolioData>)
      modifies this
      ensures !isLoading
      ensures fetched.Some? ==> portfolioData == fetched.value && error == ""
      ensures fetched.None? ==> portfolioData == old(portfolioData) && error == LoadError
      ensures isSaving == old(isSaving) && successMessage == old(successMessage)
      ensures isEditing == old(isEditing) && forms == old(forms)
    {
      isLoading := true;
      error := "";
      if fetched.Some? {
        portfolioData := fetched.value;
      } else {
        error := LoadError;
      }
      isLoading := false;
    }

    /**
     * `saveData`: reports success exactly when the endpoint answered ok, and shows the
     * matching message. It never touches the data or the forms.
     */
    method SaveData(section: string, ok: bool) returns (success: bool)
      modifies this
      ensures success == ok
      ensures !isSaving
      ensures ok ==> error == "" && successMessage == SuccessMessage(section)
      ensures !ok ==> error == SaveError(section) && successMessage == old(successMessage)
      ensures portfolioData == old(portfolioData) && forms == old(forms)
      ensures isEditing == old(isEditing) && isLoading == old(isLoading)
    {
      isSaving := true;
      error := "";
      if ok {
        successMessage := SuccessMessage(section);
        success := true;
      } else {
        error := SaveError(section);
        success := false;
      }
      isSaving := false;
    }

    /**
     * Saves `section` and, only when the save succeeds, installs the new collections, the
     * next forms and the next editing flag, as each handler does after `await saveData(...)`.
     */
    method Commit(section: string, ok: bool, data: PortfolioData, next: Forms, editing: bool) returns (success: bool)
      modifies this
      ensures success == ok
      ensures ok ==> portfolioData == data && forms == next && isEditing == editing
      ensures ok ==> error == "" && successMessage == SuccessMessage(section)
      ensures !ok ==> portfolioData == old(portfolioData) && forms == old(forms) && isEditing == old(isEditing)
      ensures !ok ==> error == SaveError(section) && successMessage == old(successMessage)
      ensures !isSaving && isLoading == old(isLoading)
    {
      success := SaveData(section, ok);
      if success {
        portfolioData := data;
        forms := next;
        isEditing := editing;
      }
    }

    // ---------------------------------------------------------------- projects

    /** Adds the form's project; `portfolioData` and the form change only if the save succeeded. */
    method AddProject(ok: bool) returns (sent: seq<Project>)
      modifies this
      ensures sent == WithNewProject(old(portfolioData.projects), old(forms.project))
      ensures ok ==> portfolioData == old(portfolioData).(projects := sent)
      ensures ok ==> forms == old(forms).(project := EmptyProjectForm) && !isEditing
      ensures ok ==> error == "" && successMessage == SuccessMessage("projects")
      ensures !ok ==> portfolioData == old(portfolioData) && forms == old(forms) && isEditing == old(isEditing)
      ensures !ok ==> error == SaveError("projects") && successMessage == old(successMessage)
      ensures !isSaving && isLoading == old(isLoading)
    {
      sent := WithNewProject(portfolioData.projects, forms.project);
      var _ := Commit("projects", ok, portfolioData.(projects := sent), forms.(project := EmptyProjectForm), false);
    }

    /** Opens an existing project in its form. */
    method EditProject(x: Project)
      modifies this
      ensures forms == old(forms).(project := ProjectToForm(x)) && isEditing
      ensures portfolioData == old(portfolioData) && error == old(error) && successMessage == old(successMessage)
      ensures isSaving == old(isSaving) && isLoading == old(isLoading)
    {
      forms := forms.(project := ProjectToForm(x));
      isEditing := true;
    }

    /** Saves the form over the project with the form's id; does nothing when the form has no id (or id 0). */
    method SaveEditedProject(ok: bool) returns (sent: Option<seq<Project>>)
      modifies this
      ensures !IdSet(old(forms.project.id)) ==> (sent == None
        && portfolioData == old(portfolioData) && forms == old(forms) && isEditing == old(isEditing)
        && error == old(error) && successMessage == old(successMessage) && isSaving == old(isSaving))
      ensures IdSet(old(forms.project.id)) ==>
        sent == Some(WithEditedProject(old(portfolioData.projects), old(forms.project.id.value), old(forms.project)))
      ensures IdSet(old(forms.project.id)) && ok ==> (portfolioData == old(portfolioData).(projects := sent.value)
        && forms == old(forms).(project := EmptyProjectForm) && !isEditing
        && error == "" && successMessage == SuccessMessage("projects"))
      ensures IdSet(old(forms.project.id)) && !ok ==> (portfolioData == old(portfolioData)
        && forms == old(forms) && isEditing == old(isEditing)
        && error == SaveError("projects") && successMessage == old(successMessage))
      ensures IdSet(old(forms.project.id)) ==> !isSaving
      ensures isLoading == old(isLoading)
    {
      if !IdSet(forms.project.id) {
        return None;
      }
      var updated := WithEditedProject(portfolioData.projects, forms.project.id.value, forms.project);
      sent := Some(updated);
      var _ := Commit("projects", ok, portfolioData.(projects := updated), forms.(project := EmptyProjectForm), false);
    }

    /** Deletes every project with id `id` once confirmed; `portfolioData` changes only if the save succeeded. */
    method DeleteProject(id: int, confirmed: bool, ok: bool) returns (sent: Option<seq<Project>>)
      modifies this
      ensures !confirmed ==> (sent == None && portfolioData == old(portfolioData)
        && error == old(error) && successMessage == old(successMessage) && isSaving == old(isSaving))
      ensures confirmed ==> sent == Some(WithoutProject(old(portfolioData.projects), id))
      ensures confirmed && ok ==> (portfolioData == old(portfolioData).(projects := sent.value)
        && error == "" && successMessage == SuccessMessage("projects"))
      ensures confirmed && !ok ==> (portfolioData == old(portfolioData)
        && error == SaveError("projects") && successMessage == old(successMessage))
      ensures confirmed ==> !isSaving
      ensures forms == old(forms) && isEditing == old(isEditing) && isLoading == old(isLoading)
    {
      if !confirmed {
        return None;
      }
      var updated := WithoutProject(portfolioData.projects, id);
      sent := Some(updated);
      var _ := Commit("projects", ok, portfolioData.(projects := updated), forms, isEditing);
    }

    // ---------------------------------------------------------------- skills

    /** Adds the form's skill; `portfolioData` and the form change only if the save succeeded. */
    method AddSkill(ok: bool) returns (sent: seq<Skill>)
      modifies this
      ensures sent == WithNewSkill(old(portfolioData.skills), old(forms.skill))
      ensures ok ==> portfolioData == old(portfolioData).(skills := sent)
      ensures ok ==> forms == old(forms).(skill := EmptySkillForm) && !isEditing
      ensures ok ==> error == "" && successMessage == SuccessMessage("skills")
      ensures !ok ==> portfolioData == old(portfolioData) && forms == old(forms) && isEditing == old(isEditing)
      ensures !ok ==> error == SaveError("skills") && successMessage == old(successMessage)
      ensures !isSaving && isLoading == old(isLoading)
    {
      sent := WithNewSkill(portfolioData.skills, forms.skill);
      var _ := Commit("skills", ok, portfolioData.(skills := sent), forms.(skill := EmptySkillForm), false);
    }

    /** Opens an existing skill in its form. */
    method EditSkill(x: Skill)
      modifies this
      ensures forms == old(forms).(skill := SkillToForm(x)) && isEditing
      ensures portfolioData == old(portfolioData) && error == old(error) && successMessage == old(successMessage)
      ensures isSaving == old(isSaving) && isLoading == old(isLoading)
    {
      forms := forms.(skill := SkillToForm(x));
      isEditing := true;
    }

    /** Saves the form over the skill with the form's id; does nothing when the form has no id (or id 0). */
    method SaveEditedSkill(ok: bool) returns (sent: Option<seq<Skill>>)
      modifies this
      ensures !IdSet(old(forms.skill.id)) ==> (sent == None
        && portfolioData == old(portfolioData) && forms == old(forms) && isEditing == old(isEditing)
        && error == old(error) && successMessage == old(successMessage) && isSaving == old(isSaving))
      ensures IdSet(old(forms.skill.id)) ==>
        sent == Some(WithEditedSkill(old(portfolioData.skills), old(forms.skill.id.value), old(forms.skill)))
      ensures IdSet(old(forms.skill.id)) && ok ==> (portfolioData == old(portfolioData).(skills := sent.value)
        && forms == old(forms).(skill := EmptySkillForm) && !isEditing
        && error == "" && successMessage == SuccessMessage("skills"))
      ensures IdSet(old(forms.skill.id)) && !ok ==> (portfolioData == old(portfolioData)
        && forms == old(forms) && isEditing == old(isEditing)
        && error == SaveError("skills") && successMessage == old(successMessage))
      ensures IdSet(old(forms.skill.id)) ==> !isSaving
      ensures isLoading == old(isLoading)
    {
      if !IdSet(forms.skill.id) {
        return None;
      }
      var updated := WithEditedSkill(portfolioData.skills, forms.skill.id.value, forms.skill);
      sent := Some(updated);
      var _ := Commit("skills", ok, portfolioData.(skills := updated), forms.(skill := EmptySkillForm), false);
    }

    /** Deletes every skill with id `id` once confirmed; `portfolioData` changes only if the save succeeded. */
    method DeleteSkill(id: int, confirmed: bool, ok: bool) returns (sent: Option<seq<Skill>>)
      modifies this
      ensures !confirmed ==> (sent == None && portfolioData == old(portfolioData)
        && error == old(error) && successMessage == old(successMessage) && isSaving == old(isSaving))
      ensures confirmed ==> sent == Some(WithoutSkill(old(portfolioData.skills), id))
      ensures confirmed && ok ==> (portfolioData == old(portfolioData).(skills := sent.value)
        && error == "" && successMessage == SuccessMessage("skills"))
      ensures confirmed && !ok ==> (portfolioData == old(portfolioData)
        && error == SaveError("skills") && successMessage == old(successMessage))
      ensures confirmed ==> !isSaving
      ensures forms == old(forms) && isEditing == old(isEditing) && isLoading == old(isLoading)
    {
      if !confirmed {
        return None;
      }
      var updated := WithoutSkill(portfolioData.skills, id);
      sent := Some(updated);
      var _ := Commit("skills", ok, portfolioData.(skills := updated), forms, isEditing);
    }

    // ---------------------------------------------------------------- experiences

    /** Adds the form's experience; `portfolioData` and the form change only if the save succeeded. */
    method AddExperience(ok: bool) returns (sent: seq<Experience>)
      modifies this
      ensures sent == WithNewExperience(old(portfolioData.experiences), old(forms.experience))
      ensures ok ==> portfolioData == old(portfolioData).(experiences := sent)
      ensures ok ==> forms == old(forms).(experience := EmptyExperienceForm) && !isEditing
      ensures ok ==> error == "" && successMessage == SuccessMessage("experiences")
      ensures !ok ==> portfolioData == old(portfolioData) && forms == old(forms) && isEditing == old(isEditing)
      ensures !ok ==> error == SaveError("experiences") && successMessage == old(successMessage)
      ensures !isSaving && isLoading == old(isLoading)
    {
      sent := WithNewExperience(portfolioData.experiences, forms.experience);
      var _ := Commit("experiences", ok, portfolioData.(experiences := sent), forms.(experience := EmptyExperienceForm), false);
    }

    /** Opens an existing experience in its form. */
    method EditExperience(x: Experience)
      modifies this
      ensures forms == old(forms).(experience := ExperienceToForm(x)) && isEditing
      ensures portfolioData == old(portfolioData) && error == old(error) && successMessage == old(successMessage)
      ensures isSaving == old(isSaving) && isLoading == old(isLoading)
    {
      forms := forms.(experience := ExperienceToForm(x));
      isEditing := true;
    }

    /** Saves the form over the experience with the form's id; does nothing when the form has no id (or id 0). */
    method SaveEditedExperience(ok: bool) returns (sent: Option<seq<Experience>>)
      modifies this
      ensures !IdSet(old(forms.experience.id)) ==> (sent == None
        && portfolioData == old(portfolioData) && forms == old(forms) && isEditing == old(isEditing)
        && error == old(error) && successMessage == old(successMessage) && isSaving == old(isSaving))
      ensures IdSet(old(forms.experience.id)) ==>
        sent == Some(WithEditedExperience(old(portfolioData.experiences), old(forms.experience.id.value), old(forms.experience)))
      ensures IdSet(old(forms.experience.id)) && ok ==> (portfolioData == old(portfolioData).(experiences := sent.value)
        && forms == old(forms).(experience := EmptyExperienceForm) && !isEditing
        && error == "" && successMessage == SuccessMessage("experiences"))
      ensures IdSet(old(forms.experience.id)) && !ok ==> (portfolioData == old(portfolioData)
        && forms == old(forms) && isEditing == old(isEditing)
        && error == SaveError("experiences") && successMessage == old(successMessage))
      ensures IdSet(old(forms.experience.id)) ==> !isSaving
      ensures isLoading == old(isLoading)
    {
      if !IdSet(forms.experience.id) {
        return None;
      }
      var updated := WithEditedExperience(portfolioData.experiences, forms.experience.id.value, forms.experience);
      sent := Some(updated);
      var _ := Commit("experiences", ok, portfolioData.(experiences := updated), forms.(experience := EmptyExperienceForm), false);
    }

    /** Deletes every experience with id `id` once confirmed; `portfolioData` changes only if the save succeeded. */
    method DeleteExperience(id: int, confirmed: bool, ok: bool) returns (sent: Option<seq<Experience>>)
      modifies this
      ensures !confirmed ==> (sent == None && portfolioData == old(portfolioData)
        && error == old(error) && successMessage == old(successMessage) && isSaving == old(isSaving))
      ensures confirmed ==> sent == Some(WithoutExperience(old(portfolioData.experiences), id))
      ensures confirmed && ok ==> (portfolioData == old(portfolioData).(experiences := sent.value)
        && error == "" && successMessage == SuccessMessage("experiences"))
      ensures confirmed && !ok ==> (portfolioData == old(portfolioData)
        && error == SaveError("experiences") && successMessage == old(successMessage))
      ensures confirmed ==> !isSaving
      ensures forms == old(forms) && isEditing == old(isEditing) && isLoading == old(isLoading)
    {
      if !confirmed {
        return None;
      }
      var updated := WithoutExperience(portfolioData.experiences, id);
      sent := Some(updated);
      var _ := Commit("experiences", ok, portfolioData.(experiences := updated), forms, isEditing);
    }

    // ---------------------------------------------------------------- education

    /** Adds the form's education entry; `portfolioData` and the form change only if the save succeeded. */
    method AddEducation(ok: bool) returns (sent: seq<Education>)
      modifies this
      ensures sent == WithNewEducation(old(portfolioData.education), old(forms.education))
      ensures ok ==> portfolioData == old(portfolioData).(education := sent)
      ensures ok ==> forms == old(forms).(education := EmptyEducationForm) && !isEditing
      ensures ok ==> error == "" && successMessage == SuccessMessage("education")
      ensures !ok ==> portfolioData == old(portfolioData) && forms == old(forms) && isEditing == old(isEditing)
      ensures !ok ==> error == SaveError("education") && successMessage == old(successMessage)
      ensures !isSaving && isLoading == old(isLoading)
    {
      sent := WithNewEducation(portfolioData.education, forms.education);
      var _ := Commit("education", ok, portfolioData.(education := sent), forms.(education := EmptyEducationForm), false);
    }

    /** Opens an existing education entry in its form. */
    method EditEducation(x: Education)
      modifies this
      ensures forms == old(forms).(education := EducationToForm(x)) && isEditing
      ensures portfolioData == old(portfolioData) && error == old(error) && successMessage == old(successMessage)
      ensures isSaving == old(isSaving) && isLoading == old(isLoading)
    {
      forms := forms.(education := EducationToForm(x));
      isEditing := true;
    }

    /** Saves the form over the education entry with the form's id; does nothing when the form has no id (or id 0). */
    method SaveEditedEducation(ok: bool) returns (sent: Option<seq<Education>>)
      modifies this
      ensures !IdSet(old(forms.education.id)) ==> (sent == None
        && portfolioData == old(portfolioData) && forms == old(forms) && isEditing == old(isEditing)
        && error == old(error) && successMessage == old(successMessage) && isSaving == old(isSaving))
      ensures IdSet(old(forms.education.id)) ==>
        sent == Some(WithEditedEducation(old(portfolioData.education), old(forms.education.id.value), old(forms.education)))
      ensures IdSet(old(forms.education.id)) && ok ==> (portfolioData == old(portfolioData).(education := sent.value)
        && forms == old(forms).(education := EmptyEducationForm) && !isEditing
        && error == "" && successMessage == SuccessMessage("education"))
      ensures IdSet(old(forms.education.id)) && !ok ==> (portfolioData == old(portfolioData)
        && forms == old(forms) && isEditing == old(isEditing)
        && error == SaveError("education") && successMessage == old(successMessage))
      ensures IdSet(old(forms.education.id)) ==> !isSaving
      ensures isLoading == old(isLoading)
    {
      if !IdSet(forms.education.id) {
        return None;
      }
      var updated := WithEditedEducation(portfolioData.education, forms.education.id.value, forms.education);
      sent := Some(updated);
      var _ := Commit("education", ok, portfolioData.(education := updated), forms.(education := EmptyEducationForm), false);
    }

    /** Deletes every education entry with id `id` once confirmed; `portfolioData` changes only if the save succeeded. */
    method DeleteEducation(id: int, confirmed: bool, ok: bool) returns (sent: Option<seq<Education>>)
      modifies this
      ensures !confirmed ==> (sent == None && portfolioData == old(portfolioData)
        && error == old(error) && successMessage == old(successMessage) && isSaving == old(isSaving))
      ensures confirmed ==> sent == Some(WithoutEducation(old(portfolioData.education), id))
      ensures confirmed && ok ==> (portfolioData == old(portfolioData).(education := sent.value)
        && error == "" && successMessage == SuccessMessage("education"))
      ensures confirmed && !ok ==> (portfolioData == old(portfolioData)
        && error == SaveError("education") && successMessage == old(successMessage))
      ensures confirmed ==> !isSaving
      ensures forms == old(forms) && isEditing == old(isEditing) && isLoading == old(isLoading)
    {
      if !confirmed {
        return None;
      }
      var updated := WithoutEducation(portfolioData.education, id);
      sent := Some(updated);
      var _ := Commit("education", ok, portfolioData.(education := updated), forms, isEditing);
    }

    // ---------------------------------------------------------------- certificates

    /** Adds the form's certificate; `portfolioData` and the form change only if the save succeeded. */
    method AddCertificate(ok: bool) returns (sent: seq<Certificate>)
      modifies this
      ensures sent == WithNewCertificate(old(portfolioData.certificates), old(forms.certificate))
      ensures ok ==> portfolioData == old(portfolioData).(certificates := sent)
      ensures ok ==> forms == old(forms).(certificate := EmptyCertificateForm) && !isEditing
      ensures ok ==> error == "" && successMessage == SuccessMessage("certificates")
      ensures !ok ==> portfolioData == old(portfolioData) && forms == old(forms) && isEditing == old(isEditing)
      ensures !ok ==> error == SaveError("certificates") && successMessage == old(successMessage)
      ensures !isSaving && isLoading == old(isLoading)
    {
      sent := WithNewCertificate(portfolioData.certificates, forms.certificate);
      var _ := Commit("certificates", ok, portfolioData.(certificates := sent), forms.(certificate := EmptyCertificateForm), false);
    }

    /** Opens an existing certificate in its form. */
    method EditCertificate(x: Certificate)
      modifies this
      ensures forms == old(forms).(certificate := CertificateToForm(x)) && isEditing
      ensures portfolioData == old(portfolioData) && error == old(error) && successMessage == old(successMessage)
      ensures isSaving == old(isSaving) && isLoading == old(isLoading)
    {
      forms := forms.(certificate := CertificateToForm(x));
      isEditing := true;
    }

    /** Saves the form over the certificate with the form's id; does nothing when the form has no id (or id 0). */
    method SaveEditedCertificate(ok: bool) returns (sent: Option<seq<Certificate>>)
      modifies this
      ensures !IdSet(old(forms.certificate.id)) ==> (sent == None
        && portfolioData == old(portfolioData) && forms == old(forms) && isEditing == old(isEditing)
        && error == old(error) && successMessage == old(successMessage) && isSaving == old(isSaving))
      ensures IdSet(old(forms.certificate.id)) ==>
        sent == Some(WithEditedCertificate(old(portfolioData.certificates), old(forms.certificate.id.value), old(forms.certificate)))
      ensures IdSet(old(forms.certificate.id)) && ok ==> (portfolioData == old(portfolioData).(certificates := sent.value)
        && forms == old(forms).(certificate := EmptyCertificateForm) && !isEditing
        && error == "" && successMessage == SuccessMessage("certificates"))
      ensures IdSet(old(forms.certificate.id)) && !ok ==> (portfolioData == old(portfolioData)
        && forms == old(forms) && isEditing == old(isEditing)
        && error == SaveError("certificates") && successMessage == old(successMessage))
      ensures IdSet(old(forms.certificate.id)) ==> !isSaving
      ensures isLoading == old(isLoading)
    {
      if !IdSet(forms.certificate.id) {
        return None;
      }
      var updated := WithEditedCertificate(portfolioData.certificates, forms.certificate.id.value, forms.certificate);
      sent := Some(updated);
      var _ := Commit("certificates", ok, portfolioData.(certificates := updated), forms.(certificate := EmptyCertificateForm), false);
    }

    /** Deletes every certificate with id `id` once confirmed; `portfolioData` changes only if the save succeeded. */
    method DeleteCertificate(id: int, confirmed: bool, ok: bool) returns (sent: Option<seq<Certificate>>)
      modifies this
      ensures !confirmed ==> (sent == None && portfolioData == old(portfolioData)
        && error == old(error) && successMessage == old(successMessage) && isSaving == old(isSaving))
      ensures confirmed ==> sent == Some(WithoutCertificate(old(portfolioData.certificates), id))
      ensures confirmed && ok ==> (portfolioData == old(portfolioData).(certificates := sent.value)
        && error == "" && successMessage == SuccessMessage("certificates"))
      ensures confirmed && !ok ==> (portfolioData == old(portfolioData)
        && error == SaveError("certificates") && successMessage == old(successMessage))
      ensures confirmed ==> !isSaving
      ensures forms == old(forms) && isEditing == old(isEditing) && isLoading == old(isLoading)
    {
      if !confirmed {
        return None;
      }
      var updated := WithoutCertificate(portfolioData.certificates, id);
      sent := Some(updated);
      var _ := Commit("certificates", ok, portfolioData.(certificates := updated), forms, isEditing);
    }
  }
}
