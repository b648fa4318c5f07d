/**
 * The portfolio's records (one per entity the admin pages edit), the edit forms
 * that stand for them while they are being edited, and the list expressions that
 * every editor builds before saving: append a new record, replace the record being
 * edited, delete by id. Form ids are `Option<int>`: a form for a new record has none.
 */
module Portfolio {
  import opened Wrappers
  import opened Collection
  import opened ListField
  import Seqs

  datatype Project = Project(id: int, title: string, description: string, link: string, technologies: seq<string>)
  datatype Skill = Skill(id: int, name: string, level: int, category: string)
  datatype Experience = Experience(id: int, role: string, company: string, period: string, description: string, achievements: seq<string>)
  datatype Education = Education(id: int, institution: string, degree: string, period: string, description: string)
  datatype Certificate = Certificate(id: int, name: string, issuer: string, date: string, credentialLink: string)

  datatype PortfolioData = PortfolioData(
    projects: seq<Project>,
    skills: seq<Skill>,
    experiences: seq<Experience>,
    education: seq<Education>,
    certificates: seq<Certificate>)

  /** The list fields of the project and experience forms are single comma-separated strings. */
  datatype ProjectForm = ProjectForm(id: Option<int>, title: string, description: string, link: string, technologies: string)
  datatype SkillForm = SkillForm(id: Option<int>, name: string, level: int, category: string)
  datatype ExperienceForm = ExperienceForm(id: Option<int>, role: string, company: string, period: string, description: string, achievements: string)
  datatype EducationForm = EducationForm(id: Option<int>, institution: string, degree: string, period: string, description: string)
  datatype CertificateForm = CertificateForm(id: Option<int>, name: string, issuer: string, date: string, credentialLink: string)

  const EmptyProjectForm := ProjectForm(None, "", "", "", "")
  /** A fresh skill form starts at level 50. */
  const EmptySkillForm := SkillForm(None, "", 50, "")
  const EmptyExperienceForm := ExperienceForm(None, "", "", "", "", "")
  const EmptyEducationForm := EducationForm(None, "", "", "", "")
  const EmptyCertificateForm := CertificateForm(None, "", "", "", "")

  const EmptyPortfolio := PortfolioData([], [], [], [], [])

  /** `!!form.id`: the form edits an existing record (an id of `0` counts as unset). */
  predicate IdSet(id: Option<int>) {
    id.Some? && id.value != 0
  }

  function ProjectId(p: Project): int { p.id }
  function SkillId(s: Skill): int { s.id }
  function ExperienceId(e: Experience): int { e.id }
  function EducationId(e: Education): int { e.id }
  function CertificateId(c: Certificate): int { c.id }

  // ---------------------------------------------------------------- projects

  /** The list after adding the project described by `f`: the old list, then one new project. */
  function WithNewProject(ps: seq<Project>, f: ProjectForm): (r: seq<Project>)
    ensures |r| == |ps| + 1 && r[..|ps|] == ps
    ensures ps == [] ==> r[|ps|].id == 1
    ensures forall i :: 0 <= i < |ps| ==> ps[i].id < r[|ps|].id
    ensures ps != [] ==> r[|ps|].id == MaxId(ps, ProjectId) + 1
    ensures r[|ps|].title == f.title && r[|ps|].description == f.description && r[|ps|].link == f.link
    ensures r[|ps|].technologies == ParseList(f.technologies)
  {
    ps + [Project(NextId(ps, ProjectId), f.title, f.description, f.link, ParseList(f.technologies))]
  }

  /** `{...p, title, description, link, technologies}`: the spread keeps the id. */
  function EditedProject(p: Project, f: ProjectForm): (r: Project)
    ensures r.id == p.id
  {
    p.(title := f.title, description := f.description, link := f.link, technologies := ParseList(f.technologies))
  }

  /** The list after saving the form over every project with id `id`: length, order and ids kept. */
  function WithEditedProject(ps: seq<Project>, id: int, f: ProjectForm): (r: seq<Project>)
    ensures |r| == |ps|
    ensures forall i :: 0 <= i < |ps| ==> r[i].id == ps[i].id
    ensures forall i :: 0 <= i < |ps| && ps[i].id != id ==> r[i] == ps[i]
    ensures forall i :: 0 <= i < |ps| && ps[i].id == id ==>
      r[i].title == f.title && r[i].description == f.description && r[i].link == f.link
      && r[i].technologies == ParseList(f.technologies)
  {
    UpdateById(ps, id, ProjectId, p => EditedProject(p, f))
  }

  /** Deleting by id: every project with the id goes, the others stay in order, and the length drops by their number. */
  function WithoutProject(ps: seq<Project>, id: int): (r: seq<Project>)
    ensures forall i :: 0 <= i < |r| ==> r[i].id != id && r[i] in ps
    ensures forall i :: 0 <= i < |ps| && ps[i].id != id ==> ps[i] in r
    ensures (forall i :: 0 <= i < |ps| ==> ps[i].id != id) ==> r == ps
    ensures Seqs.IsSubseq(r, ps)
    ensures |r| + CountId(ps, id, ProjectId) == |ps|
  {
    DeleteByIdShape(ps, id, ProjectId);
    DeleteById(ps, id, ProjectId)
  }

  /** The form an existing project is edited in: its technologies joined with `', '`. */
  function ProjectToForm(p: Project): (f: ProjectForm)
    ensures IdSet(f.id) <==> p.id != 0
  {
    ProjectForm(Some(p.id), p.title, p.description, p.link, JoinList(p.technologies))
  }

  /** Opening a project in the form and saving it untouched leaves it as it was. */
  lemma ProjectEditRoundTrip(p: Project)
    requires Clean(p.technologies)
    ensures EditedProject(p, ProjectToForm(p)) == p
  {
    JoinParseRoundTrip(p.technologies);
  }

  // ---------------------------------------------------------------- skills

  function WithNewSkill(ss: seq<Skill>, f: SkillForm): (r: seq<Skill>)
    ensures |r| == |ss| + 1 && r[..|ss|] == ss
    ensures ss == [] ==> r[|ss|].id == 1
    ensures forall i :: 0 <= i < |ss| ==> ss[i].id < r[|ss|].id
    ensures ss != [] ==> r[|ss|].id == MaxId(ss, SkillId) + 1
    ensures r[|ss|].name == f.name && r[|ss|].level == f.level && r[|ss|].category == f.category
  {
    ss + [Skill(NextId(ss, SkillId), f.name, f.level, f.category)]
  }

  function EditedSkill(s: Skill, f: SkillForm): (r: Skill)
    ensures r.id == s.id
  {
    s.(name := f.name, level := f.level, category := f.category)
  }

  function WithEditedSkill(ss: seq<Skill>, id: int, f: SkillForm): (r: seq<Skill>)
    ensures |r| == |ss|
    ensures forall i :: 0 <= i < |ss| ==> r[i].id == ss[i].id
    ensures forall i :: 0 <= i < |ss| && ss[i].id != id ==> r[i] == ss[i]
    ensures forall i :: 0 <= i < |ss| && ss[i].id == id ==>
      r[i].name == f.name && r[i].level == f.level && r[i].category == f.category
  {
    UpdateById(ss, id, SkillId, s => EditedSkill(s, f))
  }

  /** Deleting by id: every skill with the id goes, the others stay in order, and the length drops by their number. */
  function WithoutSkill(ss: seq<Skill>, id: int): (r: seq<Skill>)
    ensures forall i :: 0 <= i < |r| ==> r[i].id != id && r[i] in ss
    ensures forall i :: 0 <= i < |ss| && ss[i].id != id ==> ss[i] in r
    ensures (forall i :: 0 <= i < |ss| ==> ss[i].id != id) ==> r == ss
    ensures Seqs.IsSubseq(r, ss)
    ensures |r| + CountId(ss, id, SkillId) == |ss|
  {
    DeleteByIdShape(ss, id, SkillId);
    DeleteById(ss, id, SkillId)
  }

  function SkillToForm(s: Skill): (f: SkillForm)
    ensures IdSet(f.id) <==> s.id != 0
  {
    SkillForm(Some(s.id), s.name, s.level, s.category)
  }

  lemma SkillEditRoundTrip(s: Skill)
    ensures EditedSkill(s, SkillToForm(s)) == s
  {
  }

  // ---------------------------------------------------------------- experiences

  function WithNewExperience(es: seq<Experience>, f: ExperienceForm): (r: seq<Experience>)
    ensures |r| == |es| + 1 && r[..|es|] == es
    ensures es == [] ==> r[|es|].id == 1
    ensures forall i :: 0 <= i < |es| ==> es[i].id < r[|es|].id
    ensures es != [] ==> r[|es|].id == MaxId(es, ExperienceId) + 1
    ensures r[|es|].role == f.role && r[|es|].company == f.company
      && r[|es|].period == f.period && r[|es|].description == f.description
    ensures r[|es|].achievements == ParseList(f.achievements)
  {
    es + [Experience(NextId(es, ExperienceId), f.role, f.company, f.period, f.description, ParseList(f.achievements))]
  }

  function EditedExperience(e: Experience, f: ExperienceForm): (r: Experience)
    ensures r.id == e.id
  {
    e.(role := f.role, company := f.company, period := f.period, description := f.description,
       achievements := ParseList(f.achievements))
  }

  function WithEditedExperience(es: seq<Experience>, id: int, f: ExperienceForm): (r: seq<Experience>)
    ensures |r| == |es|
    ensures forall i :: 0 <= i < |es| ==> r[i].id == es[i].id
    ensures forall i :: 0 <= i < |es| && es[i].id != id ==> r[i] == es[i]
    ensures forall i :: 0 <= i < |es| && es[i].id == id ==>
      r[i].role == f.role && r[i].company == f.company && r[i].period == f.period
      && r[i].description == f.description && r[i].achievements == ParseList(f.achievements)
  {
    UpdateById(es, id, ExperienceId, e => EditedExperience(e, f))
  }

  /** Deleting by id: every experience with the id goes, the others stay in order, and the length drops by their number. */
  function WithoutExperience(es: seq<Experience>, id: int): (r: seq<Experience>)
    ensures forall i :: 0 <= i < |r| ==> r[i].id != id && r[i] in es
    ensures forall i :: 0 <= i < |es| && es[i].id != id ==> es[i] in r
    ensures (forall i :: 0 <= i < |es| ==> es[i].id != id) ==> r == es
    ensures Seqs.IsSubseq(r, es)
    ensures |r| + CountId(es, id, ExperienceId) == |es|
  {
    DeleteByIdShape(es, id, ExperienceId);
    DeleteById(es, id, ExperienceId)
  }

  function ExperienceToForm(e: Experience): (f: ExperienceForm)
    ensures IdSet(f.id) <==> e.id != 0
  {
    ExperienceForm(Some(e.id), e.role, e.company, e.period, e.description, JoinList(e.achievements))
  }

  lemma ExperienceEditRoundTrip(e: Experience)
    requires Clean(e.achievements)
    ensures EditedExperience(e, ExperienceToForm(e)) == e
  {
    JoinParseRoundTrip(e.achievements);
  }

  // ---------------------------------------------------------------- education

  function WithNewEducation(es: seq<Education>, f: EducationForm): (r: seq<Education>)
    ensures |r| == |es| + 1 && r[..|es|] == es
    ensures es == [] ==> r[|es|].id == 1
    ensures forall i :: 0 <= i < |es| ==> es[i].id < r[|es|].id
    ensures es != [] ==> r[|es|].id == MaxId(es, EducationId) + 1
    ensures r[|es|].institution == f.institution && r[|es|].degree == f.degree
      && r[|es|].period == f.period && r[|es|].description == f.description
  {
    es + [Education(NextId(es, EducationId), f.institution, f.degree, f.period, f.description)]
  }

  function EditedEducation(e: Education, f: EducationForm): (r: Education)
    ensures r.id == e.id
  {
    e.(institution := f.institution, degree := f.degree, period := f.period, description := f.description)
  }

  function WithEditedEducation(es: seq<Education>, id: int, f: EducationForm): (r: seq<Education>)
    ensures |r| == |es|
    ensures forall i :: 0 <= i < |es| ==> r[i].id == es[i].id
    ensures forall i :: 0 <= i < |es| && es[i].id != id ==> r[i] == es[i]
    ensures forall i :: 0 <= i < |es| && es[i].id == id ==>
      r[i].institution == f.institution && r[i].degree == f.degree
      && r[i].period == f.period && r[i].description == f.description
  {
    UpdateById(es, id, EducationId, e => EditedEducation(e, f))
  }

  /** Deleting by id: every education with the id goes, the others stay in order, and the length drops by their number. */
  function WithoutEducation(es: seq<Education>, id: int): (r: seq<Education>)
    ensures forall i :: 0 <= i < |r| ==> r[i].id != id && r[i] in es
    ensures forall i :: 0 <= i < |es| && es[i].id != id ==> es[i] in r
    ensures (forall i :: 0 <= i < |es| ==> es[i].id != id) ==> r == es
    ensures Seqs.IsSubseq(r, es)
    ensures |r| + CountId(es, id, EducationId) == |es|
  {
    DeleteByIdShape(es, id, EducationId);
    DeleteById(es, id, EducationId)
  }

  function EducationToForm(e: Education): (f: EducationForm)
    ensures IdSet(f.id) <==> e.id != 0
  {
    EducationForm(Some(e.id), e.institution, e.degree, e.period, e.description)
  }

  /** Opening an entry in the form and saving it untouched leaves it as it was. */
  lemma EducationEditRoundTrip(e: Education)
    ensures EditedEducation(e, EducationToForm(e)) == e
  {
  }

  // ---------------------------------------------------------------- certificates

  function WithNewCertificate(cs: seq<Certificate>, f: CertificateForm): (r: seq<Certificate>)
    ensures |r| == |cs| + 1 && r[..|cs|] == cs
    ensures cs == [] ==> r[|cs|].id == 1
    ensures forall i :: 0 <= i < |cs| ==> cs[i].id < r[|cs|].id
    ensures cs != [] ==> r[|cs|].id == MaxId(cs, CertificateId) + 1
    ensures r[|cs|].name == f.name && r[|cs|].issuer == f.issuer
      && r[|cs|].date == f.date && r[|cs|].credentialLink == f.credentialLink
  {
    cs + [Certificate(NextId(cs, CertificateId), f.name, f.issuer, f.date, f.credentialLink)]
  }

  function EditedCertificate(c: Certificate, f: CertificateForm): (r: Certificate)
    ensures r.id == c.id
  {
    c.(name := f.name, issuer := f.issuer, date := f.date, credentialLink := f.credentialLink)
  }

  function WithEditedCertificate(cs: seq<Certificate>, id: int, f: CertificateForm): (r: seq<Certificate>)
    ensures |r| == |cs|
    ensures forall i :: 0 <= i < |cs| ==> r[i].id == cs[i].id
    ensures forall i :: 0 <= i < |cs| && cs[i].id != id ==> r[i] == cs[i]
    ensures forall i :: 0 <= i < |cs| && cs[i].id == id ==>
      r[i].name == f.name && r[i].issuer == f.issuer
      && r[i].date == f.date && r[i].credentialLink == f.credentialLink
  {
    UpdateById(cs, id, CertificateId, c => EditedCertificate(c, f))
  }

  /** Deleting by id: every certificate with the id goes, the others stay in order, and the length drops by their number. */
  function WithoutCertificate(cs: seq<Certificate>, id: int): (r: seq<Certificate>)
    ensures forall i :: 0 <= i < |r| ==> r[i].id != id && r[i] in cs
    ensures forall i :: 0 <= i < |cs| && cs[i].id != id ==> cs[i] in r
    ensures (forall i :: 0 <= i < |cs| ==> cs[i].id != id) ==> r == cs
    ensures Seqs.IsSubseq(r, cs)
    ensures |r| + CountId(cs, id, CertificateId) == |cs|
  {
    DeleteByIdShape(cs, id, CertificateId);
    DeleteById(cs, id, CertificateId)
  }

  function CertificateToForm(c: Certificate): (f: CertificateForm)
    ensures IdSet(f.id) <==> c.id != 0
  {
    CertificateForm(Some(c.id), c.name, c.issuer, c.date, c.credentialLink)
  }

  /** Opening a certificate in the form and saving it untouched leaves it as it was. */
  lemma CertificateEditRoundTrip(c: Certificate)
    ensures EditedCertificate(c, CertificateToForm(c)) == c
  {
  }
}
