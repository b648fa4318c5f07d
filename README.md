# graycat.me site logic in Dafny

This project models the list, string and validation rules of the graycat.me personal site (Next.js, TypeScript) and proves what those rules promise. There are five groups:

- **Portfolio editing.** This covers the five collection editors (projects, skills, experiences, education, certificates) and the combined portfolio page:
  - the new-id rule;
  - appending a record;
  - replacing the record with a given id;
  - deleting by id;
  - the comma-separated list fields, and their join/parse round trip;
  - the page's save status.
- **The portfolio data endpoints** under `/api/admin/portfolio/`. Each endpoint owns one key of a JSON document in `src/data/`. `education` and `certificates` share `education.json`.
- **The blog.**
  - The loader: file filter, slug from the file name, field defaults, newest-first sort, and `.md` before `.mdx` lookup.
  - The create endpoint.
  - The admin page: slug derivation, required fields, tags.
  - The search box of the blog listing.
- **Registration.** The route's check order (missing field, short password, taken email) and the user it stores. The register page's own checks.
- **Reader widgets.**
  - The like button and the topic follow button.
  - The comment section: the author label with IP masking, blank-text guards, and the owner check.

Pure expressions (`map`, `filter`, `split`/`trim`, `sort`, the slug `replace` chain, the search `filter`) are functions with lemmas. Components and routes that update state are classes whose methods change their fields. Each such method's `ensures` ties the new state to the functions above.

Everything outside the program is a parameter of the method that uses it:

- HTTP replies (`response.ok`, a thrown request as `None`);
- the `confirm()` answer;
- the current date;
- the front-matter parser and printer;
- the password hash;
- the session.

The five collection editors get the list they edit, and the outcome of the parent's `onSave`, as parameters. The combined page holds its data itself.

Files:

- **Shared helpers:**
  - `wrappers.dfy` (Option);
  - `seqs.dfy` (`filter` and subsequences);
  - `text.dfy` (the JavaScript string operations over ASCII, and the lexicographic `<`);
  - `list_field.dfy` (comma-separated fields);
  - `collection.dfy` (id rules, stated once for every record type).
- **Portfolio:**
  - `portfolio.dfy` (records, forms and list updates);
  - `project_manager.dfy`, `skills_manager.dfy`, `experiences_manager.dfy`, `education_manager.dfy`, `certificates_manager.dfy`;
  - `portfolio_manager.dfy`.
- **Endpoints:** `json_store.dfy`.
- **Blog:**
  - `blog_store.dfy`;
  - `blog_posts_api.dfy`;
  - `blog_admin.dfy`;
  - `blog_search.dfy`.
- **Accounts:** `register.dfy`.
- **Reader widgets:**
  - `comments.dfy`;
  - `like_button.dfy`;
  - `topic_follow.dfy`.

## Model

| member | source | states |
|---|---|---|
| Text.LowerChar | src/app/blog/page.tsx:36 | An upper-case letter maps to its lower-case letter. Every other character is unchanged. |
| Text.UpperChar | src/app/admin/portfolio/components/PortfolioManager.tsx:164 | A lower-case letter maps to an upper-case letter that lowers back to it. Every other character is unchanged. |
| Text.ToLower | src/app/blog/page.tsx:36 | `toLowerCase` keeps the length and lowers each character in place. |
| Text.Utf16Length | src/app/api/auth/register/route.ts:17 | `.length` counts UTF-16 code units: between one and two per character, and exactly one each when every character is in the basic plane. |
| Text.LowerKeepsSpace | src/app/blog/page.tsx:31-36 | Lower-casing neither creates nor removes whitespace. |
| Text.TrimStart | src/app/admin/portfolio/components/ProjectManager.tsx:23 | The result is a suffix of the input. It starts with a non-space, and everything dropped was whitespace. |
| Text.TrimEnd | src/app/admin/portfolio/components/ProjectManager.tsx:23 | The result is a prefix of the input. It ends with a non-space, and everything dropped was whitespace. |
| Text.Trim | src/app/admin/portfolio/components/ProjectManager.tsx:23 | `trim` yields a trimmed string. It is empty exactly when the input is all whitespace, and a trimmed input is returned unchanged. |
| Text.TrimIsSlice | src/app/admin/portfolio/components/ProjectManager.tsx:23 | The trimmed string is a contiguous slice of the input. |
| Text.TrimEmpty | src/components/CommentSection.tsx:63 | Trimming gives `""` exactly for all-whitespace input, which makes "blank" a property of the characters. |
| Text.TrimOfTrimmed | src/app/admin/portfolio/components/ProjectManager.tsx:23 | Trimming is the identity on trimmed strings. |
| Text.Contains | src/app/blog/page.tsx:38-40 | `includes` holds exactly when the query occurs at some position of the string. |
| Text.ContainsStep | src/app/blog/page.tsx:38-40 | An occurrence is at the head of the string or in its tail. |
| Text.SplitOn | src/app/admin/portfolio/components/ProjectManager.tsx:23 | `split` gives at least one piece, and no piece contains the separator. |
| Text.SplitNoSep | src/components/CommentSection.tsx:161 | A string without the separator splits into itself alone. |
| Text.SplitCons | src/components/CommentSection.tsx:161 | Splitting `a + sep + b` gives `a` followed by the pieces of `b`. |
| Text.LexIrreflexive | src/lib/blog.ts:58-64 | The string order used by the date sort is irreflexive. |
| Text.LexTransitive | src/lib/blog.ts:58-64 | The string order is transitive. |
| Text.LexTotal | src/lib/blog.ts:58-64 | Any two distinct strings are ordered one way or the other. |
| Text.LexAsymmetric | src/lib/blog.ts:58-64 | The string order is asymmetric. |
| Seqs.Filter | src/app/admin/portfolio/components/ProjectManager.tsx:75 | `filter` keeps exactly the elements that satisfy the predicate, and only those. |
| Seqs.Count | src/app/admin/portfolio/components/SkillsManager.tsx:72 | The count is zero exactly when no element satisfies the predicate. |
| Seqs.FilterIsSubseq | src/app/blog/page.tsx:37 | `filter` keeps the original order: its result is a subsequence of the input. |
| Seqs.FilterLength | src/app/admin/portfolio/components/SkillsManager.tsx:72 | The filtered length plus the number of rejected elements is the input length. |
| Collection.MaxId | src/app/admin/portfolio/components/ProjectManager.tsx:14-16 | `Math.max` of the ids bounds every id and is one of them. |
| Collection.NextId | src/app/admin/portfolio/components/ProjectManager.tsx:14-16 | A new id is 1 for an empty list. Otherwise it exceeds every existing id (so it is fresh) and is one more than an existing id. |
| Collection.UpdateById | src/app/admin/portfolio/components/ProjectManager.tsx:51-61 | Replacing by id keeps the length. Records with another id are untouched, and every record with the id is updated. |
| Collection.UpdateKeepsIds | src/app/admin/portfolio/components/ProjectManager.tsx:51-61 | An update that keeps ids leaves the list of ids as it was, position by position. |
| Collection.DeleteById | src/app/admin/portfolio/components/ProjectManager.tsx:75 | Deleting removes every record with the id and keeps every other. Deleting an absent id changes nothing. |
| Collection.DeleteByIdShape | src/app/admin/portfolio/components/SkillsManager.tsx:72 | Deleting keeps the survivors in order. The length drops by exactly the number of records with the id. |
| ListField.ParseList | src/app/admin/portfolio/components/ProjectManager.tsx:23 | Every parsed entry is non-empty, trimmed and comma-free. |
| ListField.KeepEntries | src/app/admin/portfolio/components/ExperiencesManager.tsx:30 | `map(trim).filter(Boolean)` yields non-empty, trimmed entries, and no more of them than there were pieces. |
| ListField.KeepEntriesClean | src/app/admin/portfolio/components/ExperiencesManager.tsx:30 | Pieces cut at commas leave comma-free entries. |
| ListField.TrimKeepsAbsence | src/app/admin/portfolio/components/ProjectManager.tsx:23 | Trimming cannot introduce a comma. |
| ListField.SplitJoin | src/app/admin/portfolio/components/ProjectManager.tsx:42 | Joining comma-free entries with `', '` and splitting at `,` gives back the first entry, then the others each preceded by a space. |
| ListField.TrimSpaced | src/app/admin/portfolio/components/ProjectManager.tsx:23 | Trimming removes the space that the join put before an entry. |
| ListField.KeepEntriesCons | src/app/admin/portfolio/components/ProjectManager.tsx:23 | A piece that is not blank contributes its trimmed text at the head. |
| ListField.KeepSpaced | src/app/admin/portfolio/components/ProjectManager.tsx:23 | Parsing space-prefixed clean entries recovers the entries. |
| ListField.JoinParseRoundTrip | src/app/admin/portfolio/components/ProjectManager.tsx:42-58 | For a clean list, the edit form's `join(', ')` followed by the save's `split/trim/filter` gives back the same list. |
| Portfolio.WithNewProject | src/app/admin/portfolio/components/ProjectManager.tsx:13-26 | Adding gives the old list unchanged and in order, then one new project. Its id is 1 for an empty list and otherwise exactly one above the largest id. It takes the form's fields and the parsed technologies. |
| Portfolio.WithEditedProject | src/app/admin/portfolio/components/ProjectManager.tsx:51-61 | Saving an edit keeps length, order and every id. Only projects with the form's id change, and they take the form's fields. |
| Portfolio.EditedProject | src/app/admin/portfolio/components/ProjectManager.tsx:53-59 | The spread keeps the record's id whatever the form holds. |
| Portfolio.ProjectToForm | src/app/admin/portfolio/components/ProjectManager.tsx:36-43 | The opened form can be saved (its id passes the `!form.id` guard) exactly when the record's id is not 0. |
| Portfolio.WithoutProject | src/app/admin/portfolio/components/ProjectManager.tsx:75 | Delete keeps, in order, exactly the projects whose id differs, and the length drops by the number removed. An absent id leaves the list unchanged. |
| Portfolio.ProjectEditRoundTrip | src/app/admin/portfolio/components/ProjectManager.tsx:36-61 | Opening a project with clean technologies in the form and saving it untouched returns the same project. |
| Portfolio.WithNewSkill | src/app/admin/portfolio/components/SkillsManager.tsx:13-25 | Adding appends one skill and keeps the earlier ones. Its id is 1 for an empty list and otherwise exactly one above the largest id. It takes the form's level, name and category. |
| Portfolio.WithEditedSkill | src/app/admin/portfolio/components/SkillsManager.tsx:49-58 | Only skills with the form's id take its name, level and category. Ids, length and the other skills are kept. |
| Portfolio.EditedSkill | src/app/admin/portfolio/components/SkillsManager.tsx:51-55 | The spread keeps the record's id whatever the form holds. |
| Portfolio.SkillToForm | src/app/admin/portfolio/components/SkillsManager.tsx:35-41 | The opened form can be saved (its id passes the `!form.id` guard) exactly when the record's id is not 0. |
| Portfolio.WithoutSkill | src/app/admin/portfolio/components/SkillsManager.tsx:72 | Delete keeps, in order, exactly the skills whose id differs, and the length drops by the number removed. An absent id leaves the list unchanged. |
| Portfolio.SkillEditRoundTrip | src/app/admin/portfolio/components/SkillsManager.tsx:35-58 | Editing a skill and saving it untouched returns the same skill. |
| Portfolio.WithNewExperience | src/app/admin/portfolio/components/ExperiencesManager.tsx:19-33 | Adding appends one experience and keeps the earlier ones. Its id is 1 for an empty list and otherwise exactly one above the largest id. It takes the parsed achievements. |
| Portfolio.WithEditedExperience | src/app/admin/portfolio/components/ExperiencesManager.tsx:59-70 | Only the record with the form's id changes. It keeps its id and takes the parsed achievements. |
| Portfolio.EditedExperience | src/app/admin/portfolio/components/ExperiencesManager.tsx:61-68 | The spread keeps the record's id whatever the form holds. |
| Portfolio.ExperienceToForm | src/app/admin/portfolio/components/ExperiencesManager.tsx:43-51 | The opened form can be saved (its id passes the `!form.id` guard) exactly when the record's id is not 0. |
| Portfolio.WithoutExperience | src/app/admin/portfolio/components/ExperiencesManager.tsx:84 | Delete keeps, in order, exactly the experiences whose id differs, and the length drops by the number removed. An absent id leaves the list unchanged. |
| Portfolio.ExperienceEditRoundTrip | src/app/admin/portfolio/components/ExperiencesManager.tsx:43-70 | An experience with clean achievements survives opening and saving unchanged. |
| Portfolio.WithNewEducation | src/app/admin/portfolio/components/EducationManager.tsx:18-31 | Adding appends one entry and keeps the earlier ones. Its id is 1 for an empty list and otherwise exactly one above the largest id. It takes the form's fields. |
| Portfolio.WithEditedEducation | src/app/admin/portfolio/components/EducationManager.tsx:56-66 | Only the matching id changes. Length, order and ids are preserved. |
| Portfolio.EditedEducation | src/app/admin/portfolio/components/EducationManager.tsx:58-63 | The spread keeps the record's id whatever the form holds. |
| Portfolio.EducationToForm | src/app/admin/portfolio/components/EducationManager.tsx:41-48 | The opened form can be saved (its id passes the `!form.id` guard) exactly when the record's id is not 0. |
| Portfolio.WithoutEducation | src/app/admin/portfolio/components/EducationManager.tsx:80 | Delete keeps, in order, exactly the entries whose id differs, and the length drops by the number removed. An absent id leaves the list unchanged. |
| Portfolio.EducationEditRoundTrip | src/app/admin/portfolio/components/EducationManager.tsx:41-63 | Opening an entry in the form and saving it untouched returns the same entry. |
| Portfolio.WithNewCertificate | src/app/admin/portfolio/components/CertificatesManager.tsx:18-31 | Adding appends one certificate and keeps the earlier ones. Its id is 1 for an empty list and otherwise exactly one above the largest id. It takes the form's fields. |
| Portfolio.WithEditedCertificate | src/app/admin/portfolio/components/CertificatesManager.tsx:56-66 | Only the certificates with the id take the form's name, issuer, date and link. |
| Portfolio.EditedCertificate | src/app/admin/portfolio/components/CertificatesManager.tsx:58-63 | The spread keeps the record's id whatever the form holds. |
| Portfolio.CertificateToForm | src/app/admin/portfolio/components/CertificatesManager.tsx:41-48 | The opened form can be saved (its id passes the `!form.id` guard) exactly when the record's id is not 0. |
| Portfolio.WithoutCertificate | src/app/admin/portfolio/components/CertificatesManager.tsx:80 | Delete keeps, in order, exactly the certificates whose id differs, and the length drops by the number removed. An absent id leaves the list unchanged. |
| Portfolio.CertificateEditRoundTrip | src/app/admin/portfolio/components/CertificatesManager.tsx:41-63 | Opening a certificate in the form and saving it untouched returns the same certificate. |
| ProjectEditing.ProjectManager.constructor | src/app/admin/portfolio/components/ProjectManager.tsx:9-10 | The editor starts with the empty form, closed. |
| ProjectEditing.ProjectManager.AddProject | src/app/admin/portfolio/components/ProjectManager.tsx:13-33 | Hands `onSave` the list with the new project. The form is cleared and closed only when the save succeeded. |
| ProjectEditing.ProjectManager.EditProject | src/app/admin/portfolio/components/ProjectManager.tsx:36-45 | Opens the project in the form, technologies joined with `', '`. |
| ProjectEditing.ProjectManager.SaveEditedProject | src/app/admin/portfolio/components/ProjectManager.tsx:48-69 | Without a form id (or with id 0), nothing is sent and nothing changes. Otherwise it sends the edited list and resets only on success. |
| ProjectEditing.ProjectManager.DeleteProject | src/app/admin/portfolio/components/ProjectManager.tsx:72-77 | Sends the list without the id only when the user confirmed. |
| SkillEditing.SkillsManager.constructor | src/app/admin/portfolio/components/SkillsManager.tsx:9-10 | The editor starts closed, with the empty form at level 50. |
| SkillEditing.SkillsManager.AddSkill | src/app/admin/portfolio/components/SkillsManager.tsx:13-32 | Sends the list with the new skill. On success the form resets to empty name and category at level 50. |
| SkillEditing.SkillsManager.EditSkill | src/app/admin/portfolio/components/SkillsManager.tsx:35-43 | Opens the skill in the form. |
| SkillEditing.SkillsManager.SaveEditedSkill | src/app/admin/portfolio/components/SkillsManager.tsx:46-66 | Does nothing without a form id. Otherwise it sends the edited list and resets only on success. |
| SkillEditing.SkillsManager.DeleteSkill | src/app/admin/portfolio/components/SkillsManager.tsx:69-74 | Sends the list without the id only when confirmed. |
| ExperienceEditing.ExperiencesManager.constructor | src/app/admin/portfolio/components/ExperiencesManager.tsx:9-16 | The editor starts with the empty form, closed. |
| ExperienceEditing.ExperiencesManager.AddExperience | src/app/admin/portfolio/components/ExperiencesManager.tsx:19-40 | Sends the list with the new experience and resets only on success. |
| ExperienceEditing.ExperiencesManager.EditExperience | src/app/admin/portfolio/components/ExperiencesManager.tsx:43-53 | Opens the experience, achievements joined with `', '`. |
| ExperienceEditing.ExperiencesManager.SaveEditedExperience | src/app/admin/portfolio/components/ExperiencesManager.tsx:56-78 | Does nothing without a form id. Otherwise it sends the edited list and resets only on success. |
| ExperienceEditing.ExperiencesManager.DeleteExperience | src/app/admin/portfolio/components/ExperiencesManager.tsx:81-86 | Sends the list without the id only when confirmed. |
| EducationEditing.EducationManager.constructor | src/app/admin/portfolio/components/EducationManager.tsx:9-15 | The editor starts with the empty form, closed. |
| EducationEditing.EducationManager.AddEducation | src/app/admin/portfolio/components/EducationManager.tsx:18-38 | Sends the list with the new entry. The form resets only on success. |
| EducationEditing.EducationManager.EditEducation | src/app/admin/portfolio/components/EducationManager.tsx:41-50 | Opens the entry in the form. |
| EducationEditing.EducationManager.SaveEditedEducation | src/app/admin/portfolio/components/EducationManager.tsx:53-74 | Does nothing without a form id. Otherwise it sends the edited list and resets only on success. |
| EducationEditing.EducationManager.DeleteEducation | src/app/admin/portfolio/components/EducationManager.tsx:77-82 | Sends the list without the id only when confirmed. |
| CertificateEditing.CertificatesManager.constructor | src/app/admin/portfolio/components/CertificatesManager.tsx:9-15 | The editor starts with the empty form, closed. |
| CertificateEditing.CertificatesManager.AddCertificate | src/app/admin/portfolio/components/CertificatesManager.tsx:18-38 | Sends the list with the new certificate. The form resets only on success. |
| CertificateEditing.CertificatesManager.EditCertificate | src/app/admin/portfolio/components/CertificatesManager.tsx:41-50 | Opens the certificate in the form. |
| CertificateEditing.CertificatesManager.SaveEditedCertificate | src/app/admin/portfolio/components/CertificatesManager.tsx:53-74 | Does nothing without a form id. Otherwise it sends the edited list and resets only on success. |
| CertificateEditing.CertificatesManager.DeleteCertificate | src/app/admin/portfolio/components/CertificatesManager.tsx:77-82 | Sends the list without the id only when confirmed. |
| PortfolioEditing.Capitalize | src/app/admin/portfolio/components/PortfolioManager.tsx:164 | Upper-cases the first character and keeps the rest and the length. |
| PortfolioEditing.SuccessMessage | src/app/admin/portfolio/components/PortfolioManager.tsx:164 | The success message is never empty and ends with " updated successfully!" after the section name. |
| PortfolioEditing.SaveError | src/app/admin/portfolio/components/PortfolioManager.tsx:172 | The failure message is never empty, so it is always shown, and it names the section. |
| PortfolioEditing.SuccessMessageNamesSection | src/app/admin/portfolio/components/PortfolioManager.tsx:164 | The success message is the section name with a capital first letter, followed by " updated successfully!". |
| PortfolioEditing.PortfolioManager.constructor | src/app/admin/portfolio/components/PortfolioManager.tsx:80-101 | The page starts loading, with empty data, no messages and the empty forms (skill level 50). |
| PortfolioEditing.PortfolioManager.LoadPortfolioData | src/app/admin/portfolio/components/PortfolioManager.tsx:107-146 | Installs the five collections when every GET answered ok. Otherwise it keeps the data and shows the load error. Loading ends either way. |
| PortfolioEditing.PortfolioManager.SaveData | src/app/admin/portfolio/components/PortfolioManager.tsx:149-177 | Reports success exactly when the response is ok, and shows the success message or the section's error. It never touches the data or the forms. |
| PortfolioEditing.PortfolioManager.Commit | src/app/admin/portfolio/components/PortfolioManager.tsx:194-200 | The new data, forms and editing flag are installed only after a successful save. On failure all three stay as they were. |
| PortfolioEditing.PortfolioManager.AddProject | src/app/admin/portfolio/components/PortfolioManager.tsx:180-201 | Saves the projects with one new project. On success only `projects` changes in `portfolioData`, and the project form clears. |
| PortfolioEditing.PortfolioManager.AddSkill | src/app/admin/portfolio/components/PortfolioManager.tsx:203-223 | Saves the skills with one new skill. Only `skills` changes, and only on success. |
| PortfolioEditing.PortfolioManager.AddExperience | src/app/admin/portfolio/components/PortfolioManager.tsx:225-247 | Saves the experiences with one new entry. Only `experiences` changes, and only on success. |
| PortfolioEditing.PortfolioManager.AddEducation | src/app/admin/portfolio/components/PortfolioManager.tsx:249-270 | Saves the education list with one new entry. Only `education` changes, and only on success. |
| PortfolioEditing.PortfolioManager.AddCertificate | src/app/admin/portfolio/components/PortfolioManager.tsx:272-293 | Saves the certificates with one new entry. Only `certificates` changes, and only on success. |
| PortfolioEditing.PortfolioManager.EditProject | src/app/admin/portfolio/components/PortfolioManager.tsx:296-305 | Opens the project in the project form. Data and the other forms are untouched. |
| PortfolioEditing.PortfolioManager.EditSkill | src/app/admin/portfolio/components/PortfolioManager.tsx:307-315 | Opens the skill in the skill form. |
| PortfolioEditing.PortfolioManager.EditExperience | src/app/admin/portfolio/components/PortfolioManager.tsx:317-327 | Opens the experience, achievements joined. |
| PortfolioEditing.PortfolioManager.EditEducation | src/app/admin/portfolio/components/PortfolioManager.tsx:329-338 | Opens the education entry. |
| PortfolioEditing.PortfolioManager.EditCertificate | src/app/admin/portfolio/components/PortfolioManager.tsx:340-349 | Opens the certificate. |
| PortfolioEditing.PortfolioManager.SaveEditedProject | src/app/admin/portfolio/components/PortfolioManager.tsx:352-374 | Nothing happens without a form id. Otherwise the matching projects are replaced, and only `projects` changes, only on success. Once a save was sent, saving has ended (`isSaving` is false). |
| PortfolioEditing.PortfolioManager.SaveEditedSkill | src/app/admin/portfolio/components/PortfolioManager.tsx:376-397 | The same for skills: nothing happens without a form id, only `skills` changes, only on success, and once a save was sent `isSaving` is false. |
| PortfolioEditing.PortfolioManager.SaveEditedExperience | src/app/admin/portfolio/components/PortfolioManager.tsx:399-422 | The same for experiences: nothing happens without a form id, only `experiences` changes, only on success, and once a save was sent `isSaving` is false. |
| PortfolioEditing.PortfolioManager.SaveEditedEducation | src/app/admin/portfolio/components/PortfolioManager.tsx:424-446 | The same for education: nothing happens without a form id, only `education` changes, only on success, and once a save was sent `isSaving` is false. |
| PortfolioEditing.PortfolioManager.SaveEditedCertificate | src/app/admin/portfolio/components/PortfolioManager.tsx:448-470 | The same for certificates: nothing happens without a form id, only `certificates` changes, only on success, and once a save was sent `isSaving` is false. |
| PortfolioEditing.PortfolioManager.DeleteProject | src/app/admin/portfolio/components/PortfolioManager.tsx:473-482 | After confirmation, saves the projects without the id. Only `projects` changes, and only on success. Once confirmed, saving has ended (`isSaving` is false). |
| PortfolioEditing.PortfolioManager.DeleteSkill | src/app/admin/portfolio/components/PortfolioManager.tsx:484-493 | The same for skills: nothing is sent without confirmation, only `skills` changes, only on success, and once confirmed `isSaving` is false. |
| PortfolioEditing.PortfolioManager.DeleteExperience | src/app/admin/portfolio/components/PortfolioManager.tsx:495-504 | The same for experiences: nothing is sent without confirmation, only `experiences` changes, only on success, and once confirmed `isSaving` is false. |
| PortfolioEditing.PortfolioManager.DeleteEducation | src/app/admin/portfolio/components/PortfolioManager.tsx:506-515 | The same for education: nothing is sent without confirmation, only `education` changes, only on success, and once confirmed `isSaving` is false. |
| PortfolioEditing.PortfolioManager.DeleteCertificate | src/app/admin/portfolio/components/PortfolioManager.tsx:517-526 | The same for certificates: nothing is sent without confirmation, only `certificates` changes, only on success, and once confirmed `isSaving` is false. |
| JsonStore.SharedFiles | src/app/api/admin/portfolio/certificates/route.ts:5 | Two endpoints write the same file exactly when they are equal or are education and certificates. Their keys never coincide. |
| JsonStore.Authenticate | src/app/api/admin/portfolio/projects/route.ts:9-14 | Accepts every request, so the 401 branch of PUT is unreachable. |
| JsonStore.ReadDoc | src/app/api/admin/portfolio/projects/route.ts:18-19 | A read succeeds exactly for a file that exists and parses. |
| JsonStore.Get | src/app/api/admin/portfolio/projects/route.ts:16-26 | GET answers 500 exactly when the file is missing, unparsable or `null`. Otherwise it answers 200: with the key's value when that value is present and truthy, and with `[]` when it is absent or falsy. |
| JsonStore.GetAbsentKey | src/app/api/admin/portfolio/education/route.ts:18-22 | A readable document without the key answers `[]`. |
| JsonStore.IndexName | src/app/api/admin/portfolio/projects/route.ts:45 | An array index spreads to a key made of digits. |
| JsonStore.IndexFields | src/app/api/admin/portfolio/projects/route.ts:45 | Spreading an array gives only digit keys. |
| JsonStore.Spread | src/app/api/admin/portfolio/projects/route.ts:45 | `{...doc}` is the object's own fields. For any other value it has only index keys. |
| JsonStore.KeyIsNotIndex | src/app/api/admin/portfolio/projects/route.ts:45 | No endpoint key can come from spreading a non-object. |
| JsonStore.Replaced | src/app/api/admin/portfolio/projects/route.ts:45 | The written document has the key set to the body. Every other spread key is kept with its value, and no other key appears. |
| JsonStore.DataDir.constructor | src/app/api/admin/portfolio/projects/route.ts:5 | The directory holds the given files. |
| JsonStore.DataDir.Put | src/app/api/admin/portfolio/projects/route.ts:28-55 | An unparsable body answers 500, a non-array body 400, and an unreadable file 500, all without writing. Otherwise exactly the endpoint's file is rewritten with the key replaced, and the answer is 200. |
| JsonStore.GetAfterPut | src/app/api/admin/portfolio/education/route.ts:43-49 | After a successful PUT, GET on the same endpoint answers exactly the array written. |
| JsonStore.PutIsolation | src/app/api/admin/portfolio/certificates/route.ts:44-50 | A PUT leaves every other endpoint's GET unchanged, including the sibling key in `education.json`. The exception is a shared `null` document. |
| JsonStore.NullDocumentException | src/app/api/admin/portfolio/certificates/route.ts:19-23 | A `null` `education.json` makes the certificates GET fail, and a PUT of education repairs it. |
| BlogStore.StripExt | src/lib/blog.ts:27 | Removes exactly one trailing `.mdx` or `.md`. Other names are unchanged. |
| BlogStore.SlugPlusExtension | src/lib/blog.ts:24-27 | For every post file, the slug plus the removed extension is the file name. |
| BlogStore.PostFiles | src/lib/blog.ts:24 | Keeps exactly the `.md`/`.mdx` names of the listing. |
| BlogStore.GetAllPostSlugs | src/lib/blog.ts:17-30 | A missing directory gives `[]`. Otherwise there is one slug per post file, and each is that file's name without its extension. |
| BlogStore.ToPost | src/lib/blog.ts:46-54 | Missing description, tags and image default to `''`, `[]` and `null`. Title, date, content and slug come from the file. |
| BlogStore.ReadPost | src/lib/blog.ts:41-44 | A file reads exactly when it exists and parses, and it gives the post under its slug. |
| BlogStore.LoadAll | src/lib/blog.ts:38-55 | Loading succeeds exactly when every post file loads, and keeps their order. One failure fails the listing. |
| BlogStore.Insert | src/lib/blog.ts:58-64 | Inserting adds exactly the one post (as a multiset). |
| BlogStore.SortByDate | src/lib/blog.ts:58-64 | The sort returns a permutation of its input. |
| BlogStore.NotEarlierTransitive | src/lib/blog.ts:58-64 | "Not earlier than" is transitive on dated posts. |
| BlogStore.InsertAtFront | src/lib/blog.ts:58-64 | A post not earlier than the head of a sorted list goes first. |
| BlogStore.HeadNotEarlier | src/lib/blog.ts:58-64 | The head of a sorted list is not earlier than anything behind it. |
| BlogStore.InsertBehind | src/lib/blog.ts:58-64 | Inserting behind the head keeps the head not earlier than the rest. |
| BlogStore.InsertKeepsOrder | src/lib/blog.ts:58-64 | Inserting a dated post into a newest-first list keeps it newest-first. |
| BlogStore.SortedNewestFirst | src/lib/blog.ts:58-64 | When every post is dated, the sort leaves dates non-increasing under string `<`. |
| BlogStore.GetAllPosts | src/lib/blog.ts:32-65 | A missing directory gives `[]`. Otherwise it succeeds exactly when every file loads, and returns a permutation of the loaded posts, newest first when all are dated. |
| BlogStore.AllDatedAfterSort | src/lib/blog.ts:58-64 | Sorting neither adds nor removes dates. |
| BlogStore.LoadedSlugs | src/lib/blog.ts:37-47 | Every listed post carries the slug of a post file of the directory. |
| BlogStore.GetPostBySlug | src/lib/blog.ts:67-101 | `<slug>.md` wins when it reads. Otherwise `<slug>.mdx` is used, otherwise nothing. The post keeps the requested slug. |
| BlogPostsApi.NewFrontMatter | src/app/api/admin/blog/posts/route.ts:37-42 | The title is kept. Date defaults to now, description to `''` and tags to `[]`. |
| BlogPostsApi.PostsFolder.constructor | src/app/api/admin/blog/posts/route.ts:6-11 | The folder holds the given listing and files. |
| BlogPostsApi.PostsFolder.Create | src/app/api/admin/blog/posts/route.ts:22-56 | An unparsable body answers 500, and a missing title, content or slug answers 400; neither writes. Otherwise exactly `<slug>.md` is written (overwriting), and the given slug is answered unchanged. |
| BlogPostsApi.FileName | src/app/api/admin/blog/posts/route.ts:48 | A slug is stored under a post file name that the listing reads back as the same slug. |
| BlogPostsApi.CreateThenRead | src/app/api/admin/blog/posts/route.ts:37-51 | Reading back the created slug gives the request's title, content, date and tags with their defaults. |
| BlogAdmin.KeepSlugText | src/app/admin/blog/page.tsx:80 | Deleting `[^\w\s-]` keeps only word, space and dash characters from the input. Text that is already clean is unchanged. |
| BlogAdmin.DashRuns | src/app/admin/blog/page.tsx:81 | After replacing whitespace runs with `-`, no whitespace remains and nothing new appears but dashes. |
| BlogAdmin.DashedIsSlug | src/app/admin/blog/page.tsx:78-81 | Lower-case, clean and dash steps give only `[a-z0-9_-]`. |
| BlogAdmin.SlugifyChars | src/app/admin/blog/page.tsx:78-82 | A derived slug holds only `[a-z0-9_-]`: underscores survive, whitespace and upper case do not. |
| BlogAdmin.SlugifyFixed | src/app/admin/blog/page.tsx:78-82 | A string of slug characters is its own slug. |
| BlogAdmin.SlugifyFixedIff | src/app/admin/blog/page.tsx:78-82 | A string is its own slug exactly when it consists of slug characters. |
| BlogAdmin.SlugifyIdempotent | src/app/admin/blog/page.tsx:78-82 | Deriving a slug twice is deriving it once. |
| BlogAdmin.SlugTrimmed | src/app/admin/blog/page.tsx:82 | The final `trim` has nothing to remove from a string of slug characters. |
| BlogAdmin.DashRunsWord | src/app/admin/blog/page.tsx:81 | A non-space character, including `-`, passes through, so dash runs are not merged ("a - b" gives "a---b"). |
| BlogAdmin.DashRunsRun | src/app/admin/blog/page.tsx:81 | A whole whitespace run, however long, becomes one `-`. |
| BlogAdmin.TrimStartOfRun | src/app/admin/blog/page.tsx:82 | Trimming the start removes exactly a leading whitespace run. |
| BlogAdmin.WithoutTag | src/app/admin/blog/page.tsx:186 | Removes every occurrence of the tag and keeps all others. An absent tag leaves the list unchanged. |
| BlogAdmin.BlogAdminPage.constructor | src/app/admin/blog/page.tsx:12-24 | The page starts with an empty new post dated today and nothing being edited. |
| BlogAdmin.BlogAdminPage.HandleCreatePost | src/app/admin/blog/page.tsx:71-117 | A missing title or content sets the error and sends nothing. Otherwise it sends the form with the derived slug; only an ok reply resets the form, and a refusal or exception sets the matching error. |
| BlogAdmin.BlogAdminPage.AddTag | src/app/admin/blog/page.tsx:164-180 | Blank input is ignored. Otherwise the trimmed tag is appended (duplicates allowed) to the edited post's tags, or else the new post's, and the input clears. |
| BlogAdmin.BlogAdminPage.RemoveTag | src/app/admin/blog/page.tsx:182-195 | Removes every occurrence of the tag from the edited post, or else the new post. |
| BlogAdmin.RemoveAddedTag | src/app/admin/blog/page.tsx:164-195 | Removing a just-added new tag restores the tag list. |
| BlogAdmin.FilterAppend | src/app/admin/blog/page.tsx:186 | `filter` distributes over concatenation. |
| BlogAdmin.PunctuationTitleRefused | src/app/admin/blog/page.tsx:72-82 | A title of punctuation alone passes the page's check but yields the empty slug, which the create endpoint refuses. |
| BlogSearch.Search | src/app/blog/page.tsx:30-43 | A blank query shows every post. Otherwise the result has exactly the posts whose lower-cased title, description or some tag contains the lower-cased query. It is `None` when a title is missing. |
| BlogSearch.SearchIsSubseq | src/app/blog/page.tsx:37 | The search result keeps the listing's order. |
| BlogSearch.BlankLower | src/app/blog/page.tsx:31-36 | Lower-casing a query does not change whether it is blank. |
| BlogSearch.SearchCaseInsensitive | src/app/blog/page.tsx:36-40 | Queries equal after lower-casing ("Rust", "RUST") show the same posts. |
| Registration.Refusal | src/app/api/auth/register/route.ts:10-22 | A request is refused exactly when a field is missing or the password is under 8 UTF-16 code units. A missing field is reported first; a short password with all fields filled gets the short-password message. Both refusals are 400 without a user. |
| Registration.UserTable.constructor | src/app/api/auth/register/route.ts:2 | The table holds the given users. |
| Registration.UserTable.Register | src/app/api/auth/register/route.ts:5-62 | Outcomes, in order: a bad body answers 500, a refusal answers 400, and a taken email answers 409, each with the table unchanged. Otherwise exactly one user is added under the email with the hashed password, and the 201 reply carries no password. |
| Registration.WithField | src/app/register/page.tsx:21-24 | The named field takes the value, and every other field keeps its own. |
| Registration.ClientCheck | src/app/register/page.tsx:30-40 | The page passes exactly matching passwords of 8 or more UTF-16 code units. Mismatch is reported before length. |
| Registration.FourEmojiPassword | src/app/api/auth/register/route.ts:17 | Four emoji make a password of length 8, which the route accepts. |
| Registration.ClientCheckAgrees | src/app/register/page.tsx:31-53 | A form the page accepts (with name and email) is never refused with 400, and a short password never leaves the page. |
| Registration.OutcomeError | src/app/register/page.tsx:55-74 | A refusal always shows an error. After an accepted request, the error is empty exactly when the sign-in reported none. |
| Registration.RegisterPage.constructor | src/app/register/page.tsx:12-19 | The form starts empty, with no error and not loading. |
| Registration.RegisterPage.HandleChange | src/app/register/page.tsx:21-24 | Only the named field of the form changes. |
| Registration.RegisterPage.HandleSubmit | src/app/register/page.tsx:26-78 | A failed page check shows its message and sends nothing. Otherwise it sends name, email and password, shows the outcome's error and ends loading. |
| Comments.DisplayAuthor | src/components/CommentSection.tsx:154-166 | Shows the account name if filled, else the given name, else the masked address, else the anonymous label. |
| Comments.MaskedAddress | src/components/CommentSection.tsx:160-162 | The guest label always starts with the guest prefix and ends with `)`. |
| Comments.SplitDotted | src/components/CommentSection.tsx:161 | A dotted address splits into its four parts. |
| Comments.MaskedDotted | src/components/CommentSection.tsx:160-162 | `a.b.c.d` is shown as `a.b.***.d`. |
| Comments.ThirdPartHidden | src/components/CommentSection.tsx:162 | Addresses differing only in the third part look the same. |
| Comments.UndottedAddressShown | src/components/CommentSection.tsx:160-162 | An address without dots (IPv6) is shown whole, followed by the text `undefined` for the missing parts. |
| Comments.OnlyTheAuthorModifies | src/components/CommentSection.tsx:308 | Nobody may edit a comment written without an account, and at most one signed-in user may edit any comment. |
| Comments.CommentSection.constructor | src/components/CommentSection.tsx:29-35 | The section starts loading, with no comments, no text and no edit open. |
| Comments.CommentSection.FetchComments | src/components/CommentSection.tsx:41-58 | A successful fetch replaces the list. A failed one keeps it and shows the load error. Loading ends either way. |
| Comments.CommentSection.SubmitComment | src/components/CommentSection.tsx:60-89 | A blank comment is not sent and changes nothing. Otherwise the text is sent; success clears it, failure keeps it and shows the error. |
| Comments.CommentSection.EditComment | src/components/CommentSection.tsx:91-94 | Opens the comment's text in the edit box. |
| Comments.CommentSection.CancelEdit | src/components/CommentSection.tsx:282 | Closes the edit box. |
| Comments.CommentSection.UpdateComment | src/components/CommentSection.tsx:96-123 | A blank edit is not sent. Otherwise it is sent; success closes the box, failure keeps it open with the error. |
| Comments.CommentSection.DeleteComment | src/components/CommentSection.tsx:125-144 | Nothing is sent without confirmation. Otherwise the delete is sent, and only a failure leaves a message. |
| LikeButtons.Toggled | src/components/LikeButton.tsx:62-66 | The flag flips. The count goes up by one when the post becomes liked and down by one when it becomes unliked. |
| LikeButtons.TwoTogglesRestore | src/components/LikeButton.tsx:63-65 | Two successful toggles restore the original flag and count. |
| LikeButtons.ToggleKeepsOthers | src/components/LikeButton.tsx:63-65 | A toggle keeps the count equal to the other readers' likes plus this reader's. |
| LikeButtons.LikeButton.constructor | src/components/LikeButton.tsx:14-16 | The button starts unliked, at 0 and loading. |
| LikeButtons.LikeButton.FetchLikes | src/components/LikeButton.tsx:18-37 | Installs the count, and for a signed-in reader whether they liked the post. Loading ends in every case. |
| LikeButtons.LikeButton.HandleLike | src/components/LikeButton.tsx:44-70 | A signed-out reader changes nothing and sends nothing. Otherwise only an ok response toggles what is shown. |
| TopicFollow.TopicFollowButton.constructor | src/components/TopicFollowButton.tsx:14-15 | The button starts not following and loading. |
| TopicFollow.TopicFollowButton.CheckFollowStatus | src/components/TopicFollowButton.tsx:17-33 | A signed-out reader only ends loading. A signed-in reader gets the server's answer, and an absent answer shows as not following. |
| TopicFollow.TopicFollowButton.ToggleFollow | src/components/TopicFollowButton.tsx:40-59 | A signed-out reader changes nothing. Otherwise only an ok response negates `following`. |
| TopicFollow.SignedOutView | src/components/TopicFollowButton.tsx:17-43 | A signed-out reader ends with loading done and the topic not followed. |

## Behaviour worth knowing

Each of these follows the code as written:

- **The slug keeps underscores.** The derived slug keeps `_`, because `\w` includes it: "Hello, World! Foo_Bar" becomes "hello-world-foo_bar". (`BlogAdmin.SlugifyChars`)
- **GET fails on a bad file.** GET on a portfolio endpoint answers 500 when its file is missing, does not parse or holds `null`. It does not fall back to `[]`. (`JsonStore.Get`)
- **IPv6 addresses are not masked.** An address without dots is shown whole with `undefined` for the missing parts. (`Comments.UndottedAddressShown`)
- **The page accepts punctuation-only titles.** A title of punctuation alone passes the admin page's check, but the endpoint refuses its empty slug. (`BlogAdmin.PunctuationTitleRefused`)

## Left out

- **Rendering.** JSX, styling, animation and `setTimeout` (which clears the success message) are not modelled.
- **File and database access.**
  - The file system is a map from path to contents.
  - JSON pretty-printing and a failing `writeFileSync` are not modelled. A write always succeeds.
  - Prisma is a map from email to user. Extra columns and database errors other than the ones the route checks are not modelled.
- **Foreign libraries.**
  - The front-matter parser and printer are function parameters. YAML typing of `date` is not modelled: dates are strings.
  - `bcrypt` is a function parameter.
  - `signIn` and `router.push` appear only through the page's `Outcome` parameter.
- **Concurrency.** `Promise.all` in `loadPortfolioData` and lost updates between concurrent PUTs are not modelled. The five GET results arrive as one value.
- **The session.**
  - The `status === "loading"` gate of the widgets is not modelled.
  - The session is a flag, or the user's id for the comment owner check.
- **Requests not modelled.**
  - The comment list is fetched again after a change without being awaited. That refetch is `FetchComments` called separately, not part of each handler.
  - After a create, the admin blog page reloads its post list. That reload is not modelled.
  - The admin page's `handleUpdatePost` and `handleDeletePost`, and the per-slug post route they call, are not part of this model.
- **Text and numbers.**
  - `trim`, `\s`, `\w`, `toLowerCase` and `toUpperCase` are over ASCII only. Text.ToLower, Text.Trim and BlogAdmin.Slugify therefore do not model Unicode letters and spaces.
  - String `<` is compared character by character (Text.LexLess). JavaScript compares UTF-16 code units, which orders characters above U+FFFF differently from those in U+E000 to U+FFFF.
  - JSON numbers are integers, so floating point and `NaN` ids are not modelled.
  - Non-string values where the source expects strings (a non-string `password`, `title` or tag) are not modelled.
- **The posts route's authentication.** `authenticate` in the blog posts route always accepts. It is not modelled, and neither is its `mkdirSync` of a missing directory: the folder is taken to exist.
- BlogStore.GetAllPosts: the newest-first order is proved only when every post has a date. The source sorts with `a.date < b.date ? 1 : -1`, which is not a consistent comparator when dates are missing or equal, so the order the JavaScript engine then produces is not modelled. The model uses an insertion sort with the same comparator.
- BlogSearch.Search: a post without a title makes `toLowerCase` throw. The model returns `None` for the whole non-blank search instead of modelling the exception.
- JsonStore.Get: JSON values are modelled with integer numbers and string keys only.
- BlogPostsApi.PostsFolder.Create: the folder is flat, so a slug is one file name. In the source, `path.join` on a slug holding `/` or `..` writes into a sub-directory or outside the posts folder, or fails with 500 when that directory is missing. Such a file is never listed afterwards. The model stores it under `<slug>.md` in the flat folder instead.
