/** The résumé builder page: twelve sections, each opened in the section dialog
    and saved back into the page's list. The dialog component is mounted the
    first time a section is opened and stays mounted; its form data is its own
    state, seeded from the section's saved data only at that first mount. */
module ResumeBuilder {
  import opened Seqs
  import opened ResumeDialog

  /** One section of the résumé; `data` is null until the section is saved.
      The colour and icon are not modelled. */
  datatype ResumeSection = ResumeSection(id: string, title: string, sectionType: SectionType, data: Option<FormData>)

  const InitialSections: seq<ResumeSection> := [
    ResumeSection("personal", "Personal Details", PersonalDetails, None),
    ResumeSection("education", "Education", Education, None),
    ResumeSection("skills", "Key Skills", KeySkills, None),
    ResumeSection("preferences", "Career Preferences", CareerPreferences, None),
    ResumeSection("languages", "Languages", Languages, None),
    ResumeSection("internships", "Internships", Internships, None),
    ResumeSection("projects", "Projects", Projects, None),
    ResumeSection("summary", "Profile Summary", Summary, None),
    ResumeSection("accomplishments", "Accomplishments", Accomplishments, None),
    ResumeSection("exams", "Entrance Exam", Exams, None),
    ResumeSection("employment", "Employment History", Employment, None),
    ResumeSection("academic", "Academic Achievements", AcademicAchievements, None)]

  /** The page's state together with the mounted dialog's form data. `form` is
      meaningful once `activeSection` is set, which is when the dialog mounts. */
  datatype BuilderState = BuilderState(
    activeSection: Option<ResumeSection>,
    dialogOpen: bool,
    sections: seq<ResumeSection>,
    form: FormData)

  const Initial: BuilderState := BuilderState(None, false, InitialSections, map[])

  /** `activeSection.data || {}`: what the dialog is handed as initial data. */
  function InitialData(section: ResumeSection): (r: FormData)
    ensures section.data.Some? ==> r == section.data.value
    ensures section.data.None? ==> r == map[]
  {
    if section.data.Some? then section.data.value else map[]
  }

  predicate IdsDistinct(sections: seq<ResumeSection>) {
    forall i, j :: 0 <= i < j < |sections| ==> sections[i].id != sections[j].id
  }

  /** Twelve sections, none saved yet, no two of the same type (with
      `IndexOfType`: each type exactly once). */
  lemma InitialSectionsShape()
    ensures |InitialSections| == 12
    ensures forall i :: 0 <= i < |InitialSections| ==> InitialSections[i].data.None?
    ensures forall i, j :: 0 <= i < j < |InitialSections| ==> InitialSections[i].sectionType != InitialSections[j].sectionType
  {
  }

  /** No two initial sections share an id, so a save reaches exactly one. */
  lemma InitialIdsDistinct()
    ensures IdsDistinct(InitialSections)
  {
  }

  /** Where each type sits in the initial list: every section type has its
      section. */
  function IndexOfType(t: SectionType): (i: nat)
    ensures i < |InitialSections| && InitialSections[i].sectionType == t
  {
    match t
    case PersonalDetails => 0
    case Education => 1
    case KeySkills => 2
    case CareerPreferences => 3
    case Languages => 4
    case Internships => 5
    case Projects => 6
    case Summary => 7
    case Accomplishments => 8
    case Exams => 9
    case Employment => 10
    case AcademicAchievements => 11
  }

  /** Every section type names a form with a required field, so no section
      opens a dialog that would save without asking for anything. */
  lemma EveryTypeHasFields(t: SectionType)
    ensures FieldsConfig(TypeName(t)) != []
    ensures exists f :: f in FieldsConfig(TypeName(t)) && f.required
  {
    ConfigKnownIffNonEmpty(TypeName(t));
    FormStartsRequired(t);
    assert FormFor(t)[0] in FieldsConfig(TypeName(t));
  }

  /** `handleOpenDialog` as written: the section becomes active and the dialog
      opens. The dialog's form is seeded only if the dialog was not yet
      mounted; otherwise it keeps whatever it held. */
  function OpenDialog(s: BuilderState, section: ResumeSection): (r: BuilderState)
    ensures r.activeSection == Some(section) && r.dialogOpen && r.sections == s.sections
    ensures s.activeSection.None? ==> r.form == InitialData(section)
    ensures s.activeSection.Some? ==> r.form == s.form
  {
    var form := if s.activeSection.None? then InitialData(section) else s.form;
    s.(activeSection := Some(section), dialogOpen := true, form := form)
  }

  /** Opening a section with the dialog re-seeded from that section's data, as
      the page evidently intends. */
  function OpenDialogFresh(s: BuilderState, section: ResumeSection): (r: BuilderState)
    ensures r.activeSection == Some(section) && r.dialogOpen && r.sections == s.sections
    ensures r.form == InitialData(section)
  {
    s.(activeSection := Some(section), dialogOpen := true, form := InitialData(section))
  }

  /** The two openings agree on the first opening, and in general differ only
      in the form. */
  lemma OpenDialogFreshAgreesFirstTime(s: BuilderState, section: ResumeSection)
    ensures OpenDialogFresh(s, section) == OpenDialog(s, section).(form := InitialData(section))
    ensures s.activeSection.None? ==> OpenDialogFresh(s, section) == OpenDialog(s, section)
  {
  }

  /** `onOpenChange(false)`: the dialog closes but stays mounted. */
  function CloseDialog(s: BuilderState): (r: BuilderState)
    ensures !r.dialogOpen && r.form == s.form && r.activeSection == s.activeSection && r.sections == s.sections
  {
    s.(dialogOpen := false)
  }

  /** Typing into one of the dialog's inputs. */
  function Type(s: BuilderState, name: string, value: string): (r: BuilderState)
    ensures name in r.form && r.form[name] == value
    ensures r.(form := s.form) == s
  {
    s.(form := HandleChange(s.form, name, value))
  }

  /** `handleSaveSection`: nothing without an active section; otherwise the
      section with the active id takes the data and every other section is
      kept. */
  function SaveSection(s: BuilderState, data: FormData): (r: BuilderState)
    ensures r.activeSection == s.activeSection && r.dialogOpen == s.dialogOpen && r.form == s.form
    ensures |r.sections| == |s.sections|
    ensures s.activeSection.None? ==> r == s
    ensures s.activeSection.Some? ==> forall i :: 0 <= i < |s.sections| ==>
      r.sections[i] == (if s.sections[i].id == s.activeSection.value.id then s.sections[i].(data := Some(data)) else s.sections[i])
  {
    if s.activeSection.None? then s
    else
      var id := s.activeSection.value.id;
      s.(sections := seq(|s.sections|, i requires 0 <= i < |s.sections| =>
        if s.sections[i].id == id then s.sections[i].(data := Some(data)) else s.sections[i]))
  }

  /** Saving the same data twice is the same as saving it once. */
  lemma SaveSectionIdempotent(s: BuilderState, data: FormData)
    ensures SaveSection(SaveSection(s, data), data) == SaveSection(s, data)
  {
    if s.activeSection.Some? {
      var once := SaveSection(s, data);
      var twice := SaveSection(once, data);
      assert twice.sections == once.sections;
    }
  }

  /** Every section with the active id takes the new data, every other section
      is as before, and no id changes. */
  lemma SaveChangesOnlyActive(s: BuilderState, data: FormData, i: nat)
    requires s.activeSection.Some? && i < |s.sections|
    ensures s.sections[i].id == s.activeSection.value.id ==> SaveSection(s, data).sections[i].data == Some(data)
    ensures s.sections[i].id != s.activeSection.value.id ==> SaveSection(s, data).sections[i] == s.sections[i]
    ensures SaveSection(s, data).sections[i].id == s.sections[i].id
  {
  }

  /** The dialog's Save button: the dialog's check runs on the form; if nothing
      required is missing the page saves the form into the active section and
      the dialog closes. With no active section no dialog is rendered. */
  function PressSave(s: BuilderState): (r: (BuilderState, Option<SubmitOutcome>))
    ensures s.activeSection.None? ==> r == (s, None)
    ensures s.activeSection.Some? ==>
      (r.1.Some? && r.1.value == Submit(DialogState(s.dialogOpen, s.form), TypeName(s.activeSection.value.sectionType)).1)
    ensures r.1.Some? && r.1.value.Saved? ==> r.0 == CloseDialog(SaveSection(s, s.form))
    ensures r.1.Some? && r.1.value.MissingRequired? ==> r.0 == s
  {
    match s.activeSection
    case None => (s, None)
    case Some(section) =>
      var (dialog, outcome) := Submit(DialogState(s.dialogOpen, s.form), TypeName(section.sectionType));
      if outcome.Saved? then (CloseDialog(SaveSection(s, outcome.data)), Some(outcome))
      else (s, Some(outcome))
  }

  /** With the corrected opening, saving a section and opening it again from
      the page's list shows exactly the data that was saved. */
  lemma SavedDataReopens(s: BuilderState, i: nat)
    requires i < |s.sections|
    requires PressSave(OpenDialogFresh(s, s.sections[i])).1 == Some(Saved(InitialData(s.sections[i])))
    ensures var saved := PressSave(OpenDialogFresh(s, s.sections[i])).0;
      OpenDialogFresh(saved, saved.sections[i]).form == InitialData(s.sections[i])
  {
  }

  /** With the corrected opening, typing a value and saving stores it in that
      section, and reopening the section shows it. */
  lemma TypedValueIsSavedAndReopened(s: BuilderState, i: nat, name: string, value: string)
    requires i < |s.sections|
    requires PressSave(Type(OpenDialogFresh(s, s.sections[i]), name, value)).1.value.Saved?
    ensures var saved := PressSave(Type(OpenDialogFresh(s, s.sections[i]), name, value)).0;
      saved.sections[i].data.Some? && name in saved.sections[i].data.value
      && saved.sections[i].data.value[name] == value
      && OpenDialogFresh(saved, saved.sections[i]).form[name] == value
  {
  }

  /** As written, the form carries over between sections: after typing a full
      name into Personal Details and closing, opening Education shows a form
      that still holds "fullName", which is no field of the education form and
      would be saved into the education section along with its own fields. */
  lemma FormCarriesOverBetweenSections()
    ensures var typed := CloseDialog(Type(OpenDialog(Initial, InitialSections[0]), "fullName", "Jane Doe"));
      var education := OpenDialog(typed, InitialSections[1]);
      "fullName" in education.form
      && education.form != InitialData(InitialSections[1])
      && (forall f :: f in FieldsConfig(TypeName(Education)) ==> f.name != "fullName")
  {
    ParseTypeName(Education);
    assert TypeName(Education) == "education";
  }

  /** The corrected opening shows Education's own (empty) data in the same
      situation. */
  lemma FreshOpenStartsClean()
    ensures var typed := CloseDialog(Type(OpenDialogFresh(Initial, InitialSections[0]), "fullName", "Jane Doe"));
      OpenDialogFresh(typed, InitialSections[1]).form == map[]
  {
  }
}
