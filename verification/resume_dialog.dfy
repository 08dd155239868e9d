/** The dialog that edits one résumé section: the form fields each section type
    asks for, the form data the inputs write into, and the Save button's check
    that every required field is filled in. */
module ResumeDialog {
  import opened Seqs

  datatype FieldKind = TextField | EmailField | TelField | DateField | TextareaField

  /** One input of the form. */
  datatype Field = Field(name: string, labelText: string, kind: FieldKind, required: bool, placeholder: Option<string>)

  /** The form's values by field name. Inputs only ever write strings. */
  type FormData = map<string, string>

  /** The twelve résumé sections; each has a form. */
  datatype SectionType =
    | PersonalDetails | Education | KeySkills | CareerPreferences | Languages | Internships
    | Employment | Projects | Summary | Accomplishments | Exams | AcademicAchievements

  /** The string the components pass around for each section type. */
  function TypeName(t: SectionType): string {
    match t
    case PersonalDetails => "personalDetails"
    case Education => "education"
    case KeySkills => "keySkills"
    case CareerPreferences => "careerPreferences"
    case Languages => "languages"
    case Internships => "internships"
    case Employment => "employment"
    case Projects => "projects"
    case Summary => "summary"
    case Accomplishments => "accomplishments"
    case Exams => "exams"
    case AcademicAchievements => "academicAchievements"
  }

  /** The `switch` of `getFieldsConfig`: which case a section-type string selects. */
  function ParseType(name: string): (r: Option<SectionType>)
    ensures r.Some? ==> TypeName(r.value) == name
    ensures r.None? ==> forall t :: TypeName(t) != name
  {
    match name
    case "personalDetails" => Some(PersonalDetails)
    case "education" => Some(Education)
    case "keySkills" => Some(KeySkills)
    case "careerPreferences" => Some(CareerPreferences)
    case "languages" => Some(Languages)
    case "internships" => Some(Internships)
    case "employment" => Some(Employment)
    case "projects" => Some(Projects)
    case "summary" => Some(Summary)
    case "accomplishments" => Some(Accomplishments)
    case "exams" => Some(Exams)
    case "academicAchievements" => Some(AcademicAchievements)
    case _ => None
  }

  /** Names and types correspond one to one. */
  lemma ParseTypeName(t: SectionType)
    ensures ParseType(TypeName(t)) == Some(t)
  {
  }

  /** The shared form of "internships" and "employment". */
  const WorkFields: seq<Field> := [
    Field("company", "Company", TextField, true, Some("ABC Corporation")),
    Field("position", "Position", TextField, true, Some("Software Developer")),
    Field("startDate", "Start Date", DateField, true, None),
    Field("endDate", "End Date", DateField, false, None),
    Field("description", "Description", TextareaField, false, Some("Describe your responsibilities and achievements"))]

  const PersonalDetailsFields: seq<Field> := [
    Field("fullName", "Full Name", TextField, true, Some("John Doe")),
    Field("email", "Email", EmailField, true, Some("john@example.com")),
    Field("phone", "Phone Number", TelField, true, Some("+1 555-123-4567")),
    Field("address", "Address", TextField, false, Some("New York, USA"))]

  const EducationFields: seq<Field> := [
    Field("institution", "Institution/University", TextField, true, Some("University of Technology")),
    Field("degree", "Degree/Certificate", TextField, true, Some("Bachelor of Computer Science")),
    Field("startDate", "Start Date", DateField, true, None),
    Field("endDate", "End Date", DateField, false, None),
    Field("description", "Description", TextareaField, false, Some("Describe your education"))]

  const KeySkillsFields: seq<Field> := [
    Field("skills", "Skills (comma separated)", TextareaField, true, Some("JavaScript, React, Node.js, CSS"))]

  const CareerPreferencesFields: seq<Field> := [
    Field("jobTitle", "Preferred Job Title", TextField, true, Some("Software Engineer")),
    Field("location", "Preferred Location", TextField, false, Some("Remote, New York")),
    Field("salary", "Expected Salary", TextField, false, Some("$80,000 - $100,000"))]

  const LanguagesFields: seq<Field> := [
    Field("language", "Language", TextField, true, Some("English")),
    Field("proficiency", "Proficiency Level", TextField, true, Some("Native, Fluent, Intermediate, Basic"))]

  const ProjectsFields: seq<Field> := [
    Field("title", "Project Title", TextField, true, Some("E-commerce Website")),
    Field("technologies", "Technologies Used", TextField, true, Some("React, Node.js, MongoDB")),
    Field("startDate", "Start Date", DateField, false, None),
    Field("endDate", "End Date", DateField, false, None),
    Field("description", "Description", TextareaField, true, Some("Describe your project and your role"))]

  const SummaryFields: seq<Field> := [
    Field("summary", "Profile Summary", TextareaField, true, Some("A brief overview of your professional background and goals"))]

  const AccomplishmentsFields: seq<Field> := [
    Field("title", "Title", TextField, true, Some("Award/Achievement")),
    Field("issuer", "Issuer/Organization", TextField, false, Some("Organization Name")),
    Field("date", "Date", DateField, false, None),
    Field("description", "Description", TextareaField, false, Some("Describe your accomplishment"))]

  const ExamsFields: seq<Field> := [
    Field("examName", "Exam Name", TextField, true, Some("GRE, GMAT, etc.")),
    Field("score", "Score", TextField, true, Some("320/340")),
    Field("date", "Date", DateField, false, None)]

  const AcademicAchievementsFields: seq<Field> := [
    Field("title", "Achievement Title", TextField, true, Some("Dean's List")),
    Field("institution", "Institution", TextField, true, Some("University of Technology")),
    Field("date", "Date", DateField, false, None),
    Field("description", "Description", TextareaField, false, Some("Describe your academic achievement"))]

  /** The form of each section type. */
  function FormFor(t: SectionType): seq<Field> {
    match t
    case PersonalDetails => PersonalDetailsFields
    case Education => EducationFields
    case KeySkills => KeySkillsFields
    case CareerPreferences => CareerPreferencesFields
    case Languages => LanguagesFields
    case Internships => WorkFields
    case Employment => WorkFields
    case Projects => ProjectsFields
    case Summary => SummaryFields
    case Accomplishments => AccomplishmentsFields
    case Exams => ExamsFields
    case AcademicAchievements => AcademicAchievementsFields
  }

  /** `getFieldsConfig`: the form for a section-type string; any other string
      gets no fields. */
  function FieldsConfig(sectionType: string): (r: seq<Field>)
    ensures (forall t :: TypeName(t) != sectionType) ==> r == []
  {
    match ParseType(sectionType)
    case Some(t) => FormFor(t)
    case None => []
  }

  /** A string has a non-empty form exactly when it names a section type, and
      that form is the type's own. */
  lemma ConfigKnownIffNonEmpty(sectionType: string)
    ensures FieldsConfig(sectionType) != [] <==> exists t :: TypeName(t) == sectionType
    ensures forall t :: TypeName(t) == sectionType ==> FieldsConfig(sectionType) == FormFor(t)
  {
    forall t | TypeName(t) == sectionType
      ensures FieldsConfig(sectionType) == FormFor(t)
    {
      ParseTypeName(t);
      FormStartsRequired(t);
    }
  }

  /** Every form opens with a required field. */
  lemma FormStartsRequired(t: SectionType)
    ensures FormFor(t) != [] && FormFor(t)[0].required
  {
    match t
    case PersonalDetails => case Education => case KeySkills => case CareerPreferences =>
    case Languages => case Internships => case Employment => case Projects =>
    case Summary => case Accomplishments => case Exams => case AcademicAchievements =>
  }

  /** Internships and employment use the same form. */
  lemma InternshipsLikeEmployment()
    ensures FieldsConfig("internships") == FieldsConfig("employment")
  {
    ParseTypeName(Internships);
    ParseTypeName(Employment);
  }

  predicate DistinctNames(fields: seq<Field>) {
    forall i, j :: 0 <= i < j < |fields| ==> fields[i].name != fields[j].name
  }

  /** No form has two fields with the same name, so every input writes its own key. */
  lemma ConfigNamesDistinct(sectionType: string)
    ensures DistinctNames(FieldsConfig(sectionType))
  {
    match ParseType(sectionType)
    case None =>
    case Some(t) => FormNamesDistinct(t);
  }

  lemma FormNamesDistinct(t: SectionType)
    ensures DistinctNames(FormFor(t))
  {
    match t
    case PersonalDetails | Education | KeySkills | CareerPreferences | Languages | Internships | Employment =>
      EarlyFormNamesDistinct(t);
    case Projects | Summary | Accomplishments | Exams | AcademicAchievements =>
      LateFormNamesDistinct(t);
  }

  /** The forms of the first six sections on the page, and the employment form. */
  lemma EarlyFormNamesDistinct(t: SectionType)
    requires t in {PersonalDetails, Education, KeySkills, CareerPreferences, Languages, Internships, Employment}
    ensures DistinctNames(FormFor(t))
  {
    match t
    case PersonalDetails => case Education => case KeySkills => case CareerPreferences =>
    case Languages => case Internships => case Employment =>
    case Projects => assert false;
    case Summary => assert false;
    case Accomplishments => assert false;
    case Exams => assert false;
    case AcademicAchievements => assert false;
  }

  /** The forms of the remaining five sections. */
  lemma LateFormNamesDistinct(t: SectionType)
    requires t in {Projects, Summary, Accomplishments, Exams, AcademicAchievements}
    ensures DistinctNames(FormFor(t))
  {
    match t
    case Projects => case Summary => case Accomplishments => case Exams => case AcademicAchievements =>
    case PersonalDetails => assert false;
    case Education => assert false;
    case KeySkills => assert false;
    case CareerPreferences => assert false;
    case Languages => assert false;
    case Internships => assert false;
    case Employment => assert false;
  }

  /** `!formData[field.name]`: absent, or the empty string. */
  predicate Filled(data: FormData, name: string) {
    name in data && data[name] != ""
  }

  /** The test the Save button applies to each field. */
  predicate IsMissing(data: FormData, f: Field) {
    f.required && !Filled(data, f.name)
  }

  /** The required fields that are not filled in, in form order. */
  function MissingFields(fields: seq<Field>, data: FormData): (r: seq<Field>)
    ensures SubsequenceOf(r, fields)
  {
    Filter(fields, (f: Field) => IsMissing(data, f))
  }

  /** A field is reported missing exactly when it is required and not filled in. */
  lemma MissingFieldsMembership(fields: seq<Field>, data: FormData, f: Field)
    ensures f in MissingFields(fields, data) <==> f in fields && f.required && !Filled(data, f.name)
  {
    FilterMembership(fields, (g: Field) => IsMissing(data, g), f);
  }

  /** Nothing is missing exactly when every required field is filled in. */
  lemma NothingMissingIff(fields: seq<Field>, data: FormData)
    ensures MissingFields(fields, data) == [] <==> forall f :: f in fields && f.required ==> Filled(data, f.name)
  {
    if MissingFields(fields, data) != [] {
      MissingFieldsMembership(fields, data, MissingFields(fields, data)[0]);
    }
    forall f | f in fields && f.required && !Filled(data, f.name)
      ensures MissingFields(fields, data) != []
    {
      MissingFieldsMembership(fields, data, f);
    }
  }

  /** The labels named in the "Please fill in" message. */
  function Labels(fields: seq<Field>): (r: seq<string>)
    ensures |r| == |fields|
    ensures forall i :: 0 <= i < |fields| ==> r[i] == fields[i].labelText
  {
    seq(|fields|, i requires 0 <= i < |fields| => fields[i].labelText)
  }

  /** `handleChange`: one key takes the typed value, every other key is kept. */
  function HandleChange(data: FormData, name: string, value: string): (r: FormData)
    ensures name in r && r[name] == value
    ensures forall k :: k != name ==> (k in r <==> k in data) && (k in data ==> r[k] == data[k])
  {
    data[name := value]
  }

  /** Typing into one input settles that field and no other: a non-empty value
      takes it off the missing list, and every other field keeps its status. */
  lemma ChangeSettlesOnlyItsField(fields: seq<Field>, data: FormData, name: string, value: string, f: Field)
    ensures f.name == name && value != "" ==> f !in MissingFields(fields, HandleChange(data, name, value))
    ensures f.name != name ==> (f in MissingFields(fields, HandleChange(data, name, value)) <==> f in MissingFields(fields, data))
  {
    MissingFieldsMembership(fields, data, f);
    MissingFieldsMembership(fields, HandleChange(data, name, value), f);
  }

  /** The dialog's own state: whether it is open and the form data. */
  datatype DialogState = DialogState(open: bool, formData: FormData)

  /** What Save leads to: the "Missing required fields" message with the labels,
      or the data handed to `onSave`. */
  datatype SubmitOutcome = MissingRequired(labels: seq<string>) | Saved(data: FormData)

  /** `handleSubmit` for the form of `sectionType`. */
  function Submit(s: DialogState, sectionType: string): (r: (DialogState, SubmitOutcome))
    ensures r.1.MissingRequired? <==> exists f :: f in FieldsConfig(sectionType) && f.required && !Filled(s.formData, f.name)
    ensures r.1.MissingRequired? ==> r.0 == s && r.1.labels == Labels(MissingFields(FieldsConfig(sectionType), s.formData))
    ensures r.1.Saved? ==> r.1.data == s.formData && r.0 == s.(open := false)
  {
    var missing := MissingFields(FieldsConfig(sectionType), s.formData);
    NothingMissingIff(FieldsConfig(sectionType), s.formData);
    if |missing| > 0 then (s, MissingRequired(Labels(missing)))
    else (s.(open := false), Saved(s.formData))
  }

  /** An empty form is never saved for a known section type. */
  lemma EmptyFormIsRejected(open: bool, t: SectionType)
    ensures Submit(DialogState(open, map[]), TypeName(t)).1.MissingRequired?
  {
    ConfigKnownIffNonEmpty(TypeName(t));
    FormStartsRequired(t);
    assert FormFor(t)[0] in FieldsConfig(TypeName(t));
  }

  /** A rejected Save changes nothing, so pressing it again gives the same answer. */
  lemma RejectedSubmitIsStable(s: DialogState, sectionType: string)
    requires Submit(s, sectionType).1.MissingRequired?
    ensures Submit(Submit(s, sectionType).0, sectionType) == Submit(s, sectionType)
  {
  }
}
