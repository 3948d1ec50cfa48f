/** The casting-project form and the Joi schema `projectValidationSchema`. */
module ProjectModel {
  import opened Wrappers

  /** A project form as it arrives in a multipart body: text fields present or
      missing, the four dates as integer timestamps. */
  datatype ProjectForm = ProjectForm(
    projectName: Option<string>, typeOfProject: Option<string>, description: Option<string>,
    castingStart: Option<int>, castingEnd: Option<int>, castingCity: Option<string>,
    castingState: Option<string>, castingCountry: Option<string>,
    shootingStart: Option<int>, shootingEnd: Option<int>, shootingCity: Option<string>,
    shootingState: Option<string>, shootingCountry: Option<string>,
    role: Option<string>, gender: Option<string>, ageRange: Option<string>, language: Option<string>)

  /** The seventeen keys of the form. */
  datatype ProjectKey =
    | ProjectName | TypeOfProject | Description
    | CastingStart | CastingEnd | CastingCity | CastingState | CastingCountry
    | ShootingStart | ShootingEnd | ShootingCity | ShootingState | ShootingCountry
    | Role | Gender | AgeRange | Language

  /** The form with one key left out. */
  function Without(f: ProjectForm, k: ProjectKey): ProjectForm
  {
    match k
    case ProjectName => f.(projectName := None)
    case TypeOfProject => f.(typeOfProject := None)
    case Description => f.(description := None)
    case CastingStart => f.(castingStart := None)
    case CastingEnd => f.(castingEnd := None)
    case CastingCity => f.(castingCity := None)
    case CastingState => f.(castingState := None)
    case CastingCountry => f.(castingCountry := None)
    case ShootingStart => f.(shootingStart := None)
    case ShootingEnd => f.(shootingEnd := None)
    case ShootingCity => f.(shootingCity := None)
    case ShootingState => f.(shootingState := None)
    case ShootingCountry => f.(shootingCountry := None)
    case Role => f.(role := None)
    case Gender => f.(gender := None)
    case AgeRange => f.(ageRange := None)
    case Language => f.(language := None)
  }

  /** A present, non-empty text field. */
  predicate IsText(o: Option<string>)
  {
    o.Some? && o.value != ""
  }
}

module ProjectValidation {
  import opened Wrappers
  import opened ProjectModel

  predicate IsOneOf(o: Option<string>, options: set<string>)
  {
    o.Some? && o.value in options
  }

  /** `projectValidationSchema`: every key is required; a date only has to be a date. */
  predicate ProjectValid(f: ProjectForm)
  {
    && IsText(f.projectName)
    && IsOneOf(f.typeOfProject, {"film", "ad", "web-series"})
    && IsText(f.description)
    && f.castingStart.Some? && f.castingEnd.Some?
    && IsText(f.castingCity) && IsText(f.castingState) && IsText(f.castingCountry)
    && f.shootingStart.Some? && f.shootingEnd.Some?
    && IsText(f.shootingCity) && IsText(f.shootingState) && IsText(f.shootingCountry)
    && IsText(f.role)
    && IsOneOf(f.gender, {"Male", "Female"})
    && IsOneOf(f.ageRange, {"18-25", "26-40"})
    && IsText(f.language)
  }

  /** Leaving out any one of the seventeen keys rejects the form. */
  lemma OmittedKeyRejected(f: ProjectForm, k: ProjectKey)
    ensures !ProjectValid(Without(f, k))
  {
  }

  /** The three enumerations: project type, gender (capitalised, unlike the
      artist schema) and age range. */
  lemma ProjectEnums(f: ProjectForm)
    ensures ProjectValid(f) ==> f.typeOfProject.value in {"film", "ad", "web-series"}
    ensures ProjectValid(f) ==> f.gender.value in {"Male", "Female"} && f.ageRange.value in {"18-25", "26-40"}
    ensures f.gender == Some("male") || f.gender == Some("female") ==> !ProjectValid(f)
  {
  }

  /** The schema does not order the dates: it accepts a form whose casting and
      shooting windows both end before they start. */
  lemma DateOrderNotChecked()
    ensures exists f :: ProjectValid(f) && f.castingEnd.Some? && f.castingStart.Some?
                        && f.castingEnd.value < f.castingStart.value
                        && f.shootingEnd.Some? && f.shootingStart.Some?
                        && f.shootingEnd.value < f.shootingStart.value
  {
    var t := Some("x");
    var f := ProjectForm(t, Some("film"), t, Some(2), Some(1), t, t, t, Some(4), Some(3), t, t, t,
                         t, Some("Male"), Some("18-25"), t);
    assert ProjectValid(f);
  }
}
