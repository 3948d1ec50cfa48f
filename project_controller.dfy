/** `createProject`: the banner and date checks, the Mongoose save, and the
    project collection it appends to. */
module ProjectController {
  import opened Wrappers
  import opened Http
  import opened Multer
  import opened ProjectModel

  /** A saved project: the seventeen form fields and the banner path. */
  datatype Project = Project(form: ProjectForm, banner: string)

  const BannerUrlPrefix := "/uploads/banner/"

  /** The public path under which a stored banner is served. */
  function BannerPath(file: StoredFile): string
  {
    BannerUrlPrefix + file.filename
  }

  /** `new Date(b) < new Date(a)`. A missing or unparsable date is NaN, and
      every comparison with NaN is false. */
  predicate DateBefore(b: Option<int>, a: Option<int>)
    ensures DateBefore(b, a) ==> b.Some? && a.Some? && b != a
  {
    b.Some? && a.Some? && b.value < a.value
  }

  /** What the Mongoose schema lets through on save: every string present and
      non-empty, every date present and valid. */
  predicate MongooseAccepts(f: ProjectForm)
  {
    && IsText(f.projectName) && IsText(f.typeOfProject) && IsText(f.description)
    && f.castingStart.Some? && f.castingEnd.Some?
    && IsText(f.castingCity) && IsText(f.castingState) && IsText(f.castingCountry)
    && f.shootingStart.Some? && f.shootingEnd.Some?
    && IsText(f.shootingCity) && IsText(f.shootingState) && IsText(f.shootingCountry)
    && IsText(f.role) && IsText(f.gender) && IsText(f.ageRange) && IsText(f.language)
  }

  /** The collection after a call, and the answer. */
  datatype Creation = Creation(projects: seq<Project>, response: Response)

  const Created := Response(201, Message("Project created successfully"))

  /** `createProject` on the collection before the call. */
  function CreateStep(ps: seq<Project>, form: ProjectForm, file: Option<StoredFile>): (c: Creation)
    ensures c.response.status in {201, 400, 500}
    ensures c.response.status == 201 ==> file.Some? && c.projects == ps + [Project(form, BannerPath(file.value))]
    ensures c.response.status != 201 ==> c.projects == ps
  {
    if file.None? then
      Creation(ps, Response(400, Error("Banner file is required")))
    else if DateBefore(form.castingEnd, form.castingStart) then
      Creation(ps, Response(400, Error("Casting end date must be after casting start date")))
    else if DateBefore(form.shootingEnd, form.shootingStart) then
      Creation(ps, Response(400, Error("Shooting end date must be after shooting start date")))
    else if !MongooseAccepts(form) then
      Creation(ps, Response(500, Error("Server error")))
    else
      Creation(ps + [Project(form, BannerPath(file.value))], Created)
  }

  /** The project collection. */
  class ProjectStore {
    var projects: seq<Project>

    constructor ()
      ensures projects == []
    {
      projects := [];
    }

    method CreateProject(form: ProjectForm, file: Option<StoredFile>) returns (res: Response)
      modifies this
      ensures Creation(projects, res) == CreateStep(old(projects), form, file)
    {
      if file.None? {
        return Response(400, Error("Banner file is required"));
      }
      if DateBefore(form.castingEnd, form.castingStart) {
        return Response(400, Error("Casting end date must be after casting start date"));
      }
      if DateBefore(form.shootingEnd, form.shootingStart) {
        return Response(400, Error("Shooting end date must be after shooting start date"));
      }
      var project := Project(form, BannerPath(file.value));
      if !MongooseAccepts(project.form) {
        return Response(500, Error("Server error"));
      }
      projects := projects + [project];
      res := Created;
    }
  }
}

/** What `createProject` promises. */
module ProjectControllerFacts {
  import opened Wrappers
  import opened Http
  import opened Multer
  import opened ProjectModel
  import opened ProjectValidation
  import opened ProjectController

  /** A project is created exactly when a banner was stored, neither window
      ends before it starts, and every field survives the schema; then exactly
      one document is appended, else nothing changes. */
  lemma CreateSucceedsIff(ps: seq<Project>, form: ProjectForm, file: Option<StoredFile>)
    ensures var c := CreateStep(ps, form, file);
      && (c.response == Created <==>
            file.Some? && !DateBefore(form.castingEnd, form.castingStart)
            && !DateBefore(form.shootingEnd, form.shootingStart) && MongooseAccepts(form))
      && (c.response == Created ==> |c.projects| == |ps| + 1 && c.projects[..|ps|] == ps
                                    && c.projects[|ps|].form == form)
      && (c.response != Created ==> c.projects == ps)
  {
    var c := CreateStep(ps, form, file);
    if c.response == Created {
      assert c.projects[..|ps|] == ps;
    }
  }

  /** The checks run in order: a missing banner is reported whatever the dates
      are, and a bad casting window is reported before a bad shooting window. */
  lemma CreateChecksInOrder(ps: seq<Project>, form: ProjectForm, file: Option<StoredFile>)
    ensures file.None? ==> CreateStep(ps, form, file).response == Response(400, Error("Banner file is required"))
    ensures file.Some? && DateBefore(form.castingEnd, form.castingStart) ==>
      CreateStep(ps, form, file).response == Response(400, Error("Casting end date must be after casting start date"))
    ensures file.Some? && !DateBefore(form.castingEnd, form.castingStart)
            && DateBefore(form.shootingEnd, form.shootingStart) ==>
      CreateStep(ps, form, file).response == Response(400, Error("Shooting end date must be after shooting start date"))
  {
  }

  /** A window that starts and ends on the same instant passes the date checks. */
  lemma SameDayWindowAccepted(ps: seq<Project>, form: ProjectForm, file: StoredFile)
    requires MongooseAccepts(form)
    requires form.castingEnd == form.castingStart && form.shootingEnd == form.shootingStart
    ensures CreateStep(ps, form, Some(file)).response == Created
  {
  }

  /** A missing date slips past the date checks (NaN compares false) and the
      save then fails, so the caller sees a 500 rather than a 400. */
  lemma MissingDateIsServerError(ps: seq<Project>, form: ProjectForm, file: StoredFile)
    requires form.castingStart.None? || form.castingEnd.None? || form.shootingStart.None? || form.shootingEnd.None?
    requires !DateBefore(form.castingEnd, form.castingStart) && !DateBefore(form.shootingEnd, form.shootingStart)
    ensures CreateStep(ps, form, Some(file)) == Creation(ps, Response(500, Error("Server error")))
  {
  }

  /** Every form `projectValidationSchema` accepts also survives the Mongoose
      schema; the handler's outcome then depends only on the banner and the
      date order. */
  lemma SchemaValidFormsAreSaved(ps: seq<Project>, form: ProjectForm, file: StoredFile)
    requires ProjectValid(form)
    requires !DateBefore(form.castingEnd, form.castingStart) && !DateBefore(form.shootingEnd, form.shootingStart)
    ensures CreateStep(ps, form, Some(file)).response == Created
  {
  }

  /** The Mongoose schema is weaker than `projectValidationSchema`: it stores
      a project type outside "film", "ad" and "web-series". */
  lemma MongooseAcceptsUnlistedType(ps: seq<Project>, file: StoredFile)
    ensures exists form :: !ProjectValid(form) && CreateStep(ps, form, Some(file)).response == Created
  {
    var t := Some("x");
    var form := ProjectForm(t, Some("documentary"), t, Some(1), Some(2), t, t, t, Some(3), Some(4), t, t, t,
                            t, Some("Male"), Some("18-25"), t);
    assert !ProjectValid(form) && CreateStep(ps, form, Some(file)).response == Created;
  }

  /** The saved banner path is the public banner prefix followed by the stored file's name. */
  lemma BannerPathSaved(ps: seq<Project>, form: ProjectForm, file: StoredFile)
    requires CreateStep(ps, form, Some(file)).response == Created
    ensures var saved := CreateStep(ps, form, Some(file)).projects[|ps|];
      saved.banner == "/uploads/banner/" + file.filename && saved.form == form
  {
  }
}
