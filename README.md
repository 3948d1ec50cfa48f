# Casting backend: artist store, validators, uploads, project creation

A Dafny model of the request-handling core of an Express/Mongoose backend for
a casting platform. Artists build a profile in four sections (personal info,
professional details, photos, monologue links); directors create casting
projects with a banner; registration bodies are checked by a Joi schema.

The model covers:

- **The artist store** (`artist_controller.dfy`, `artist_store_facts.dfy`).
  The store is a class `ArtistInfoStore` holding a sequence of records.
  `findOne({ email })` is `FindByEmail`: the first record whose email equals the key.
  The four handlers are methods: `SubmitArtistProfile`, `ProfessionalProfile`,
  `UploadProfile` and `Monolouge` (spelled as the controller's `monolouge`
  handler; its route path is `/monologue`). `SubmitArtistProfile` validates
  the body and appends a new record. The other three validate the body, look
  the record up and assign its fields one by one. Each method is proved equal
  to a pure step function (`SubmitStep`, `ProfessionalStep`, `UploadStep`,
  `MonologueStep`) that returns the new store and the response.
  The lemmas are stated about those step functions.
- **The Joi schemas** (`joi.dfy`, `artist_validation.dfy`, `user_validation.dfy`,
  `project_validation.dfy`). Each schema is a list of per-key checks in
  declaration order. Joi stops at the first error, so a 400 names the first
  failing key. The phone expression is written directly as its reading (ten to
  fifteen ASCII digits). The password and email expressions are written as
  character-level predicates, each proved equal to a plain-words rule. The
  height expression is proved equal to a one-pass left-to-right scan.
  Joi's `.email()` and `.uri()` grammars are parameters (`Joi.Grammars`).
- **Upload placement and acceptance** (`multer.dfy`). This covers the profile
  storage's destination and file name, Node's `path.extname`, both file
  filters, and the size and count limits. The `.fields(...)` pipeline
  (`Receive`) takes the files in arrival order and aborts on the first failure.
  Before that, the multer library drains and drops a file part whose file name
  is empty, which is what a browser sends for a file input left empty
  (`FileParts`). Such a part is never counted, filtered or stored.
- **Project creation** (`project_controller.dfy`). The file check and the two
  date-order checks run in order. The save fails (500) on a missing or empty
  field. Success appends one project, whose banner path is built from the
  stored file's name.
- **`attachUserId`** (`attach_user_id.dfy`). The middleware resolves the
  `email` query parameter to the first matching artist's id, sets
  `req.artistId` and calls `next()` once. Otherwise it answers 400 or 404.

Request bodies are typed records. A JSON field is `Field<T>`: `Absent`, `Null`
or `Given(value)`. A multipart text field is an `Option`, because multipart
text cannot be null. Project dates are integer timestamps. `None` stands for a
missing date, which JavaScript compares as NaN. The new record's database id
and the banner's generated file name are inputs. Responses are a status and a
body: `Message`, `Errors` (Joi's list, here holding the failing key) or `Error`.

## Model

| member | source | states |
|---|---|---|
| ArtistStore.FindByEmail | src/controllers/artistController.ts:55 | the result is the first index whose record has the email; none exactly when no record has it |
| ArtistStore.SubmitStep | src/controllers/artistController.ts:7-34 | 201 exactly when the personal schema accepts the body, and then one record is appended; otherwise 400 and the store is unchanged |
| ArtistStore.ProfessionalStep | src/controllers/artistController.ts:37-77 | 200 exactly when the body is accepted and some record has the email; the number of records never changes, and a non-200 answer changes nothing |
| ArtistStore.WithUploads | src/controllers/artistController.ts:100-104 | every slot a file was sent for holds the first file's name; every other slot is present and valued exactly as before |
| ArtistStore.UploadStep | src/controllers/artistController.ts:78-113 | 200 exactly when the body is accepted, the email is present and non-empty, some record has it and no sent slot is empty; the number of records never changes, and a non-200 answer changes nothing |
| ArtistStore.MonologueStep | src/controllers/artistController.ts:114-140 | 200 exactly when the body is accepted and some record has the email; the number of records never changes, and a non-200 answer changes nothing |
| ArtistStore.ArtistInfoStore.SubmitArtistProfile | src/controllers/artistController.ts:7-34 | the new store and the response are those of `SubmitStep` on the old store: 400 with the first failing key and no change, or one record appended and 201 |
| ArtistStore.ArtistInfoStore.ProfessionalProfile | src/controllers/artistController.ts:37-77 | the seven field assignments on the found record give `ProfessionalStep` of the old store: 400 / 404 unchanged, or 200 with the professional section replaced |
| ArtistStore.ArtistInfoStore.UploadProfile | src/controllers/artistController.ts:78-113 | new store and response are `UploadStep` of the old store, including the 500 when a sent slot's file list is empty |
| ArtistStore.ArtistInfoStore.Monolouge | src/controllers/artistController.ts:114-140 | the five link assignments give `MonologueStep` of the old store |
| ArtistStore.AssignPhotos | src/controllers/artistController.ts:100-104 | the five guarded assignments throw exactly when a sent slot has no file; otherwise the photos equal `WithUploads` (sent slots take the first file's name, others keep theirs) |
| ArtistStore.PutsAreUploads | src/controllers/artistController.ts:100-104 | performing the five slot assignments in source order yields the slot map `WithUploads` specifies |
| ArtistStoreFacts.SameEmailsSameMatch | src/controllers/artistController.ts:55 | two stores with the same emails in the same order give every lookup the same answer |
| ArtistStoreFacts.SubmitRejectsInvalid | src/controllers/artistController.ts:9-13 | a rejected personal body gives 400 with the first failing key, store unchanged |
| ArtistStoreFacts.ProfessionalRejectsInvalid | src/controllers/artistController.ts:39-43 | a rejected professional body gives 400, store unchanged |
| ArtistStoreFacts.UploadRejectsInvalid | src/controllers/artistController.ts:80-84 | a rejected upload body gives 400, store unchanged, whatever files were sent |
| ArtistStoreFacts.MonologueRejectsInvalid | src/controllers/artistController.ts:116-120 | a rejected monologue body gives 400, store unchanged |
| ArtistStoreFacts.SubmitAppendsOne | src/controllers/artistController.ts:14-29 | an accepted submission answers 201 and appends exactly one record: given id, the fifteen personal fields as sent, no photos, no monologues; earlier records untouched |
| ArtistStoreFacts.DuplicateSubmissionShadowed | src/controllers/artistController.ts:21-25 | submitting the same body twice stores two records with that email; a later lookup by it never finds the second |
| ArtistStoreFacts.ProfessionalNotFound | src/controllers/artistController.ts:55-59 | an accepted body whose email no record has gives 404 and changes nothing |
| ArtistStoreFacts.ProfessionalOverwritesOnly | src/controllers/artistController.ts:61-71 | success answers 200 and replaces only the professional section of the first record with the email; its id, personal fields, photos, monologues and all other records are unchanged |
| ArtistStoreFacts.ProfessionalIdempotent | src/controllers/artistController.ts:61-69 | applying the same professional body twice gives the store applying it once gives |
| ArtistStoreFacts.UploadRefusals | src/controllers/artistController.ts:85-113 | missing or empty email gives 400, unknown email 404, an empty file list for a sent slot 500; every non-200 answer leaves the store unchanged |
| ArtistStoreFacts.UploadSlotIsolation | src/controllers/artistController.ts:100-106 | a successful upload sets each sent slot to its first file's name; every unsent slot keeps its presence and value; the rest of the record and the other records are unchanged |
| ArtistStoreFacts.UploadIdempotent | src/controllers/artistController.ts:100-106 | repeating the same upload leaves the store as one upload left it |
| ArtistStoreFacts.UploadsSettle | src/controllers/artistController.ts:100-104 | applying the same uploads to photos that already hold them changes nothing |
| ArtistStoreFacts.FilesAloneRejected | src/controllers/artistController.ts:80-84 | the schema checks body text fields, not files: a body with only the email gets 400 naming `headshot` whatever files came |
| ArtistStoreFacts.MonologueSetsAll | src/controllers/artistController.ts:121-134 | success answers 200 and the record's five links become exactly the body's, so an omitted language is cleared; nothing else changes |
| ArtistStoreFacts.MonologueNotFound | src/controllers/artistController.ts:122-126 | an accepted body whose email no record has gives 404 and changes nothing |
| ArtistStoreFacts.MonologueIdempotent | src/controllers/artistController.ts:128-133 | applying the same monologue body twice gives the store applying it once gives |
| ArtistStoreFacts.MonologueSecondReplacesFirst | src/controllers/artistController.ts:128-132 | a haryanvi link followed by a body with only a rajasthani link leaves haryanvi cleared |
| ArtistStoreFacts.ProfessionalKeepsLookups | src/controllers/artistController.ts:61-69 | the professional update never changes which record a lookup by any email finds |
| ArtistStoreFacts.UploadKeepsLookups | src/controllers/artistController.ts:100-106 | the photo update never changes which record a lookup finds |
| ArtistStoreFacts.MonologueKeepsLookups | src/controllers/artistController.ts:128-133 | the monologue update never changes which record a lookup finds |
| Joi.FirstFailing | src/controllers/artistController.ts:9-12 | none exactly when every rule holds; otherwise the position of a failing rule with all earlier rules holding (the one error Joi reports) |
| ArtistValidation.IsPhone | src/validation/artistValidation.ts:13-17 | `^[0-9]{10,15}$` read as ten to fifteen ASCII digits and nothing else (a definition, no contract) |
| ArtistValidation.HeightPattern | src/validation/artistValidation.ts:55 | the height expression as the four ways it can split a string: two or three digits, zero or one whitespace character, then "cm", "in" or the end (a definition; `HeightDecision` is its contract) |
| ArtistValidation.LeadingDigits | src/validation/artistValidation.ts:55 | the length of the longest all-digit prefix |
| ArtistValidation.HeightDecision | src/validation/artistValidation.ts:55 | the height pattern (2-3 digits, at most one whitespace, optional "cm"/"in", nothing else) holds exactly when the left-to-right scan accepts |
| ArtistValidation.PersonalChecks | src/validation/artistValidation.ts:3-51 | one rule per key of `personalSchema`, in declaration order, so the first failing one is the key Joi reports |
| ArtistValidation.ProfessionalChecks | src/validation/artistValidation.ts:53-84 | one rule per key of `professionalSchema`, in declaration order |
| ArtistValidation.UploadChecks | src/validation/artistValidation.ts:86-92 | one rule per key of `uploadPhotosSchema`, in declaration order; the `profile` rule always holds |
| ArtistValidation.MonologueChecks | src/validation/artistValidation.ts:94-100 | one rule per language of `monologueSchema`, in declaration order |
| ArtistValidationFacts.PersonalRules | src/validation/artistValidation.ts:3-51 | the personal schema accepts iff: name length 2..50, email per grammar, both phones 10-15 ASCII digits, bio length 10..300, gender in male/female/other, five non-empty strings, four URIs |
| ArtistValidationFacts.PersonalNameReportedFirst | src/validation/artistValidation.ts:4-8 | a name outside 2..50 characters is the error reported whatever else is wrong |
| ArtistValidationFacts.ProfessionalRules | src/validation/artistValidation.ts:53-84 | the professional schema accepts iff: category, height pattern, age and screen age in 1..100, video URI, at least one skill all of length ≥ 2, and past projects missing or all complete |
| ArtistValidationFacts.PastProjectsOptional | src/validation/artistValidation.ts:74-83 | dropping `pastProjects` never turns an accepted body into a rejected one |
| ArtistValidationFacts.UploadRules | src/validation/artistValidation.ts:86-92 | the upload schema accepts iff the four shots are present; `profile` may be missing |
| ArtistValidationFacts.MonologueRules | src/validation/artistValidation.ts:94-100 | the monologue schema accepts iff each language is missing, null or a URI |
| ArtistValidationFacts.MonologueAllMissing | src/validation/artistValidation.ts:94-100 | a body with no language at all is accepted |
| UserValidation.PasswordPattern | src/validation/userValidation.ts:5 | the password regex, its three lookaheads read as "a character of the class occurs before any line terminator" (a definition; `PasswordRule` is its contract) |
| UserValidation.EmailPattern | src/validation/userValidation.ts:19 | the email regex as "some split into three non-empty parts free of whitespace and '@' around an '@' and a '.'" (a definition; `EmailRule` is its contract) |
| UserValidation.UserChecks | src/validation/userValidation.ts:8-48 | one rule per key of `userValidation`, in declaration order |
| UserValidation.PasswordRule | src/validation/userValidation.ts:5 | the password regex matches iff length ≥ 5, only ASCII letters and digits, and at least one lower-case, one upper-case and one digit |
| UserValidation.ShortPasswordRejected | src/validation/userValidation.ts:26-32 | no registration with a password shorter than 5 characters is accepted |
| UserValidation.EmailRule | src/validation/userValidation.ts:19 | the email regex matches iff no whitespace, exactly one '@' with something before it, and a '.' after the '@' with a character on each side |
| UserValidation.ConfirmMustMatch | src/validation/userValidation.ts:34-40 | a confirmation different from the password is rejected |
| UserValidation.UserRules | src/validation/userValidation.ts:8-48 | the registration schema accepts iff user name length ≥ 5, email and password match their patterns, confirmation equals password, role is artist or director |
| ProjectValidation.ProjectValid | src/validation/projectValidation.ts:3-83 | every one of the seventeen keys present, strings non-empty, the three enumerations restricted to their listed values, dates only present (a definition; the lemmas below are its contract) |
| ProjectValidation.OmittedKeyRejected | src/validation/projectValidation.ts:3-83 | leaving out any one of the seventeen keys rejects the form |
| ProjectValidation.ProjectEnums | src/validation/projectValidation.ts:8-78 | an accepted form has type film/ad/web-series, gender Male/Female and age range 18-25/26-40; lower-case genders are rejected |
| ProjectValidation.DateOrderNotChecked | src/validation/projectValidation.ts:20-46 | some accepted form has both windows ending before they start |
| Multer.ExtName | src/utils/multer.ts:35 | Node's `path.extname`: never longer than the name, and empty or starting with '.' |
| Multer.LastDot | src/utils/multer.ts:35 | the position of the last '.' of a name, or none when it has no '.' |
| Multer.ExtNameShape | src/utils/multer.ts:35 | an extension is a suffix of the name: empty, or '.' followed by no other '.' |
| Multer.ExtNameOfDotted | src/utils/multer.ts:35 | a name `base.ext` with non-empty base and dot-free `ext` has extension `.ext`, except the name ".." (base "." and empty ext), whose extension is empty |
| Multer.ProfileFileName | src/utils/multer.ts:34-37 | the stored name starts with the field name, followed by nothing or by a '.'-led suffix of the original name |
| Multer.ProfileNameIgnoresBase | src/utils/multer.ts:34-37 | for two names `base.ext` with dot-free `ext`, both stored names are field name plus `.ext`, whenever neither base is empty (".png" has no extension, so it is stored as the bare field name) and neither name is ".." |
| Multer.ProfileNameWithoutExtension | src/utils/multer.ts:34-37 | a name without '.' is stored under the bare field name |
| Multer.ProfileDestination | src/utils/multer.ts:15-21 | an error "Artist ID is required" exactly when the id is missing or empty; otherwise the upload root followed by the id |
| Multer.ProfileFileFilter | src/utils/multer.ts:44-51 | accepts exactly image/jpeg, image/jpg, image/png and image/webp; otherwise "Unsupported file format" |
| Multer.BannerFileFilter | src/utils/multer.ts:81-97 | `bannerPdf` accepted iff application/pdf, else "Banner PDF must be a PDF file"; `bannerImage` iff one of the four image types, else "Please upload with a valid image format"; any other field rejected with "Unexpected field" |
| Multer.Place | src/utils/multer.ts:12-39 | the storage fails, with "Artist ID is required", exactly for a profile upload without a non-empty artist id; a placed file keeps its part and lies where the storage says |
| Multer.Take | src/utils/multer.ts:41-52 | a file that gets through is in a listed field below its count, passes the filter, is within the size limit and is placed by the storage |
| Multer.Receive | src/utils/multer.ts:100-107 | an accepted upload keeps the files before it and adds one file per file part it is given |
| Multer.ReceiveTakesAt | src/utils/multer.ts:100-107 | the i-th file of an accepted upload is what the per-file step made of the i-th file part after the files before it |
| Multer.ReceiveAdmits | src/utils/multer.ts:100-107 | every file of an accepted upload is its file part, admitted by field list, filter and size limit, and placed by the storage |
| Multer.ReceiveKeepsCounts | src/utils/multer.ts:104-107 | no field of an accepted upload holds more files than its `maxCount` |
| Multer.FileParts | src/utils/multer.ts:100-107 | the parts multer handles as files, in arrival order: never more than were sent, and none with an empty file name |
| Multer.FilePartsMembers | src/utils/multer.ts:100-107 | a part is handled as a file exactly when it was sent and has a file name |
| Multer.FilePartsAppend | src/utils/multer.ts:100-107 | dropping empty-named parts from two runs of parts sent one after the other gives the two results one after the other |
| Multer.FilePartsSkip | src/utils/multer.ts:100-107 | a part with an empty file name, wherever it arrives, leaves the file parts as they were |
| Multer.UploadProfileImages | src/routes/artistRoute.ts:13-19 | the profile storage under `.fields(...)` with one file per image field, applied to the parts that carry a file name; an accepted upload holds one file per such part |
| Multer.UploadBanner | src/utils/multer.ts:100-107 | the banner storage under `.fields(...)` with one PDF and one image, applied to the parts that carry a file name; an accepted upload holds one file per such part |
| Multer.ProfileAdmitted | src/utils/multer.ts:41-52 | an admitted and placed profile file is an allowed image of at most 5 MB, in the artist's folder, named field plus extension |
| Multer.ProfileUploadFiles | src/utils/multer.ts:12-52 | an accepted profile upload holds one file per part with a file name, in order; each is an allowed image of at most 5 MB, stored in the artist's folder as field name plus original extension |
| Multer.ProfileUploadCounts | src/routes/artistRoute.ts:13-19 | an accepted profile upload holds at most one file per image field |
| Multer.BannerAdmitted | src/utils/multer.ts:76-102 | an admitted banner file is in the banner folder, at most 2 MB, under `bannerPdf` (a PDF) or `bannerImage` (an image) |
| Multer.BannerUploadFiles | src/utils/multer.ts:63-107 | an accepted banner upload holds one file per part with a file name, in order; each is in the banner folder, at most 2 MB, a PDF under `bannerPdf` or an image under `bannerImage` |
| Multer.BannerUploadCounts | src/utils/multer.ts:104-107 | an accepted banner upload holds at most one PDF and one image |
| Multer.ProfileUploadNeedsArtistId | src/utils/multer.ts:15-19 | without an artist id, a first part that has a file name and passes count and filter aborts the upload with "Artist ID is required" |
| Multer.UnknownBannerFieldRejected | src/utils/multer.ts:95-97 | a first banner part that has a file name and is under any other field aborts the upload with "Unexpected field" |
| Multer.EmptyProfileInputIgnored | src/routes/artistRoute.ts:13-19 | a profile image input left empty changes neither the files stored nor the error, wherever its part arrives |
| Multer.EmptyBannerInputIgnored | src/utils/multer.ts:100-107 | a banner input left empty changes neither the files stored nor the error, wherever its part arrives |
| ProjectController.DateBefore | src/controllers/projectController.ts:33-38 | `new Date(end) < new Date(start)`: false when either date is missing (NaN) and when the two dates are equal |
| ProjectController.MongooseAccepts | src/models/projectFormModel.ts:3-83 | the project model's `required` fields: every string present and non-empty, every date present (a definition, no contract) |
| ProjectController.CreateStep | src/controllers/projectController.ts:4-71 | the answer is 201, 400 or 500; on 201 a file was sent and exactly one project with the form and its banner path is appended; on any other answer the collection is unchanged |
| ProjectController.ProjectStore.CreateProject | src/controllers/projectController.ts:4-71 | the new collection and the answer are those of `CreateStep` on the old collection |
| ProjectControllerFacts.CreateSucceedsIff | src/controllers/projectController.ts:28-66 | 201 exactly when a file is present, neither window ends before it starts, and the save accepts the fields; then exactly one project carrying the form is appended, otherwise nothing changes |
| ProjectControllerFacts.CreateChecksInOrder | src/controllers/projectController.ts:28-38 | missing file is reported first, then a bad casting window, then a bad shooting window |
| ProjectControllerFacts.SameDayWindowAccepted | src/controllers/projectController.ts:33-38 | windows whose end equals their start pass |
| ProjectControllerFacts.MissingDateIsServerError | src/controllers/projectController.ts:33-70 | when any of the four dates is missing and neither window is reversed, the date checks pass (NaN comparisons are false) and the save fails with 500, nothing stored |
| ProjectControllerFacts.SchemaValidFormsAreSaved | src/controllers/projectController.ts:40-66 | every form the project schema accepts, with a file and ordered windows, is created |
| ProjectControllerFacts.MongooseAcceptsUnlistedType | src/controllers/projectController.ts:40-66 | the handler does not run the project schema: a project type outside the three listed ones is still created |
| ProjectControllerFacts.BannerPathSaved | src/controllers/projectController.ts:58 | the saved banner path is "/uploads/banner/" followed by the stored file name |
| AttachUserId.Resolve | src/middleware/attachUserId.ts:6-18 | an id is attached exactly when the email is present, non-empty and some record has it |
| AttachUserId.Request.AttachUserId | src/middleware/attachUserId.ts:4-24 | on success sets `artistId` to the resolved id and calls `next` once, answering nothing; otherwise answers 400/404 and changes neither `artistId` nor the call count |
| AttachUserId.ResolvesFirstMatch | src/middleware/attachUserId.ts:13-18 | the attached id is that of the first record with the email; with a non-empty email the only failure is 404 |
| AttachUserId.MissingEmailRejected | src/middleware/attachUserId.ts:6-11 | a missing or empty email gives 400 whatever the store holds |
| AttachUserId.UpdatesKeepResolution | src/middleware/attachUserId.ts:13-18 | stores with the same emails and ids resolve every query alike |
| AttachUserId.ProfessionalKeepsResolution | src/middleware/attachUserId.ts:13-18 | after the professional handler, every query email resolves as it did before |
| AttachUserId.UploadKeepsResolution | src/middleware/attachUserId.ts:13-18 | after the upload handler, every query email resolves as it did before |
| AttachUserId.MonologueKeepsResolution | src/middleware/attachUserId.ts:13-18 | after the monologue handler, every query email resolves as it did before |

## Left out

- Joi's error messages: a 400 carries the key of the first failing rule rather than the message text configured with `.messages(...)`.
- Joi's rejection of unknown keys. The professional, upload and monologue schemas do not declare `email`, yet each handler reads it. Joi would reject such a body; the model takes `email` as a separate part of the body.
- Joi's `.email()` and `.uri()` grammars are library internals; they are parameters (`Joi.Grammars`).
- Joi counts string length in UTF-16 code units; the model counts characters.
- Mongoose schema strictness. `uploadProfile` writes top-level photo keys and `monolouge` top-level language keys, while the schema nests `photos` and keeps `monologues` as a list. `createProject` writes `banner`, while the project schema declares `bannerPdf`/`bannerImage`. The model stores what each handler assigns.
- Mongoose's casting on save (`age` and `screenAge` are declared as strings) and how `findOne` treats an undefined or null filter value. A lookup here matches on equal `Field` values.
- Database failures other than the project's required-field validation, which is the 500 path of `createProject`. No other save or lookup is modelled as failing.
- The response `data` echo of `createProject` and all console logging.
- Directory creation in `src/utils/multer.ts` (`existsSync`/`mkdirSync`) is filesystem I/O. `path.join` of the root and a database id is plain concatenation here.
- The banner file name generator uses the clock and a random number. It is the `stamp` parameter of `Multer.BannerStorage`.
- `req.files` missing on a non-multipart upload, which would make `uploadProfile` throw and answer 500. The model always passes a map of files.
- JavaScript `Date` parsing: dates are integer timestamps. `None` stands for a missing date.
- Route wiring. `src/routes/projectFormRoute.ts:7` calls `.single("banner")` on the banner middleware, which is already configured with `.fields(...)`, and the banner filter would reject a field named `banner`. The artist upload route does not run `attachUserId` before the storage that needs `req.artistId`. Handlers are modelled as if called with the inputs they expect.
- `src/controllers/userController.ts`, `src/middleware/authentication.ts` and `src/utils/sendEmail.ts` (hashing, tokens, cookies, mail) are not part of this model; only `userValidation` is.
- Concurrent requests and duplicate-record races.
- AttachUserId.Resolve takes the `email` query value as a string. Express's query parser can also deliver an array (a repeated `email`) or an object (`email[$ne]=…`). Such a value passes the `!email` test and reaches `findOne` as a query operator, so the attached id need not belong to the queried email. These shapes are not modelled.
- AttachUserId.Request.AttachUserId inherits that narrowing: its request holds the query email as an optional string.
- ArtistValidation.ProfessionalChecks takes `age` and `screenAge` as numbers. `Joi.number()` also converts numeric strings such as "25", which the model does not represent.
