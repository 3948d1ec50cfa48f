/** What the four handlers promise about the store. */
module ArtistStoreFacts {
  import opened Wrappers
  import opened Http
  import opened Joi
  import opened ArtistModel
  import opened ArtistRequests
  import opened ArtistValidation
  import opened Multer
  import opened ArtistStore
  import opened ArtistValidationFacts

  /** Two stores with the same emails in the same order answer every lookup alike. */
  lemma SameEmailsSameMatch(rs: seq<Artist>, rs': seq<Artist>, email: Field<string>)
    requires |rs| == |rs'|
    requires forall j :: 0 <= j < |rs| ==> rs[j].personal.email == rs'[j].personal.email
    ensures FindByEmail(rs, email) == FindByEmail(rs', email)
  {
    var a, b := FindByEmail(rs, email), FindByEmail(rs', email);
    if a.Some? && b.Some? {
      assert !(a.value < b.value) && !(b.value < a.value);
    }
  }

  /** A personal body the schema rejects gets a 400 naming the first failing
      key, and the store is left as it was. */
  lemma SubmitRejectsInvalid(rs: seq<Artist>, g: Grammars, body: PersonalInfo, id: string)
    requires !PersonalValid(g, body)
    ensures FirstError(PersonalChecks(g, body)).Some?
    ensures SubmitStep(rs, g, body, id) == Step(rs, ValidationFailed(FirstError(PersonalChecks(g, body)).value))
  {
  }

  /** A professional body the schema rejects gets a 400 and changes nothing. */
  lemma ProfessionalRejectsInvalid(rs: seq<Artist>, g: Grammars, body: ProfessionalBody)
    requires !ProfessionalValid(g, body.info)
    ensures FirstError(ProfessionalChecks(g, body.info)).Some?
    ensures ProfessionalStep(rs, g, body) ==
      Step(rs, ValidationFailed(FirstError(ProfessionalChecks(g, body.info)).value))
  {
  }

  /** An upload body the schema rejects gets a 400 and changes nothing,
      whatever files came with it. */
  lemma UploadRejectsInvalid(rs: seq<Artist>, body: UploadBody, files: map<string, seq<StoredFile>>)
    requires !UploadValid(body)
    ensures FirstError(UploadChecks(body)).Some?
    ensures UploadStep(rs, body, files) == Step(rs, ValidationFailed(FirstError(UploadChecks(body)).value))
  {
  }

  /** A monologue body the schema rejects gets a 400 and changes nothing. */
  lemma MonologueRejectsInvalid(rs: seq<Artist>, g: Grammars, body: MonologueBody)
    requires !MonologueValid(g, body.links)
    ensures FirstError(MonologueChecks(g, body.links)).Some?
    ensures MonologueStep(rs, g, body) == Step(rs, ValidationFailed(FirstError(MonologueChecks(g, body.links)).value))
  {
  }

  /** The upload schema looks at the text fields of the body, not at the
      files: a body carrying only the email is refused with a 400 naming
      `headshot`, whatever files were sent. */
  lemma FilesAloneRejected(rs: seq<Artist>, email: Option<string>, files: map<string, seq<StoredFile>>)
    ensures UploadStep(rs, UploadBody(email, None, None, None, None, None), files)
            == Step(rs, ValidationFailed("headshot"))
  {
  }

  /** An accepted personal submission appends exactly one record, holding the
      fifteen fields as sent and nothing else yet. */
  lemma SubmitAppendsOne(rs: seq<Artist>, g: Grammars, body: PersonalInfo, id: string)
    requires PersonalValid(g, body)
    ensures var s := SubmitStep(rs, g, body, id);
      && s.response == Response(201, Message("Artist profile created successfully"))
      && |s.records| == |rs| + 1 && s.records[..|rs|] == rs
      && s.records[|rs|].personal == body && s.records[|rs|].id == id
      && s.records[|rs|].photos == map[] && s.records[|rs|].monologues == NoMonologues
  {
    var s := SubmitStep(rs, g, body, id);
    assert s.records[..|rs|] == rs;
  }

  /** Submitting the same personal info twice stores two records with that
      email, and every later lookup by the email finds a record that existed
      before the second submission, never the second one. */
  lemma DuplicateSubmissionShadowed(rs: seq<Artist>, g: Grammars, body: PersonalInfo, id1: string, id2: string)
    requires PersonalValid(g, body)
    ensures var twice := SubmitStep(SubmitStep(rs, g, body, id1).records, g, body, id2).records;
      && |twice| == |rs| + 2
      && twice[|rs|].personal.email == body.email && twice[|rs| + 1].personal.email == body.email
      && FindByEmail(twice, body.email).Some? && FindByEmail(twice, body.email).value <= |rs|
  {
    var twice := SubmitStep(SubmitStep(rs, g, body, id1).records, g, body, id2).records;
    assert twice[|rs|].personal.email == body.email;
  }

  /** A professional body for an email no record has gets a 404 and changes nothing. */
  lemma ProfessionalNotFound(rs: seq<Artist>, g: Grammars, body: ProfessionalBody)
    requires ProfessionalValid(g, body.info)
    requires forall j :: 0 <= j < |rs| ==> rs[j].personal.email != body.email
    ensures ProfessionalStep(rs, g, body) ==
      Step(rs, Response(404, Message("Artist profile not found. Please complete personal info first.")))
  {
  }

  /** An accepted professional update replaces the seven professional fields
      of the first record with that email; its id, personal fields, photos and
      monologues, and every other record, stay as they were. */
  lemma ProfessionalOverwritesOnly(rs: seq<Artist>, g: Grammars, body: ProfessionalBody, i: nat)
    requires ProfessionalValid(g, body.info)
    requires i < |rs| && rs[i].personal.email == body.email
    requires forall j :: 0 <= j < i ==> rs[j].personal.email != body.email
    ensures var s := ProfessionalStep(rs, g, body);
      && s.response == Response(200, Message("Professional profile updated successfully"))
      && |s.records| == |rs|
      && (forall j :: 0 <= j < |rs| && j != i ==> s.records[j] == rs[j])
      && s.records[i].professional == body.info
      && s.records[i].id == rs[i].id && s.records[i].personal == rs[i].personal
      && s.records[i].photos == rs[i].photos && s.records[i].monologues == rs[i].monologues
  {
    assert FindByEmail(rs, body.email) == Some(i);
  }

  /** Sending the same professional body twice leaves the store as sending it once. */
  lemma ProfessionalIdempotent(rs: seq<Artist>, g: Grammars, body: ProfessionalBody)
    ensures var once := ProfessionalStep(rs, g, body).records;
      ProfessionalStep(once, g, body).records == once
  {
    var once := ProfessionalStep(rs, g, body).records;
    SameEmailsSameMatch(rs, once, body.email);
    if FirstError(ProfessionalChecks(g, body.info)).None? && FindByEmail(rs, body.email).Some? {
      var i := FindByEmail(rs, body.email).value;
      assert once[i := once[i].(professional := body.info)] == once;
    }
  }

  /** An upload without email, for an unknown email, or with an empty file list
      for a sent slot is refused, and the store is left as it was. */
  lemma UploadRefusals(rs: seq<Artist>, body: UploadBody, files: map<string, seq<StoredFile>>)
    requires UploadValid(body)
    ensures body.email.None? || body.email == Some("") ==>
      UploadStep(rs, body, files) == Step(rs, Response(400, Message("Email is required")))
    ensures body.email.Some? && body.email.value != "" && FindByEmail(rs, Given(body.email.value)).None? ==>
      UploadStep(rs, body, files) == Step(rs, Response(404, Message("Artist not found")))
    ensures body.email.Some? && body.email.value != "" && FindByEmail(rs, Given(body.email.value)).Some?
            && SentEmpty(files) ==>
      UploadStep(rs, body, files) == Step(rs, Response(500, Message("Server error")))
    ensures UploadStep(rs, body, files).response.status != 200 ==> UploadStep(rs, body, files).records == rs
  {
  }

  /** An accepted upload sets each slot a file was sent for to the first file's
      stored name, and leaves every other slot, present or absent, untouched;
      the rest of the record and the other records are unchanged. */
  lemma UploadSlotIsolation(rs: seq<Artist>, body: UploadBody, files: map<string, seq<StoredFile>>, i: nat)
    requires UploadStep(rs, body, files).response.status == 200
    requires body.email.Some? && FindByEmail(rs, Given(body.email.value)) == Some(i)
    ensures var after := UploadStep(rs, body, files).records;
      && |after| == |rs|
      && (forall j :: 0 <= j < |rs| && j != i ==> after[j] == rs[j])
      && after[i] == rs[i].(photos := after[i].photos)
      && (forall s :: Sent(files, s) ==> s in after[i].photos && after[i].photos[s] == files[SlotName(s)][0].filename)
      && (forall s :: !Sent(files, s) ==>
            (s in after[i].photos <==> s in rs[i].photos) &&
            (s in rs[i].photos ==> after[i].photos[s] == rs[i].photos[s]))
  {
  }

  /** Uploading the same files twice leaves the store as uploading them once. */
  lemma UploadIdempotent(rs: seq<Artist>, body: UploadBody, files: map<string, seq<StoredFile>>)
    ensures var once := UploadStep(rs, body, files).records;
      UploadStep(once, body, files).records == once
  {
    var once := UploadStep(rs, body, files).records;
    if body.email.Some? {
      SameEmailsSameMatch(rs, once, Given(body.email.value));
    }
    var s := UploadStep(rs, body, files);
    if s.response.status == 200 {
      var i := FindByEmail(rs, Given(body.email.value)).value;
      UploadsSettle(rs[i].photos, files);
    }
  }

  /** Applying the same uploads to photos that already hold them changes nothing. */
  lemma UploadsSettle(photos: map<Slot, string>, files: map<string, seq<StoredFile>>)
    requires !SentEmpty(files)
    ensures WithUploads(WithUploads(photos, files), files) == WithUploads(photos, files)
  {
  }

  /** An accepted monologue update stores exactly the five links sent, so a
      language left out of the body is cleared. */
  lemma MonologueSetsAll(rs: seq<Artist>, g: Grammars, body: MonologueBody, i: nat)
    requires MonologueValid(g, body.links)
    requires FindByEmail(rs, body.email) == Some(i)
    ensures var s := MonologueStep(rs, g, body);
      && s.response == Response(200, Message("Profile images uploaded successfully"))
      && |s.records| == |rs|
      && (forall j :: 0 <= j < |rs| && j != i ==> s.records[j] == rs[j])
      && s.records[i] == rs[i].(monologues := body.links)
  {
  }

  /** A monologue body for an email no record has gets a 404 and changes nothing. */
  lemma MonologueNotFound(rs: seq<Artist>, g: Grammars, body: MonologueBody)
    requires MonologueValid(g, body.links)
    requires forall j :: 0 <= j < |rs| ==> rs[j].personal.email != body.email
    ensures MonologueStep(rs, g, body) == Step(rs, Response(404, Message("Artist not found")))
  {
  }

  /** Sending the same monologue body twice leaves the store as sending it once. */
  lemma MonologueIdempotent(rs: seq<Artist>, g: Grammars, body: MonologueBody)
    ensures var once := MonologueStep(rs, g, body).records;
      MonologueStep(once, g, body).records == once
  {
    var once := MonologueStep(rs, g, body).records;
    SameEmailsSameMatch(rs, once, body.email);
    if FirstError(MonologueChecks(g, body.links)).None? && FindByEmail(rs, body.email).Some? {
      var i := FindByEmail(rs, body.email).value;
      assert once[i := once[i].(monologues := body.links)] == once;
    }
  }

  /** Monologue submission replaces the whole set: a link for one language
      followed by a link for another leaves only the second. */
  lemma MonologueSecondReplacesFirst(rs: seq<Artist>, g: Grammars, email: Field<string>, url1: string, url2: string)
    requires FindByEmail(rs, email).Some?
    requires url1 != "" && g.isUri(url1) && url2 != "" && g.isUri(url2)
    ensures var first := MonologueBody(email, NoMonologues.(haryanvi := Given(url1)));
      var second := MonologueBody(email, NoMonologues.(rajasthani := Given(url2)));
      var after := MonologueStep(MonologueStep(rs, g, first).records, g, second).records;
      var i := FindByEmail(rs, email).value;
      after[i].monologues.haryanvi == Absent && after[i].monologues.rajasthani == Given(url2)
  {
    var first := MonologueBody(email, NoMonologues.(haryanvi := Given(url1)));
    var second := MonologueBody(email, NoMonologues.(rajasthani := Given(url2)));
    MonologueRules(g, first.links);
    MonologueRules(g, second.links);
    var mid := MonologueStep(rs, g, first).records;
    SameEmailsSameMatch(rs, mid, email);
  }

  /** The three update handlers never change an email or the number of records,
      so they never change which record a lookup finds. */
  lemma ProfessionalKeepsLookups(rs: seq<Artist>, g: Grammars, body: ProfessionalBody, email: Field<string>)
    ensures FindByEmail(ProfessionalStep(rs, g, body).records, email) == FindByEmail(rs, email)
  {
    SameEmailsSameMatch(rs, ProfessionalStep(rs, g, body).records, email);
  }

  lemma UploadKeepsLookups(rs: seq<Artist>, body: UploadBody, files: map<string, seq<StoredFile>>,
                           email: Field<string>)
    ensures FindByEmail(UploadStep(rs, body, files).records, email) == FindByEmail(rs, email)
  {
    SameEmailsSameMatch(rs, UploadStep(rs, body, files).records, email);
  }

  lemma MonologueKeepsLookups(rs: seq<Artist>, g: Grammars, body: MonologueBody, email: Field<string>)
    ensures FindByEmail(MonologueStep(rs, g, body).records, email) == FindByEmail(rs, email)
  {
    SameEmailsSameMatch(rs, MonologueStep(rs, g, body).records, email);
  }
}
