/** The artist profile store and its four section handlers: what each handler
    does to the store and what it answers, as functions of the store before. */
module ArtistStore {
  import opened Wrappers
  import opened Http
  import opened Joi
  import opened ArtistModel
  import opened ArtistRequests
  import opened ArtistValidation
  import opened Multer

  /** `findOne({ email })`: the first record whose email equals the key. */
  function FindByEmail(rs: seq<Artist>, email: Field<string>): (r: Option<nat>)
    ensures r.Some? ==> r.value < |rs| && rs[r.value].personal.email == email
    ensures r.Some? ==> forall j :: 0 <= j < r.value ==> rs[j].personal.email != email
    ensures r.None? ==> forall j :: 0 <= j < |rs| ==> rs[j].personal.email != email
  {
    if rs == [] then None
    else if rs[0].personal.email == email then Some(0)
    else match FindByEmail(rs[1..], email)
      case None => None
      case Some(i) => Some(i + 1)
  }

  /** The store after a handler, and the handler's answer. */
  datatype Step = Step(records: seq<Artist>, response: Response)

  const ServerError := Response(500, Message("Server error"))

  /** `submitArtistProfile`: validate, then save a new record. */
  function SubmitStep(rs: seq<Artist>, g: Grammars, body: PersonalInfo, id: string): (r: Step)
    ensures r.response.status == 201 <==> PersonalValid(g, body)
    ensures r.response.status == 201 ==> r.records == rs + [NewArtist(id, body)]
    ensures r.response.status != 201 ==> r.response.status == 400 && r.records == rs
  {
    match FirstError(PersonalChecks(g, body))
    case Some(key) => Step(rs, ValidationFailed(key))
    case None => Step(rs + [NewArtist(id, body)], Response(201, Message("Artist profile created successfully")))
  }

  /** `professionalProfile`: validate, find the record by email, overwrite its
      professional section. */
  function ProfessionalStep(rs: seq<Artist>, g: Grammars, body: ProfessionalBody): (r: Step)
    ensures r.response.status == 200 <==> ProfessionalValid(g, body.info) && FindByEmail(rs, body.email).Some?
    ensures |r.records| == |rs|
    ensures r.response.status != 200 ==> r.records == rs
  {
    match FirstError(ProfessionalChecks(g, body.info))
    case Some(key) => Step(rs, ValidationFailed(key))
    case None =>
      match FindByEmail(rs, body.email)
      case None =>
        Step(rs, Response(404, Message("Artist profile not found. Please complete personal info first.")))
      case Some(i) =>
        Step(rs[i := rs[i].(professional := body.info)],
             Response(200, Message("Professional profile updated successfully")))
  }

  /** The five slots the upload handler writes. */
  const UploadSlots: set<Slot> := {Headshot, SmilingHeadshot, FullBody, ThreeQuarter, Profile}

  /** A file was sent for an upload slot (`files.<slot>` is set). */
  predicate Sent(files: map<string, seq<StoredFile>>, s: Slot)
  {
    s in UploadSlots && SlotName(s) in files
  }

  /** A slot was sent with an empty file list, so `files.<slot>[0].filename` throws. */
  predicate SentEmpty(files: map<string, seq<StoredFile>>)
  {
    exists s :: Sent(files, s) && files[SlotName(s)] == []
  }

  /** The photos after an upload: every slot that was sent holds the name of
      the first file sent for it; every other slot keeps what it had. */
  function WithUploads(photos: map<Slot, string>, files: map<string, seq<StoredFile>>): (r: map<Slot, string>)
    requires !SentEmpty(files)
    ensures forall s :: Sent(files, s) ==> s in r && r[s] == files[SlotName(s)][0].filename
    ensures forall s :: !Sent(files, s) ==> (s in r <==> s in photos) && (s in photos ==> r[s] == photos[s])
  {
    map s | s in photos.Keys + (set t | t in UploadSlots && Sent(files, t)) ::
      if Sent(files, s) then files[SlotName(s)][0].filename else photos[s]
  }

  /** `if (files.<slot>) photos.<slot> = files.<slot>[0].filename` for one slot. */
  function Put(photos: map<Slot, string>, files: map<string, seq<StoredFile>>, s: Slot): map<Slot, string>
    requires SlotName(s) in files ==> files[SlotName(s)] != []
  {
    if SlotName(s) in files then photos[s := files[SlotName(s)][0].filename] else photos
  }

  /** What one assignment does to one slot. */
  lemma PutAt(photos: map<Slot, string>, files: map<string, seq<StoredFile>>, s: Slot, t: Slot)
    requires SlotName(s) in files ==> files[SlotName(s)] != []
    ensures t in Put(photos, files, s) <==> t in photos || (t == s && SlotName(s) in files)
    ensures t in Put(photos, files, s) ==>
      Put(photos, files, s)[t] == if t == s && SlotName(s) in files then files[SlotName(s)][0].filename else photos[t]
  {
  }

  /** The five assignments in source order, seen at one slot. */
  lemma PutsAgreeAt(photos: map<Slot, string>, files: map<string, seq<StoredFile>>, t: Slot)
    requires forall s :: Sent(files, s) ==> files[SlotName(s)] != []
    requires !SentEmpty(files)
    ensures var p5 := Put(Put(Put(Put(Put(photos, files, Headshot), files, SmilingHeadshot), files, FullBody),
                          files, ThreeQuarter), files, Profile);
      var w := WithUploads(photos, files);
      (t in p5 <==> t in w) && (t in p5 ==> p5[t] == w[t])
  {
    var p1 := Put(photos, files, Headshot);
    var p2 := Put(p1, files, SmilingHeadshot);
    var p3 := Put(p2, files, FullBody);
    var p4 := Put(p3, files, ThreeQuarter);
    PutAt(photos, files, Headshot, t);
    PutAt(p1, files, SmilingHeadshot, t);
    PutAt(p2, files, FullBody, t);
    PutAt(p3, files, ThreeQuarter, t);
    PutAt(p4, files, Profile, t);
    assert Sent(files, t) <==> t != ArtistDp && SlotName(t) in files;
  }

  /** The five assignments in source order give the photos `WithUploads` describes. */
  lemma PutsAreUploads(photos: map<Slot, string>, files: map<string, seq<StoredFile>>)
    requires forall s :: Sent(files, s) ==> files[SlotName(s)] != []
    ensures !SentEmpty(files)
    ensures Put(Put(Put(Put(Put(photos, files, Headshot), files, SmilingHeadshot), files, FullBody),
                files, ThreeQuarter), files, Profile) == WithUploads(photos, files)
  {
    var p5 := Put(Put(Put(Put(Put(photos, files, Headshot), files, SmilingHeadshot), files, FullBody),
                  files, ThreeQuarter), files, Profile);
    var w := WithUploads(photos, files);
    forall t | true
      ensures t in p5 <==> t in w
      ensures t in p5 ==> p5[t] == w[t]
    {
      PutsAgreeAt(photos, files, t);
    }
    assert p5 == w;
  }

  /** The five slot assignments on the fetched record, in source order.
      `thrown` reports the exception a sent-but-empty file list raises. */
  method AssignPhotos(photos: map<Slot, string>, files: map<string, seq<StoredFile>>)
    returns (updated: map<Slot, string>, thrown: bool)
    ensures thrown == SentEmpty(files)
    ensures !thrown ==> updated == WithUploads(photos, files)
  {
    thrown := true;
    updated := photos;
    if "headshot" in files {
      if files["headshot"] == [] { assert Sent(files, Headshot); return; }
      updated := updated[Headshot := files["headshot"][0].filename];
    }
    if "smilingHeadshot" in files {
      if files["smilingHeadshot"] == [] { assert Sent(files, SmilingHeadshot); return; }
      updated := updated[SmilingHeadshot := files["smilingHeadshot"][0].filename];
    }
    if "fullBody" in files {
      if files["fullBody"] == [] { assert Sent(files, FullBody); return; }
      updated := updated[FullBody := files["fullBody"][0].filename];
    }
    if "threeQuarter" in files {
      if files["threeQuarter"] == [] { assert Sent(files, ThreeQuarter); return; }
      updated := updated[ThreeQuarter := files["threeQuarter"][0].filename];
    }
    if "profile" in files {
      if files["profile"] == [] { assert Sent(files, Profile); return; }
      updated := updated[Profile := files["profile"][0].filename];
    }
    thrown := false;
    assert forall s :: Sent(files, s) ==> s in {Headshot, SmilingHeadshot, FullBody, ThreeQuarter, Profile};
    PutsAreUploads(photos, files);
  }

  /** `uploadProfile`: validate the text fields, require an email, find the
      record, then set each slot a file was sent for. */
  function UploadStep(rs: seq<Artist>, body: UploadBody, files: map<string, seq<StoredFile>>): (r: Step)
    ensures r.response.status == 200 <==>
      && UploadValid(body) && body.email.Some? && body.email.value != ""
      && FindByEmail(rs, Given(body.email.value)).Some? && !SentEmpty(files)
    ensures |r.records| == |rs|
    ensures r.response.status != 200 ==> r.records == rs
  {
    match FirstError(UploadChecks(body))
    case Some(key) => Step(rs, ValidationFailed(key))
    case None =>
      if body.email.None? || body.email.value == "" then
        Step(rs, Response(400, Message("Email is required")))
      else match FindByEmail(rs, Given(body.email.value))
        case None => Step(rs, Response(404, Message("Artist not found")))
        case Some(i) =>
          if SentEmpty(files) then Step(rs, ServerError)
          else Step(rs[i := rs[i].(photos := WithUploads(rs[i].photos, files))],
                    Response(200, Message("Profile images uploaded successfully")))
  }

  /** `monolouge`: validate, find the record by email, overwrite all five
      language links. */
  function MonologueStep(rs: seq<Artist>, g: Grammars, body: MonologueBody): (r: Step)
    ensures r.response.status == 200 <==> MonologueValid(g, body.links) && FindByEmail(rs, body.email).Some?
    ensures |r.records| == |rs|
    ensures r.response.status != 200 ==> r.records == rs
  {
    match FirstError(MonologueChecks(g, body.links))
    case Some(key) => Step(rs, ValidationFailed(key))
    case None =>
      match FindByEmail(rs, body.email)
      case None => Step(rs, Response(404, Message("Artist not found")))
      case Some(i) =>
        Step(rs[i := rs[i].(monologues := body.links)],
             Response(200, Message("Profile images uploaded successfully")))
  }

  /** The profile store: the saved records, in insertion order. */
  class ArtistInfoStore {
    var records: seq<Artist>

    constructor()
      ensures records == []
    {
      records := [];
    }

    method SubmitArtistProfile(g: Grammars, body: PersonalInfo, id: string) returns (res: Response)
      modifies this
      ensures Step(records, res) == SubmitStep(old(records), g, body, id)
    {
      var error := FirstError(PersonalChecks(g, body));
      if error.Some? {
        return ValidationFailed(error.value);
      }
      var artistInfo := NewArtist(id, body);
      records := records + [artistInfo];
      res := Response(201, Message("Artist profile created successfully"));
    }

    method ProfessionalProfile(g: Grammars, body: ProfessionalBody) returns (res: Response)
      modifies this
      ensures Step(records, res) == ProfessionalStep(old(records), g, body)
    {
      var error := FirstError(ProfessionalChecks(g, body.info));
      if error.Some? {
        return ValidationFailed(error.value);
      }
      var found := FindByEmail(records, body.email);
      if found.None? {
        return Response(404, Message("Artist profile not found. Please complete personal info first."));
      }
      var existing := records[found.value];
      var info := existing.professional;
      info := info.(talentCategory := body.info.talentCategory);
      info := info.(height := body.info.height);
      info := info.(age := body.info.age);
      info := info.(screenAge := body.info.screenAge);
      info := info.(videoReel := body.info.videoReel);
      info := info.(skills := body.info.skills);
      info := info.(pastProjects := body.info.pastProjects);
      records := records[found.value := existing.(professional := info)];
      res := Response(200, Message("Professional profile updated successfully"));
    }

    method UploadProfile(body: UploadBody, files: map<string, seq<StoredFile>>) returns (res: Response)
      modifies this
      ensures Step(records, res) == UploadStep(old(records), body, files)
    {
      var error := FirstError(UploadChecks(body));
      if error.Some? {
        return ValidationFailed(error.value);
      }
      if body.email.None? || body.email.value == "" {
        return Response(400, Message("Email is required"));
      }
      var found := FindByEmail(records, Given(body.email.value));
      if found.None? {
        return Response(404, Message("Artist not found"));
      }
      var existing := records[found.value];
      var photos, thrown := AssignPhotos(existing.photos, files);
      if thrown {
        return ServerError;
      }
      records := records[found.value := existing.(photos := photos)];
      res := Response(200, Message("Profile images uploaded successfully"));
    }

    method Monolouge(g: Grammars, body: MonologueBody) returns (res: Response)
      modifies this
      ensures Step(records, res) == MonologueStep(old(records), g, body)
    {
      var error := FirstError(MonologueChecks(g, body.links));
      if error.Some? {
        return ValidationFailed(error.value);
      }
      var found := FindByEmail(records, body.email);
      if found.None? {
        return Response(404, Message("Artist not found"));
      }
      var existing := records[found.value];
      var links := existing.monologues;
      links := links.(haryanvi := body.links.haryanvi);
      links := links.(rajasthani := body.links.rajasthani);
      links := links.(bhojpuri := body.links.bhojpuri);
      links := links.(awadhi := body.links.awadhi);
      links := links.(maithili := body.links.maithili);
      records := records[found.value := existing.(monologues := links)];
      res := Response(200, Message("Profile images uploaded successfully"));
    }
  }
}
