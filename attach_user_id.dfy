/** The `attachUserId` middleware: resolve `?email=` to an artist id before
    the upload handler runs. */
module AttachUserId {
  import opened Wrappers
  import opened Http
  import opened ArtistModel
  import opened ArtistRequests
  import opened Joi
  import opened Multer
  import opened ArtistStore
  import ArtistStoreFacts

  /** What the middleware decides: forward with an artist id, or answer. */
  function Resolve(rs: seq<Artist>, queryEmail: Option<string>): (r: Result<string, Response>)
    ensures r.Ok? <==> queryEmail.Some? && queryEmail.value != "" && FindByEmail(rs, Given(queryEmail.value)).Some?
  {
    if queryEmail.None? || queryEmail.value == "" then
      Err(Response(400, Message("Email is required in query params")))
    else
      match FindByEmail(rs, Given(queryEmail.value))
      case None => Err(Response(404, Message("Artist not found")))
      case Some(i) => Ok(rs[i].id)
  }

  /** The parts of an Express request the middleware reads and writes. */
  class Request {
    var queryEmail: Option<string>
    var artistId: Option<string>
    /** How many times `next()` has been called for this request. */
    var forwarded: nat

    constructor (queryEmail: Option<string>)
      ensures this.queryEmail == queryEmail && artistId.None? && forwarded == 0
    {
      this.queryEmail := queryEmail;
      artistId := None;
      forwarded := 0;
    }

    /** `attachUserId`: on success set `req.artistId` and call `next()`;
        otherwise answer and leave the request as it was. */
    method AttachUserId(store: ArtistInfoStore) returns (res: Option<Response>)
      modifies this
      ensures queryEmail == old(queryEmail)
      ensures match Resolve(store.records, queryEmail)
        case Ok(id) => res.None? && artistId == Some(id) && forwarded == old(forwarded) + 1
        case Err(r) => res == Some(r) && artistId == old(artistId) && forwarded == old(forwarded)
    {
      if queryEmail.None? || queryEmail.value == "" {
        return Some(Response(400, Message("Email is required in query params")));
      }
      var found := FindByEmail(store.records, Given(queryEmail.value));
      if found.None? {
        return Some(Response(404, Message("Artist not found")));
      }
      artistId := Some(store.records[found.value].id);
      forwarded := forwarded + 1;
      res := None;
    }
  }

  /** The id attached is that of the first record with the queried email: the
      same record the upload handler's lookup by that email finds. */
  lemma ResolvesFirstMatch(rs: seq<Artist>, email: string)
    requires email != ""
    ensures Resolve(rs, Some(email)).Ok? ==>
      exists i :: 0 <= i < |rs| && rs[i].personal.email == Given(email)
                  && Resolve(rs, Some(email)).value == rs[i].id
                  && (forall j :: 0 <= j < i ==> rs[j].personal.email != Given(email))
    ensures Resolve(rs, Some(email)).Err? ==>
      Resolve(rs, Some(email)).error == Response(404, Message("Artist not found"))
  {
    if Resolve(rs, Some(email)).Ok? {
      var i := FindByEmail(rs, Given(email)).value;
      assert rs[i].personal.email == Given(email);
    }
  }

  /** A missing or empty query email is a 400, whatever the store holds. */
  lemma MissingEmailRejected(rs: seq<Artist>, queryEmail: Option<string>)
    requires queryEmail.None? || queryEmail == Some("")
    ensures Resolve(rs, queryEmail) == Err(Response(400, Message("Email is required in query params")))
  {
  }

  /** Two stores whose records carry the same emails and ids, in the same
      order, resolve every query alike. */
  lemma UpdatesKeepResolution(rs: seq<Artist>, rs': seq<Artist>, queryEmail: Option<string>)
    requires |rs| == |rs'|
    requires forall j :: 0 <= j < |rs| ==> rs[j].personal.email == rs'[j].personal.email && rs[j].id == rs'[j].id
    ensures Resolve(rs, queryEmail) == Resolve(rs', queryEmail)
  {
    if queryEmail.Some? {
      ArtistStoreFacts.SameEmailsSameMatch(rs, rs', Given(queryEmail.value));
    }
  }

  /** The professional handler never changes what the middleware resolves an email to. */
  lemma ProfessionalKeepsResolution(rs: seq<Artist>, g: Grammars, body: ProfessionalBody,
                                    queryEmail: Option<string>)
    ensures Resolve(ProfessionalStep(rs, g, body).records, queryEmail) == Resolve(rs, queryEmail)
  {
    UpdatesKeepResolution(ProfessionalStep(rs, g, body).records, rs, queryEmail);
  }

  /** The upload handler never changes what the middleware resolves an email to. */
  lemma UploadKeepsResolution(rs: seq<Artist>, body: UploadBody, files: map<string, seq<StoredFile>>,
                              queryEmail: Option<string>)
    ensures Resolve(UploadStep(rs, body, files).records, queryEmail) == Resolve(rs, queryEmail)
  {
    UpdatesKeepResolution(UploadStep(rs, body, files).records, rs, queryEmail);
  }

  /** The monologue handler never changes what the middleware resolves an email to. */
  lemma MonologueKeepsResolution(rs: seq<Artist>, g: Grammars, body: MonologueBody,
                                 queryEmail: Option<string>)
    ensures Resolve(MonologueStep(rs, g, body).records, queryEmail) == Resolve(rs, queryEmail)
  {
    UpdatesKeepResolution(MonologueStep(rs, g, body).records, rs, queryEmail);
  }
}
