/** The shape of an artist profile record and of the request bodies that fill it. */
module ArtistModel {
  import opened Wrappers

  /** The fifteen personal fields: the body of a personal-info submission and
      the part of the record it creates. */
  datatype PersonalInfo = PersonalInfo(
    fullName: Field<string>, email: Field<string>, whatsapp: Field<string>,
    calling: Field<string>, shortBio: Field<string>, gender: Field<string>,
    language: Field<string>, homeCity: Field<string>, homeState: Field<string>,
    currentCity: Field<string>, currentState: Field<string>, instagram: Field<string>,
    youtube: Field<string>, twitter: Field<string>, linkedin: Field<string>)

  datatype PastProject = PastProject(projectName: Field<string>, role: Field<string>, workLink: Field<string>)

  /** The seven professional fields. */
  datatype ProfessionalInfo = ProfessionalInfo(
    talentCategory: Field<string>, height: Field<string>, age: Field<real>,
    screenAge: Field<real>, videoReel: Field<string>, skills: Field<seq<string>>,
    pastProjects: Field<seq<PastProject>>)

  /** The five monologue video links, one per language. */
  datatype Monologues = Monologues(
    haryanvi: Field<string>, rajasthani: Field<string>, bhojpuri: Field<string>,
    awadhi: Field<string>, maithili: Field<string>)

  /** The named photo positions of a profile. */
  datatype Slot = Headshot | SmilingHeadshot | FullBody | ThreeQuarter | Profile | ArtistDp

  /** The multipart field name of a slot. */
  function SlotName(s: Slot): string
  {
    match s
    case Headshot => "headshot"
    case SmilingHeadshot => "smilingHeadshot"
    case FullBody => "fullBody"
    case ThreeQuarter => "threeQuarter"
    case Profile => "profile"
    case ArtistDp => "artistDp"
  }

  /** An artist record: its database id, the four sections, and the photos as a
      slot-to-stored-filename map. */
  datatype Artist = Artist(
    id: string, personal: PersonalInfo, professional: ProfessionalInfo,
    photos: map<Slot, string>, monologues: Monologues)

  /** The professional section of a freshly created record: strings unset, the
      two array paths at their empty default. */
  const NoProfessional := ProfessionalInfo(Absent, Absent, Absent, Absent, Absent, Given([]), Given([]))

  const NoMonologues := Monologues(Absent, Absent, Absent, Absent, Absent)

  /** The record a personal-info submission creates. */
  function NewArtist(id: string, info: PersonalInfo): Artist
  {
    Artist(id, info, NoProfessional, map[], NoMonologues)
  }
}

/** The request bodies of the three update handlers. Each carries the email
    that selects the record; the multipart upload body has text fields only, so
    its members are present or missing but never null. */
module ArtistRequests {
  import opened Wrappers
  import opened ArtistModel

  datatype ProfessionalBody = ProfessionalBody(email: Field<string>, info: ProfessionalInfo)

  datatype UploadBody = UploadBody(
    email: Option<string>, headshot: Option<string>, smilingHeadshot: Option<string>,
    fullBody: Option<string>, threeQuarter: Option<string>, profile: Option<string>)

  datatype MonologueBody = MonologueBody(email: Field<string>, links: Monologues)
}
