/** The four Joi schemas of the artist profile sections, as predicates. */
module ArtistValidation {
  import opened Wrappers
  import opened Chars
  import opened Joi
  import opened ArtistModel
  import opened ArtistRequests

  /** `^[0-9]{10,15}$` */
  predicate IsPhone(s: string)
  {
    10 <= |s| <= 15 && AllDigits(s)
  }

  /** One way `^\d{2,3}\s?(cm|in)?$` can match: `n` digits, `w` whitespace
      characters, then the unit or nothing up to the end. */
  predicate HeightSplit(s: string, n: nat, w: nat)
  {
    && n + w <= |s|
    && AllDigits(s[..n])
    && (w == 1 ==> IsSpace(s[n]))
    && s[n + w..] in {"", "cm", "in"}
  }

  /** `^\d{2,3}\s?(cm|in)?$`, read as the four ways it can split the string. */
  predicate HeightPattern(s: string)
  {
    HeightSplit(s, 2, 0) || HeightSplit(s, 2, 1) || HeightSplit(s, 3, 0) || HeightSplit(s, 3, 1)
  }

  /** The number of leading ASCII digits. */
  function LeadingDigits(s: string): (n: nat)
    ensures n <= |s| && AllDigits(s[..n])
    ensures n < |s| ==> !IsDigit(s[n])
  {
    if s == [] || !IsDigit(s[0]) then 0
    else
      var n := 1 + LeadingDigits(s[1..]);
      assert s[..n] == [s[0]] + s[1..][..n - 1];
      n
  }

  /** What may follow the digits of a height: an optional whitespace character,
      then "cm", "in" or nothing. */
  predicate HeightUnit(r: string)
  {
    r in {"", "cm", "in"} || (r != [] && IsSpace(r[0]) && r[1..] in {"", "cm", "in"})
  }

  /** A one-pass decision for heights: count the leading digits, then look at the rest. */
  predicate IsHeight(s: string)
  {
    var n := LeadingDigits(s);
    (n == 2 || n == 3) && HeightUnit(s[n..])
  }

  /** Whichever way the pattern splits a string, the digits it takes are all
      the leading digits, and the rest is a valid unit. */
  lemma HeightSplitIsScan(s: string, m: nat, w: nat)
    requires w <= 1 && HeightSplit(s, m, w)
    ensures LeadingDigits(s) == m && HeightUnit(s[m..])
  {
  }

  /** The one-pass decision accepts exactly the strings the regular expression matches. */
  lemma HeightDecision(s: string)
    ensures IsHeight(s) <==> HeightPattern(s)
  {
    if HeightSplit(s, 2, 0) { HeightSplitIsScan(s, 2, 0); }
    if HeightSplit(s, 2, 1) { HeightSplitIsScan(s, 2, 1); }
    if HeightSplit(s, 3, 0) { HeightSplitIsScan(s, 3, 0); }
    if HeightSplit(s, 3, 1) { HeightSplitIsScan(s, 3, 1); }
    if IsHeight(s) {
      var n := LeadingDigits(s);
      if s[n..] in {"", "cm", "in"} {
        assert HeightSplit(s, n, 0);
      } else {
        assert s[n..][1..] == s[n + 1..];
        assert HeightSplit(s, n, 1);
      }
    }
  }

  /** `Joi.array().items(Joi.string().min(2)).min(1).required()` */
  predicate SkillsOk(f: Field<seq<string>>)
  {
    f.Given? && |f.value| >= 1 && forall i :: 0 <= i < |f.value| ==> |f.value[i]| >= 2
  }

  /** One `pastProjects` entry: name, role and work link all required. */
  predicate PastProjectOk(g: Grammars, p: PastProject)
  {
    IsString(p.projectName) && IsString(p.role) && IsUri(g, p.workLink)
  }

  /** `pastProjects` is optional; when given it is a list of valid entries. */
  predicate PastProjectsOk(g: Grammars, f: Field<seq<PastProject>>)
  {
    f.Absent? || (f.Given? && forall i :: 0 <= i < |f.value| ==> PastProjectOk(g, f.value[i]))
  }

  /** `personalSchema`, key by key in declaration order. */
  function PersonalChecks(g: Grammars, p: PersonalInfo): (r: seq<Check>)
    ensures Keys(r) == ["fullName", "email", "whatsapp", "calling", "shortBio", "gender",
                        "language", "homeCity", "homeState", "currentCity", "currentState",
                        "instagram", "youtube", "twitter", "linkedin"]
  {
    [ Check("fullName", LengthBetween(p.fullName, 2, 50)),
      Check("email", IsString(p.email) && g.isEmail(p.email.value)),
      Check("whatsapp", IsString(p.whatsapp) && IsPhone(p.whatsapp.value)),
      Check("calling", IsString(p.calling) && IsPhone(p.calling.value)),
      Check("shortBio", LengthBetween(p.shortBio, 10, 300)),
      Check("gender", OneOf(p.gender, {"male", "female", "other"})),
      Check("language", IsString(p.language)),
      Check("homeCity", IsString(p.homeCity)),
      Check("homeState", IsString(p.homeState)),
      Check("currentCity", IsString(p.currentCity)),
      Check("currentState", IsString(p.currentState)),
      Check("instagram", IsUri(g, p.instagram)),
      Check("youtube", IsUri(g, p.youtube)),
      Check("twitter", IsUri(g, p.twitter)),
      Check("linkedin", IsUri(g, p.linkedin)) ]
  }

  predicate PersonalValid(g: Grammars, p: PersonalInfo)
  {
    Passes(PersonalChecks(g, p))
  }

  /** `professionalSchema`, key by key in declaration order. */
  function ProfessionalChecks(g: Grammars, p: ProfessionalInfo): (r: seq<Check>)
    ensures Keys(r) == ["talentCategory", "height", "age", "screenAge", "videoReel",
                        "skills", "pastProjects"]
  {
    [ Check("talentCategory", IsString(p.talentCategory)),
      Check("height", IsString(p.height) && HeightPattern(p.height.value)),
      Check("age", NumberBetween(p.age, 1.0, 100.0)),
      Check("screenAge", NumberBetween(p.screenAge, 1.0, 100.0)),
      Check("videoReel", IsUri(g, p.videoReel)),
      Check("skills", SkillsOk(p.skills)),
      Check("pastProjects", PastProjectsOk(g, p.pastProjects)) ]
  }

  predicate ProfessionalValid(g: Grammars, p: ProfessionalInfo)
  {
    Passes(ProfessionalChecks(g, p))
  }

  /** `uploadPhotosSchema`: four text fields required with any value, `profile` optional. */
  function UploadChecks(b: UploadBody): (r: seq<Check>)
    ensures Keys(r) == ["headshot", "smilingHeadshot", "fullBody", "threeQuarter", "profile"]
    ensures r[4].ok
  {
    [ Check("headshot", b.headshot.Some?),
      Check("smilingHeadshot", b.smilingHeadshot.Some?),
      Check("fullBody", b.fullBody.Some?),
      Check("threeQuarter", b.threeQuarter.Some?),
      Check("profile", true) ]
  }

  predicate UploadValid(b: UploadBody)
  {
    Passes(UploadChecks(b))
  }

  /** `monologueSchema`: every language optional, null allowed, otherwise a URI. */
  function MonologueChecks(g: Grammars, m: Monologues): (r: seq<Check>)
    ensures Keys(r) == ["haryanvi", "rajasthani", "bhojpuri", "awadhi", "maithili"]
  {
    [ Check("haryanvi", IsOptionalUri(g, m.haryanvi)),
      Check("rajasthani", IsOptionalUri(g, m.rajasthani)),
      Check("bhojpuri", IsOptionalUri(g, m.bhojpuri)),
      Check("awadhi", IsOptionalUri(g, m.awadhi)),
      Check("maithili", IsOptionalUri(g, m.maithili)) ]
  }

  predicate MonologueValid(g: Grammars, m: Monologues)
  {
    Passes(MonologueChecks(g, m))
  }
}

/** What the artist schemas accept, stated field by field. */
module ArtistValidationFacts {
  import opened Wrappers
  import opened Joi
  import opened ArtistModel
  import opened ArtistRequests
  import opened ArtistValidation

  /** `personalSchema` accepts a body exactly when every one of its fifteen
      required keys satisfies its own rule. */
  lemma PersonalRules(g: Grammars, p: PersonalInfo)
    ensures PersonalValid(g, p) <==>
      && p.fullName.Given? && 2 <= |p.fullName.value| <= 50
      && IsString(p.email) && g.isEmail(p.email.value)
      && p.whatsapp.Given? && IsPhone(p.whatsapp.value)
      && p.calling.Given? && IsPhone(p.calling.value)
      && p.shortBio.Given? && 10 <= |p.shortBio.value| <= 300
      && p.gender.Given? && p.gender.value in {"male", "female", "other"}
      && IsString(p.language) && IsString(p.homeCity) && IsString(p.homeState)
      && IsString(p.currentCity) && IsString(p.currentState)
      && IsUri(g, p.instagram) && IsUri(g, p.youtube)
      && IsUri(g, p.twitter) && IsUri(g, p.linkedin)
  {
    var cs := PersonalChecks(g, p);
    if PersonalValid(g, p) {
      assert cs[0].ok && cs[1].ok && cs[2].ok && cs[3].ok && cs[4].ok && cs[5].ok;
      assert cs[6].ok && cs[7].ok && cs[8].ok && cs[9].ok && cs[10].ok;
      assert cs[11].ok && cs[12].ok && cs[13].ok && cs[14].ok;
    }
  }

  /** The first rule of `personalSchema` is the name length: a name outside
      2..50 characters is the error reported, whatever else is wrong. */
  lemma PersonalNameReportedFirst(g: Grammars, p: PersonalInfo)
    requires !LengthBetween(p.fullName, 2, 50)
    ensures !PersonalValid(g, p)
    ensures FirstError(PersonalChecks(g, p)) == Some("fullName")
  {
    assert !PersonalChecks(g, p)[0].ok;
  }

  /** `professionalSchema` accepts a body exactly when its six required keys
      satisfy their rules and `pastProjects` is missing or a list of complete
      entries. */
  lemma ProfessionalRules(g: Grammars, p: ProfessionalInfo)
    ensures ProfessionalValid(g, p) <==>
      && IsString(p.talentCategory)
      && p.height.Given? && HeightPattern(p.height.value)
      && p.age.Given? && 1.0 <= p.age.value <= 100.0
      && p.screenAge.Given? && 1.0 <= p.screenAge.value <= 100.0
      && IsUri(g, p.videoReel)
      && p.skills.Given? && |p.skills.value| >= 1
      && (forall i :: 0 <= i < |p.skills.value| ==> |p.skills.value[i]| >= 2)
      && (p.pastProjects.Absent? ||
          (p.pastProjects.Given? && forall i :: 0 <= i < |p.pastProjects.value| ==>
             var e := p.pastProjects.value[i];
             IsString(e.projectName) && IsString(e.role) && IsUri(g, e.workLink)))
  {
    var cs := ProfessionalChecks(g, p);
    if ProfessionalValid(g, p) {
      assert cs[0].ok && cs[1].ok && cs[2].ok && cs[3].ok && cs[4].ok && cs[5].ok && cs[6].ok;
    }
  }

  /** Leaving out `pastProjects` never turns an accepted professional body into a rejected one. */
  lemma PastProjectsOptional(g: Grammars, p: ProfessionalInfo)
    requires ProfessionalValid(g, p)
    ensures ProfessionalValid(g, p.(pastProjects := Absent))
  {
    var cs, cs' := ProfessionalChecks(g, p), ProfessionalChecks(g, p.(pastProjects := Absent));
    assert forall i :: 0 <= i < 6 ==> cs'[i] == cs[i];
  }

  /** `uploadPhotosSchema` requires the four shots and nothing else. */
  lemma UploadRules(b: UploadBody)
    ensures UploadValid(b) <==>
      b.headshot.Some? && b.smilingHeadshot.Some? && b.fullBody.Some? && b.threeQuarter.Some?
  {
    var cs := UploadChecks(b);
    if UploadValid(b) {
      assert cs[0].ok && cs[1].ok && cs[2].ok && cs[3].ok;
    }
  }

  /** `monologueSchema` accepts each language missing, null, or a URI. */
  lemma MonologueRules(g: Grammars, m: Monologues)
    ensures MonologueValid(g, m) <==>
      && IsOptionalUri(g, m.haryanvi) && IsOptionalUri(g, m.rajasthani)
      && IsOptionalUri(g, m.bhojpuri) && IsOptionalUri(g, m.awadhi)
      && IsOptionalUri(g, m.maithili)
  {
    var cs := MonologueChecks(g, m);
    if MonologueValid(g, m) {
      assert cs[0].ok && cs[1].ok && cs[2].ok && cs[3].ok && cs[4].ok;
    }
  }

  /** A monologue body with no language links at all is accepted. */
  lemma MonologueAllMissing(g: Grammars)
    ensures MonologueValid(g, NoMonologues)
  {
    MonologueRules(g, NoMonologues);
  }
}
