/** Where uploaded files go, what they are called, and which ones are accepted. */
module Multer {
  import opened Wrappers

  const UploadRoot := "uploads/"
  const BannerFolder := "uploads/banner"

  /** `limits.fileSize` of the profile-image upload: 5 MB. */
  const ProfileMaxFileSize: nat := 5 * 1024 * 1024
  /** `limits.fileSize` of the banner upload: 2 MB per file. */
  const BannerMaxFileSize: nat := 2 * 1024 * 1024

  const ProfileImageTypes: seq<string> := ["image/jpeg", "image/jpg", "image/png", "image/webp"]
  const BannerImageTypes: seq<string> := ["image/jpeg", "image/png", "image/webp", "image/jpg"]

  /** One file part of a multipart request, as the file filter sees it. */
  datatype FilePart = FilePart(fieldname: string, originalname: string, mimetype: string, size: nat)

  /** A file the disk storage has written: where, and under which name. */
  datatype StoredFile = StoredFile(part: FilePart, destination: string, filename: string)

  /** A file filter's decision. */
  datatype Verdict = Accept | Reject(message: string)

  /** The index of the last '.' in `s`, if any. */
  function LastDot(s: string): (r: Option<nat>)
    ensures r.Some? ==> r.value < |s| && s[r.value] == '.'
    ensures r.Some? ==> forall k :: r.value < k < |s| ==> s[k] != '.'
    ensures r.None? ==> forall k :: 0 <= k < |s| ==> s[k] != '.'
  {
    if s == [] then None
    else if s[|s| - 1] == '.' then Some(|s| - 1)
    else LastDot(s[..|s| - 1])
  }

  /** Node's `path.extname` of a file name (the uploader strips directories, so
      the name has no '/'): from the last '.' to the end, except that a name
      whose only '.' leads it, a name without '.', and ".." have no extension. */
  function ExtName(name: string): (ext: string)
    ensures |ext| <= |name|
    ensures ext == "" || ext[0] == '.'
  {
    match LastDot(name)
    case None => ""
    case Some(d) => if d == 0 || name == ".." then "" else name[d..]
  }

  /** An extension is a suffix of the name, empty or a '.' followed by no other '.'. */
  lemma ExtNameShape(name: string)
    ensures var ext := ExtName(name);
      && |ext| <= |name| && ext == name[|name| - |ext|..]
      && (ext == "" || (ext[0] == '.' && forall k :: 0 < k < |ext| ==> ext[k] != '.'))
  {
  }

  /** `storage.filename`: the field name followed by the original extension. */
  function ProfileFileName(fieldname: string, originalname: string): (r: string)
    ensures |fieldname| <= |r| <= |fieldname| + |originalname| && r[..|fieldname|] == fieldname
    ensures |r| == |fieldname| || r[|fieldname|] == '.'
    ensures r[|fieldname|..] == originalname[|originalname| - (|r| - |fieldname|)..]
  {
    ExtNameShape(originalname);
    fieldname + ExtName(originalname)
  }

  /** `storage.destination`: the artist's own folder under the upload root.
      The id is a database id, a single path segment, so joining is concatenation. */
  function ProfileDestination(artistId: Option<string>): (r: Result<string, string>)
    ensures r.Err? <==> artistId.None? || artistId.value == ""
    ensures r.Err? ==> r.error == "Artist ID is required"
    ensures r.Ok? ==> r.value == UploadRoot + artistId.value
  {
    if artistId.None? || artistId.value == "" then Err("Artist ID is required")
    else Ok(UploadRoot + artistId.value)
  }

  /** The profile-image `fileFilter`. */
  function ProfileFileFilter(mimetype: string): (v: Verdict)
    ensures v.Accept? <==> mimetype in {"image/jpeg", "image/jpg", "image/png", "image/webp"}
    ensures v.Reject? ==> v.message == "Unsupported file format"
  {
    if mimetype in ProfileImageTypes then Accept else Reject("Unsupported file format")
  }

  /** The banner `fileFilter`: a PDF under `bannerPdf`, an image under
      `bannerImage`, and no other field. */
  function BannerFileFilter(fieldname: string, mimetype: string): (v: Verdict)
    ensures fieldname == "bannerPdf" ==> (v.Accept? <==> mimetype == "application/pdf")
    ensures fieldname == "bannerPdf" && v.Reject? ==> v.message == "Banner PDF must be a PDF file"
    ensures fieldname == "bannerImage" ==>
              (v.Accept? <==> mimetype in {"image/jpeg", "image/jpg", "image/png", "image/webp"})
    ensures fieldname == "bannerImage" && v.Reject? ==>
              v.message == "Please upload with a valid image format"
    ensures fieldname != "bannerPdf" && fieldname != "bannerImage" ==> v == Reject("Unexpected field")
  {
    if fieldname == "bannerPdf" then
      if mimetype == "application/pdf" then Accept else Reject("Banner PDF must be a PDF file")
    else if fieldname == "bannerImage" then
      if mimetype in BannerImageTypes then Accept else Reject("Please upload with a valid image format")
    else Reject("Unexpected field")
  }

  lemma {:induction false} LastDotAfterBase(base: string, ext: string)
    requires forall k :: 0 <= k < |ext| ==> ext[k] != '.'
    ensures LastDot(base + "." + ext) == Some(|base|)
    decreases |ext|
  {
    var s := base + "." + ext;
    if ext != [] {
      assert s[..|s| - 1] == base + "." + ext[..|ext| - 1];
      LastDotAfterBase(base, ext[..|ext| - 1]);
    }
  }

  /** A name made of a base, a '.', and an extension without '.' has that
      extension, unless the base is empty or the whole name is "..". */
  lemma ExtNameOfDotted(base: string, ext: string)
    requires forall k :: 0 <= k < |ext| ==> ext[k] != '.'
    requires base != "" && !(base == "." && ext == "")
    ensures ExtName(base + "." + ext) == "." + ext
  {
    LastDotAfterBase(base, ext);
    var s := base + "." + ext;
    assert s[..|base|] == base && s[|base| + 1..] == ext;
    assert s[|base|..] == "." + ext;
  }

  /** The stored profile name does not depend on the original base name: two
      uploads to one field with the same extension get the same name. */
  lemma ProfileNameIgnoresBase(fieldname: string, base1: string, base2: string, ext: string)
    requires forall k :: 0 <= k < |ext| ==> ext[k] != '.'
    requires base1 != "" && !(base1 == "." && ext == "")
    requires base2 != "" && !(base2 == "." && ext == "")
    ensures ProfileFileName(fieldname, base1 + "." + ext) == fieldname + "." + ext
    ensures ProfileFileName(fieldname, base2 + "." + ext) == fieldname + "." + ext
  {
    var name1, name2 := base1 + "." + ext, base2 + "." + ext;
    ExtNameOfDotted(base1, ext);
    assert ProfileFileName(fieldname, name1) == fieldname + ExtName(name1);
    ExtNameOfDotted(base2, ext);
    assert ProfileFileName(fieldname, name2) == fieldname + ExtName(name2);
  }

  /** A name without '.' is stored under the bare field name. */
  lemma ProfileNameWithoutExtension(fieldname: string, originalname: string)
    requires forall k :: 0 <= k < |originalname| ==> originalname[k] != '.'
    ensures ProfileFileName(fieldname, originalname) == fieldname
  {
  }

  /** The disk storage an upload writes through. The banner storage names a
      file by a time-and-random stamp, which the model takes as a parameter
      (the stamp of the n-th file). */
  datatype Storage = ProfileStorage(artistId: Option<string>) | BannerStorage(stamp: nat -> string)

  function MaxFileSize(st: Storage): nat
  {
    if st.ProfileStorage? then ProfileMaxFileSize else BannerMaxFileSize
  }

  /** The file filter the storage's upload is configured with. */
  function Filter(st: Storage, p: FilePart): Verdict
  {
    match st
    case ProfileStorage(_) => ProfileFileFilter(p.mimetype)
    case BannerStorage(_) => BannerFileFilter(p.fieldname, p.mimetype)
  }

  /** The storage's `destination` and `filename` for the n-th file. */
  function Place(st: Storage, p: FilePart, n: nat): (r: Result<StoredFile, string>)
    ensures r.Err? <==> st.ProfileStorage? && (st.artistId.None? || st.artistId.value == "")
    ensures r.Err? ==> r.error == "Artist ID is required"
    ensures r.Ok? ==> r.value.part == p && Placed(st, r.value)
  {
    match st
    case ProfileStorage(id) =>
      (match ProfileDestination(id)
       case Err(e) => Err(e)
       case Ok(dir) => Ok(StoredFile(p, dir, ProfileFileName(p.fieldname, p.originalname))))
    case BannerStorage(stamp) =>
      Ok(StoredFile(p, BannerFolder, stamp(n) + ExtName(p.originalname)))
  }

  /** How many of the files came in under field `f`. */
  function CountField(fs: seq<StoredFile>, f: string): nat
  {
    if fs == [] then 0
    else CountField(fs[..|fs| - 1], f) + (if fs[|fs| - 1].part.fieldname == f then 1 else 0)
  }

  /** What every file of an accepted upload satisfies: a listed field, the
      filter's approval, and the size limit. */
  predicate Admitted(st: Storage, maxCount: map<string, nat>, p: FilePart)
  {
    p.fieldname in maxCount && Filter(st, p).Accept? && p.size <= MaxFileSize(st)
  }

  /** Where and under which name the storage put a file. */
  predicate Placed(st: Storage, f: StoredFile)
  {
    match st
    case ProfileStorage(id) =>
      ProfileDestination(id) == Ok(f.destination) &&
      f.filename == ProfileFileName(f.part.fieldname, f.part.originalname)
    case BannerStorage(_) => f.destination == BannerFolder
  }

  /** One file of an upload configured with `.fields(maxCount)`, after the
      files `taken` so far: it is first counted against its field's
      `maxCount` ("Unexpected field" for a field not listed or one file too
      many), then filtered, then placed, and finally held to the size limit
      ("File too large"). */
  function Take(st: Storage, maxCount: map<string, nat>, p: FilePart, taken: seq<StoredFile>)
    : (r: Result<StoredFile, string>)
    ensures r.Ok? ==> r.value.part == p && Admitted(st, maxCount, p) && Placed(st, r.value)
    ensures r.Ok? ==> CountField(taken, p.fieldname) < maxCount[p.fieldname]
  {
    if p.fieldname !in maxCount || CountField(taken, p.fieldname) >= maxCount[p.fieldname] then
      Err("Unexpected field")
    else if Filter(st, p).Reject? then
      Err(Filter(st, p).message)
    else match Place(st, p, |taken|)
      case Err(e) => Err(e)
      case Ok(file) =>
        if p.size > MaxFileSize(st) then Err("File too large") else Ok(file)
  }

  /** How an upload handles one file, given the files taken before it. */
  type Taker = (FilePart, seq<StoredFile>) -> Result<StoredFile, string>

  /** The per-file handling of an upload with storage `st` and field limits `maxCount`. */
  function Taking(st: Storage, maxCount: map<string, nat>): Taker
  {
    (p: FilePart, taken: seq<StoredFile>) => Take(st, maxCount, p, taken)
  }

  /** The parts multer handles as files, in arrival order: a file part whose
      file name is empty (a file input left empty) is drained and dropped
      before it is counted or filtered. */
  function FileParts(parts: seq<FilePart>): (r: seq<FilePart>)
    ensures |r| <= |parts|
    ensures forall i :: 0 <= i < |r| ==> r[i].originalname != ""
  {
    if parts == [] then []
    else
      var rest := FileParts(parts[1..]);
      if parts[0].originalname == "" then rest else [parts[0]] + rest
  }

  /** The file parts are exactly the parts with a file name. */
  lemma {:induction false} FilePartsMembers(parts: seq<FilePart>, p: FilePart)
    ensures p in FileParts(parts) <==> p in parts && p.originalname != ""
    decreases |parts|
  {
    if parts != [] {
      FilePartsMembers(parts[1..], p);
      assert parts == [parts[0]] + parts[1..];
    }
  }

  /** Dropping the empty-named parts of two runs of parts one after the other. */
  lemma {:induction false} FilePartsAppend(a: seq<FilePart>, b: seq<FilePart>)
    ensures FileParts(a + b) == FileParts(a) + FileParts(b)
    decreases |a|
  {
    if a != [] {
      assert (a + b)[1..] == a[1..] + b;
      FilePartsAppend(a[1..], b);
    } else {
      assert a + b == b;
    }
  }

  /** A part with an empty file name leaves the file parts as they were. */
  lemma FilePartsSkip(before: seq<FilePart>, p: FilePart, after: seq<FilePart>)
    requires p.originalname == ""
    ensures FileParts(before + [p] + after) == FileParts(before + after)
  {
    assert [p][1..] == [];
    assert FileParts([p]) == [];
    calc {
      FileParts(before + [p] + after);
      { FilePartsAppend(before + [p], after); }
      FileParts(before + [p]) + FileParts(after);
      { FilePartsAppend(before, [p]); }
      FileParts(before) + FileParts([p]) + FileParts(after);
      FileParts(before) + FileParts(after);
      { FilePartsAppend(before, after); }
      FileParts(before + after);
    }
  }

  /** A multipart upload's file parts, in arrival order after the files
      `taken`; the first failure aborts the whole request. */
  function Receive(take: Taker, parts: seq<FilePart>, taken: seq<StoredFile>)
    : (r: Result<seq<StoredFile>, string>)
    ensures r.Ok? ==> |r.value| == |taken| + |parts| && r.value[..|taken|] == taken
    decreases |parts|
  {
    if parts == [] then
      assert taken[..|taken|] == taken;
      Ok(taken)
    else
      match take(parts[0], taken)
      case Err(e) => Err(e)
      case Ok(file) =>
        var r := Receive(take, parts[1..], taken + [file]);
        assert r.Ok? ==> r.value[..|taken|] == r.value[..|taken| + 1][..|taken|];
        r
  }

  /** The file at position `i` of an accepted upload is what the per-file
      handling made of the `i`-th part after the files before it. */
  lemma {:induction false} ReceiveTakesAt(take: Taker, parts: seq<FilePart>, taken: seq<StoredFile>, i: nat)
    requires Receive(take, parts, taken).Ok? && i < |parts|
    ensures var fs := Receive(take, parts, taken).value;
      take(parts[i], fs[..|taken| + i]) == Ok(fs[|taken| + i])
    decreases i
  {
    var file := take(parts[0], taken).value;
    var next := taken + [file];
    var fs := Receive(take, parts[1..], next).value;
    if i == 0 {
      assert fs[..|next|] == next;
      assert fs[|taken|] == next[|taken|];
    } else {
      ReceiveTakesAt(take, parts[1..], next, i - 1);
      assert parts[1..][i - 1] == parts[i];
      assert fs[..|next| + (i - 1)] == fs[..|taken| + i];
    }
  }

  /** Every file of an accepted upload is the corresponding incoming part,
      admitted by the field list, the filter and the size limit, and placed
      by the storage. */
  lemma ReceiveAdmits(st: Storage, maxCount: map<string, nat>, parts: seq<FilePart>, taken: seq<StoredFile>)
    requires Receive(Taking(st, maxCount), parts, taken).Ok?
    ensures var fs := Receive(Taking(st, maxCount), parts, taken).value;
      forall i :: 0 <= i < |parts| ==>
        fs[|taken| + i].part == parts[i] && Admitted(st, maxCount, parts[i]) && Placed(st, fs[|taken| + i])
  {
    var fs := Receive(Taking(st, maxCount), parts, taken).value;
    forall i | 0 <= i < |parts|
      ensures fs[|taken| + i].part == parts[i] && Admitted(st, maxCount, parts[i]) && Placed(st, fs[|taken| + i])
    {
      ReceiveTakesAt(Taking(st, maxCount), parts, taken, i);
      assert Take(st, maxCount, parts[i], fs[..|taken| + i]) == Ok(fs[|taken| + i]);
    }
  }

  /** No field of an accepted upload holds more files than its `maxCount`. */
  lemma {:induction false} ReceiveKeepsCounts(st: Storage, maxCount: map<string, nat>, parts: seq<FilePart>,
                                               taken: seq<StoredFile>)
    requires forall f :: f in maxCount ==> CountField(taken, f) <= maxCount[f]
    requires Receive(Taking(st, maxCount), parts, taken).Ok?
    ensures var fs := Receive(Taking(st, maxCount), parts, taken).value;
      forall f :: f in maxCount ==> CountField(fs, f) <= maxCount[f]
    decreases |parts|
  {
    if parts != [] {
      var file := Take(st, maxCount, parts[0], taken).value;
      var next := taken + [file];
      assert next[..|next| - 1] == taken;
      ReceiveKeepsCounts(st, maxCount, parts[1..], next);
    }
  }

  /** The five image fields of the profile upload, at most one file each. */
  const ProfileFields: map<string, nat> :=
    map f | f in {"headshot", "smilingHeadshot", "fullBody", "threeQuarter", "profile"} :: 1

  /** The two banner fields, at most one file each. */
  const BannerFields: map<string, nat> := map f | f in {"bannerPdf", "bannerImage"} :: 1

  /** `uploadProfileImages`: the profile storage behind `.fields(...)`. */
  function UploadProfileImages(artistId: Option<string>, parts: seq<FilePart>): (r: Result<seq<StoredFile>, string>)
    ensures r.Ok? ==> |r.value| == |FileParts(parts)|
  {
    Receive(Taking(ProfileStorage(artistId), ProfileFields), FileParts(parts), [])
  }

  /** `uploadBanner`: the banner storage behind `.fields(...)`. */
  function UploadBanner(stamp: nat -> string, parts: seq<FilePart>): (r: Result<seq<StoredFile>, string>)
    ensures r.Ok? ==> |r.value| == |FileParts(parts)|
  {
    Receive(Taking(BannerStorage(stamp), BannerFields), FileParts(parts), [])
  }

  /** An accepted profile upload: each image of an allowed type, at most
      5 MB, stored in the artist's folder under its field name and original
      extension. */
  lemma ProfileUploadFiles(artistId: Option<string>, parts: seq<FilePart>)
    requires UploadProfileImages(artistId, parts).Ok?
    ensures var fs := UploadProfileImages(artistId, parts).value;
      var ps := FileParts(parts);
      && |fs| == |ps|
      && forall i :: 0 <= i < |fs| ==>
           && fs[i].part == ps[i]
           && ps[i].mimetype in {"image/jpeg", "image/jpg", "image/png", "image/webp"}
           && ps[i].size <= 5 * 1024 * 1024
           && artistId.Some? && fs[i].destination == UploadRoot + artistId.value
           && fs[i].filename == ps[i].fieldname + ExtName(ps[i].originalname)
  {
    var st := ProfileStorage(artistId);
    var ps := FileParts(parts);
    var fs := UploadProfileImages(artistId, parts).value;
    forall i | 0 <= i < |fs|
      ensures fs[i].part == ps[i]
      ensures ps[i].mimetype in {"image/jpeg", "image/jpg", "image/png", "image/webp"}
      ensures ps[i].size <= 5 * 1024 * 1024
      ensures artistId.Some? && fs[i].destination == UploadRoot + artistId.value
      ensures fs[i].filename == ps[i].fieldname + ExtName(ps[i].originalname)
    {
      ReceiveTakesAt(Taking(st, ProfileFields), ps, [], i);
      assert Take(st, ProfileFields, ps[i], fs[..i]) == Ok(fs[i]);
      ProfileAdmitted(artistId, ps[i], fs[i]);
    }
  }

  /** What admission and placement mean for the profile storage. */
  lemma ProfileAdmitted(artistId: Option<string>, p: FilePart, f: StoredFile)
    requires Admitted(ProfileStorage(artistId), ProfileFields, p) && Placed(ProfileStorage(artistId), f)
    requires f.part == p
    ensures p.mimetype in {"image/jpeg", "image/jpg", "image/png", "image/webp"}
    ensures p.size <= 5 * 1024 * 1024
    ensures artistId.Some? && f.destination == UploadRoot + artistId.value
    ensures f.filename == p.fieldname + ExtName(p.originalname)
  {
  }

  /** An accepted profile upload holds at most one image per field. */
  lemma ProfileUploadCounts(artistId: Option<string>, parts: seq<FilePart>)
    requires UploadProfileImages(artistId, parts).Ok?
    ensures var fs := UploadProfileImages(artistId, parts).value;
      forall f :: f in ProfileFields ==> CountField(fs, f) <= 1
  {
    ReceiveKeepsCounts(ProfileStorage(artistId), ProfileFields, FileParts(parts), []);
  }

  /** An accepted banner upload: every file under `bannerPdf` or
      `bannerImage`, the PDF of type application/pdf, the image of an image
      type, each at most 2 MB. */
  lemma BannerUploadFiles(stamp: nat -> string, parts: seq<FilePart>)
    requires UploadBanner(stamp, parts).Ok?
    ensures var fs := UploadBanner(stamp, parts).value;
      var ps := FileParts(parts);
      && |fs| == |ps|
      && forall i :: 0 <= i < |fs| ==>
           && fs[i].part == ps[i] && fs[i].destination == BannerFolder
           && ps[i].size <= 2 * 1024 * 1024
           && (ps[i].fieldname == "bannerPdf" || ps[i].fieldname == "bannerImage")
           && (ps[i].fieldname == "bannerPdf" ==> ps[i].mimetype == "application/pdf")
           && (ps[i].fieldname == "bannerImage" ==>
                 ps[i].mimetype in {"image/jpeg", "image/jpg", "image/png", "image/webp"})
  {
    var st := BannerStorage(stamp);
    var ps := FileParts(parts);
    var fs := UploadBanner(stamp, parts).value;
    forall i | 0 <= i < |fs|
      ensures fs[i].part == ps[i] && fs[i].destination == BannerFolder
      ensures ps[i].size <= 2 * 1024 * 1024
      ensures ps[i].fieldname == "bannerPdf" || ps[i].fieldname == "bannerImage"
      ensures ps[i].fieldname == "bannerPdf" ==> ps[i].mimetype == "application/pdf"
      ensures ps[i].fieldname == "bannerImage" ==>
                ps[i].mimetype in {"image/jpeg", "image/jpg", "image/png", "image/webp"}
    {
      ReceiveTakesAt(Taking(st, BannerFields), ps, [], i);
      assert Take(st, BannerFields, ps[i], fs[..i]) == Ok(fs[i]);
      BannerAdmitted(stamp, ps[i], fs[i]);
    }
  }

  /** What admission and placement mean for the banner storage. */
  lemma BannerAdmitted(stamp: nat -> string, p: FilePart, f: StoredFile)
    requires Admitted(BannerStorage(stamp), BannerFields, p) && Placed(BannerStorage(stamp), f)
    ensures f.destination == BannerFolder && p.size <= 2 * 1024 * 1024
    ensures p.fieldname == "bannerPdf" || p.fieldname == "bannerImage"
    ensures p.fieldname == "bannerPdf" ==> p.mimetype == "application/pdf"
    ensures p.fieldname == "bannerImage" ==> p.mimetype in {"image/jpeg", "image/jpg", "image/png", "image/webp"}
  {
  }

  /** An accepted banner upload holds at most one PDF and one image. */
  lemma BannerUploadCounts(stamp: nat -> string, parts: seq<FilePart>)
    requires UploadBanner(stamp, parts).Ok?
    ensures var fs := UploadBanner(stamp, parts).value;
      CountField(fs, "bannerPdf") <= 1 && CountField(fs, "bannerImage") <= 1
  {
    ReceiveKeepsCounts(BannerStorage(stamp), BannerFields, FileParts(parts), []);
    assert "bannerPdf" in BannerFields && "bannerImage" in BannerFields;
  }

  /** Without an artist id, the first image that passes the count and the
      filter aborts the profile upload with "Artist ID is required". */
  lemma ProfileUploadNeedsArtistId(p: FilePart, rest: seq<FilePart>)
    requires p.originalname != ""
    requires p.fieldname in ProfileFields && ProfileFileFilter(p.mimetype).Accept?
    ensures UploadProfileImages(None, [p] + rest) == Err("Artist ID is required")
  {
    assert ([p] + rest)[1..] == rest;
    assert FileParts([p] + rest)[0] == p;
  }

  /** A banner file under any other field is turned away by the field count
      before the filter sees it, with the same "Unexpected field" message. */
  lemma UnknownBannerFieldRejected(stamp: nat -> string, p: FilePart, rest: seq<FilePart>)
    requires p.originalname != ""
    requires p.fieldname != "bannerPdf" && p.fieldname != "bannerImage"
    ensures UploadBanner(stamp, [p] + rest) == Err("Unexpected field")
  {
    assert ([p] + rest)[1..] == rest;
    assert FileParts([p] + rest)[0] == p;
  }

  /** A file input left empty changes nothing, wherever its part arrives: the
      profile upload answers as if the part had not been sent. */
  lemma EmptyProfileInputIgnored(artistId: Option<string>, before: seq<FilePart>, p: FilePart,
                                 after: seq<FilePart>)
    requires p.originalname == ""
    ensures UploadProfileImages(artistId, before + [p] + after) == UploadProfileImages(artistId, before + after)
  {
    FilePartsSkip(before, p, after);
  }

  /** The same for the banner upload. */
  lemma EmptyBannerInputIgnored(stamp: nat -> string, before: seq<FilePart>, p: FilePart, after: seq<FilePart>)
    requires p.originalname == ""
    ensures UploadBanner(stamp, before + [p] + after) == UploadBanner(stamp, before + after)
  {
    FilePartsSkip(before, p, after);
  }
}
