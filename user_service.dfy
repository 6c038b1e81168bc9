/**
  The backend's user profile service: reading a user by email, the partial
  profile update where an absent (null) value means "keep", and the checks,
  file name and URL of an avatar upload.

  The repository is a map from email to the stored user. The random UUID and
  the outcome of writing the file are parameters; the files written are kept
  in a ghost log.
*/
module UserProfileService {
  import opened Basics

  const UploadDir := "frontend/public/uploads/profile-images/"
  const AvatarUrlPrefix := "/uploads/profile-images/"
  const ImagePrefix := "image/"

  /** The stored user; id, password and role stand for the entity's fields the service never writes. */
  datatype User = User(
    id: int,
    email: string,
    password: string,
    role: string,
    nom: Option<string>,
    prenom: Option<string>,
    phone: Option<string>,
    department: Option<string>,
    avatar: Option<string>)

  /** The fields of the update request that updateUserProfile reads; None is Java's null. */
  datatype UpdateRequest = UpdateRequest(
    nom: Option<string>,
    prenom: Option<string>,
    phone: Option<string>,
    department: Option<string>,
    avatar: Option<string>)

  /** The RuntimeException the service throws, by cause. */
  datatype ServiceError = UserNotFound | EmptyFile | NotAnImage | UploadFailed(ioMessage: string)

  const UploadFailedPrefix := "Erreur lors de l'upload du fichier: "

  /** The exception's message, which the controller returns to the client. */
  function Message(e: ServiceError): (m: string)
    ensures m != ""
    ensures e.UploadFailed? ==>
              StartsWith(m, UploadFailedPrefix) && m[|UploadFailedPrefix|..] == e.ioMessage
    ensures !e.UploadFailed? ==> !StartsWith(m, UploadFailedPrefix)
  {
    match e
    case UserNotFound => "USER_NOT_FOUND"
    case EmptyFile => "Le fichier est vide"
    case NotAnImage => "Le fichier doit être une image"
    case UploadFailed(m) => UploadFailedPrefix + m
  }

  /** Different failures reach the client as different messages. */
  lemma MessageInjective(e1: ServiceError, e2: ServiceError)
    ensures Message(e1) == Message(e2) ==> e1 == e2
  {
    if Message(e1) == Message(e2) && e1.UploadFailed? && e2.UploadFailed? {
      var n := |UploadFailedPrefix|;
      assert e1.ioMessage == Message(e1)[n..];
      assert e2.ioMessage == Message(e2)[n..];
    }
  }

  // ---------------------------------------------------------------------
  // updateUserProfile
  // ---------------------------------------------------------------------

  /** The value a profile field takes: the requested one when it is non-null, else the stored one. */
  function Merge(stored: Option<string>, requested: Option<string>): (r: Option<string>)
    ensures requested.Some? ==> r == requested
    ensures requested.None? ==> r == stored
    ensures r.None? ==> stored.None?
  {
    if requested.Some? then requested else stored
  }

  /** The user after the conditional setters of updateUserProfile. */
  function ApplyUpdate(u: User, req: UpdateRequest): (r: User)
    // each of the five fields is overwritten exactly when the request's value is non-null
    ensures req.nom.Some? ==> r.nom == req.nom
    ensures req.nom.None? ==> r.nom == u.nom
    ensures req.prenom.Some? ==> r.prenom == req.prenom
    ensures req.prenom.None? ==> r.prenom == u.prenom
    ensures req.phone.Some? ==> r.phone == req.phone
    ensures req.phone.None? ==> r.phone == u.phone
    ensures req.department.Some? ==> r.department == req.department
    ensures req.department.None? ==> r.department == u.department
    ensures req.avatar.Some? ==> r.avatar == req.avatar
    ensures req.avatar.None? ==> r.avatar == u.avatar
    // every other field, the email included, is the stored one
    ensures r.(nom := u.nom, prenom := u.prenom, phone := u.phone,
               department := u.department, avatar := u.avatar) == u
  {
    u.(nom := Merge(u.nom, req.nom),
       prenom := Merge(u.prenom, req.prenom),
       phone := Merge(u.phone, req.phone),
       department := Merge(u.department, req.department),
       avatar := Merge(u.avatar, req.avatar))
  }

  /** Applying the same request twice gives the same user as applying it once. */
  lemma ApplyUpdateIdempotent(u: User, req: UpdateRequest)
    ensures ApplyUpdate(ApplyUpdate(u, req), req) == ApplyUpdate(u, req)
  {
  }

  // ---------------------------------------------------------------------
  // uploadAvatar: the checks, the extension and the URL
  // ---------------------------------------------------------------------

  /** The part of a MultipartFile the service reads. */
  datatype UploadedFile = UploadedFile(empty: bool, contentType: Option<string>, originalFilename: Option<string>)

  /** The outcome of creating the upload directory and copying the file into it. */
  datatype CopyOutcome = Copied | IoFailed(message: string)

  predicate StartsWith(s: string, prefix: string)
  {
    |prefix| <= |s| && s[..|prefix|] == prefix
  }

  /** `contentType != null && contentType.startsWith("image/")`. */
  function IsImageType(contentType: Option<string>): (accepted: bool)
    ensures contentType.None? ==> !accepted
    ensures accepted ==> |contentType.value| >= |ImagePrefix|
                         && contentType.value == ImagePrefix + contentType.value[|ImagePrefix|..]
  {
    contentType.Some? && StartsWith(contentType.value, ImagePrefix)
  }

  /** The content types accepted are exactly "image/" followed by anything. */
  lemma IsImageTypeIff(contentType: Option<string>)
    ensures IsImageType(contentType) <==>
              contentType.Some? && exists subtype :: contentType.value == ImagePrefix + subtype
  {
    if IsImageType(contentType) {
      var s := contentType.value;
      assert s == ImagePrefix + s[|ImagePrefix|..];
    }
    if contentType.Some? && exists subtype :: contentType.value == ImagePrefix + subtype {
      var subtype :| contentType.value == ImagePrefix + subtype;
      assert contentType.value[..|ImagePrefix|] == ImagePrefix;
    }
  }

  /** The checks of uploadAvatar, in their order; None when the upload may proceed. */
  function CheckUpload(userFound: bool, file: UploadedFile): (r: Option<ServiceError>)
    ensures r == Some(UserNotFound) <==> !userFound
    ensures r == Some(EmptyFile) <==> userFound && file.empty
    ensures r == Some(NotAnImage) <==> userFound && !file.empty && !IsImageType(file.contentType)
    ensures r.None? <==> userFound && !file.empty && IsImageType(file.contentType)
  {
    if !userFound then Some(UserNotFound)
    else if file.empty then Some(EmptyFile)
    else if !IsImageType(file.contentType) then Some(NotAnImage)
    else None
  }

  /** String.lastIndexOf for one character; None where Java returns -1. */
  function LastIndexOf(s: string, c: char): (r: Option<nat>)
    ensures r.None? <==> c !in s
    ensures r.Some? ==> r.value < |s| && s[r.value] == c
    ensures r.Some? ==> forall j :: r.value < j < |s| ==> s[j] != c
  {
    if s == [] then None
    else if s[|s| - 1] == c then Some(|s| - 1)
    else LastIndexOf(s[..|s| - 1], c)
  }

  /** e is a tail of s that starts with a dot and has no other dot. */
  ghost predicate IsDotSuffix(s: string, e: string)
  {
    0 < |e| <= |s| && e == s[|s| - |e|..] && e[0] == '.' && '.' !in e[1..]
  }

  /** The extension uploadAvatar keeps: from the last dot on, or "" without a name or a dot. */
  function FileExtension(filename: Option<string>): (ext: string)
    ensures filename.None? || '.' !in filename.value ==> ext == ""
    ensures filename.Some? && '.' in filename.value ==> IsDotSuffix(filename.value, ext)
  {
    match filename
    case None => ""
    case Some(name) =>
      match LastIndexOf(name, '.')
      case None => ""
      case Some(i) =>
        assert '.' !in name[i..][1..] by {
          forall k | 0 <= k < |name[i..][1..]| ensures name[i..][1..][k] != '.' {
            assert name[i..][1..][k] == name[i + 1 + k];
          }
        }
        name[i..]
  }

  /** A name has at most one tail that starts with its only dot. */
  lemma DotSuffixUnique(s: string, e1: string, e2: string)
    requires IsDotSuffix(s, e1) && IsDotSuffix(s, e2)
    ensures e1 == e2
  {
  }

  /**
    The stored file name: the UUID followed by the extension. A UUID has no
    dot, so the stored file keeps the extension of the uploaded one.
  */
  function StoredFileName(uuid: string, filename: Option<string>): (name: string)
    ensures StartsWith(name, uuid) && name[|uuid|..] == FileExtension(filename)
    ensures '.' !in uuid ==> FileExtension(Some(name)) == FileExtension(filename)
  {
    var ext := FileExtension(filename);
    var name := uuid + ext;
    assert name[..|uuid|] == uuid && name[|uuid|..] == ext;
    if ext != "" then
      assert name[|name| - |ext|..] == ext;
      assert name[|uuid|] == '.';
      DotSuffixUnique(name, FileExtension(Some(name)), ext);
      name
    else
      assert name == uuid;
      name
  }

  /** The avatar URL: the web path under which the public directory serves the stored file. */
  function AvatarUrl(fileName: string): (url: string)
    ensures StartsWith(url, AvatarUrlPrefix) && url[|AvatarUrlPrefix|..] == fileName
    ensures "frontend/public" + url == UploadDir + fileName
  {
    AvatarUrlPrefix + fileName
  }

  // ---------------------------------------------------------------------
  // The service over its repository
  // ---------------------------------------------------------------------

  class UserService {
    /** userRepository, keyed by email. */
    var users: map<string, User>
    /** The paths of the files written into the upload directory. */
    ghost var storedFiles: seq<string>

    /** Every user is stored under its own email. */
    ghost predicate Valid()
      reads this
    {
      forall e :: e in users ==> users[e].email == e
    }

    constructor (initial: map<string, User>)
      requires forall e :: e in initial ==> initial[e].email == e
      ensures Valid() && users == initial && storedFiles == []
    {
      users := initial;
      storedFiles := [];
    }

    /** getUserByEmail: the stored user, or USER_NOT_FOUND. */
    function GetUserByEmail(email: string): (r: Result<User, ServiceError>)
      reads this
      ensures r.Failure? <==> email !in users
      ensures r.Failure? ==> r.error == UserNotFound
      ensures r.Success? ==> r.value == users[email]
      ensures Valid() && r.Success? ==> r.value.email == email
    {
      if email in users then Success(users[email]) else Failure(UserNotFound)
    }

    /** updateUserProfile: the stored user merged with the request, saved back. */
    method UpdateUserProfile(email: string, req: UpdateRequest) returns (r: Result<User, ServiceError>)
      requires Valid()
      modifies this
      ensures Valid() && storedFiles == old(storedFiles)
      ensures email !in old(users) ==> r == Failure(UserNotFound) && users == old(users)
      ensures email in old(users) ==>
        r == Success(ApplyUpdate(old(users)[email], req))
        && users == old(users)[email := r.value]
    {
      var found := GetUserByEmail(email);
      if found.Failure? {
        return Failure(found.error);
      }
      var user := found.value;
      if req.nom.Some? {
        user := user.(nom := req.nom);
      }
      if req.prenom.Some? {
        user := user.(prenom := req.prenom);
      }
      if req.phone.Some? {
        user := user.(phone := req.phone);
      }
      if req.department.Some? {
        user := user.(department := req.department);
      }
      if req.avatar.Some? {
        user := user.(avatar := req.avatar);
      }
      users := users[user.email := user];
      r := Success(user);
    }

    /**
      uploadAvatar, with the random UUID and the outcome of the file copy
      given. Returns the new avatar URL.
    */
    method UploadAvatar(email: string, file: UploadedFile, uuid: string, copy: CopyOutcome)
      returns (r: Result<string, ServiceError>)
      requires Valid()
      modifies this
      ensures Valid()
      ensures CheckUpload(email in old(users), file).Some? ==>
        r == Failure(CheckUpload(email in old(users), file).value)
        && users == old(users) && storedFiles == old(storedFiles)
      ensures CheckUpload(email in old(users), file).None? && copy.IoFailed? ==>
        r == Failure(UploadFailed(copy.message))
        && users == old(users) && storedFiles == old(storedFiles)
      ensures CheckUpload(email in old(users), file).None? && copy.Copied? ==>
        var fileName := StoredFileName(uuid, file.originalFilename);
        r == Success(AvatarUrl(fileName))
        && users == old(users)[email := old(users)[email].(avatar := Some(r.value))]
        && storedFiles == old(storedFiles) + [UploadDir + fileName]
    {
      var found := GetUserByEmail(email);
      if found.Failure? {
        return Failure(found.error);
      }
      if file.empty {
        return Failure(EmptyFile);
      }
      if !IsImageType(file.contentType) {
        return Failure(NotAnImage);
      }
      var extension := FileExtension(file.originalFilename);
      var fileName := uuid + extension;
      if copy.IoFailed? {
        return Failure(UploadFailed(copy.message));
      }
      storedFiles := storedFiles + [UploadDir + fileName];
      var avatarUrl := AvatarUrl(fileName);
      var user := found.value.(avatar := Some(avatarUrl));
      users := users[user.email := user];
      r := Success(avatarUrl);
    }
  }
}
