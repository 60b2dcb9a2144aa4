/**
 * The authentication routes: `POST /register`, `POST /login`,
 * `PUT /profile-photo` and `GET /profile`, over a user table keyed by email
 * (with the `_id` index the routes look users up by) and the set of file ids
 * the media store holds.
 */
module AuthRoutes {
  import opened Common

  const UserExists := "User already exists"
  const InvalidCredentials := "Invalid credentials"
  const NoPhoto := "No photo provided"
  const UserNotFound := "User not found"
  const PhotoUpdateError := "Error updating profile photo"
  const PhotoUpdated := "Profile photo updated successfully"
  const ServerError := "Server error"

  /** A user document. `password` is what the user model stores for it. */
  datatype User = User(id: UserId, name: Option<string>, email: string, password: string, phone: Option<string>,
                       profilePhoto: Option<MediaRef>)

  /** What multer puts in `req.file` once the media store holds the upload. */
  datatype UploadedFile = UploadedFile(publicId: Option<string>, filename: Option<string>, path: Option<string>,
                                       secureUrl: Option<string>)

  /** `{public_id: file.public_id || file.filename, url: file.path || file.secure_url}`. */
  function NewPhoto(f: UploadedFile): (r: MediaRef)
    ensures Truthy(f.publicId) ==> r.publicId == f.publicId
    ensures !Truthy(f.publicId) ==> r.publicId == f.filename
    ensures Truthy(f.path) ==> r.url == f.path
    ensures !Truthy(f.path) ==> r.url == f.secureUrl
  {
    MediaRef(OrElse(f.publicId, f.filename), OrElse(f.path, f.secureUrl))
  }

  /** `user.toObject()`: every stored field, the password included. */
  function ToObject(u: User): (o: map<string, Field>)
    ensures "password" in o && o["password"] == Str(u.password)
    ensures "_id" in o && o["_id"] == Str(u.id) && "email" in o && o["email"] == Str(u.email)
    ensures u.profilePhoto.Some? <==> "profilePhoto" in o
    ensures u.profilePhoto.Some? ==> o["profilePhoto"] == Photo(u.profilePhoto.value)
  {
    var base := map["_id" := Str(u.id), "email" := Str(u.email), "password" := Str(u.password)];
    var withName := if u.name.Some? then base["name" := Str(u.name.value)] else base;
    var withPhone := if u.phone.Some? then withName["phone" := Str(u.phone.value)] else withName;
    if u.profilePhoto.Some? then withPhone["profilePhoto" := Photo(u.profilePhoto.value)] else withPhone
  }

  /** `delete userResponse.password`, and likewise `.select('-password')`. */
  function WithoutPassword(o: map<string, Field>): (r: map<string, Field>)
    ensures "password" !in r
    ensures r.Keys == o.Keys - {"password"}
    ensures forall k :: k in r ==> r[k] == o[k]
  {
    o - {"password"}
  }

  /** What a response tells about a user: every field but the password. */
  function PublicView(u: User): (r: map<string, Field>)
    ensures "password" !in r
    ensures forall k :: k in ToObject(u) && k != "password" ==> k in r && r[k] == ToObject(u)[k]
  {
    WithoutPassword(ToObject(u))
  }

  /** The id of a user's current profile photo, when it has one: `profilePhoto && profilePhoto.public_id`. */
  function OldPhotoId(u: User): Option<string> {
    if u.profilePhoto.Some? && Truthy(u.profilePhoto.value.publicId) then u.profilePhoto.value.publicId else None
  }

  /** The user's profile photo, when it has an id, names a file the media store holds. */
  predicate PhotoHeld(u: User, media: set<string>) {
    OldPhotoId(u).Some? ==> OldPhotoId(u).value in media
  }

  /**
   * What `POST /login` answers over the table `users`: a token for the user's
   * `_id` when the email is known and the password matches, and one and the
   * same 400 otherwise.
   */
  function LoginOutcome(users: map<string, User>, passwordMatches: (string, string) -> bool, sign: UserId -> string,
                        email: string, password: string): (r: Response<string>)
    ensures r.Success? <==> email in users && passwordMatches(password, users[email].password)
    ensures r.Success? ==> r == Success(200, sign(users[email].id))
    ensures r.Failure? ==> r == Failure(400, InvalidCredentials)
  {
    if email in users && passwordMatches(password, users[email].password) then Success(200, sign(users[email].id))
    else Failure(400, InvalidCredentials)
  }

  /**
   * After registering `email`, logging in with it checks the password it was
   * registered with and yields the new user's token; every other email logs
   * in as before.
   */
  lemma LoginAfterRegister(users: map<string, User>, passwordMatches: (string, string) -> bool, sign: UserId -> string,
                           newUser: User, email: string, password: string)
    ensures var after := users[newUser.email := newUser];
            && (email == newUser.email ==>
                  LoginOutcome(after, passwordMatches, sign, email, password)
                  == (if passwordMatches(password, newUser.password) then Success(200, sign(newUser.id))
                      else Failure(400, InvalidCredentials)))
            && (email != newUser.email ==>
                  LoginOutcome(after, passwordMatches, sign, email, password)
                  == LoginOutcome(users, passwordMatches, sign, email, password))
  {
  }

  /** The body of a successful photo update. */
  datatype PhotoReply = PhotoReply(message: string, user: map<string, Field>, photo: MediaRef)

  class UserStore {
    /** The user collection, keyed by email. */
    var users: map<string, User>
    /** The `_id` index over `users`. */
    var emailById: map<UserId, string>
    /** The ids of the files the media store holds. */
    var media: set<string>
    /** `jwt.sign({ userId }, JWT_SECRET, { expiresIn: '1d' })`. */
    const sign: UserId -> string
    /** `user.comparePassword(candidate)`, given the stored password. */
    const passwordMatches: (string, string) -> bool

    ghost predicate Valid()
      reads this
    {
      && (forall e :: e in users ==>
            users[e].email == e && users[e].id in emailById && emailById[users[e].id] == e)
      && (forall id :: id in emailById ==> emailById[id] in users && users[emailById[id]].id == id)
    }

    constructor (sign: UserId -> string, passwordMatches: (string, string) -> bool, media: set<string>)
      ensures Valid() && users == map[] && emailById == map[] && this.media == media
      ensures this.sign == sign && this.passwordMatches == passwordMatches
    {
      users := map[];
      emailById := map[];
      this.media := media;
      this.sign := sign;
      this.passwordMatches := passwordMatches;
    }

    /** `User.findById(id)`. */
    function FindById(id: UserId): (r: Option<User>)
      reads this
      requires Valid()
      ensures r.Some? <==> id in emailById
      ensures r.Some? ==> r.value.id == id && r.value.email in users && users[r.value.email] == r.value
    {
      if id in emailById then Some(users[emailById[id]]) else None
    }

    /** `cloudinary.uploader.destroy(id)`; `fails` is the call throwing. */
    method Destroy(id: string, fails: bool)
      modifies this`media
      ensures media == if fails then old(media) else old(media) - {id}
    {
      if !fails {
        media := media - {id};
      }
    }

    /**
     * `POST /register`; `freshId` is the `_id` the database gives the new user
     * and `saveFails` is `user.save()` throwing.
     */
    method Register(name: Option<string>, email: string, password: string, phone: Option<string>, freshId: UserId,
                    saveFails: bool)
      returns (resp: Response<string>)
      requires Valid()
      requires freshId !in emailById
      modifies this
      ensures Valid()
      ensures media == old(media)
      ensures email in old(users) ==>
        resp == Failure(400, UserExists) && users == old(users) && emailById == old(emailById)
      ensures email !in old(users) && saveFails ==>
        resp == Failure(500, ServerError) && users == old(users) && emailById == old(emailById)
      ensures email !in old(users) && !saveFails ==>
        && resp == Success(201, sign(freshId))
        && users == old(users)[email := User(freshId, name, email, password, phone, None)]
        && emailById == old(emailById)[freshId := email]
      ensures |users| == |old(users)| + (if resp.Success? then 1 else 0)
    {
      if email in users {
        return Failure(400, UserExists);
      }
      if saveFails {
        return Failure(500, ServerError);
      }
      users := users[email := User(freshId, name, email, password, phone, None)];
      emailById := emailById[freshId := email];
      resp := Success(201, sign(freshId));
    }

    /** `POST /login`: an unknown email and a wrong password get the same answer. */
    method Login(email: string, password: string) returns (resp: Response<string>)
      ensures resp == LoginOutcome(users, passwordMatches, sign, email, password)
    {
      if email !in users {
        return Failure(400, InvalidCredentials);
      }
      var user := users[email];
      if !passwordMatches(password, user.password) {
        return Failure(400, InvalidCredentials);
      }
      resp := Success(200, sign(user.id));
    }

    /**
     * `PUT /profile-photo`. The uploaded file is already in the media store.
     * `destroyFails` is the first media call of the request throwing (the
     * upload's destroy when the user is missing, the old photo's destroy
     * otherwise); `cleanupFails` is the catch block's destroy throwing;
     * `saveFails` is `user.save()` throwing.
     */
    method UploadProfilePhoto(caller: UserId, file: Option<UploadedFile>, destroyFails: bool, cleanupFails: bool,
                              saveFails: bool)
      returns (resp: Response<PhotoReply>)
      requires Valid()
      requires file.Some? && Truthy(file.value.publicId) ==> file.value.publicId.value in media
      modifies this
      ensures Valid()
      ensures emailById == old(emailById)
      ensures file.None? ==> resp == Failure(400, NoPhoto) && users == old(users) && media == old(media)
      ensures file.Some? && caller !in emailById ==>
        && users == old(users)
        && (if !Truthy(file.value.publicId) then resp == Failure(404, UserNotFound) && media == old(media)
            else if !destroyFails then
              resp == Failure(404, UserNotFound) && media == old(media) - {file.value.publicId.value}
            else
              && resp == Failure(500, PhotoUpdateError)
              && media == old(media) - (if cleanupFails then {} else {file.value.publicId.value}))
      ensures file.Some? && caller in emailById ==>
        var u := old(users[emailById[caller]]);
        var kept := old(media) - (if OldPhotoId(u).Some? && !destroyFails then {OldPhotoId(u).value} else {});
        var photo := NewPhoto(file.value);
        if saveFails then
          && users == old(users) && resp == Failure(500, PhotoUpdateError)
          && media == kept - (if Truthy(file.value.publicId) && !cleanupFails then {file.value.publicId.value} else {})
        else
          && users == old(users)[u.email := u.(profilePhoto := Some(photo))]
          && media == kept
          && resp == Success(200, PhotoReply(PhotoUpdated, PublicView(u.(profilePhoto := Some(photo))), photo))
      ensures resp.Success? && Truthy(file.value.publicId)
              && (destroyFails || OldPhotoId(old(users[emailById[caller]])) != file.value.publicId) ==>
        file.value.publicId.value in media
      ensures resp.Success? ==> "password" !in resp.value.user
      ensures file.Some? && caller in old(emailById) && OldPhotoId(old(users[emailById[caller]])).Some?
              && !destroyFails && saveFails ==>
        users == old(users) && OldPhotoId(users[emailById[caller]]).value !in media
    {
      if file.None? {
        return Failure(400, NoPhoto);
      }
      var f := file.value;
      var found := FindById(caller);
      if found.None? {
        if Truthy(f.publicId) {
          Destroy(f.publicId.value, destroyFails);
          if destroyFails {
            // the throw reaches the catch block, which tries the same destroy again
            Destroy(f.publicId.value, cleanupFails);
            return Failure(500, PhotoUpdateError);
          }
        }
        return Failure(404, UserNotFound);
      }
      var user := found.value;
      if OldPhotoId(user).Some? {
        Destroy(OldPhotoId(user).value, destroyFails);
      }
      var photo := NewPhoto(f);
      var updated := user.(profilePhoto := Some(photo));
      if saveFails {
        if Truthy(f.publicId) {
          Destroy(f.publicId.value, cleanupFails);
        }
        return Failure(500, PhotoUpdateError);
      }
      users := users[user.email := updated];
      resp := Success(200, PhotoReply(PhotoUpdated, PublicView(updated), photo));
    }

    /**
     * `PUT /profile-photo` with the old photo destroyed only once the new one is
     * saved, so that a failed save leaves the user with a photo the media store
     * still holds. The flags mean what they mean for `UploadProfilePhoto`.
     */
    method UploadProfilePhotoSavingFirst(caller: UserId, file: Option<UploadedFile>, destroyFails: bool,
                                         cleanupFails: bool, saveFails: bool)
      returns (resp: Response<PhotoReply>)
      requires Valid()
      requires file.Some? && Truthy(file.value.publicId) ==> file.value.publicId.value in media
      modifies this
      ensures Valid()
      ensures emailById == old(emailById)
      ensures file.None? ==> resp == Failure(400, NoPhoto) && users == old(users) && media == old(media)
      ensures file.Some? && caller !in emailById ==>
        && users == old(users)
        && (if !Truthy(file.value.publicId) then resp == Failure(404, UserNotFound) && media == old(media)
            else if !destroyFails then
              resp == Failure(404, UserNotFound) && media == old(media) - {file.value.publicId.value}
            else
              && resp == Failure(500, PhotoUpdateError)
              && media == old(media) - (if cleanupFails then {} else {file.value.publicId.value}))
      ensures file.Some? && caller in emailById ==>
        var u := old(users[emailById[caller]]);
        var photo := NewPhoto(file.value);
        if saveFails then
          && users == old(users) && resp == Failure(500, PhotoUpdateError)
          && media == old(media) - (if Truthy(file.value.publicId) && !cleanupFails then {file.value.publicId.value} else {})
        else
          && users == old(users)[u.email := u.(profilePhoto := Some(photo))]
          && media == old(media) - (if OldPhotoId(u).Some? && !destroyFails then {OldPhotoId(u).value} else {})
          && resp == Success(200, PhotoReply(PhotoUpdated, PublicView(u.(profilePhoto := Some(photo))), photo))
      ensures file.Some? && Truthy(file.value.publicId) && caller in emailById
              && PhotoHeld(old(users[emailById[caller]]), old(media))
              && OldPhotoId(old(users[emailById[caller]])) != file.value.publicId ==>
        PhotoHeld(users[emailById[caller]], media)
    {
      if file.None? {
        return Failure(400, NoPhoto);
      }
      var f := file.value;
      var found := FindById(caller);
      if found.None? {
        if Truthy(f.publicId) {
          Destroy(f.publicId.value, destroyFails);
          if destroyFails {
            Destroy(f.publicId.value, cleanupFails);
            return Failure(500, PhotoUpdateError);
          }
        }
        return Failure(404, UserNotFound);
      }
      var user := found.value;
      var photo := NewPhoto(f);
      var updated := user.(profilePhoto := Some(photo));
      if saveFails {
        if Truthy(f.publicId) {
          Destroy(f.publicId.value, cleanupFails);
        }
        return Failure(500, PhotoUpdateError);
      }
      users := users[user.email := updated];
      if OldPhotoId(user).Some? {
        Destroy(OldPhotoId(user).value, destroyFails);
      }
      resp := Success(200, PhotoReply(PhotoUpdated, PublicView(updated), photo));
    }

    /** `GET /profile`: the caller's user without its password. */
    method Profile(caller: UserId) returns (resp: Response<map<string, Field>>)
      requires Valid()
      ensures caller !in emailById ==> resp == Failure(404, UserNotFound)
      ensures caller in emailById ==> resp == Success(200, PublicView(users[emailById[caller]]))
      ensures resp.Success? ==> "password" !in resp.value && resp.value["_id"] == Str(caller)
    {
      var found := FindById(caller);
      if found.None? {
        return Failure(404, UserNotFound);
      }
      resp := Success(200, PublicView(found.value));
    }
  }

  /**
   * A user whose photo "old" is in the media store uploads "new", and the save
   * fails: the route has already destroyed "old", so the user it keeps names a
   * photo the store no longer holds.
   */
  method DanglingAfterFailedSave() returns (heldBefore: bool, heldAfter: bool)
    ensures heldBefore && !heldAfter
  {
    var store := new UserStore((id: UserId) => "token:" + id, (candidate: string, stored: string) => candidate == stored,
                               {"old", "new"});
    var registered := store.Register(None, "a@example.com", "pw", None, "u1", false);
    var first := UploadedFile(Some("old"), None, Some("https://media/old"), None);
    var set1 := store.UploadProfilePhoto("u1", Some(first), false, false, false);
    heldBefore := PhotoHeld(store.users["a@example.com"], store.media);
    var second := UploadedFile(Some("new"), None, Some("https://media/new"), None);
    var set2 := store.UploadProfilePhoto("u1", Some(second), false, false, true);
    heldAfter := PhotoHeld(store.users["a@example.com"], store.media);
  }
}
