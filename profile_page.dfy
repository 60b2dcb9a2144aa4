/**
 * The profile page's photo handling: the check a picked file goes through
 * before it becomes the selection, and the upload that replaces the shown
 * profile photo with the one the server stored.
 */
module ProfilePage {
  import opened Common
  import AuthRoutes

  const AllowedTypes: seq<string> := ["image/jpeg", "image/png", "image/jpg"]
  /** 5 MB, in bytes. */
  const MaxPhotoBytes: nat := 5 * 1024 * 1024
  const BadTypeError := "Please select a valid image file (JPG, JPEG, or PNG)"
  const TooLargeError := "File size should be less than 5MB"
  const UploadError := "Error uploading photo. Please try again."

  /**
   * The check of `handlePhotoChange`: the error it shows, or `None` when the
   * file is accepted. The type is checked before the size, and a file of
   * exactly 5 MB passes.
   */
  function PhotoError(f: BrowserFile): (r: Option<string>)
    ensures r.None? <==> f.mimeType in AllowedTypes && f.size <= MaxPhotoBytes
    ensures f.mimeType !in AllowedTypes ==> r == Some(BadTypeError)
    ensures f.mimeType in AllowedTypes && f.size > MaxPhotoBytes ==> r == Some(TooLargeError)
  {
    if f.mimeType !in AllowedTypes then Some(BadTypeError)
    else if f.size > MaxPhotoBytes then Some(TooLargeError)
    else None
  }

  /**
   * What `axios.put` gives the page: the response body's `user` being truthy
   * and its `photo`, or a rejection carrying `error.response?.data?.message`.
   */
  datatype UploadReply = Answered(hasUser: bool, photo: Option<MediaRef>) | Rejected(message: Option<string>)

  /**
   * The reply the page sees for each response of `PUT /profile-photo`; axios
   * rejects every non-2xx status. The page's success branch is taken exactly
   * for a successful response, and then with the photo the server stored.
   */
  function ReplyOf(resp: Response<AuthRoutes.PhotoReply>): (r: UploadReply)
    ensures (r.Answered? && r.hasUser && r.photo.Some?) <==> resp.Success?
    ensures resp.Success? ==> r.photo == Some(resp.value.photo)
    ensures resp.Failure? ==> r.Rejected? && Truthy(r.message) == (resp.message != "")
  {
    match resp
    case Success(_, body) => Answered(true, Some(body.photo))
    case Failure(_, message) => Rejected(Some(message))
  }

  /** `prev => ({...prev, profilePhoto: photo})`; spreading `null` gives no fields. */
  function SetProfilePhoto(prev: Option<map<string, Field>>, photo: MediaRef): (r: map<string, Field>)
    ensures "profilePhoto" in r && r["profilePhoto"] == Photo(photo)
    ensures r.Keys == prev.GetOr(map[]).Keys + {"profilePhoto"}
    ensures forall k :: k in prev.GetOr(map[]) && k != "profilePhoto" ==> r[k] == prev.GetOr(map[])[k]
  {
    prev.GetOr(map[])["profilePhoto" := Photo(photo)]
  }

  /**
   * The page's view after an upload agrees with the server: updating the
   * profile the server sent with the reply's photo gives the profile of the
   * user as the server stored it.
   */
  lemma ShownProfileMatchesStoredUser(u: AuthRoutes.User, photo: MediaRef)
    ensures SetProfilePhoto(Some(AuthRoutes.PublicView(u)), photo)
            == AuthRoutes.PublicView(u.(profilePhoto := Some(photo)))
  {
  }

  /**
   * A successful `PUT /profile-photo` takes the page's success branch with the
   * stored photo, and the profile the page then shows is the server's view of
   * the updated user.
   */
  lemma UploadedPhotoIsShown(u: AuthRoutes.User, photo: MediaRef)
    ensures var updated := u.(profilePhoto := Some(photo));
            var reply := ReplyOf(Success(200, AuthRoutes.PhotoReply(AuthRoutes.PhotoUpdated, AuthRoutes.PublicView(updated), photo)));
            && reply.Answered? && reply.hasUser && reply.photo == Some(photo)
            && SetProfilePhoto(Some(AuthRoutes.PublicView(u)), reply.photo.value) == AuthRoutes.PublicView(updated)
  {
    ShownProfileMatchesStoredUser(u, photo);
  }

  /** A failed upload shows the server's message, and the default text only when that message is empty. */
  lemma FailedUploadShowsServerMessage(code: int, message: string)
    ensures var reply := ReplyOf(Failure(code, message));
            && reply.Rejected?
            && (if Truthy(reply.message) then reply.message.value else UploadError)
               == (if message != "" then message else UploadError)
  {
  }

  class ProfilePage {
    /** The profile shown; `None` before `GET /profile` answers. */
    var profile: Option<map<string, Field>>
    var selectedPhoto: Option<BrowserFile>
    var error: string
    var loading: bool

    constructor ()
      ensures profile == None && selectedPhoto == None && error == "" && !loading
    {
      profile := None;
      selectedPhoto := None;
      error := "";
      loading := false;
    }

    /** `handlePhotoChange(e)`, with `file` being `e.target.files[0]`. */
    method HandlePhotoChange(file: Option<BrowserFile>)
      modifies this
      ensures profile == old(profile) && loading == old(loading)
      ensures file.None? ==> selectedPhoto == old(selectedPhoto) && error == old(error)
      ensures file.Some? && PhotoError(file.value).Some? ==>
        selectedPhoto == old(selectedPhoto) && error == PhotoError(file.value).value
      ensures file.Some? && PhotoError(file.value).None? ==> selectedPhoto == file && error == ""
    {
      if file.None? {
        return;
      }
      var f := file.value;
      if f.mimeType !in AllowedTypes {
        error := BadTypeError;
        return;
      }
      if f.size > MaxPhotoBytes {
        error := TooLargeError;
        return;
      }
      selectedPhoto := file;
      error := "";
    }

    /** `handlePhotoUpload()`; `reply` is what the request for the selected photo brings back. */
    method HandlePhotoUpload(reply: UploadReply)
      modifies this
      ensures old(selectedPhoto).None? ==>
        profile == old(profile) && selectedPhoto == old(selectedPhoto) && error == old(error) && loading == old(loading)
      ensures old(selectedPhoto).Some? ==> !loading
      ensures old(selectedPhoto).Some? && reply.Answered? && reply.hasUser && reply.photo.Some? ==>
        profile == Some(SetProfilePhoto(old(profile), reply.photo.value)) && selectedPhoto == None && error == ""
      ensures old(selectedPhoto).Some? && reply.Answered? && !(reply.hasUser && reply.photo.Some?) ==>
        profile == old(profile) && selectedPhoto == old(selectedPhoto) && error == old(error)
      ensures old(selectedPhoto).Some? && reply.Rejected? ==>
        && profile == old(profile) && selectedPhoto == old(selectedPhoto)
        && error == (if Truthy(reply.message) then reply.message.value else UploadError)
    {
      if selectedPhoto.None? {
        return;
      }
      loading := true;
      match reply {
        case Answered(hasUser, photo) =>
          if hasUser && photo.Some? {
            profile := Some(SetProfilePhoto(profile, photo.value));
            selectedPhoto := None;
            error := "";
          }
        case Rejected(message) =>
          error := if Truthy(message) then message.value else UploadError;
      }
      loading := false;
    }
  }
}
