/** The edit-profile dialog of the user's own profile page: the edit form,
    the chosen image file and the preview, where an uploaded file and a typed
    image URL each clear the other, and saving with the uploaded file's URL.
    The file picker, the upload and the save request are parameters. */
module MyProfile {
  import opened Options
  import opened JsText

  /** `editFormData`. */
  datatype ProfileForm = ProfileForm(name: string, username: string, bio: string, location: string,
                                     profileImage: string)

  /** The keys `handleEditInputChange` is called with. */
  datatype ProfileField = Name | Username | Bio | Location | ProfileImage

  function Get(form: ProfileForm, field: ProfileField): string {
    match field
    case Name => form.name
    case Username => form.username
    case Bio => form.bio
    case Location => form.location
    case ProfileImage => form.profileImage
  }

  /** `{ ...prev, [field]: value }`. */
  function Set(form: ProfileForm, field: ProfileField, value: string): (r: ProfileForm)
    ensures Get(r, field) == value
    ensures forall other :: other != field ==> Get(r, other) == Get(form, other)
  {
    match field
    case Name => form.(name := value)
    case Username => form.(username := value)
    case Bio => form.(bio := value)
    case Location => form.(location := value)
    case ProfileImage => form.(profileImage := value)
  }

  /** Setting a field to the value it has changes nothing, and setting it
      twice keeps the second value. */
  lemma SetIdentities(form: ProfileForm, field: ProfileField, a: string, b: string)
    ensures Set(form, field, Get(form, field)) == form
    ensures Set(Set(form, field, a), field, b) == Set(form, field, b)
  {
  }

  /** The profile as the server returns it; every field may be missing. */
  datatype UserData = UserData(name: Option<string>, username: Option<string>, bio: Option<string>,
                               location: Option<string>, profileImage: Option<string>)

  /** `x || ''`. */
  function OrEmpty(field: Option<string>): string {
    field.GetOr([])
  }

  /** The form `handleEditOpen` resets to: every field of the profile, '' for
      the missing ones. */
  function FormFrom(data: UserData): (form: ProfileForm)
    ensures Get(form, Name) == OrEmpty(data.name) && Get(form, Username) == OrEmpty(data.username)
    ensures Get(form, Bio) == OrEmpty(data.bio) && Get(form, Location) == OrEmpty(data.location)
    ensures Get(form, ProfileImage) == OrEmpty(data.profileImage)
  {
    ProfileForm(OrEmpty(data.name), OrEmpty(data.username), OrEmpty(data.bio), OrEmpty(data.location),
                OrEmpty(data.profileImage))
  }

  /** A file chosen in the photo input. */
  datatype FileRef = FileRef(fileName: string)

  /** What the preview shows: an object URL for a chosen file, or a typed or
      stored URL. */
  datatype Preview = FilePreview(file: FileRef) | UrlPreview(url: string)

  /** The preview `handleEditOpen` starts from: `profileImage || null`. */
  function PreviewFrom(data: UserData): (p: Option<Preview>)
    ensures p.Some? <==> data.profileImage.Some? && data.profileImage.value != []
    ensures p.Some? ==> p.value == UrlPreview(data.profileImage.value)
  {
    if data.profileImage.Some? && data.profileImage.value != [] then Some(UrlPreview(data.profileImage.value))
    else None
  }

  /** The data `handleSaveProfile` puts: the form, with the uploaded file's URL
      as `profileImage` when a file was chosen. */
  function Submitted(form: ProfileForm, file: Option<FileRef>, uploadedUrl: string): (r: ProfileForm)
    ensures file.Some? ==> Get(r, ProfileImage) == uploadedUrl
    ensures file.None? ==> r == form
    ensures forall f :: f != ProfileImage ==> Get(r, f) == Get(form, f)
  {
    if file.Some? then Set(form, ProfileImage, uploadedUrl) else form
  }

  /** The reply to the upload: the stored image's URL, or a failure with the
      server's `message` if it gave one. */
  datatype UploadReply = Uploaded(imageUrl: string) | UploadFailed(serverMessage: Option<string>)

  /** The reply to the save: the updated profile, or a failure with the
      server's `message` if it gave one. */
  datatype SaveReply = Saved(data: UserData) | SaveFailed(serverMessage: Option<string>)

  datatype Toast = Toast(title: string, description: string, status: string)

  const SavedToast: Toast := Toast("Success!", "Your profile has been updated successfully", "success")

  /** The toast of a failed save or upload. */
  function SaveFailedToast(serverMessage: Option<string>): (t: Toast)
    ensures t.title == "Error" && t.status == "error"
    ensures serverMessage.Some? && serverMessage.value != [] ==> t.description == serverMessage.value
    ensures serverMessage.None? || serverMessage.value == [] ==> t.description == "Failed to update profile"
  {
    Toast("Error", OrElse(serverMessage, "Failed to update profile"), "error")
  }

  class ProfileEditor {
    var userData: Option<UserData>
    var editForm: ProfileForm
    var imageFile: Option<FileRef>
    var previewImage: Option<Preview>
    var isEditOpen: bool
    var isUpdating: bool

    /** A chosen file and a non-blank URL never stand together, and a chosen
        file is what the preview shows. */
    predicate Valid()
      reads this
    {
      imageFile.Some? ==> IsBlank(editForm.profileImage) && previewImage == Some(FilePreview(imageFile.value))
    }

    constructor ()
      ensures Valid()
      ensures userData == None && editForm == ProfileForm([], [], [], [], [])
      ensures imageFile == None && previewImage == None && !isEditOpen && !isUpdating
    {
      userData := None;
      editForm := ProfileForm([], [], [], [], []);
      imageFile := None;
      previewImage := None;
      isEditOpen := false;
      isUpdating := false;
    }

    /** `handleImageChange`: a chosen file becomes the preview and the file,
        and clears the URL field; no file changes nothing. */
    method HandleImageChange(file: Option<FileRef>)
      requires Valid()
      modifies this
      ensures Valid()
      ensures file.Some? ==>
                imageFile == file && previewImage == Some(FilePreview(file.value))
                && editForm == Set(old(editForm), ProfileImage, [])
      ensures file.None? ==>
                imageFile == old(imageFile) && previewImage == old(previewImage) && editForm == old(editForm)
      ensures userData == old(userData) && isEditOpen == old(isEditOpen) && isUpdating == old(isUpdating)
    {
      if file.Some? {
        previewImage := Some(FilePreview(file.value));
        imageFile := file;
        editForm := editForm.(profileImage := []);
      }
    }

    /** `handleRemoveImage`: no preview, no file, no URL. */
    method HandleRemoveImage()
      modifies this
      ensures Valid()
      ensures previewImage == None && imageFile == None && editForm == Set(old(editForm), ProfileImage, [])
      ensures userData == old(userData) && isEditOpen == old(isEditOpen) && isUpdating == old(isUpdating)
    {
      previewImage := None;
      imageFile := None;
      editForm := editForm.(profileImage := []);
    }

    /** `handleEditInputChange`: the one field changes; a non-blank image URL
        also becomes the preview and drops the chosen file. */
    method HandleEditInputChange(field: ProfileField, value: string)
      requires Valid()
      modifies this
      ensures Valid()
      ensures editForm == Set(old(editForm), field, value)
      ensures field == ProfileImage && !IsBlank(value) ==> previewImage == Some(UrlPreview(value)) && imageFile == None
      ensures !(field == ProfileImage && !IsBlank(value)) ==>
                previewImage == old(previewImage) && imageFile == old(imageFile)
      ensures userData == old(userData) && isEditOpen == old(isEditOpen) && isUpdating == old(isUpdating)
    {
      editForm := Set(editForm, field, value);
      if field == ProfileImage && Trim(value) != [] {
        previewImage := Some(UrlPreview(value));
        imageFile := None;
      }
    }

    /** `handleEditOpen`, reachable only once the profile has loaded: the form
        and the preview are reset from the profile and the file is dropped. */
    method HandleEditOpen()
      requires userData.Some?
      modifies this
      ensures userData == old(userData) && isUpdating == old(isUpdating)
      ensures Valid()
      ensures editForm == FormFrom(userData.value) && previewImage == PreviewFrom(userData.value)
      ensures imageFile == None && isEditOpen
    {
      editForm := FormFrom(userData.value);
      previewImage := PreviewFrom(userData.value);
      imageFile := None;
      isEditOpen := true;
    }

    /** `handleSaveProfile`: a chosen file is uploaded first and its URL is
        submitted in place of the form's; a failed upload submits nothing. A
        successful save replaces the profile and closes the dialog. Updating
        ends false on every path. Returns the data submitted, if any. */
    method HandleSaveProfile(upload: UploadReply, save: SaveReply) returns (submitted: Option<ProfileForm>, toast: Toast)
      modifies this
      ensures imageFile.Some? && upload.UploadFailed? ==>
                submitted == None && toast == SaveFailedToast(upload.serverMessage)
      ensures imageFile.Some? && upload.Uploaded? ==> submitted == Some(Submitted(editForm, imageFile, upload.imageUrl))
      ensures imageFile.None? ==> submitted == Some(editForm)
      ensures submitted.Some? && save.Saved? ==> userData == Some(save.data) && !isEditOpen && toast == SavedToast
      ensures submitted.Some? && save.SaveFailed? ==>
                userData == old(userData) && isEditOpen == old(isEditOpen) && toast == SaveFailedToast(save.serverMessage)
      ensures submitted.None? ==> userData == old(userData) && isEditOpen == old(isEditOpen)
      ensures !isUpdating
      ensures editForm == old(editForm) && imageFile == old(imageFile) && previewImage == old(previewImage)
    {
      isUpdating := true;
      var updatedData := editForm;
      if imageFile.Some? {
        match upload {
        case UploadFailed(message) =>
          isUpdating := false;
          return None, SaveFailedToast(message);
        case Uploaded(url) =>
          updatedData := updatedData.(profileImage := url);
        }
      }
      submitted := Some(updatedData);
      match save {
      case Saved(data) =>
        userData := Some(data);
        toast := SavedToast;
        isEditOpen := false;
      case SaveFailed(message) =>
        toast := SaveFailedToast(message);
      }
      isUpdating := false;
    }
  }

  /** Whenever a file was chosen, the URL field the upload replaces was blank,
      so a save never discards a typed URL. */
  lemma UploadReplacesOnlyBlankUrl(form: ProfileForm, file: Option<FileRef>, uploadedUrl: string)
    requires file.Some? ==> IsBlank(form.profileImage)
    ensures !IsBlank(form.profileImage) ==> Submitted(form, file, uploadedUrl) == form
  {
  }
}
