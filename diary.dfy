/** The diary page: the entry form's state, the journal shown for the
    selected day, and the requests that create or update an entry. Server
    replies, the presence of a login token and the object URL of a chosen file
    are parameters. */
module Diary {
  import opened Options
  import opened JsText
  import opened Calendar

  /** A journal as the server returns it; a missing `images` list is empty. */
  datatype Journal = Journal(id: string, title: string, content: string, visibility: string,
                             isAnonymous: bool, images: seq<string>)

  /** A file chosen in the photo input. */
  datatype FileRef = FileRef(name: string)

  /** A value appended to a FormData: text (booleans are written as text) or a file. */
  datatype FormValue = Text(text: string) | FileValue(file: FileRef)

  /** The names the page appends to its FormData. */
  datatype Field = Title | Content | Visibility | IsAnonymous | RemoveImage | Image | JournalDate

  function FieldName(f: Field): string {
    match f
    case Title => "title"
    case Content => "content"
    case Visibility => "visibility"
    case IsAnonymous => "isAnonymous"
    case RemoveImage => "removeImage"
    case Image => "image"
    case JournalDate => "journaldate"
  }

  type Form = seq<(Field, FormValue)>

  /** `formData.get(name)`: the first value appended under the field's name. */
  function Lookup(form: Form, f: Field): Option<FormValue> {
    if form == [] then None
    else if form[0].0 == f then Some(form[0].1)
    else Lookup(form[1..], f)
  }

  predicate Has(form: Form, f: Field) {
    Lookup(form, f).Some?
  }

  lemma {:induction false} LookupAppend(form: Form, f: Field, v: FormValue, g: Field)
    ensures Lookup(form + [(f, v)], g)
            == if Has(form, g) then Lookup(form, g) else if g == f then Some(v) else None
  {
    if form != [] {
      assert (form + [(f, v)])[1..] == form[1..] + [(f, v)];
      LookupAppend(form[1..], f, v, g);
    } else {
      assert [(f, v)][1..] == [];
    }
  }

  /** A lookup in a form that starts with `x`. */
  lemma LookupCons(x: (Field, FormValue), rest: Form)
    ensures forall g :: Lookup([x] + rest, g) == if x.0 == g then Some(x.1) else Lookup(rest, g)
  {
    assert ([x] + rest)[1..] == rest;
  }

  /** Appending a field keeps every earlier lookup and adds the new one. */
  lemma LookupAppendAll(form: Form, f: Field, v: FormValue)
    ensures forall g :: Lookup(form + [(f, v)], g)
                        == if Has(form, g) then Lookup(form, g) else if g == f then Some(v) else None
  {
    forall g {
      LookupAppend(form, f, v, g);
    }
  }

  /** A request the page sends: `PUT /api/journals/{id}` or `POST /api/journals`. */
  datatype Request = Put(path: string, form: Form) | Post(path: string, form: Form)

  /** The reply to a save or update: an HTTP status the client library resolved
      with, or a rejection carrying the server's `message` and the error's own
      `message` (each empty when absent). */
  datatype SaveReply = Status(code: int) | Rejected(serverMessage: string, errorMessage: string)

  /** The reply to `GET /api/journals/date/{key}`: a journal, an empty body, a 404
      or any other failure. */
  datatype DateReply = Found(journal: Journal) | EmptyBody | NotFound | OtherError

  const RequiredMessage: string := "Both title and content are required."
  const NoJournalMessage: string := "No journal selected for update."
  const NotAuthenticatedMessage: string := "User is not authenticated."
  const UpdateFailedMessage: string := "Update failed. Try again."
  const SaveFailedMessage: string := "Save failed. Try again."
  const UpdateFallbackMessage: string := "Failed to update journal."
  const CreateFallbackMessage: string := "Something went wrong."
  const FetchFailedMessage: string := "Failed to fetch journal for this date"

  /** The page's two visibility choices. */
  const VisibilityValues: seq<string> := ["private", "close-circle"]

  /** `!title.trim() || !content.trim()`: the first check of both save paths. */
  function Validate(title: string, content: string): (error: Option<string>)
    ensures error.None? <==> !IsBlank(title) && !IsBlank(content)
    ensures error.Some? ==> error.value == RequiredMessage
  {
    if IsBlank(title) || IsBlank(content) then Some(RequiredMessage) else None
  }

  /** The message the catch blocks show:
      `error?.response?.data?.message || error.message || fallback`. */
  function CaughtMessage(serverMessage: string, errorMessage: string, fallback: string): (m: string)
    requires fallback != []
    ensures m != []
    ensures m == serverMessage || m == errorMessage || m == fallback
    ensures serverMessage != [] ==> m == serverMessage
  {
    if serverMessage != [] then serverMessage
    else if errorMessage != [] then errorMessage
    else fallback
  }

  /** The six state hooks of the entry form, kept as one record. */
  datatype EntryForm = EntryForm(title: string, content: string, image: Option<string>,
                                 imageFile: Option<FileRef>, visibility: string, isAnonymous: bool)

  /** The form as `clearForm` leaves it. */
  const EmptyForm: EntryForm := EntryForm([], [], None, None, "private", false)

  /** The four text fields in the order both save paths append them. */
  function TextFields(title: string, content: string, visibility: string, isAnonymous: string): (form: Form)
    ensures Lookup(form, Title) == Some(Text(title))
    ensures Lookup(form, Content) == Some(Text(content))
    ensures Lookup(form, Visibility) == Some(Text(visibility))
    ensures Lookup(form, IsAnonymous) == Some(Text(isAnonymous))
    ensures !Has(form, Image) && !Has(form, RemoveImage) && !Has(form, JournalDate)
  {
    var last := [(IsAnonymous, Text(isAnonymous))];
    var tail := [(Visibility, Text(visibility))] + last;
    var rest := [(Content, Text(content))] + tail;
    LookupCons((IsAnonymous, Text(isAnonymous)), []);
    assert last == [(IsAnonymous, Text(isAnonymous))] + [];
    LookupCons((Visibility, Text(visibility)), last);
    LookupCons((Content, Text(content)), tail);
    LookupCons((Title, Text(title)), rest);
    [(Title, Text(title))] + rest
  }

  /** The fields both save paths start with. */
  function CommonFields(title: string, content: string, visibility: string, isAnonymous: bool): Form {
    TextFields(Trim(title), Trim(content), visibility, BoolToString(isAnonymous))
  }

  /** Both save paths send the trimmed title and content, the visibility and
      the anonymity flag. */
  lemma CommonFieldsLookup(title: string, content: string, visibility: string, isAnonymous: bool)
    ensures var form := CommonFields(title, content, visibility, isAnonymous);
            && Lookup(form, Title) == Some(Text(Trim(title)))
            && Lookup(form, Content) == Some(Text(Trim(content)))
            && Lookup(form, Visibility) == Some(Text(visibility))
            && Lookup(form, IsAnonymous) == Some(Text(BoolToString(isAnonymous)))
            && !Has(form, Image) && !Has(form, RemoveImage) && !Has(form, JournalDate)
  {
  }

  /** The update form: the common fields, then `removeImage` when the user
      removed the image of a journal that had images, and otherwise a newly
      chosen file. */
  function UpdateForm(f: EntryForm, journal: Journal): Form {
    var base := CommonFields(f.title, f.content, f.visibility, f.isAnonymous);
    if f.image.None? && |journal.images| > 0 then base + [(RemoveImage, Text("true"))]
    else if f.imageFile.Some? then base + [(Image, FileValue(f.imageFile.value))]
    else base
  }

  /** What an update sends: `removeImage` exactly when the image was removed
      from a journal that had images, the chosen file exactly when that is not
      the case and there is one, never both, and no date. */
  lemma UpdateFormFields(f: EntryForm, journal: Journal)
    ensures var form := UpdateForm(f, journal);
            && Lookup(form, Title) == Some(Text(Trim(f.title)))
            && Lookup(form, Content) == Some(Text(Trim(f.content)))
            && Lookup(form, Visibility) == Some(Text(f.visibility))
            && Lookup(form, IsAnonymous) == Some(Text(BoolToString(f.isAnonymous)))
            && (Has(form, RemoveImage) <==> f.image.None? && |journal.images| > 0)
            && (Has(form, RemoveImage) ==> Lookup(form, RemoveImage) == Some(Text("true")))
            && (Has(form, Image) <==> !(f.image.None? && |journal.images| > 0) && f.imageFile.Some?)
            && (Has(form, Image) ==> Lookup(form, Image) == Some(FileValue(f.imageFile.value)))
            && !(Has(form, RemoveImage) && Has(form, Image))
            && !Has(form, JournalDate)
  {
    var base := CommonFields(f.title, f.content, f.visibility, f.isAnonymous);
    CommonFieldsLookup(f.title, f.content, f.visibility, f.isAnonymous);
    if f.image.None? && |journal.images| > 0 {
      LookupAppendAll(base, RemoveImage, Text("true"));
    } else if f.imageFile.Some? {
      LookupAppendAll(base, Image, FileValue(f.imageFile.value));
    }
  }

  /** The create form: the common fields, the selected day's key as
      `journaldate`, and the chosen file if there is one. */
  function CreateForm(f: EntryForm, selectedDate: Date): Form
    requires ValidDate(selectedDate)
  {
    var dated := CommonFields(f.title, f.content, f.visibility, f.isAnonymous)
                 + [(JournalDate, Text(DateKey(selectedDate)))];
    if f.imageFile.Some? then dated + [(Image, FileValue(f.imageFile.value))] else dated
  }

  /** What a create sends: the common fields, the zero-padded key of the
      selected day, the chosen file exactly when there is one, and never
      `removeImage`. */
  lemma CreateFormFields(f: EntryForm, selectedDate: Date)
    requires ValidDate(selectedDate)
    ensures var form := CreateForm(f, selectedDate);
            && Lookup(form, Title) == Some(Text(Trim(f.title)))
            && Lookup(form, Content) == Some(Text(Trim(f.content)))
            && Lookup(form, Visibility) == Some(Text(f.visibility))
            && Lookup(form, IsAnonymous) == Some(Text(BoolToString(f.isAnonymous)))
            && Lookup(form, JournalDate) == Some(Text(DateKey(selectedDate)))
            && (Has(form, Image) <==> f.imageFile.Some?)
            && (f.imageFile.Some? ==> Lookup(form, Image) == Some(FileValue(f.imageFile.value)))
            && !Has(form, RemoveImage)
  {
    var base := CommonFields(f.title, f.content, f.visibility, f.isAnonymous);
    var dated := base + [(JournalDate, Text(DateKey(selectedDate)))];
    CommonFieldsLookup(f.title, f.content, f.visibility, f.isAnonymous);
    LookupAppendAll(base, JournalDate, Text(DateKey(selectedDate)));
    if f.imageFile.Some? {
      LookupAppendAll(dated, Image, FileValue(f.imageFile.value));
    }
  }

  /** What a save handler does before any reply: refuse with a message, or send. */
  datatype Outcome = Refused(message: string) | Send(request: Request)

  /** The checks of `handleUpdateJournal`, in order: non-blank title and
      content, a journal to update, a token; then the PUT of the update form. */
  function UpdateOutcome(f: EntryForm, currentJournal: Option<Journal>, hasToken: bool): (o: Outcome)
    ensures o.Send? <==> Validate(f.title, f.content).None? && currentJournal.Some? && hasToken
    ensures Validate(f.title, f.content).Some? ==> o == Refused(RequiredMessage)
    ensures Validate(f.title, f.content).None? && currentJournal.None? ==> o == Refused(NoJournalMessage)
    ensures Validate(f.title, f.content).None? && currentJournal.Some? && !hasToken ==> o == Refused(NotAuthenticatedMessage)
    ensures o.Send? ==> o.request.Put? && o.request.path == "/api/journals/" + currentJournal.value.id
    ensures o.Send? ==> o.request.form == UpdateForm(f, currentJournal.value)
  {
    if Validate(f.title, f.content).Some? then Refused(RequiredMessage)
    else if currentJournal.None? then Refused(NoJournalMessage)
    else if !hasToken then Refused(NotAuthenticatedMessage)
    else
      var j := currentJournal.value;
      Send(Put("/api/journals/" + j.id, UpdateForm(f, j)))
  }

  /** The checks of `handleCreateJournal`, in order: non-blank title and
      content, a token; then the POST of the create form. */
  function CreateOutcome(f: EntryForm, selectedDate: Date, hasToken: bool): (o: Outcome)
    requires ValidDate(selectedDate)
    ensures o.Send? <==> Validate(f.title, f.content).None? && hasToken
    ensures Validate(f.title, f.content).Some? ==> o == Refused(RequiredMessage)
    ensures Validate(f.title, f.content).None? && !hasToken ==> o == Refused(NotAuthenticatedMessage)
    ensures o.Send? ==> o.request == Post("/api/journals", CreateForm(f, selectedDate))
  {
    if Validate(f.title, f.content).Some? then Refused(RequiredMessage)
    else if !hasToken then Refused(NotAuthenticatedMessage)
    else Send(Post("/api/journals", CreateForm(f, selectedDate)))
  }

  /** Which handler `handleSave` runs. */
  datatype SaveKind = Update | Create

  /** `handleSave`: update exactly when editing an existing journal. */
  function SaveDispatch(isEditing: bool, currentJournal: Option<Journal>): (k: SaveKind)
    ensures k == Update <==> isEditing && currentJournal.Some?
  {
    if isEditing && currentJournal.Some? then Update else Create
  }

  /** Every state hook of the page, as one value. */
  datatype PageState = PageState(selectedDate: Date, calendarViewDate: Date, form: EntryForm,
                                 isSaved: bool, isLoading: bool, error: string,
                                 currentJournal: Option<Journal>, isEditing: bool,
                                 isLoadingJournal: bool)

  /** The journal shown after `fetchJournalForDate`: nothing is requested
      without a token; a found journal replaces it, an empty body or a 404
      removes it, and any other failure keeps it. */
  function ReloadedJournal(before: Option<Journal>, hasToken: bool, reply: DateReply): Option<Journal> {
    if !hasToken then before
    else match reply
      case Found(j) => Some(j)
      case EmptyBody => None
      case NotFound => None
      case OtherError => before
  }

  /** The error left by `fetchJournalForDate`: it is cleared first, and set
      only when a request was made and failed with anything but a 404. */
  function ReloadError(hasToken: bool, reply: DateReply): string {
    if hasToken && reply.OtherError? then FetchFailedMessage else []
  }

  /** The page after a successful save or update: saved, the day reloaded,
      the form cleared, the journal loader idle. */
  function SavedState(s: PageState, hasToken: bool, refetch: DateReply): PageState {
    s.(isSaved := true, form := EmptyForm,
       currentJournal := ReloadedJournal(s.currentJournal, hasToken, refetch),
       error := ReloadError(hasToken, refetch), isLoadingJournal := false)
  }

  /** The whole effect of `handleUpdateJournal`, from state `s` to state `t`,
      with the request it sent: a refusal only records its message; a 200
      saves, stops editing and reloads; any other status or a rejection
      records the error. The loading flag ends false on every path. */
  predicate UpdateDone(s: PageState, t: PageState, hasToken: bool, reply: SaveReply, refetch: DateReply,
                       request: Option<Request>)
  {
    var o := UpdateOutcome(s.form, s.currentJournal, hasToken);
    && (o.Refused? ==> request == None && t == s.(error := o.message, isLoading := false))
    && (o.Send? ==> request == Some(o.request))
    && (o.Send? && reply == Status(200) ==>
          t == SavedState(s, hasToken, refetch).(isEditing := false, isLoading := false))
    && (o.Send? && reply.Status? && reply.code != 200 ==>
          t == s.(error := UpdateFailedMessage, isLoading := false))
    && (o.Send? && reply.Rejected? ==>
          t == s.(error := CaughtMessage(reply.serverMessage, reply.errorMessage, UpdateFallbackMessage),
                  isLoading := false))
  }

  /** The whole effect of `handleCreateJournal`: as for an update, with 201 as
      the success status and editing left as it was. */
  predicate CreateDone(s: PageState, t: PageState, hasToken: bool, reply: SaveReply, refetch: DateReply,
                       request: Option<Request>)
    requires ValidDate(s.selectedDate)
  {
    var o := CreateOutcome(s.form, s.selectedDate, hasToken);
    && (o.Refused? ==> request == None && t == s.(error := o.message, isLoading := false))
    && (o.Send? ==> request == Some(o.request))
    && (o.Send? && reply == Status(201) ==>
          t == SavedState(s, hasToken, refetch).(isLoading := false))
    && (o.Send? && reply.Status? && reply.code != 201 ==>
          t == s.(error := SaveFailedMessage, isLoading := false))
    && (o.Send? && reply.Rejected? ==>
          t == s.(error := CaughtMessage(reply.serverMessage, reply.errorMessage, CreateFallbackMessage),
                  isLoading := false))
  }

  /** The entry form and everything else the page keeps in state. */
  class DiaryPage {
    var selectedDate: Date
    var calendarViewDate: Date
    var form: EntryForm
    var isSaved: bool
    var isLoading: bool
    var error: string
    var currentJournal: Option<Journal>
    var isEditing: bool
    var isLoadingJournal: bool

    function State(): PageState
      reads this
    {
      PageState(selectedDate, calendarViewDate, form, isSaved, isLoading, error,
                currentJournal, isEditing, isLoadingJournal)
    }

    /** The page as it first renders, with `today` selected and shown. */
    constructor (today: Date)
      ensures selectedDate == today && calendarViewDate == today && form == EmptyForm
      ensures !isSaved && !isLoading && error == [] && currentJournal == None
      ensures !isEditing && !isLoadingJournal
    {
      selectedDate := today;
      calendarViewDate := today;
      form := EmptyForm;
      isSaved := false;
      isLoading := false;
      error := [];
      currentJournal := None;
      isEditing := false;
      isLoadingJournal := false;
    }

    /** `handleImageChange`: a chosen file becomes the image, shown through
        `objectUrl`; no file changes nothing. */
    method HandleImageChange(file: Option<FileRef>, objectUrl: string)
      modifies this
      ensures file.Some? ==> form == old(form).(image := Some(objectUrl), imageFile := file)
      ensures file.None? ==> form == old(form)
      ensures State() == old(State()).(form := form)
    {
      if file.Some? {
        form := form.(image := Some(objectUrl), imageFile := file);
      }
    }

    /** `handleRemoveImage`: the image and the chosen file are both dropped. */
    method HandleRemoveImage()
      modifies this
      ensures State() == old(State()).(form := old(form).(image := None, imageFile := None))
    {
      form := form.(image := None, imageFile := None);
    }

    /** `handleVisibilityChange`: choosing 'private' also turns anonymity off;
        any other choice leaves it as it was. */
    method HandleVisibilityChange(newVisibility: string)
      modifies this
      ensures form.visibility == newVisibility
      ensures form.isAnonymous == (old(form.isAnonymous) && newVisibility != "private")
      ensures form.title == old(form.title) && form.content == old(form.content)
      ensures form.image == old(form.image) && form.imageFile == old(form.imageFile)
      ensures State() == old(State()).(form := form)
    {
      form := form.(visibility := newVisibility);
      if newVisibility == "private" {
        form := form.(isAnonymous := false);
      }
    }

    /** `clearForm`: only the form changes. */
    method ClearForm()
      modifies this
      ensures State() == old(State()).(form := EmptyForm)
    {
      form := EmptyForm;
    }

    /** `fetchJournalForDate(date)`; `editingSeen` is the value of `isEditing`
        the handler's closure captured. A found journal is shown and clears the
        form unless editing; an empty body or a 404 shows none and clears the
        form; any other failure keeps the journal and the form and sets the
        error. Without a token nothing is requested. */
    method FetchJournalForDate(date: Date, hasToken: bool, reply: DateReply, editingSeen: bool)
      returns (requested: Option<string>)
      requires ValidDate(date)
      modifies this
      ensures !hasToken ==> requested == None && form == old(form)
      ensures hasToken ==> requested == Some("/api/journals/date/" + DateKey(date))
      ensures currentJournal == ReloadedJournal(old(currentJournal), hasToken, reply)
      ensures error == ReloadError(hasToken, reply)
      ensures hasToken && reply.Found? ==> form == if editingSeen then old(form) else EmptyForm
      ensures hasToken && (reply.EmptyBody? || reply.NotFound?) ==> form == EmptyForm
      ensures hasToken && reply.OtherError? ==> form == old(form)
      ensures State() == old(State()).(currentJournal := currentJournal, error := error, form := form,
                                       isLoadingJournal := false)
    {
      isLoadingJournal := true;
      error := [];
      if !hasToken {
        isLoadingJournal := false;
        return None;
      }
      requested := Some("/api/journals/date/" + DateKey(date));
      match reply {
      case Found(j) =>
        currentJournal := Some(j);
        if !editingSeen {
          ClearForm();
        }
      case EmptyBody =>
        currentJournal := None;
        ClearForm();
      case NotFound =>
        currentJournal := None;
        ClearForm();
      case OtherError =>
        error := FetchFailedMessage;
      }
      isLoadingJournal := false;
    }

    /** `handleEdit`: copies the journal into the form (its first image only
        when it has images) and starts editing; without a journal nothing
        changes. */
    method HandleEdit()
      modifies this
      ensures old(currentJournal).None? ==> State() == old(State())
      ensures old(currentJournal).Some? ==>
                var j := old(currentJournal).value;
                State() == old(State()).(
                  form := old(form).(title := j.title, content := j.content, visibility := j.visibility,
                                     isAnonymous := j.isAnonymous,
                                     image := if |j.images| > 0 then Some(j.images[0]) else old(form.image)),
                  isEditing := true)
    {
      if currentJournal.Some? {
        var j := currentJournal.value;
        form := form.(title := j.title, content := j.content, visibility := j.visibility, isAnonymous := j.isAnonymous);
        if |j.images| > 0 {
          form := form.(image := Some(j.images[0]));
        }
        isEditing := true;
      }
    }

    /** `handleCancelEdit`. */
    method HandleCancelEdit()
      modifies this
      ensures State() == old(State()).(isEditing := false, form := EmptyForm)
    {
      isEditing := false;
      ClearForm();
    }

    /** What `handleUpdateJournal` does with the reply once the PUT is sent:
        a 200 marks the entry saved, stops editing, reloads the day (the reload
        sees the `isEditing` captured before the call) and clears the form; any
        other status or a rejection sets the error and keeps the form. */
    method ApplyUpdateReply(hasToken: bool, reply: SaveReply, refetch: DateReply)
      requires ValidDate(selectedDate)
      modifies this
      ensures reply == Status(200) ==> State() == SavedState(old(State()), hasToken, refetch).(isEditing := false)
      ensures reply.Status? && reply.code != 200 ==> State() == old(State()).(error := UpdateFailedMessage)
      ensures reply.Rejected? ==>
                State() == old(State()).(error := CaughtMessage(reply.serverMessage, reply.errorMessage,
                                                                UpdateFallbackMessage))
    {
      match reply {
      case Status(code) =>
        if code == 200 {
          isSaved := true;
          var seen := isEditing;
          isEditing := false;
          var _ := FetchJournalForDate(selectedDate, hasToken, refetch, seen);
          ClearForm();
        } else {
          error := UpdateFailedMessage;
        }
      case Rejected(serverMessage, errorMessage) =>
        error := CaughtMessage(serverMessage, errorMessage, UpdateFallbackMessage);
      }
    }

    /** `handleUpdateJournal`; `refetch` is the reply to the reload that follows
        a successful update. Returns the request sent, if any. */
    method HandleUpdateJournal(hasToken: bool, reply: SaveReply, refetch: DateReply)
      returns (request: Option<Request>)
      requires ValidDate(selectedDate)
      modifies this
      ensures UpdateDone(old(State()), State(), hasToken, reply, refetch, request)
      ensures selectedDate == old(selectedDate) && !isLoading
    {
      var outcome := UpdateOutcome(form, currentJournal, hasToken);
      isLoading := true;
      if outcome.Refused? {
        error := outcome.message;
        isLoading := false;
        return None;
      }
      error := [];
      request := Some(outcome.request);
      ApplyUpdateReply(hasToken, reply, refetch);
      isLoading := false;
    }

    /** What `handleCreateJournal` does with the reply once the POST is sent:
        a 201 marks the entry saved, reloads the day and clears the form; any
        other status or a rejection sets the error and keeps the form. */
    method ApplyCreateReply(hasToken: bool, reply: SaveReply, refetch: DateReply)
      requires ValidDate(selectedDate)
      modifies this
      ensures reply == Status(201) ==> State() == SavedState(old(State()), hasToken, refetch)
      ensures reply.Status? && reply.code != 201 ==> State() == old(State()).(error := SaveFailedMessage)
      ensures reply.Rejected? ==>
                State() == old(State()).(error := CaughtMessage(reply.serverMessage, reply.errorMessage,
                                                                CreateFallbackMessage))
    {
      match reply {
      case Status(code) =>
        if code == 201 {
          isSaved := true;
          var _ := FetchJournalForDate(selectedDate, hasToken, refetch, isEditing);
          ClearForm();
        } else {
          error := SaveFailedMessage;
        }
      case Rejected(serverMessage, errorMessage) =>
        error := CaughtMessage(serverMessage, errorMessage, CreateFallbackMessage);
      }
    }

    /** `handleCreateJournal`; `refetch` is the reply to the reload that follows
        a successful save. Returns the request sent, if any. */
    method HandleCreateJournal(hasToken: bool, reply: SaveReply, refetch: DateReply)
      returns (request: Option<Request>)
      requires ValidDate(selectedDate)
      modifies this
      ensures CreateDone(old(State()), State(), hasToken, reply, refetch, request)
      ensures selectedDate == old(selectedDate) && !isLoading
    {
      isLoading := true;
      error := [];
      var outcome := CreateOutcome(form, selectedDate, hasToken);
      if outcome.Refused? {
        error := outcome.message;
        isLoading := false;
        return None;
      }
      request := Some(outcome.request);
      ApplyCreateReply(hasToken, reply, refetch);
      isLoading := false;
    }

    /** `handleSave`: updates when editing an existing journal, creates otherwise. */
    method HandleSave(hasToken: bool, reply: SaveReply, refetch: DateReply)
      returns (kind: SaveKind, request: Option<Request>)
      requires ValidDate(selectedDate)
      modifies this
      ensures kind == SaveDispatch(old(isEditing), old(currentJournal))
      ensures kind == Update ==> UpdateDone(old(State()), State(), hasToken, reply, refetch, request)
      ensures kind == Create ==> CreateDone(old(State()), State(), hasToken, reply, refetch, request)
      ensures kind == Update && request.Some? ==> request.value.Put?
      ensures kind == Create && request.Some? ==> request.value.Post?
      ensures request.Some? ==> Validate(old(form.title), old(form.content)).None? && hasToken
      ensures selectedDate == old(selectedDate) && !isLoading
    {
      kind := SaveDispatch(isEditing, currentJournal);
      if kind == Update {
        request := HandleUpdateJournal(hasToken, reply, refetch);
      } else {
        request := HandleCreateJournal(hasToken, reply, refetch);
      }
    }
  }
}
