/** The home page: the state it keeps, the browser storage it persists that state
    to, and its handlers. Storage is a map from key to stored string; date
    formatting, JSON (de)serialisation, the authentication service's answers and
    the completion client are parameters. */
module Page {
  import opened Common
  import GptApi
  import Strings

  /** The storage keys the page uses. */
  const BriefKey: string := "persistedBrief"
  const FormDataKey: string := "persistedFormData"
  const ShowFormKey: string := "persistedShowForm"
  const ProgressKey: string := "formProgress"

  /** A point in time, as a `Date` holds it. */
  datatype Date = Date(millis: int)

  /** What a record's `deadline` holds when the page runs: nothing, the date input's
      text (what the form submits), or a `Date` (a record revived from storage). */
  datatype Deadline = NoDeadline | DayText(text: string) | At(date: Date)

  /** `deadline ? … : null`: a date, or text that is not empty. */
  predicate HasDeadline(d: Deadline)
  {
    d.At? || (d.DayText? && d.text != "")
  }

  /** The page's form record: like the one the prompt is built from, except for the
      deadline. */
  datatype PageFormData = PageFormData(
    projectType: string,
    projectName: string,
    goals: string,
    deadline: Deadline,
    budget: string,
    budgetBreakdown: seq<GptApi.BudgetItem>,
    references: seq<GptApi.Reference>)

  /** A signed-in user. */
  datatype User = User(uid: string, photoUrl: Option<string>)

  /** What the page renders. */
  datatype View =
    | Nothing
    | Landing
    | FormView(initialData: Option<PageFormData>, canCancel: bool)
    | BriefView(brief: string, projectName: string, projectType: string, isPaidUser: bool)

  /** `format(deadline, 'yyyy-MM-dd')`, or null without a deadline. `formatDay` formats
      a date; `formatText` is what the date library makes of a text deadline, nothing
      when it rejects it. An outer nothing means the formatting threw. */
  function FormatDeadline(d: Deadline, formatDay: Date -> string, formatText: string -> Option<string>)
    : (r: Option<Option<string>>)
    ensures !HasDeadline(d) ==> r == Some(None)
    ensures d.At? ==> r == Some(Some(formatDay(d.date)))
    ensures d.DayText? && d.text != "" ==>
      (r.None? <==> formatText(d.text).None?) && (r.Some? ==> r.value == formatText(d.text))
  {
    match d
    case NoDeadline => Some(None)
    case DayText(t) =>
      if t == "" then Some(None)
      else (match formatText(t)
        case None => None
        case Some(day) => Some(Some(day)))
    case At(date) => Some(Some(formatDay(date)))
  }

  /** The record handed to the brief generator: the same fields, with the deadline
      given as its formatted day or null. */
  function Formatted(data: PageFormData, day: Option<string>): (r: GptApi.ProjectFormData)
    ensures r.deadline == day
    ensures r.projectType == data.projectType && r.projectName == data.projectName
    ensures r.goals == data.goals && r.budget == data.budget
    ensures r.budgetBreakdown == data.budgetBreakdown && r.references == data.references
  {
    GptApi.ProjectFormData(data.projectType, data.projectName, data.goals, day,
      data.budget, data.budgetBreakdown, data.references)
  }

  /** What `generateBrief` yields for the record with its formatted deadline: a trimmed
      brief or an error. */
  function BriefOutcome(data: PageFormData, day: Option<string>, client: GptApi.Request -> GptApi.Reply)
    : (r: Result<string, GptApi.ApiError>)
    ensures r.Ok? ==> Strings.Trimmed(r.value)
  {
    GptApi.ReadBrief(client(GptApi.BriefRequest(Formatted(data, day))))
  }

  /** `deadline ? deadline.toISOString() : null` as written: text has no `toISOString`,
      so a text deadline throws (an outer nothing). */
  function IsoDeadline(d: Deadline, toIso: Date -> string): (r: Option<Option<string>>)
    ensures r.None? <==> d.DayText? && d.text != ""
    ensures !HasDeadline(d) ==> r == Some(None)
    ensures d.At? ==> r == Some(Some(toIso(d.date)))
  {
    match d
    case NoDeadline => Some(None)
    case DayText(t) => if t == "" then Some(None) else None
    case At(date) => Some(Some(toIso(date)))
  }

  /** A deadline written out as evidently intended: a text deadline is read as a date
      (`parseDate`) first, so writing it out never fails. `render` is the formatting
      for the request or `toISOString` for storage. */
  function IntendedDeadlineText(d: Deadline, render: Date -> string, parseDate: string -> Date)
    : (r: Option<string>)
    ensures !HasDeadline(d) ==> r == None
    ensures d.At? ==> r == Some(render(d.date))
    ensures d.DayText? && d.text != "" ==> r == Some(render(parseDate(d.text)))
  {
    match d
    case NoDeadline => None
    case DayText(t) => if t == "" then None else Some(render(parseDate(t)))
    case At(date) => Some(render(date))
  }

  /** The serialised record as written: `serialize` stands for `JSON.stringify` of the
      record with the stored deadline; nothing when `toISOString` throws. */
  function SerializedAsWritten(data: PageFormData, toIso: Date -> string,
                               serialize: (PageFormData, Option<string>) -> string)
    : (r: Option<string>)
    ensures r.None? <==> data.deadline.DayText? && data.deadline.text != ""
    ensures r.Some? ==> r.value == serialize(data, IsoDeadline(data.deadline, toIso).value)
  {
    match IsoDeadline(data.deadline, toIso)
    case None => None
    case Some(iso) => Some(serialize(data, iso))
  }

  /** Storage after a generated brief: the brief is written first; then, when the record
      could be serialised (`record`), the record and the `false` flag are written and
      the progress removed. Otherwise the handler has thrown after the first write. */
  function StorageAfterBrief(storage: map<string, string>, generated: string, record: Option<string>)
    : (r: map<string, string>)
    ensures BriefKey in r && r[BriefKey] == generated
    ensures record.None? ==> r == storage[BriefKey := generated]
    ensures record.Some? ==> && FormDataKey in r && r[FormDataKey] == record.value
                             && ShowFormKey in r && r[ShowFormKey] == "false"
                             && ProgressKey !in r
  {
    match record
    case None => storage[BriefKey := generated]
    case Some(json) => storage[BriefKey := generated][FormDataKey := json][ShowFormKey := "false"] - {ProgressKey}
  }

  /** A text deadline, as the form submits it, stops `handleFormSubmit` after the brief
      is stored: the record is not stored, the progress stays, and a stored `true` flag
      keeps saying the form is open while the page has closed it. */
  lemma TextDeadlineSkipsPersisting(storage: map<string, string>, generated: string, data: PageFormData,
                                    toIso: Date -> string, serialize: (PageFormData, Option<string>) -> string)
    requires data.deadline.DayText? && data.deadline.text != ""
    ensures SerializedAsWritten(data, toIso, serialize) == None
    ensures var r := StorageAfterBrief(storage, generated, SerializedAsWritten(data, toIso, serialize));
      && (FormDataKey in storage ==> FormDataKey in r && r[FormDataKey] == storage[FormDataKey])
      && (FormDataKey !in storage ==> FormDataKey !in r)
      && (ProgressKey in storage ==> ProgressKey in r)
      && (ShowFormKey in storage && storage[ShowFormKey] == "true" ==> r[ShowFormKey] == "true")
  {
    KeysDistinct();
  }

  /** After a generated brief the stored flag reads `false` exactly when the record was
      stored, or when it already read `false`. */
  lemma FlagAfterBrief(storage: map<string, string>, generated: string, record: Option<string>)
    ensures var r := StorageAfterBrief(storage, generated, record);
      (ShowFormKey in r && r[ShowFormKey] == "false")
      <==> (record.Some? || (ShowFormKey in storage && storage[ShowFormKey] == "false"))
  {
    KeysDistinct();
  }

  /** The four storage keys are different. */
  lemma KeysDistinct()
    ensures BriefKey != FormDataKey && BriefKey != ShowFormKey && BriefKey != ProgressKey
    ensures FormDataKey != ShowFormKey && FormDataKey != ProgressKey && ShowFormKey != ProgressKey
  {
    assert FormDataKey[9] != ShowFormKey[9];
  }

  /** `getItem(key)` is truthy: stored and not empty. */
  predicate Stored(storage: map<string, string>, key: string)
  {
    key in storage && storage[key] != ""
  }

  /** `projectName || ''` and friends: the text of an optional record's field. */
  function OrEmpty(s: Option<string>): (r: string)
    ensures s.None? ==> r == ""
    ensures s.Some? ==> r == s.value
  {
    match s
    case None => ""
    case Some(v) => if v != "" then v else ""
  }

  class Home {
    var brief: string
    var showForm: bool
    var isClient: bool
    var formData: Option<PageFormData>
    var user: Option<User>
    var isPaidUser: bool
    var showLinkModal: bool
    var generatedLink: string
    var showLandingPage: bool
    var storage: map<string, string>

    /** The stored flag says whether the form is shown. */
    ghost predicate ShowFormPersisted()
      reads this
    {
      ShowFormKey in storage && storage[ShowFormKey] == (if showForm then "true" else "false")
    }

    /** The first render, before any effect has run, over what the browser has
        stored. */
    constructor (storage: map<string, string>)
      ensures this.storage == storage
      ensures brief == "" && showForm && !isClient && formData == None
      ensures user == None && !isPaidUser && !showLinkModal && generatedLink == ""
      ensures showLandingPage
      ensures CurrentView() == Nothing
    {
      brief := "";
      showForm := true;
      isClient := false;
      formData := None;
      user := None;
      isPaidUser := false;
      showLinkModal := false;
      generatedLink := "";
      showLandingPage := true;
      this.storage := storage;
    }

    /** What the page renders: nothing before it runs on the client, then the landing
        page while it is shown, then either the form (seeded with the record, with a
        cancel action exactly when there is a record) or the brief. */
    function CurrentView(): (v: View)
      reads this
      ensures !isClient <==> v == Nothing
      ensures v == Landing <==> isClient && showLandingPage
      ensures v.FormView? <==> isClient && !showLandingPage && showForm
      ensures v.FormView? ==> v.initialData == formData && (v.canCancel <==> formData.Some?)
      ensures v.BriefView? <==> isClient && !showLandingPage && !showForm
      ensures v.BriefView? ==> v.brief == brief && v.isPaidUser == isPaidUser
      ensures v.BriefView? && formData.None? ==> v.projectName == "" && v.projectType == ""
    {
      if !isClient then Nothing
      else if showLandingPage then Landing
      else if showForm then FormView(formData, formData.Some?)
      else BriefView(brief, OrEmpty(if formData.Some? then Some(formData.value.projectName) else None),
                     OrEmpty(if formData.Some? then Some(formData.value.projectType) else None), isPaidUser)
    }

    /** The mount effect's reading of storage. `parseFormData` and `parseProgress`
        stand for the JSON decoding of the stored record and of the stored progress
        (dates revived). A stored brief, record and flag are taken over; stored
        progress then replaces the record and always opens the form, whatever the
        flag said. The storage itself is not written. */
    method LoadPersistedState(parseFormData: string -> PageFormData, parseProgress: string -> PageFormData)
      modifies this
      ensures isClient
      ensures storage == old(storage)
      ensures brief == (if Stored(storage, BriefKey) then storage[BriefKey] else old(brief))
      ensures Stored(storage, ProgressKey) ==> formData == Some(parseProgress(storage[ProgressKey])) && showForm
      ensures !Stored(storage, ProgressKey) ==>
        && formData == (if Stored(storage, FormDataKey) then Some(parseFormData(storage[FormDataKey])) else old(formData))
        && showForm == (if Stored(storage, ShowFormKey) then storage[ShowFormKey] == "true" else old(showForm))
      ensures (!Stored(storage, ProgressKey) && ShowFormKey in storage
               && (storage[ShowFormKey] == "true" || storage[ShowFormKey] == "false"))
              ==> ShowFormPersisted()
      ensures user == old(user) && isPaidUser == old(isPaidUser) && showLandingPage == old(showLandingPage)
      ensures showLinkModal == old(showLinkModal) && generatedLink == old(generatedLink)
    {
      isClient := true;
      if Stored(storage, BriefKey) {
        brief := storage[BriefKey];
      }
      if Stored(storage, FormDataKey) {
        formData := Some(parseFormData(storage[FormDataKey]));
      }
      if Stored(storage, ShowFormKey) {
        showForm := storage[ShowFormKey] == "true";
      }
      if Stored(storage, ProgressKey) {
        formData := Some(parseProgress(storage[ProgressKey]));
        showForm := true;
      }
    }

    /** `handleFormSubmit`, as written. The record goes to the brief generator with its
        deadline formatted as a day; when formatting throws, nothing changes. On a
        brief: it is shown, the record is kept and the form is closed; the brief is
        stored, and then, when the deadline can be written out with `toISOString`, the
        record and the `false` flag are stored and the progress dropped. A text
        deadline, which is what the form submits, throws at that point, so the rest of
        storage is left as it was. On an error: nothing changes. */
    method HandleFormSubmit(data: PageFormData, formatDay: Date -> string,
                            formatText: string -> Option<string>, toIso: Date -> string,
                            serialize: (PageFormData, Option<string>) -> string,
                            client: GptApi.Request -> GptApi.Reply)
      modifies this
      ensures var day := FormatDeadline(data.deadline, formatDay, formatText);
        && (day.None? ==>
              brief == old(brief) && formData == old(formData) && showForm == old(showForm)
              && storage == old(storage))
        && (day.Some? ==> var outcome := BriefOutcome(data, day.value, client);
              && (outcome.Ok? ==>
                    && brief == outcome.value
                    && formData == Some(data)
                    && !showForm
                    && storage == StorageAfterBrief(old(storage), outcome.value,
                                                    SerializedAsWritten(data, toIso, serialize))
                    && (ShowFormPersisted() <==>
                          || !(data.deadline.DayText? && data.deadline.text != "")
                          || (ShowFormKey in old(storage) && old(storage)[ShowFormKey] == "false")))
              && (outcome.Err? ==>
                    brief == old(brief) && formData == old(formData) && showForm == old(showForm)
                    && storage == old(storage)))
      ensures isClient == old(isClient) && user == old(user) && isPaidUser == old(isPaidUser)
      ensures showLandingPage == old(showLandingPage)
      ensures showLinkModal == old(showLinkModal) && generatedLink == old(generatedLink)
    {
      var day := FormatDeadline(data.deadline, formatDay, formatText);
      if day.Some? {
        var request, result := GptApi.GenerateBrief(Formatted(data, day.value), client);
        if result.Ok? {
          var generated := result.value;
          brief := generated;
          formData := Some(data);
          showForm := false;
          PersistBrief(generated, SerializedAsWritten(data, toIso, serialize));
          FlagAfterBrief(old(storage), generated, SerializedAsWritten(data, toIso, serialize));
        }
      }
    }

    /** `handleFormSubmit` as evidently intended: a text deadline is read as a date
        before it is formatted and written out, so on a brief every write happens and
        the stored flag agrees with the closed form. */
    method HandleFormSubmitIntended(data: PageFormData, formatDay: Date -> string,
                                    parseDate: string -> Date, toIso: Date -> string,
                                    serialize: (PageFormData, Option<string>) -> string,
                                    client: GptApi.Request -> GptApi.Reply)
      modifies this
      ensures var outcome := BriefOutcome(data, IntendedDeadlineText(data.deadline, formatDay, parseDate), client);
        && (outcome.Ok? ==>
              && brief == outcome.value
              && formData == Some(data)
              && !showForm
              && storage == StorageAfterBrief(old(storage), outcome.value,
                              Some(serialize(data, IntendedDeadlineText(data.deadline, toIso, parseDate))))
              && ShowFormPersisted())
        && (outcome.Err? ==>
              brief == old(brief) && formData == old(formData) && showForm == old(showForm)
              && storage == old(storage))
      ensures isClient == old(isClient) && user == old(user) && isPaidUser == old(isPaidUser)
      ensures showLandingPage == old(showLandingPage)
      ensures showLinkModal == old(showLinkModal) && generatedLink == old(generatedLink)
    {
      var day := IntendedDeadlineText(data.deadline, formatDay, parseDate);
      var request, result := GptApi.GenerateBrief(Formatted(data, day), client);
      if result.Ok? {
        var generated := result.value;
        brief := generated;
        formData := Some(data);
        showForm := false;
        PersistBrief(generated, Some(serialize(data, IntendedDeadlineText(data.deadline, toIso, parseDate))));
      }
    }

    /** The storage writes after a generated brief: the brief, then, given the
        serialised record (nothing when serialising threw), the record and the `false`
        flag, and the progress goes. Nothing else changes. */
    method PersistBrief(generated: string, record: Option<string>)
      modifies this
      ensures storage == StorageAfterBrief(old(storage), generated, record)
      ensures brief == old(brief) && formData == old(formData) && showForm == old(showForm)
      ensures isClient == old(isClient) && user == old(user) && isPaidUser == old(isPaidUser)
      ensures showLandingPage == old(showLandingPage)
      ensures showLinkModal == old(showLinkModal) && generatedLink == old(generatedLink)
    {
      storage := storage[BriefKey := generated];
      if record.Some? {
        storage := storage[FormDataKey := record.value];
        storage := storage[ShowFormKey := "false"];
        storage := storage - {ProgressKey};
      }
    }

    /** `handleEditBrief`: the form opens and the flag says so. */
    method HandleEditBrief()
      modifies this
      ensures showForm && storage == old(storage)[ShowFormKey := "true"]
      ensures ShowFormPersisted()
      ensures brief == old(brief) && formData == old(formData) && isClient == old(isClient)
      ensures user == old(user) && isPaidUser == old(isPaidUser) && showLandingPage == old(showLandingPage)
      ensures showLinkModal == old(showLinkModal) && generatedLink == old(generatedLink)
    {
      showForm := true;
      storage := storage[ShowFormKey := "true"];
    }

    /** `handleCreateNewBrief`: the record is dropped and an empty form opens; the stored
        brief and record go, the flag says the form is open. The brief itself is kept. */
    method HandleCreateNewBrief()
      modifies this
      ensures formData == None && showForm
      ensures storage == (old(storage) - {BriefKey, FormDataKey})[ShowFormKey := "true"]
      ensures ShowFormPersisted()
      ensures CurrentView() == if !isClient then Nothing else if showLandingPage then Landing else FormView(None, false)
      ensures brief == old(brief) && isClient == old(isClient)
      ensures user == old(user) && isPaidUser == old(isPaidUser) && showLandingPage == old(showLandingPage)
      ensures showLinkModal == old(showLinkModal) && generatedLink == old(generatedLink)
    {
      formData := None;
      showForm := true;
      storage := storage - {BriefKey};
      storage := storage - {FormDataKey};
      storage := storage[ShowFormKey := "true"];
    }

    /** `handleSaveBrief`: the edited brief is shown and persisted. */
    method HandleSaveBrief(updatedBrief: string)
      modifies this
      ensures brief == updatedBrief && storage == old(storage)[BriefKey := updatedBrief]
      ensures old(ShowFormPersisted()) ==> ShowFormPersisted()
      ensures showForm == old(showForm) && formData == old(formData) && isClient == old(isClient)
      ensures user == old(user) && isPaidUser == old(isPaidUser) && showLandingPage == old(showLandingPage)
      ensures showLinkModal == old(showLinkModal) && generatedLink == old(generatedLink)
    {
      brief := updatedBrief;
      storage := storage[BriefKey := updatedBrief];
    }

    /** `handleSignInSuccess`, given the current user and the subscription check's
        answer (nothing when the check rejects): with a user, they are set; on an answer
        the paid flag takes it and the landing page closes, while a rejection ends the
        handler with the landing page still shown. Without a user, nothing changes. */
    method HandleSignInSuccess(current: Option<User>, subscribed: Option<bool>)
      modifies this
      ensures current.Some? ==> user == current
      ensures current.Some? && subscribed.Some? ==> isPaidUser == subscribed.value && !showLandingPage
      ensures current.Some? && subscribed.None? ==>
        isPaidUser == old(isPaidUser) && showLandingPage == old(showLandingPage)
      ensures current.None? ==> user == old(user) && isPaidUser == old(isPaidUser)
                                && showLandingPage == old(showLandingPage)
      ensures brief == old(brief) && showForm == old(showForm) && formData == old(formData)
      ensures storage == old(storage) && isClient == old(isClient)
      ensures showLinkModal == old(showLinkModal) && generatedLink == old(generatedLink)
    {
      if current.Some? {
        user := current;
        if subscribed.Some? {
          isPaidUser := subscribed.value;
          showLandingPage := false;
        }
      }
    }

    /** `handleSignOut`, given whether the service's sign-out succeeded: if so the user
        is gone, unpaid, and the landing page shows; if it threw, nothing changes. */
    method HandleSignOut(signOutSucceeded: bool)
      modifies this
      ensures signOutSucceeded ==> user == None && !isPaidUser && showLandingPage
      ensures signOutSucceeded && isClient ==> CurrentView() == Landing
      ensures !signOutSucceeded ==> user == old(user) && isPaidUser == old(isPaidUser)
                                    && showLandingPage == old(showLandingPage)
      ensures brief == old(brief) && showForm == old(showForm) && formData == old(formData)
      ensures storage == old(storage) && isClient == old(isClient)
      ensures showLinkModal == old(showLinkModal) && generatedLink == old(generatedLink)
    {
      if signOutSucceeded {
        user := None;
        isPaidUser := false;
        showLandingPage := true;
      }
    }

    /** `handleCreateLink`: the link is kept and its dialog opens. */
    method HandleCreateLink(link: string)
      modifies this
      ensures generatedLink == link && showLinkModal
      ensures brief == old(brief) && showForm == old(showForm) && formData == old(formData)
      ensures storage == old(storage) && isClient == old(isClient)
      ensures user == old(user) && isPaidUser == old(isPaidUser) && showLandingPage == old(showLandingPage)
    {
      generatedLink := link;
      showLinkModal := true;
    }

    /** The link dialog's close action; the link itself is kept. */
    method CloseLinkModal()
      modifies this
      ensures !showLinkModal && generatedLink == old(generatedLink)
      ensures brief == old(brief) && showForm == old(showForm) && formData == old(formData)
      ensures storage == old(storage) && isClient == old(isClient)
      ensures user == old(user) && isPaidUser == old(isPaidUser) && showLandingPage == old(showLandingPage)
    {
      showLinkModal := false;
    }

    /** `handleCancelEdit`: back to the brief; the flag says so and stored progress
        goes. */
    method HandleCancelEdit()
      modifies this
      ensures !showForm && storage == old(storage)[ShowFormKey := "false"] - {ProgressKey}
      ensures ShowFormPersisted()
      ensures brief == old(brief) && formData == old(formData) && isClient == old(isClient)
      ensures user == old(user) && isPaidUser == old(isPaidUser) && showLandingPage == old(showLandingPage)
      ensures showLinkModal == old(showLinkModal) && generatedLink == old(generatedLink)
    {
      showForm := false;
      storage := storage[ShowFormKey := "false"];
      storage := storage - {ProgressKey};
    }
  }
}
