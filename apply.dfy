/**
 * The founder application page: the form, its prefill from the signed-in
 * user, the record a submission creates, and the idle / submitting /
 * success progression.
 */
module Apply {
  import opened Wrappers
  import opened Sequences
  import opened Entities
  import opened DataContext

  datatype ApplicationStatus = Idle | Submitting | Success

  datatype FieldName = Name | Company | Role | Email | Phone | City | Description | ScheduleDate | ScheduleTime

  datatype FormData = FormData(
    name: string,
    company: string,
    role: string,
    email: string,
    phone: string,
    city: string,
    description: string,
    scheduleDate: string,
    scheduleTime: string)

  /** The value of the named field. */
  function Get(f: FormData, n: FieldName): string
  {
    match n
    case Name => f.name
    case Company => f.company
    case Role => f.role
    case Email => f.email
    case Phone => f.phone
    case City => f.city
    case Description => f.description
    case ScheduleDate => f.scheduleDate
    case ScheduleTime => f.scheduleTime
  }

  /** The form with the named field replaced. */
  function WithField(f: FormData, n: FieldName, v: string): (r: FormData)
    ensures Get(r, n) == v
    ensures forall m :: m != n ==> Get(r, m) == Get(f, m)
  {
    match n
    case Name => f.(name := v)
    case Company => f.(company := v)
    case Role => f.(role := v)
    case Email => f.(email := v)
    case Phone => f.(phone := v)
    case City => f.(city := v)
    case Description => f.(description := v)
    case ScheduleDate => f.(scheduleDate := v)
    case ScheduleTime => f.(scheduleTime := v)
  }

  /** `a || b` on strings. */
  function Or(a: string, b: string): string
  {
    if a != "" then a else b
  }

  /** The form as first rendered: name, company and e-mail from the user when there is one. */
  function InitialForm(u: Option<User>): (f: FormData)
    ensures u.None? ==> f == FormData("", "", "", "", "", "", "", "", "")
    ensures u.Some? ==> f.name == u.value.name && f.email == u.value.email
    ensures u.Some? ==> f.company == if u.value.company.Some? then u.value.company.value else ""
    ensures f.role == f.phone == f.city == f.description == f.scheduleDate == f.scheduleTime == ""
  {
    match u
    case None => FormData("", "", "", "", "", "", "", "", "")
    case Some(user) =>
      FormData(user.name, Or(if user.company.Some? then user.company.value else "", ""), "", user.email, "", "", "", "", "")
  }

  /**
   * The prefill effect: a field already filled is kept, an empty name,
   * e-mail or company is taken from the user, and nothing else changes.
   */
  function Prefill(f: FormData, u: User): (r: FormData)
    ensures f.name != "" ==> r.name == f.name
    ensures f.name == "" ==> r.name == u.name
    ensures f.email != "" ==> r.email == f.email
    ensures f.email == "" ==> r.email == u.email
    ensures f.company != "" ==> r.company == f.company
    ensures f.company == "" ==> r.company == if u.company.Some? then u.company.value else ""
    ensures r.role == f.role && r.phone == f.phone && r.city == f.city && r.description == f.description
    ensures r.scheduleDate == f.scheduleDate && r.scheduleTime == f.scheduleTime
  {
    f.(name := Or(f.name, u.name),
       email := Or(f.email, u.email),
       company := Or(f.company, Or(if u.company.Some? then u.company.value else "", "")))
  }

  /** Prefilling twice is prefilling once. */
  lemma PrefillIdempotent(f: FormData, u: User)
    ensures Prefill(Prefill(f, u), u) == Prefill(f, u)
  {
  }

  /** The title: the description, cut to 50 characters followed by "..." when it is longer. */
  function Title(description: string): string
  {
    if |description| > 50 then description[..50] + "..." else description
  }

  /** The title never exceeds 53 characters, and agrees with the description on the first 50. */
  lemma TitleSpec(description: string)
    ensures |Title(description)| <= 53
    ensures |description| <= 50 ==> Title(description) == description
    ensures |description| > 50 ==>
              |Title(description)| == 53 && Title(description)[..50] == description[..50]
              && Title(description)[50..] == "..."
  {
  }

  const ApplicationThumbnail := "https://images.unsplash.com/photo-1516321318423-f06f85e504b3?q=80&w=800&auto=format&fit=crop"
  const ApplicationVideo := "https://media.w3.org/2010/05/sintel/trailer_hd.mp4"

  /**
   * The record a submission creates. `stamp` stands for the clock reading
   * that is its id and `date` for the formatted date.
   */
  function NewApplication(f: FormData, t: ApplicationType, stamp: string, date: string): Interview
  {
    Interview(
      stamp, f.name, None, None, f.company, f.role, f.email, Some(f.phone), Some(f.city),
      Title(f.description), Some(f.description), None, None, ApplicationThumbnail,
      Some(ApplicationVideo), Horizontal, Pending, Latest, 0, date, None, false, None,
      Some(t),
      if t == LiveType then Some(f.scheduleDate + "T" + f.scheduleTime) else None)
  }

  /**
   * The new record is a pending, unviewed, off-home item of the chosen type
   * carrying the applicant's details, and it has a scheduled date exactly
   * when it is a live slot.
   */
  lemma NewApplicationSpec(f: FormData, t: ApplicationType, stamp: string, date: string)
    ensures var a := NewApplication(f, t, stamp, date);
      && a.status == Pending && a.views == 0 && !a.displayOnHome
      && a.applicationType == Some(t)
      && (a.scheduledDate.Some? <==> t == LiveType)
      && (t == LiveType ==> a.scheduledDate.value == f.scheduleDate + "T" + f.scheduleTime)
      && a.founderName == f.name && a.companyName == f.company && a.position == f.role
      && a.email == f.email && a.description == Some(f.description)
      && a.title == Title(f.description)
  {
  }

  /** The plan selected at first: the first plan's id, or the empty string. */
  function DefaultPlanId(plans: seq<SubscriptionPlan>): (id: string)
    ensures plans == [] ==> id == ""
    ensures plans != [] ==> id == plans[0].id
  {
    if plans == [] then "" else plans[0].id
  }

  const AuthRedirect := "/auth?redirect=/apply"

  /** The application page's state. */
  class ApplyForm {
    var status: ApplicationStatus
    var appType: ApplicationType
    var selectedPlanId: string
    var form: FormData
    /** Submissions whose delayed completion has not run yet. */
    var scheduled: seq<Interview>

    constructor (u: Option<User>, plans: seq<SubscriptionPlan>)
      ensures status == Idle && appType == UploadType && scheduled == []
      ensures selectedPlanId == DefaultPlanId(plans)
      ensures form == InitialForm(u)
    {
      status := Idle;
      appType := UploadType;
      selectedPlanId := DefaultPlanId(plans);
      form := InitialForm(u);
      scheduled := [];
    }

    /**
     * The route effect: without a user it sends the visitor to sign in;
     * otherwise a `type` query parameter of "live" selects the live slot.
     */
    method OnRoute(u: Option<User>, typeParam: Option<string>) returns (navigate: Option<string>)
      modifies this
      ensures u.None? ==> navigate == Some(AuthRedirect) && appType == old(appType)
      ensures u.Some? ==> navigate == None
      ensures u.Some? && typeParam == Some("live") ==> appType == LiveType
      ensures u.Some? && typeParam != Some("live") ==> appType == old(appType)
      ensures status == old(status) && selectedPlanId == old(selectedPlanId)
      ensures form == old(form) && scheduled == old(scheduled)
    {
      if u.None? {
        return Some(AuthRedirect);
      }
      if typeParam == Some("live") {
        appType := LiveType;
      }
      navigate := None;
    }

    /** The prefill effect, run when a user is present. */
    method OnUser(u: Option<User>)
      modifies this
      ensures u.Some? ==> form == Prefill(old(form), u.value)
      ensures u.None? ==> form == old(form)
      ensures status == old(status) && appType == old(appType)
      ensures selectedPlanId == old(selectedPlanId) && scheduled == old(scheduled)
    {
      if u.Some? {
        form := Prefill(form, u.value);
      }
    }

    method ChooseType(t: ApplicationType)
      modifies this
      ensures appType == t
      ensures status == old(status) && selectedPlanId == old(selectedPlanId)
      ensures form == old(form) && scheduled == old(scheduled)
    {
      appType := t;
    }

    method ChoosePlan(id: string)
      modifies this
      ensures selectedPlanId == id
      ensures status == old(status) && appType == old(appType)
      ensures form == old(form) && scheduled == old(scheduled)
    {
      selectedPlanId := id;
    }

    /** `handleChange`: only the named field takes the new value. */
    method HandleChange(n: FieldName, v: string)
      modifies this
      ensures form == WithField(old(form), n, v)
      ensures status == old(status) && appType == old(appType)
      ensures selectedPlanId == old(selectedPlanId) && scheduled == old(scheduled)
    {
      form := WithField(form, n, v);
    }

    /**
     * `handleSubmit`: the form goes to submitting and the record is
     * scheduled. The submit button is disabled while submitting and the form
     * is gone after success, so a submission starts from idle.
     */
    method HandleSubmit(stamp: string, date: string)
      requires status == Idle
      modifies this
      ensures status == Submitting
      ensures scheduled == old(scheduled + [NewApplication(form, appType, stamp, date)])
      ensures appType == old(appType) && selectedPlanId == old(selectedPlanId) && form == old(form)
    {
      scheduled := scheduled + [NewApplication(form, appType, stamp, date)];
      status := Submitting;
    }

    /** The delayed completion: the record is prepended to the store and the page shows success. */
    method CompleteSubmit(store: Store)
      requires scheduled != []
      modifies this, store
      ensures store.interviews == [old(scheduled)[0]] + old(store.interviews)
      ensures store.currentUser == old(store.currentUser) && store.appSettings == old(store.appSettings)
      ensures status == ApplicationStatus.Success && scheduled == old(scheduled)[1..]
      ensures appType == old(appType) && selectedPlanId == old(selectedPlanId) && form == old(form)
    {
      var record := scheduled[0];
      scheduled := scheduled[1..];
      store.AddInterview(record);
      status := ApplicationStatus.Success;
    }
  }

  /** The submit button is disabled exactly while submitting. */
  function SubmitEnabled(s: ApplicationStatus): (r: bool)
    ensures r <==> s != Submitting
  {
    s != Submitting
  }
}
