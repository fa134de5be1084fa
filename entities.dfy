/**
 * The records shared by every page: interviews (episodes, articles and
 * applications share one record shape), users, subscription plans and the
 * application settings, with the `Partial<...>` updates that are spread
 * into them.
 */
module Entities {
  import opened Wrappers

  datatype Status = Live | Upcoming | Recorded | Pending | Rejected
  datatype Category = Featured | Latest | News | Success | ArticleCategory
  datatype Format = Horizontal | Vertical
  /** The kind of a founder's application: a pitch upload or a live slot. */
  datatype ApplicationType = UploadType | LiveType

  datatype SocialLinks = SocialLinks(
    youtube: Option<string>,
    facebook: Option<string>,
    instagram: Option<string>,
    linkedin: Option<string>,
    twitter: Option<string>)

  /** One content item; optional keys of the source record are `Option`s. */
  datatype Interview = Interview(
    id: string,
    founderName: string,
    author: Option<string>,
    readTime: Option<string>,
    companyName: string,
    position: string,
    email: string,
    phoneNumber: Option<string>,
    city: Option<string>,
    title: string,
    description: Option<string>,
    longContent: Option<string>,
    tags: Option<seq<string>>,
    thumbnail: string,
    videoUrl: Option<string>,
    format: Format,
    status: Status,
    category: Category,
    views: int,
    date: string,
    metaKeywords: Option<seq<string>>,
    displayOnHome: bool,
    socialLinks: Option<SocialLinks>,
    applicationType: Option<ApplicationType>,
    scheduledDate: Option<string>)

  /** A `Partial<Interview>`: every key may be absent or present. */
  datatype InterviewPatch = InterviewPatch(
    id: Field<string>,
    founderName: Field<string>,
    author: Field<Option<string>>,
    readTime: Field<Option<string>>,
    companyName: Field<string>,
    position: Field<string>,
    email: Field<string>,
    phoneNumber: Field<Option<string>>,
    city: Field<Option<string>>,
    title: Field<string>,
    description: Field<Option<string>>,
    longContent: Field<Option<string>>,
    tags: Field<Option<seq<string>>>,
    thumbnail: Field<string>,
    videoUrl: Field<Option<string>>,
    format: Field<Format>,
    status: Field<Status>,
    category: Field<Category>,
    views: Field<int>,
    date: Field<string>,
    metaKeywords: Field<Option<seq<string>>>,
    displayOnHome: Field<bool>,
    socialLinks: Field<Option<SocialLinks>>,
    applicationType: Field<Option<ApplicationType>>,
    scheduledDate: Field<Option<string>>)

  /** The empty update `{}`. */
  const NoChange: InterviewPatch := InterviewPatch(
    Keep, Keep, Keep, Keep, Keep, Keep, Keep, Keep, Keep, Keep, Keep, Keep, Keep,
    Keep, Keep, Keep, Keep, Keep, Keep, Keep, Keep, Keep, Keep, Keep, Keep)

  /** The update `{ status: s }`. */
  function StatusPatch(s: Status): InterviewPatch
  {
    NoChange.(status := Put(s))
  }

  /** `{ ...i, ...p }`: each key present in `p` overrides, the others are kept. */
  function Merge(i: Interview, p: InterviewPatch): Interview
  {
    Interview(
      Pick(p.id, i.id), Pick(p.founderName, i.founderName), Pick(p.author, i.author),
      Pick(p.readTime, i.readTime), Pick(p.companyName, i.companyName),
      Pick(p.position, i.position), Pick(p.email, i.email),
      Pick(p.phoneNumber, i.phoneNumber), Pick(p.city, i.city), Pick(p.title, i.title),
      Pick(p.description, i.description), Pick(p.longContent, i.longContent),
      Pick(p.tags, i.tags), Pick(p.thumbnail, i.thumbnail), Pick(p.videoUrl, i.videoUrl),
      Pick(p.format, i.format), Pick(p.status, i.status), Pick(p.category, i.category),
      Pick(p.views, i.views), Pick(p.date, i.date), Pick(p.metaKeywords, i.metaKeywords),
      Pick(p.displayOnHome, i.displayOnHome), Pick(p.socialLinks, i.socialLinks),
      Pick(p.applicationType, i.applicationType), Pick(p.scheduledDate, i.scheduledDate))
  }

  /** Merging the empty update changes nothing. */
  lemma MergeNoChange(i: Interview)
    ensures Merge(i, NoChange) == i
  {
  }

  /** Merging the same update twice is merging it once. */
  lemma MergeIdempotent(i: Interview, p: InterviewPatch)
    ensures Merge(Merge(i, p), p) == Merge(i, p)
  {
  }

  /** A status update sets the status and keeps every other key. */
  lemma MergeStatus(i: Interview, s: Status)
    ensures Merge(i, StatusPatch(s)) == i.(status := s)
  {
  }

  datatype Role = Admin | Founder

  datatype User = User(
    id: string,
    name: string,
    email: string,
    avatar: string,
    role: Role,
    company: Option<string>)

  /** Prices are whole currency units in every plan the program defines. */
  datatype SubscriptionPlan = SubscriptionPlan(
    id: string,
    name: string,
    basePrice: int,
    discountPercentage: int,
    features: seq<string>)

  /** A `Partial<SubscriptionPlan>`. */
  datatype PlanPatch = PlanPatch(
    id: Field<string>,
    name: Field<string>,
    basePrice: Field<int>,
    discountPercentage: Field<int>,
    features: Field<seq<string>>)

  function MergePlan(p: SubscriptionPlan, u: PlanPatch): SubscriptionPlan
  {
    SubscriptionPlan(
      Pick(u.id, p.id), Pick(u.name, p.name), Pick(u.basePrice, p.basePrice),
      Pick(u.discountPercentage, p.discountPercentage), Pick(u.features, p.features))
  }

  /** `maxLiveDuration` is in seconds. */
  datatype AppSettings = AppSettings(
    maxLiveDuration: int,
    subscriptionPlans: seq<SubscriptionPlan>)

  /** A `Partial<AppSettings>`. */
  datatype SettingsPatch = SettingsPatch(
    maxLiveDuration: Field<int>,
    subscriptionPlans: Field<seq<SubscriptionPlan>>)

  /** An approved live slot: an upcoming item that came from a live application. */
  predicate ApprovedLiveSlot(i: Interview)
  {
    i.status == Upcoming && i.applicationType == Some(LiveType)
  }

  /** True when some item has the given id. */
  predicate HasId(xs: seq<Interview>, id: string)
  {
    exists k :: 0 <= k < |xs| && xs[k].id == id
  }
}
