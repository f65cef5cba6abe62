/** The records the application passes around (the interfaces of the
    domain types file), as values. Dates are milliseconds since the epoch;
    quantities are whole numbers. `type` and `label` are Dafny keywords, so
    the discriminating fields are named `kind` and a need's label
    `labelText`. */
module Models {
  import opened Wrappers
  import Text

  datatype NeedType = Material | Volunteer

  datatype TimeSlot = TimeSlot(
    id: string,
    date: string,
    startTime: string,
    endTime: string,
    volunteersNeeded: int,
    volunteersAssigned: int)

  datatype Need = Need(
    id: string,
    kind: NeedType,
    labelText: string,
    quantityRequired: int,
    quantityFulfilled: int,
    unit: string,
    timeSlots: Option<seq<TimeSlot>>)

  datatype PointType = Collection | Distribution

  datatype CollectionPoint = CollectionPoint(
    id: string,
    name: string,
    address: string,
    latitude: real,
    longitude: real,
    kind: PointType,
    hours: string,
    phone: Option<string>)

  datatype CampaignUpdate = CampaignUpdate(
    id: string,
    campaignId: string,
    title: string,
    content: string,
    imageUri: Option<string>,
    createdAt: int)

  datatype Category = Ramadan | Eid | Winter | Neighborhood | Other

  datatype CampaignStatus = Active | Completed | Upcoming

  datatype Campaign = Campaign(
    id: string,
    title: string,
    description: string,
    objective: string,
    category: Category,
    startDate: int,
    endDate: int,
    status: CampaignStatus,
    creatorId: string,
    creatorName: string,
    imageUri: Option<string>,
    needs: seq<Need>,
    collectionPoints: seq<CollectionPoint>,
    updates: seq<CampaignUpdate>,
    totalEngagements: int,
    createdAt: int)

  datatype EngagementType = Donation | Volunteering

  datatype EngagementStatus = Pending | Confirmed | Completed

  datatype Engagement = Engagement(
    id: string,
    campaignId: string,
    userId: string,
    needId: string,
    kind: EngagementType,
    quantity: int,
    timeSlotId: Option<string>,
    status: EngagementStatus,
    reminderSet: bool,
    reminderTime: Option<int>,
    createdAt: int)

  datatype User = User(
    id: string,
    name: string,
    email: string,
    phone: string,
    isCreator: bool,
    avatar: Option<string>,
    createdAt: int)

  datatype NotificationType = Reminder | UpdateNotice | ThankYou

  datatype Notification = Notification(
    id: string,
    userId: string,
    title: string,
    body: string,
    kind: NotificationType,
    campaignId: Option<string>,
    read: bool,
    scheduledFor: Option<int>,
    createdAt: int)

  /** The string a category is stored and compared as. */
  function CategoryKey(c: Category): string
  {
    match c
    case Ramadan => "ramadan"
    case Eid => "eid"
    case Winter => "winter"
    case Neighborhood => "neighborhood"
    case Other => "other"
  }

  /** The string a campaign status is stored and compared as. */
  function StatusKey(s: CampaignStatus): string
  {
    match s
    case Active => "active"
    case Completed => "completed"
    case Upcoming => "upcoming"
  }

  /** `c => c.id === id`, the lookup every layer uses. */
  predicate HasId(id: string, c: Campaign)
  {
    c.id == id
  }

  /** `n => n.id === id`. */
  predicate NeedHasId(id: string, n: Need)
  {
    n.id == id
  }

  /** The text search both the store and the gateway use: the lower-cased
      query occurs in the lower-cased title or description. */
  predicate MentionsText(c: Campaign, query: string)
  {
    var q := Text.ToLower(query);
    Text.Includes(Text.ToLower(c.title), q) || Text.Includes(Text.ToLower(c.description), q)
  }

  /** `Omit<Campaign, 'id' | 'createdAt' | 'totalEngagements'>`: what a
      creator submits; the gateway assigns the three missing fields. */
  datatype CampaignDraft = CampaignDraft(
    title: string,
    description: string,
    objective: string,
    category: Category,
    startDate: int,
    endDate: int,
    status: CampaignStatus,
    creatorId: string,
    creatorName: string,
    imageUri: Option<string>,
    needs: seq<Need>,
    collectionPoints: seq<CollectionPoint>,
    updates: seq<CampaignUpdate>)

  /** The campaign a draft becomes once the gateway gives it an id, a
      creation date and a zero engagement count. */
  function FromDraft(d: CampaignDraft, id: string, createdAt: int): (c: Campaign)
    ensures c.id == id && c.createdAt == createdAt && c.totalEngagements == 0
    ensures DraftOf(c) == d
  {
    Campaign(id, d.title, d.description, d.objective, d.category, d.startDate, d.endDate, d.status,
             d.creatorId, d.creatorName, d.imageUri, d.needs, d.collectionPoints, d.updates,
             0, createdAt)
  }

  /** The creator-supplied part of a campaign. */
  function DraftOf(c: Campaign): CampaignDraft
  {
    CampaignDraft(c.title, c.description, c.objective, c.category, c.startDate, c.endDate, c.status,
                  c.creatorId, c.creatorName, c.imageUri, c.needs, c.collectionPoints, c.updates)
  }

  /** `Omit<Engagement, 'id' | 'createdAt'>`. */
  datatype EngagementDraft = EngagementDraft(
    campaignId: string,
    userId: string,
    needId: string,
    kind: EngagementType,
    quantity: int,
    timeSlotId: Option<string>,
    status: EngagementStatus,
    reminderSet: bool,
    reminderTime: Option<int>)

  function EngagementFromDraft(d: EngagementDraft, id: string, createdAt: int): (e: Engagement)
    ensures e.id == id && e.createdAt == createdAt
    ensures e.campaignId == d.campaignId && e.needId == d.needId && e.userId == d.userId
    ensures e.quantity == d.quantity && e.kind == d.kind && e.status == d.status
    ensures e.timeSlotId == d.timeSlotId && e.reminderSet == d.reminderSet && e.reminderTime == d.reminderTime
  {
    Engagement(id, d.campaignId, d.userId, d.needId, d.kind, d.quantity, d.timeSlotId, d.status,
               d.reminderSet, d.reminderTime, createdAt)
  }

  /** `Omit<CampaignUpdate, 'id' | 'createdAt'>`. */
  datatype UpdateDraft = UpdateDraft(
    campaignId: string,
    title: string,
    content: string,
    imageUri: Option<string>)

  function UpdateFromDraft(d: UpdateDraft, id: string, createdAt: int): (u: CampaignUpdate)
    ensures u.id == id && u.createdAt == createdAt
    ensures u.campaignId == d.campaignId && u.title == d.title && u.content == d.content && u.imageUri == d.imageUri
  {
    CampaignUpdate(id, d.campaignId, d.title, d.content, d.imageUri, createdAt)
  }

  /** `Partial<Campaign>`: every field may be supplied or left out. */
  datatype CampaignPatch = CampaignPatch(
    id: Option<string>,
    title: Option<string>,
    description: Option<string>,
    objective: Option<string>,
    category: Option<Category>,
    startDate: Option<int>,
    endDate: Option<int>,
    status: Option<CampaignStatus>,
    creatorId: Option<string>,
    creatorName: Option<string>,
    imageUri: Option<Option<string>>,
    needs: Option<seq<Need>>,
    collectionPoints: Option<seq<CollectionPoint>>,
    updates: Option<seq<CampaignUpdate>>,
    totalEngagements: Option<int>,
    createdAt: Option<int>)

  const EMPTY_CAMPAIGN_PATCH := CampaignPatch(None, None, None, None, None, None, None, None,
                                              None, None, None, None, None, None, None, None)

  /** `{ ...c, ...p }`: the supplied fields of the patch win, every other
      field keeps the campaign's value. */
  function PatchCampaign(c: Campaign, p: CampaignPatch): (r: Campaign)
    ensures p == EMPTY_CAMPAIGN_PATCH ==> r == c
    ensures r.id == p.id.GetOr(c.id) && r.title == p.title.GetOr(c.title)
    ensures r.description == p.description.GetOr(c.description) && r.objective == p.objective.GetOr(c.objective)
    ensures r.category == p.category.GetOr(c.category) && r.status == p.status.GetOr(c.status)
    ensures r.startDate == p.startDate.GetOr(c.startDate) && r.endDate == p.endDate.GetOr(c.endDate)
    ensures r.creatorId == p.creatorId.GetOr(c.creatorId) && r.creatorName == p.creatorName.GetOr(c.creatorName)
    ensures r.imageUri == p.imageUri.GetOr(c.imageUri) && r.needs == p.needs.GetOr(c.needs)
    ensures r.collectionPoints == p.collectionPoints.GetOr(c.collectionPoints) && r.updates == p.updates.GetOr(c.updates)
    ensures r.totalEngagements == p.totalEngagements.GetOr(c.totalEngagements) && r.createdAt == p.createdAt.GetOr(c.createdAt)
  {
    Campaign(p.id.GetOr(c.id), p.title.GetOr(c.title), p.description.GetOr(c.description),
             p.objective.GetOr(c.objective), p.category.GetOr(c.category),
             p.startDate.GetOr(c.startDate), p.endDate.GetOr(c.endDate), p.status.GetOr(c.status),
             p.creatorId.GetOr(c.creatorId), p.creatorName.GetOr(c.creatorName),
             p.imageUri.GetOr(c.imageUri), p.needs.GetOr(c.needs),
             p.collectionPoints.GetOr(c.collectionPoints), p.updates.GetOr(c.updates),
             p.totalEngagements.GetOr(c.totalEngagements), p.createdAt.GetOr(c.createdAt))
  }

  /** Applying the same patch twice is applying it once. */
  lemma PatchCampaignIdempotent(c: Campaign, p: CampaignPatch)
    ensures PatchCampaign(PatchCampaign(c, p), p) == PatchCampaign(c, p)
  {
  }

  /** `Partial<User>`. */
  datatype UserPatch = UserPatch(
    id: Option<string>,
    name: Option<string>,
    email: Option<string>,
    phone: Option<string>,
    isCreator: Option<bool>,
    avatar: Option<Option<string>>,
    createdAt: Option<int>)

  const EMPTY_USER_PATCH := UserPatch(None, None, None, None, None, None, None)

  /** `{ ...u, ...p }` for users. */
  function PatchUser(u: User, p: UserPatch): (r: User)
    ensures p == EMPTY_USER_PATCH ==> r == u
    ensures r.id == p.id.GetOr(u.id) && r.name == p.name.GetOr(u.name)
    ensures r.email == p.email.GetOr(u.email) && r.phone == p.phone.GetOr(u.phone)
    ensures r.isCreator == p.isCreator.GetOr(u.isCreator) && r.avatar == p.avatar.GetOr(u.avatar)
    ensures r.createdAt == p.createdAt.GetOr(u.createdAt)
  {
    User(p.id.GetOr(u.id), p.name.GetOr(u.name), p.email.GetOr(u.email), p.phone.GetOr(u.phone),
         p.isCreator.GetOr(u.isCreator), p.avatar.GetOr(u.avatar), p.createdAt.GetOr(u.createdAt))
  }
}
