/** The in-memory gateway the application talks to in place of a server:
    two fixed users, and mutable lists of campaigns, engagements and
    collection points that its calls read and change in place. Identifiers
    and creation instants, which the gateway draws from an id generator and
    the clock, are parameters. */
module Gateway {
  import opened Wrappers
  import opened Models
  import Seqs
  import Text

  // ---------------------------------------------------------------------
  // The fixed users

  /** Midnight UTC on 2024-01-15 and 2024-02-20, in milliseconds. */
  const USER_ONE_CREATED := 1705276800000
  const USER_TWO_CREATED := 1708387200000

  const MOCK_USERS: seq<User> := [
    User("user-1", "Ahmed Bennani", "ahmed.bennani@email.com", "+212 6 12 34 56 78", true, None, USER_ONE_CREATED),
    User("user-2", "Fatima Zahra", "fatima.zahra@email.com", "+212 6 98 76 54 32", false, None, USER_TWO_CREATED)
  ]

  const DEFAULT_NAME := "Utilisateur"
  const DEFAULT_PHONE := "+212 6 00 00 00 00"

  predicate SameEmail(email: string, u: User)
  {
    Text.ToLower(u.email) == Text.ToLower(email)
  }

  /** `login`: the first known user whose e-mail matches without regard to
      case; anyone else is let in as a new participant under the e-mail
      they typed. The password is never looked at. */
  function Login(email: string, password: string, freshId: string, now: int): (r: User)
    ensures (exists i :: 0 <= i < |MOCK_USERS| && SameEmail(email, MOCK_USERS[i])) ==>
              r in MOCK_USERS && SameEmail(email, r)
    ensures (forall i :: 0 <= i < |MOCK_USERS| ==> !SameEmail(email, MOCK_USERS[i])) ==>
              r.id == freshId && r.email == email && r.name == DEFAULT_NAME && r.phone == DEFAULT_PHONE &&
              !r.isCreator && r.avatar == None && r.createdAt == now
  {
    match Seqs.Find(MOCK_USERS, (u: User) => SameEmail(email, u))
    case Some(u) => u
    case None => User(freshId, DEFAULT_NAME, email, DEFAULT_PHONE, false, None, now)
  }

  /** The login does not depend on the password. */
  lemma LoginIgnoresPassword(email: string, p1: string, p2: string, freshId: string, now: int)
    ensures Login(email, p1, freshId, now) == Login(email, p2, freshId, now)
  {
  }

  /** An e-mail typed in any case that lower-cases to the first user's
      logs in as that user, whatever the password. */
  lemma LoginIsCaseInsensitive(email: string, password: string, freshId: string, now: int)
    requires Text.ToLower(email) == Text.ToLower(MOCK_USERS[0].email)
    ensures Login(email, password, freshId, now) == MOCK_USERS[0]
  {
    assert SameEmail(email, MOCK_USERS[0]);
  }

  /** `quickLogin`: always the first user, who is a creator. */
  function QuickLogin(): (r: User)
    ensures r in MOCK_USERS && r.isCreator && r.id == "user-1"
  {
    MOCK_USERS[0]
  }

  // ---------------------------------------------------------------------
  // What the mutating calls do to the campaign list

  /** `findIndex(c => c.id === id)`. */
  function IndexOfId(cs: seq<Campaign>, id: string): (r: Option<nat>)
    ensures r.Some? ==> r.value < |cs| && cs[r.value].id == id && forall j :: 0 <= j < r.value ==> cs[j].id != id
    ensures r.None? <==> forall j :: 0 <= j < |cs| ==> cs[j].id != id
  {
    Seqs.FindIndex(cs, (c: Campaign) => HasId(id, c))
  }

  /** One campaign after the gateway records an engagement on it: only the
      first need with the id gets the quantity, and the campaign counts one
      more engagement even when no need has the id. */
  function EngagedCampaign(c: Campaign, needId: string, quantity: int): (r: Campaign)
    ensures r.id == c.id && |r.needs| == |c.needs|
    ensures r.totalEngagements == c.totalEngagements + 1
    ensures r.(needs := c.needs, totalEngagements := c.totalEngagements) == c
    ensures forall k :: 0 <= k < |c.needs| ==>
              r.needs[k] == if c.needs[k].id == needId && (forall j :: 0 <= j < k ==> c.needs[j].id != needId)
                            then c.needs[k].(quantityFulfilled := c.needs[k].quantityFulfilled + quantity)
                            else c.needs[k]
  {
    var needs := match Seqs.FindIndex(c.needs, (n: Need) => NeedHasId(needId, n))
                 case None => c.needs
                 case Some(j) => c.needs[j := c.needs[j].(quantityFulfilled := c.needs[j].quantityFulfilled + quantity)];
    c.(needs := needs, totalEngagements := c.totalEngagements + 1)
  }

  /** The campaign list after `createEngagement`: the first campaign with
      the id takes the engagement, no other campaign changes. */
  function EngagementApplied(cs: seq<Campaign>, campaignId: string, needId: string, quantity: int): (r: seq<Campaign>)
    ensures |r| == |cs|
    ensures IndexOfId(cs, campaignId).None? ==> r == cs
    ensures IndexOfId(cs, campaignId).Some? ==>
              var i := IndexOfId(cs, campaignId).value;
              r == cs[i := EngagedCampaign(cs[i], needId, quantity)]
  {
    match IndexOfId(cs, campaignId)
    case None => cs
    case Some(i) => cs[i := EngagedCampaign(cs[i], needId, quantity)]
  }

  /** The campaign list after `updateCampaign`: the first campaign with the
      id is overwritten field by field with what the patch supplies. */
  function Patched(cs: seq<Campaign>, id: string, p: CampaignPatch): (r: seq<Campaign>)
    ensures |r| == |cs|
    ensures IndexOfId(cs, id).None? ==> r == cs
    ensures IndexOfId(cs, id).Some? ==>
              var i := IndexOfId(cs, id).value;
              r == cs[i := PatchCampaign(cs[i], p)]
  {
    match IndexOfId(cs, id)
    case None => cs
    case Some(i) => cs[i := PatchCampaign(cs[i], p)]
  }

  /** The campaign list after `deleteCampaign`: the first campaign with the
      id is spliced out; the others keep their order. */
  function Spliced(cs: seq<Campaign>, id: string): (r: seq<Campaign>)
    ensures IndexOfId(cs, id).None? ==> r == cs
    ensures IndexOfId(cs, id).Some? ==>
              var i := IndexOfId(cs, id).value;
              |r| == |cs| - 1 && r == cs[..i] + cs[i + 1..] && multiset(r) + multiset{cs[i]} == multiset(cs)
  {
    match IndexOfId(cs, id)
    case None => cs
    case Some(i) =>
      assert cs == cs[..i] + [cs[i]] + cs[i + 1..];
      cs[..i] + cs[i + 1..]
  }

  /** The campaign list after `addCampaignUpdate`: the update goes first in
      the updates of the first campaign with the id. */
  function UpdateUnshifted(cs: seq<Campaign>, campaignId: string, u: CampaignUpdate): (r: seq<Campaign>)
    ensures |r| == |cs|
    ensures IndexOfId(cs, campaignId).None? ==> r == cs
    ensures IndexOfId(cs, campaignId).Some? ==>
              var i := IndexOfId(cs, campaignId).value;
              r == cs[i := cs[i].(updates := [u] + cs[i].updates)]
  {
    match IndexOfId(cs, campaignId)
    case None => cs
    case Some(i) => cs[i := cs[i].(updates := [u] + cs[i].updates)]
  }

  /** No two campaigns share an id. */
  predicate UniqueIds(cs: seq<Campaign>)
  {
    forall i, j :: 0 <= i < j < |cs| ==> cs[i].id != cs[j].id
  }

  /** `find(c => c.id === id) || null`. */
  function CampaignWithId(cs: seq<Campaign>, id: string): (r: Option<Campaign>)
    ensures r.Some? ==> r.value in cs && r.value.id == id
    ensures r.Some? ==> exists i :: 0 <= i < |cs| && cs[i] == r.value && forall j :: 0 <= j < i ==> cs[j].id != id
    ensures r.None? <==> forall c :: c in cs ==> c.id != id
  {
    match IndexOfId(cs, id)
    case None => None
    case Some(i) => Some(cs[i])
  }

  /** Creating then fetching: a campaign appended under an id no other
      campaign has is what a lookup of that id returns. */
  lemma CreateThenGet(cs: seq<Campaign>, c: Campaign)
    requires forall x :: x in cs ==> x.id != c.id
    ensures CampaignWithId(cs + [c], c.id) == Some(c)
  {
    var r := cs + [c];
    assert r[|cs|] == c;
    assert forall j :: 0 <= j < |cs| ==> r[j].id != c.id by {
      forall j | 0 <= j < |cs| ensures r[j].id != c.id {
        assert r[j] == cs[j] && cs[j] in cs;
      }
    }
  }

  /** Deleting then fetching: with unique ids, a deleted campaign is gone. */
  lemma DeleteThenGet(cs: seq<Campaign>, id: string)
    requires UniqueIds(cs)
    ensures CampaignWithId(Spliced(cs, id), id) == None
  {
    match IndexOfId(cs, id)
    case None =>
    case Some(i) =>
      var r := Spliced(cs, id);
      forall c | c in r ensures c.id != id {
        var k :| 0 <= k < |r| && r[k] == c;
        if k < i {
          assert r[k] == cs[k];
        } else {
          assert r[k] == cs[k + 1];
        }
      }
  }

  /** Updating then fetching: a patch that leaves the id alone is what a
      lookup of that id returns afterwards. */
  lemma UpdateThenGet(cs: seq<Campaign>, id: string, p: CampaignPatch)
    requires p.id.None?
    ensures IndexOfId(cs, id).Some? ==>
              CampaignWithId(Patched(cs, id, p), id) == Some(PatchCampaign(cs[IndexOfId(cs, id).value], p))
    ensures IndexOfId(cs, id).None? ==> CampaignWithId(Patched(cs, id, p), id) == None
  {
    match IndexOfId(cs, id)
    case None =>
    case Some(i) =>
      var r := Patched(cs, id, p);
      assert forall j :: 0 <= j < i ==> r[j] == cs[j];
      assert r[i].id == id;
  }

  /** Every call other than `createEngagement` leaves the engagement counts
      alone, and `createEngagement` adds exactly one in total, to the first
      campaign with the id, when there is one. */
  lemma EngagementAppliedCounts(cs: seq<Campaign>, campaignId: string, needId: string, quantity: int, k: nat)
    requires k < |cs|
    ensures EngagementApplied(cs, campaignId, needId, quantity)[k].totalEngagements ==
            cs[k].totalEngagements + (if IndexOfId(cs, campaignId) == Some(k) then 1 else 0)
  {
  }

  // ---------------------------------------------------------------------
  // The gateway object

  class FakeApi {
    var campaigns: seq<Campaign>
    var engagements: seq<Engagement>
    const collectionPoints: seq<CollectionPoint>

    /** The gateway as the application starts it, over its seed data. */
    constructor(seedCampaigns: seq<Campaign>, seedEngagements: seq<Engagement>, seedPoints: seq<CollectionPoint>)
      ensures campaigns == seedCampaigns && engagements == seedEngagements && collectionPoints == seedPoints
    {
      campaigns, engagements, collectionPoints := seedCampaigns, seedEngagements, seedPoints;
    }

    /** `getCampaigns`: the gateway's own list. */
    function GetCampaigns(): (r: seq<Campaign>)
      reads this
      ensures r == campaigns
    {
      campaigns
    }

    /** `getCampaignById`: the first campaign with the id, or `null`. */
    function GetCampaignById(id: string): (r: Option<Campaign>)
      reads this
      ensures r.Some? ==> r.value in campaigns && r.value.id == id
      ensures r.Some? ==> exists i :: 0 <= i < |campaigns| && campaigns[i] == r.value &&
                                      forall j :: 0 <= j < i ==> campaigns[j].id != id
      ensures r.None? <==> forall c :: c in campaigns ==> c.id != id
    {
      CampaignWithId(campaigns, id)
    }

    /** `getActiveCampaigns`: by the stored status, not by the dates. */
    function GetActiveCampaigns(): (r: seq<Campaign>)
      reads this
      ensures forall c :: c in r <==> c in campaigns && c.status == Active
      ensures forall c: Campaign :: multiset(r)[c] == if c.status == Active then multiset(campaigns)[c] else 0
      ensures Seqs.Subsequence(r, campaigns)
    {
      Seqs.FilterSpec(campaigns, (c: Campaign) => c.status == Active);
      Seqs.Filter(campaigns, (c: Campaign) => c.status == Active)
    }

    /** `getCampaignsByCategory`: the category is compared as its key. */
    function GetCampaignsByCategory(category: string): (r: seq<Campaign>)
      reads this
      ensures forall c :: c in r <==> c in campaigns && CategoryKey(c.category) == category
      ensures forall c: Campaign :: multiset(r)[c] == if CategoryKey(c.category) == category then multiset(campaigns)[c] else 0
      ensures Seqs.Subsequence(r, campaigns)
    {
      Seqs.FilterSpec(campaigns, (c: Campaign) => CategoryKey(c.category) == category);
      Seqs.Filter(campaigns, (c: Campaign) => CategoryKey(c.category) == category)
    }

    /** `getUserEngagements`: every recorded engagement of the user, in
        recording order. */
    function GetUserEngagements(userId: string): (r: seq<Engagement>)
      reads this
      ensures forall e :: e in r <==> e in engagements && e.userId == userId
      ensures forall e: Engagement :: multiset(r)[e] == if e.userId == userId then multiset(engagements)[e] else 0
      ensures Seqs.Subsequence(r, engagements)
    {
      Seqs.FilterSpec(engagements, (e: Engagement) => e.userId == userId);
      Seqs.Filter(engagements, (e: Engagement) => e.userId == userId)
    }

    function GetCollectionPoints(): (r: seq<CollectionPoint>)
      reads this
      ensures r == collectionPoints
    {
      collectionPoints
    }

    /** `searchCampaigns`: the campaigns whose lower-cased title or
        description contains the lower-cased query. */
    function SearchCampaigns(query: string): (r: seq<Campaign>)
      reads this
      ensures forall c :: c in r <==> c in campaigns && MentionsText(c, query)
      ensures forall c: Campaign :: multiset(r)[c] == if MentionsText(c, query) then multiset(campaigns)[c] else 0
      ensures Seqs.Subsequence(r, campaigns)
    {
      Seqs.FilterSpec(campaigns, (c: Campaign) => MentionsText(c, query));
      Seqs.Filter(campaigns, (c: Campaign) => MentionsText(c, query))
    }

    /** `createCampaign`: the draft gets the fresh id, the instant and no
        engagements, and is appended. */
    method CreateCampaign(d: CampaignDraft, freshId: string, now: int) returns (c: Campaign)
      modifies this`campaigns
      ensures c == FromDraft(d, freshId, now)
      ensures campaigns == old(campaigns) + [c]
    {
      c := FromDraft(d, freshId, now);
      campaigns := campaigns + [c];
    }

    /** `updateCampaign`: the patched campaign, or `null` when no campaign
        has the id. */
    method UpdateCampaign(id: string, p: CampaignPatch) returns (r: Option<Campaign>)
      modifies this`campaigns
      ensures campaigns == Patched(old(campaigns), id, p)
      ensures r.None? <==> IndexOfId(old(campaigns), id).None?
      ensures r.Some? ==> r.value == campaigns[IndexOfId(old(campaigns), id).value]
    {
      var index := IndexOfId(campaigns, id);
      if index.None? {
        return None;
      }
      campaigns := campaigns[index.value := PatchCampaign(campaigns[index.value], p)];
      r := Some(campaigns[index.value]);
    }

    /** `deleteCampaign`: whether a campaign with the id was there to remove. */
    method DeleteCampaign(id: string) returns (ok: bool)
      modifies this`campaigns
      ensures campaigns == Spliced(old(campaigns), id)
      ensures ok <==> IndexOfId(old(campaigns), id).Some?
    {
      var index := IndexOfId(campaigns, id);
      if index.None? {
        return false;
      }
      campaigns := campaigns[..index.value] + campaigns[index.value + 1..];
      ok := true;
    }

    /** `createEngagement`: the engagement is recorded, then applied to the
        first campaign with its id. */
    method CreateEngagement(d: EngagementDraft, freshId: string, now: int) returns (e: Engagement)
      modifies this`campaigns, this`engagements
      ensures e == EngagementFromDraft(d, freshId, now)
      ensures engagements == old(engagements) + [e]
      ensures campaigns == EngagementApplied(old(campaigns), d.campaignId, d.needId, d.quantity)
    {
      e := EngagementFromDraft(d, freshId, now);
      engagements := engagements + [e];
      var index := IndexOfId(campaigns, d.campaignId);
      if index.Some? {
        var i := index.value;
        campaigns := campaigns[i := EngagedCampaign(campaigns[i], d.needId, d.quantity)];
      }
    }

    /** `addCampaignUpdate`: the update is built from the draft (whose own
        campaign id is kept) and put first in the first matching campaign's
        updates; it is returned even when no campaign has the id. */
    method AddCampaignUpdate(campaignId: string, d: UpdateDraft, freshId: string, now: int) returns (u: CampaignUpdate)
      modifies this`campaigns
      ensures u == UpdateFromDraft(d, freshId, now)
      ensures campaigns == UpdateUnshifted(old(campaigns), campaignId, u)
    {
      u := UpdateFromDraft(d, freshId, now);
      var index := IndexOfId(campaigns, campaignId);
      if index.Some? {
        var i := index.value;
        campaigns := campaigns[i := campaigns[i].(updates := [u] + campaigns[i].updates)];
      }
    }
  }
}
