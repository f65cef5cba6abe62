/** The campaign store: the in-memory list of campaigns, the selected
    campaign, the user's engagements, the search and category filters, and
    the actions that change them. The records it holds are values: the
    store's copy of a campaign is never the gateway's object (the shared
    references of the running application are the subject of module
    `Aliasing`). Every awaited call is an input: what the gateway returned
    or that it threw, and whether the local cache read or write succeeded. */
module Campaigns {
  import opened Wrappers
  import opened Models
  import Seqs

  // ---------------------------------------------------------------------
  // The pure updaters the actions hand to `set`

  /** One need after an engagement of `quantity` on need `needId`. */
  function AddToNeed(n: Need, needId: string, quantity: int): (r: Need)
    ensures r.id == n.id
    ensures r.(quantityFulfilled := n.quantityFulfilled) == n
  {
    if n.id == needId then n.(quantityFulfilled := n.quantityFulfilled + quantity) else n
  }

  /** A campaign after an engagement: every need with the id gets the
      quantity, and the campaign counts one more engagement. */
  function WithEngagement(c: Campaign, needId: string, quantity: int): (r: Campaign)
    ensures r.id == c.id && |r.needs| == |c.needs|
    ensures r.totalEngagements == c.totalEngagements + 1
    ensures r.(needs := c.needs, totalEngagements := c.totalEngagements) == c
  {
    c.(needs := Seqs.Map(c.needs, (n: Need) => AddToNeed(n, needId, quantity)),
       totalEngagements := c.totalEngagements + 1)
  }

  /** The list copy of `updateNeedProgress`: every campaign with the id
      takes the engagement, every other campaign is left as it was. */
  function ProgressCampaigns(cs: seq<Campaign>, campaignId: string, needId: string, quantity: int): (r: seq<Campaign>)
    ensures |r| == |cs|
    ensures forall i :: 0 <= i < |cs| ==> r[i].id == cs[i].id
    ensures forall i :: 0 <= i < |cs| && cs[i].id != campaignId ==> r[i] == cs[i]
  {
    Seqs.Map(cs, (c: Campaign) => if c.id == campaignId then WithEngagement(c, needId, quantity) else c)
  }

  /** The selected copy of `updateNeedProgress`: changed only when it is
      the campaign the engagement is for. */
  function ProgressSelected(selected: Option<Campaign>, campaignId: string, needId: string, quantity: int): (r: Option<Campaign>)
    ensures r.Some? == selected.Some?
    ensures selected.None? || selected.value.id != campaignId ==> r == selected
  {
    if selected.Some? && selected.value.id == campaignId then Some(WithEngagement(selected.value, needId, quantity))
    else selected
  }

  /** What `updateNeedProgress` does to one need of one campaign in the
      list: exactly `quantity` more when both ids match (with no ceiling at
      `quantityRequired`), nothing otherwise; no other field of the need
      changes. */
  lemma NeedProgressAdds(cs: seq<Campaign>, campaignId: string, needId: string, quantity: int, i: nat, j: nat)
    requires i < |cs| && j < |cs[i].needs|
    ensures var r := ProgressCampaigns(cs, campaignId, needId, quantity);
            var before := cs[i].needs[j];
            |r[i].needs| == |cs[i].needs| &&
            r[i].needs[j].quantityFulfilled ==
              before.quantityFulfilled + (if cs[i].id == campaignId && before.id == needId then quantity else 0) &&
            r[i].needs[j].(quantityFulfilled := before.quantityFulfilled) == before
  {
  }

  /** What `updateNeedProgress` does to a campaign's engagement count:
      exactly one more for the matching campaign, whatever the quantity and
      whether or not a need matched. */
  lemma EngagementCountAdds(cs: seq<Campaign>, campaignId: string, needId: string, quantity: int, i: nat)
    requires i < |cs|
    ensures var r := ProgressCampaigns(cs, campaignId, needId, quantity);
            r[i].totalEngagements == cs[i].totalEngagements + (if cs[i].id == campaignId then 1 else 0) &&
            r[i].(needs := cs[i].needs, totalEngagements := cs[i].totalEngagements) == cs[i]
  {
  }

  /** The selected campaign, when it is a copy of a list entry, stays a copy
      of that entry after `updateNeedProgress`. */
  lemma SelectedStaysInSync(cs: seq<Campaign>, i: nat, campaignId: string, needId: string, quantity: int)
    requires i < |cs|
    ensures ProgressSelected(Some(cs[i]), campaignId, needId, quantity) ==
            Some(ProgressCampaigns(cs, campaignId, needId, quantity)[i])
  {
  }

  /** Two engagements give the same list whichever is applied first. */
  lemma {:induction false} ProgressCommutes(cs: seq<Campaign>, c1: string, n1: string, q1: int, c2: string, n2: string, q2: int)
    ensures ProgressCampaigns(ProgressCampaigns(cs, c1, n1, q1), c2, n2, q2) ==
            ProgressCampaigns(ProgressCampaigns(cs, c2, n2, q2), c1, n1, q1)
  {
    var a := ProgressCampaigns(ProgressCampaigns(cs, c1, n1, q1), c2, n2, q2);
    var b := ProgressCampaigns(ProgressCampaigns(cs, c2, n2, q2), c1, n1, q1);
    forall i | 0 <= i < |cs| ensures a[i] == b[i] {
      var c := cs[i];
      if c.id == c1 && c.id == c2 {
        var x := WithEngagement(WithEngagement(c, n1, q1), n2, q2);
        var y := WithEngagement(WithEngagement(c, n2, q2), n1, q1);
        assert x.needs == y.needs;
      }
    }
  }

  /** `state.campaigns.map(c => c.id === id ? updated : c)`. */
  function ReplaceById(cs: seq<Campaign>, id: string, updated: Campaign): (r: seq<Campaign>)
    ensures |r| == |cs|
    ensures forall i :: 0 <= i < |cs| ==> r[i] == if cs[i].id == id then updated else cs[i]
  {
    Seqs.Map(cs, (c: Campaign) => if c.id == id then updated else c)
  }

  /** After a replacement that keeps the id, no entry with the id differs
      from the new record, and the list is unchanged where the id does not
      occur. */
  lemma ReplaceByIdSpec(cs: seq<Campaign>, id: string, updated: Campaign)
    requires updated.id == id
    ensures forall c :: c in ReplaceById(cs, id, updated) && c.id == id ==> c == updated
    ensures (forall c :: c in cs ==> c.id != id) ==> ReplaceById(cs, id, updated) == cs
    ensures ReplaceById(ReplaceById(cs, id, updated), id, updated) == ReplaceById(cs, id, updated)
  {
  }

  predicate HasOtherId(id: string, c: Campaign)
  {
    c.id != id
  }

  /** `state.campaigns.filter(c => c.id !== id)`. */
  function RemoveById(cs: seq<Campaign>, id: string): (r: seq<Campaign>)
    ensures |r| <= |cs|
    ensures forall i :: 0 <= i < |r| ==> r[i].id != id
  {
    Seqs.Filter(cs, (c: Campaign) => HasOtherId(id, c))
  }

  /** Removal drops every campaign with the id and keeps every other one,
      as often as it occurred and in the same order. */
  lemma RemoveByIdSpec(cs: seq<Campaign>, id: string)
    ensures forall c :: c in RemoveById(cs, id) <==> c in cs && c.id != id
    ensures forall c: Campaign :: c.id != id ==> multiset(RemoveById(cs, id))[c] == multiset(cs)[c]
    ensures Seqs.Subsequence(RemoveById(cs, id), cs)
    ensures (forall c :: c in cs ==> c.id != id) ==> RemoveById(cs, id) == cs
  {
    Seqs.FilterSpec(cs, (c: Campaign) => HasOtherId(id, c));
    if forall c :: c in cs ==> c.id != id {
      Seqs.FilterAll(cs, (c: Campaign) => HasOtherId(id, c));
    }
  }

  /** The list copy of `addCampaignUpdate`: the update goes first in the
      matching campaigns' updates. */
  function PrependUpdate(cs: seq<Campaign>, campaignId: string, u: CampaignUpdate): (r: seq<Campaign>)
    ensures |r| == |cs|
    ensures forall i :: 0 <= i < |cs| ==>
              r[i] == if cs[i].id == campaignId then cs[i].(updates := [u] + cs[i].updates) else cs[i]
  {
    Seqs.Map(cs, (c: Campaign) => if c.id == campaignId then c.(updates := [u] + c.updates) else c)
  }

  /** The selected copy of `addCampaignUpdate`. */
  function PrependUpdateSelected(selected: Option<Campaign>, campaignId: string, u: CampaignUpdate): (r: Option<Campaign>)
    ensures selected.Some? && selected.value.id == campaignId ==>
              r == Some(selected.value.(updates := [u] + selected.value.updates))
    ensures selected.None? || selected.value.id != campaignId ==> r == selected
  {
    if selected.Some? && selected.value.id == campaignId then Some(selected.value.(updates := [u] + selected.value.updates))
    else selected
  }

  // ---------------------------------------------------------------------
  // Search and category filter

  /** `!searchQuery || …`: an empty query matches everything. */
  predicate MatchesSearch(c: Campaign, query: string)
  {
    query == "" || MentionsText(c, query)
  }

  /** `!selectedCategory || campaign.category === selectedCategory`: no
      category, or the empty string, matches everything. */
  predicate MatchesCategory(c: Campaign, category: Option<string>)
  {
    category.None? || category.value == "" || CategoryKey(c.category) == category.value
  }

  /** Both filters at once; with neither set, every campaign passes. */
  predicate MatchesFilters(query: string, category: Option<string>, c: Campaign)
    ensures query == "" && category.None? ==> MatchesFilters(query, category, c)
  {
    MatchesSearch(c, query) && MatchesCategory(c, category)
  }

  /** `getFilteredCampaigns` on given inputs. */
  function FilterCampaigns(cs: seq<Campaign>, query: string, category: Option<string>): (r: seq<Campaign>)
    ensures |r| <= |cs|
    ensures forall i :: 0 <= i < |r| ==> MatchesSearch(r[i], query) && MatchesCategory(r[i], category)
  {
    Seqs.Filter(cs, (c: Campaign) => MatchesFilters(query, category, c))
  }

  /** The filtered list holds exactly the campaigns matching both the query
      and the category, each as often as in the list, in list order; and
      with neither a query nor a category it is the whole list. */
  lemma FilterCampaignsSpec(cs: seq<Campaign>, query: string, category: Option<string>)
    ensures forall c :: c in FilterCampaigns(cs, query, category) <==>
              c in cs && MatchesSearch(c, query) && MatchesCategory(c, category)
    ensures forall c: Campaign :: MatchesFilters(query, category, c) ==>
              multiset(FilterCampaigns(cs, query, category))[c] == multiset(cs)[c]
    ensures Seqs.Subsequence(FilterCampaigns(cs, query, category), cs)
    ensures query == "" && category.None? ==> FilterCampaigns(cs, query, category) == cs
  {
    Seqs.FilterSpec(cs, (c: Campaign) => MatchesFilters(query, category, c));
    if query == "" && category.None? {
      Seqs.FilterAll(cs, (c: Campaign) => MatchesFilters(query, category, c));
    }
  }

  // ---------------------------------------------------------------------
  // Notifications the store asks for

  /** A request to the notification service, recorded rather than sent. */
  datatype NotificationRequest =
    | ThankYouRequest(campaignTitle: string, engagementKind: string)
    | EngagementReminderRequest(campaignTitle: string, needLabel: string, engagementDate: int, campaignId: string)
    | UpdatePostedRequest(campaignTitle: string, updateTitle: string, campaignId: string)

  /** How the thank-you message names the engagement. */
  function EngagementKindLabel(k: EngagementType): string
  {
    if k == Donation then "don" else "engagement bénévole"
  }

  /** The notifications `createEngagement` issues once the engagement is
      applied: a thank-you when both the campaign and its need are in the
      list, then a reminder when one was asked for with a time. */
  function EngagementNotifications(cs: seq<Campaign>, e: Engagement): (r: seq<NotificationRequest>)
    ensures |r| <= 2
  {
    match Seqs.Find(cs, (c: Campaign) => HasId(e.campaignId, c))
    case None => []
    case Some(c) =>
      match Seqs.Find(c.needs, (n: Need) => NeedHasId(e.needId, n))
      case None => []
      case Some(n) =>
        [ThankYouRequest(c.title, EngagementKindLabel(e.kind))] +
        (if e.reminderSet && e.reminderTime.Some?
         then [EngagementReminderRequest(c.title, n.labelText, e.reminderTime.value, c.id)]
         else [])
  }

  /** No notification unless the first campaign with the id has a need with
      the id; then the thank-you names that campaign and the engagement's
      kind, and a reminder for the chosen time follows exactly when a
      reminder was asked for with a time. */
  lemma EngagementNotificationsSpec(cs: seq<Campaign>, e: Engagement)
    ensures var r := EngagementNotifications(cs, e);
            var c := Seqs.Find(cs, (c: Campaign) => HasId(e.campaignId, c));
            (r != [] <==> c.Some? && (exists n :: n in c.value.needs && n.id == e.needId)) &&
            (r != [] ==> c.value.id == e.campaignId && r[0] == ThankYouRequest(c.value.title, EngagementKindLabel(e.kind))) &&
            (|r| == 2 <==> r != [] && e.reminderSet && e.reminderTime.Some?) &&
            (|r| == 2 ==> r[1].EngagementReminderRequest? && r[1].engagementDate == e.reminderTime.value &&
                          r[1].campaignId == e.campaignId && r[1].campaignTitle == c.value.title &&
                          r[1].needLabel == Seqs.Find(c.value.needs, (n: Need) => NeedHasId(e.needId, n)).value.labelText)
  {
    var c := Seqs.Find(cs, (c: Campaign) => HasId(e.campaignId, c));
    if c.Some? {
      var n := Seqs.Find(c.value.needs, (n: Need) => NeedHasId(e.needId, n));
      if n.None? {
        forall m | m in c.value.needs ensures m.id != e.needId {
          var k :| 0 <= k < |c.value.needs| && c.value.needs[k] == m;
          assert !NeedHasId(e.needId, c.value.needs[k]);
        }
      }
    }
  }

  /** The notification step of `createEngagement`, in the order it runs:
      look up the campaign, then the need, ask for the thank-you, then for
      the reminder when one was chosen. */
  method RequestEngagementNotifications(cs: seq<Campaign>, e: Engagement) returns (requests: seq<NotificationRequest>)
    ensures requests == EngagementNotifications(cs, e)
  {
    requests := [];
    var campaign := Seqs.Find(cs, (c: Campaign) => HasId(e.campaignId, c));
    if campaign.None? {
      return;
    }
    var need := Seqs.Find(campaign.value.needs, (n: Need) => NeedHasId(e.needId, n));
    if need.None? {
      return;
    }
    requests := requests + [ThankYouRequest(campaign.value.title, EngagementKindLabel(e.kind))];
    if e.reminderSet && e.reminderTime.Some? {
      requests := requests + [EngagementReminderRequest(campaign.value.title, need.value.labelText,
                                                        e.reminderTime.value, campaign.value.id)];
    }
  }

  // ---------------------------------------------------------------------
  // The store

  const LOAD_ERROR := "Erreur de chargement des campagnes"
  const LOAD_ONE_ERROR := "Erreur de chargement de la campagne"
  const CREATE_ERROR := "Erreur de création de campagne"
  const UPDATE_ERROR := "Erreur de mise à jour"
  const DELETE_ERROR := "Erreur de suppression"
  const ENGAGEMENT_ERROR := "Erreur de création d'engagement"

  class CampaignStore {
    var campaigns: seq<Campaign>
    var userEngagements: seq<Engagement>
    var collectionPoints: seq<CollectionPoint>
    var selectedCampaign: Option<Campaign>
    var isLoading: bool
    var error: Option<string>
    var searchQuery: string
    var selectedCategory: Option<string>
    /** The cached campaign list and the stored engagement list, the two
        local-storage entries this store reads and writes. */
    var campaignsCache: Option<seq<Campaign>>
    var engagementsCache: Option<seq<Engagement>>

    /** A fresh store over whatever an earlier session left in storage. */
    constructor(cachedCampaigns: Option<seq<Campaign>>, storedEngagements: Option<seq<Engagement>>)
      ensures campaigns == [] && userEngagements == [] && collectionPoints == []
      ensures selectedCampaign == None && !isLoading && error == None
      ensures searchQuery == "" && selectedCategory == None
      ensures campaignsCache == cachedCampaigns && engagementsCache == storedEngagements
    {
      campaigns, userEngagements, collectionPoints := [], [], [];
      selectedCampaign, isLoading, error := None, false, None;
      searchQuery, selectedCategory := "", None;
      campaignsCache, engagementsCache := cachedCampaigns, storedEngagements;
    }

    /** `fetchCampaigns`: show the cached list if it can be read, then take
        the gateway's list once it is also written to the cache. Any failure
        leaves what is shown and sets the error. */
    method FetchCampaigns(cacheReadOk: bool, reply: Call<seq<Campaign>>, cacheWriteOk: bool)
      modifies this
      ensures var shown := if cacheReadOk && old(campaignsCache).Some? then old(campaignsCache).value else old(campaigns);
              if cacheReadOk && reply.Returned? && cacheWriteOk
              then campaigns == reply.value && campaignsCache == Some(reply.value) && error == None
              else campaigns == shown && campaignsCache == old(campaignsCache) && error == Some(LOAD_ERROR)
      ensures !isLoading
      ensures userEngagements == old(userEngagements) && collectionPoints == old(collectionPoints)
      ensures selectedCampaign == old(selectedCampaign) && engagementsCache == old(engagementsCache)
      ensures searchQuery == old(searchQuery) && selectedCategory == old(selectedCategory)
    {
      isLoading, error := true, None;
      if !cacheReadOk {
        error, isLoading := Some(LOAD_ERROR), false;
        return;
      }
      if campaignsCache.Some? {
        campaigns := campaignsCache.value;
      }
      if reply.Threw? || !cacheWriteOk {
        error, isLoading := Some(LOAD_ERROR), false;
        return;
      }
      campaignsCache := Some(reply.value);
      campaigns, isLoading := reply.value, false;
    }

    /** `fetchCampaignById`: the gateway's answer becomes the selection,
        `null` included; a failure keeps the selection and sets the error. */
    method FetchCampaignById(reply: Call<Option<Campaign>>) returns (r: Option<Campaign>)
      modifies this
      ensures reply.Returned? ==> r == reply.value && selectedCampaign == reply.value && error == None
      ensures reply.Threw? ==> r == None && selectedCampaign == old(selectedCampaign) && error == Some(LOAD_ONE_ERROR)
      ensures !isLoading
      ensures campaigns == old(campaigns) && userEngagements == old(userEngagements)
      ensures collectionPoints == old(collectionPoints) && campaignsCache == old(campaignsCache)
      ensures engagementsCache == old(engagementsCache)
      ensures searchQuery == old(searchQuery) && selectedCategory == old(selectedCategory)
    {
      isLoading, error := true, None;
      match reply {
        case Threw =>
          error, isLoading := Some(LOAD_ONE_ERROR), false;
          r := None;
        case Returned(c) =>
          selectedCampaign, isLoading := c, false;
          r := c;
      }
    }

    /** `createCampaign`: the new campaign goes first in the list and the
        list is cached. A cache failure after that keeps the new campaign in
        the list but reports failure. */
    method CreateCampaign(reply: Call<Campaign>, cacheWriteOk: bool) returns (r: Option<Campaign>)
      modifies this
      ensures reply.Threw? ==> r == None && campaigns == old(campaigns) && error == Some(CREATE_ERROR)
      ensures reply.Returned? ==> campaigns == [reply.value] + old(campaigns)
      ensures reply.Returned? && cacheWriteOk ==> r == Some(reply.value) && error == None && campaignsCache == Some(campaigns)
      ensures reply.Returned? && !cacheWriteOk ==> r == None && error == Some(CREATE_ERROR)
      ensures !(reply.Returned? && cacheWriteOk) ==> campaignsCache == old(campaignsCache)
      ensures !isLoading
      ensures selectedCampaign == old(selectedCampaign) && userEngagements == old(userEngagements)
      ensures collectionPoints == old(collectionPoints) && engagementsCache == old(engagementsCache)
      ensures searchQuery == old(searchQuery) && selectedCategory == old(selectedCategory)
    {
      isLoading, error := true, None;
      if reply.Threw? {
        error, isLoading := Some(CREATE_ERROR), false;
        return None;
      }
      campaigns, isLoading := [reply.value] + campaigns, false;
      if !cacheWriteOk {
        error, isLoading := Some(CREATE_ERROR), false;
        return None;
      }
      campaignsCache := Some(campaigns);
      r := Some(reply.value);
    }

    /** `updateCampaign`: a returned record replaces every campaign with
        the id, and the selection when it has the id; `null` changes nothing
        and reports failure. */
    method UpdateCampaign(id: string, reply: Call<Option<Campaign>>, cacheWriteOk: bool) returns (ok: bool)
      modifies this
      ensures ok <==> reply.Returned? && reply.value.Some? && cacheWriteOk
      ensures reply.Returned? && reply.value.Some? ==>
                campaigns == ReplaceById(old(campaigns), id, reply.value.value) &&
                selectedCampaign == (if old(selectedCampaign).Some? && old(selectedCampaign).value.id == id
                                     then reply.value else old(selectedCampaign))
      ensures !(reply.Returned? && reply.value.Some?) ==>
                campaigns == old(campaigns) && selectedCampaign == old(selectedCampaign)
      ensures campaignsCache == if ok then Some(campaigns) else old(campaignsCache)
      ensures error == if reply.Threw? || (reply.value.Some? && !cacheWriteOk) then Some(UPDATE_ERROR) else None
      ensures !isLoading
      ensures userEngagements == old(userEngagements) && collectionPoints == old(collectionPoints)
      ensures engagementsCache == old(engagementsCache)
      ensures searchQuery == old(searchQuery) && selectedCategory == old(selectedCategory)
    {
      isLoading, error := true, None;
      if reply.Threw? {
        error, isLoading := Some(UPDATE_ERROR), false;
        return false;
      }
      if reply.value.None? {
        isLoading := false;
        return false;
      }
      var updated := reply.value.value;
      campaigns := ReplaceById(campaigns, id, updated);
      if selectedCampaign.Some? && selectedCampaign.value.id == id {
        selectedCampaign := Some(updated);
      }
      isLoading := false;
      if !cacheWriteOk {
        error, isLoading := Some(UPDATE_ERROR), false;
        return false;
      }
      campaignsCache := Some(campaigns);
      ok := true;
    }

    /** `deleteCampaign`: when the gateway confirms, every campaign with the
        id leaves the list (the selection is kept as it is); when it
        declines, nothing changes. */
    method DeleteCampaign(id: string, reply: Call<bool>, cacheWriteOk: bool) returns (ok: bool)
      modifies this
      ensures ok <==> reply == Returned(true) && cacheWriteOk
      ensures campaigns == if reply == Returned(true) then RemoveById(old(campaigns), id) else old(campaigns)
      ensures campaignsCache == if ok then Some(campaigns) else old(campaignsCache)
      ensures error == if reply.Threw? || (reply == Returned(true) && !cacheWriteOk) then Some(DELETE_ERROR) else None
      ensures !isLoading
      ensures selectedCampaign == old(selectedCampaign) && userEngagements == old(userEngagements)
      ensures collectionPoints == old(collectionPoints) && engagementsCache == old(engagementsCache)
      ensures searchQuery == old(searchQuery) && selectedCategory == old(selectedCategory)
    {
      isLoading, error := true, None;
      if reply.Threw? {
        error, isLoading := Some(DELETE_ERROR), false;
        return false;
      }
      if !reply.value {
        isLoading := false;
        return false;
      }
      campaigns, isLoading := RemoveById(campaigns, id), false;
      if !cacheWriteOk {
        error, isLoading := Some(DELETE_ERROR), false;
        return false;
      }
      campaignsCache := Some(campaigns);
      ok := true;
    }

    /** `updateNeedProgress`: the engagement's quantity and one more
        engagement, in the list and in the selection alike. */
    method UpdateNeedProgress(campaignId: string, needId: string, quantity: int)
      modifies this
      ensures campaigns == ProgressCampaigns(old(campaigns), campaignId, needId, quantity)
      ensures selectedCampaign == ProgressSelected(old(selectedCampaign), campaignId, needId, quantity)
      ensures userEngagements == old(userEngagements) && collectionPoints == old(collectionPoints)
      ensures isLoading == old(isLoading) && error == old(error)
      ensures campaignsCache == old(campaignsCache) && engagementsCache == old(engagementsCache)
      ensures searchQuery == old(searchQuery) && selectedCategory == old(selectedCategory)
    {
      campaigns := ProgressCampaigns(campaigns, campaignId, needId, quantity);
      selectedCampaign := ProgressSelected(selectedCampaign, campaignId, needId, quantity);
    }

    /** `createEngagement`: the stored engagement is appended to the user's
        list and applied to its need; the notifications are requested; then
        the engagement is appended to the stored list. A gateway failure
        changes nothing; a storage failure after that keeps the in-memory
        changes but returns `null` with the error set. */
    method CreateEngagement(reply: Call<Engagement>, storageOk: bool)
      returns (r: Option<Engagement>, requests: seq<NotificationRequest>)
      modifies this
      ensures reply.Threw? ==>
                r == None && requests == [] && error == Some(ENGAGEMENT_ERROR) &&
                campaigns == old(campaigns) && selectedCampaign == old(selectedCampaign) &&
                userEngagements == old(userEngagements) && engagementsCache == old(engagementsCache)
      ensures reply.Returned? ==> userEngagements == old(userEngagements) + [reply.value]
      ensures reply.Returned? ==>
                campaigns == ProgressCampaigns(old(campaigns), reply.value.campaignId, reply.value.needId, reply.value.quantity)
      ensures reply.Returned? ==>
                selectedCampaign == ProgressSelected(old(selectedCampaign), reply.value.campaignId, reply.value.needId, reply.value.quantity)
      ensures reply.Returned? ==> requests == EngagementNotifications(campaigns, reply.value)
      ensures reply.Returned? && storageOk ==>
                r == Some(reply.value) && error == None &&
                engagementsCache == Some(old(engagementsCache).GetOr([]) + [reply.value])
      ensures reply.Returned? && !storageOk ==>
                r == None && error == Some(ENGAGEMENT_ERROR) && engagementsCache == old(engagementsCache)
      ensures !isLoading
      ensures collectionPoints == old(collectionPoints) && campaignsCache == old(campaignsCache)
      ensures searchQuery == old(searchQuery) && selectedCategory == old(selectedCategory)
    {
      isLoading, error := true, None;
      if reply.Threw? {
        error, isLoading := Some(ENGAGEMENT_ERROR), false;
        return None, [];
      }
      var e := reply.value;
      userEngagements, isLoading := userEngagements + [e], false;
      UpdateNeedProgress(e.campaignId, e.needId, e.quantity);
      requests := RequestEngagementNotifications(campaigns, e);
      if !storageOk {
        error, isLoading := Some(ENGAGEMENT_ERROR), false;
        return None, requests;
      }
      var stored := engagementsCache.GetOr([]);
      engagementsCache := Some(stored + [e]);
      r := Some(e);
    }

    /** `fetchUserEngagements`: the user's engagements are read from local
        storage, not from the gateway; nothing stored or a failed read
        leaves the list as it was. */
    method FetchUserEngagements(userId: string, cacheReadOk: bool)
      modifies this
      ensures cacheReadOk && engagementsCache.Some? ==>
                userEngagements == Seqs.Filter(engagementsCache.value, (e: Engagement) => e.userId == userId)
      ensures !(cacheReadOk && engagementsCache.Some?) ==> userEngagements == old(userEngagements)
      ensures forall e :: e in userEngagements && !(e in old(userEngagements)) ==> e.userId == userId
      ensures campaigns == old(campaigns) && selectedCampaign == old(selectedCampaign)
      ensures collectionPoints == old(collectionPoints) && isLoading == old(isLoading) && error == old(error)
      ensures campaignsCache == old(campaignsCache) && engagementsCache == old(engagementsCache)
      ensures searchQuery == old(searchQuery) && selectedCategory == old(selectedCategory)
    {
      if cacheReadOk && engagementsCache.Some? {
        userEngagements := Seqs.Filter(engagementsCache.value, (e: Engagement) => e.userId == userId);
      }
    }

    /** `fetchCollectionPoints`: replace the points; a failure is logged only. */
    method FetchCollectionPoints(reply: Call<seq<CollectionPoint>>)
      modifies this`collectionPoints
      ensures collectionPoints == if reply.Returned? then reply.value else old(collectionPoints)
    {
      if reply.Returned? {
        collectionPoints := reply.value;
      }
    }

    /** `addCampaignUpdate`: the gateway's update goes first in the updates
        of the matching campaigns and of the selection when it matches; an
        "update posted" notification follows when the campaign is in the
        list. Neither the loading flag nor the error is touched. */
    method AddCampaignUpdate(campaignId: string, reply: Call<CampaignUpdate>)
      returns (ok: bool, request: Option<NotificationRequest>)
      modifies this
      ensures ok == reply.Returned?
      ensures reply.Threw? ==> campaigns == old(campaigns) && selectedCampaign == old(selectedCampaign) && request == None
      ensures reply.Returned? ==>
                campaigns == PrependUpdate(old(campaigns), campaignId, reply.value) &&
                selectedCampaign == PrependUpdateSelected(old(selectedCampaign), campaignId, reply.value) &&
                (request.Some? <==> exists c :: c in campaigns && c.id == campaignId) &&
                (request.Some? ==> request.value.UpdatePostedRequest? &&
                                   request.value.updateTitle == reply.value.title &&
                                   request.value.campaignId == campaignId &&
                                   request.value.campaignTitle == Seqs.Find(campaigns, (c: Campaign) => HasId(campaignId, c)).value.title)
      ensures userEngagements == old(userEngagements) && collectionPoints == old(collectionPoints)
      ensures isLoading == old(isLoading) && error == old(error)
      ensures campaignsCache == old(campaignsCache) && engagementsCache == old(engagementsCache)
      ensures searchQuery == old(searchQuery) && selectedCategory == old(selectedCategory)
    {
      if reply.Threw? {
        return false, None;
      }
      var u := reply.value;
      campaigns := PrependUpdate(campaigns, campaignId, u);
      selectedCampaign := PrependUpdateSelected(selectedCampaign, campaignId, u);
      var found := Seqs.Find(campaigns, (c: Campaign) => HasId(campaignId, c));
      request := if found.Some? then Some(UpdatePostedRequest(found.value.title, u.title, campaignId)) else None;
      ok := true;
    }

    method SetSearchQuery(query: string)
      modifies this`searchQuery
      ensures searchQuery == query
    {
      searchQuery := query;
    }

    method SetSelectedCategory(category: Option<string>)
      modifies this`selectedCategory
      ensures selectedCategory == category
    {
      selectedCategory := category;
    }

    method ClearError()
      modifies this`error
      ensures error == None
    {
      error := None;
    }

    /** `getFilteredCampaigns`: reads the state and changes nothing, so two
        calls on the same state give the same list. */
    function GetFilteredCampaigns(): (r: seq<Campaign>)
      reads this
      ensures forall c :: c in r ==> c in campaigns && MatchesSearch(c, searchQuery) && MatchesCategory(c, selectedCategory)
      ensures searchQuery == "" && selectedCategory.None? ==> r == campaigns
    {
      FilterCampaignsSpec(campaigns, searchQuery, selectedCategory);
      FilterCampaigns(campaigns, searchQuery, selectedCategory)
    }
  }

  /** The acknowledgement scenario: an engagement of 25 on a need of 100
      already at 75 brings it to exactly 100, i.e. full. */
  lemma EngagementFillsNeed(cs: seq<Campaign>, i: nat, j: nat, q: int)
    requires i < |cs| && j < |cs[i].needs|
    requires cs[i].needs[j].quantityRequired == 100 && cs[i].needs[j].quantityFulfilled == 75 && q == 25
    ensures ProgressCampaigns(cs, cs[i].id, cs[i].needs[j].id, q)[i].needs[j].quantityFulfilled == 100
  {
  }

  /** Nothing caps a need at its requirement: a further engagement on a
      full need takes it past `quantityRequired`. */
  lemma NoCeilingOnFulfilled(cs: seq<Campaign>, i: nat, j: nat, q: int)
    requires i < |cs| && j < |cs[i].needs|
    requires cs[i].needs[j].quantityFulfilled >= cs[i].needs[j].quantityRequired && q > 0
    ensures ProgressCampaigns(cs, cs[i].id, cs[i].needs[j].id, q)[i].needs[j].quantityFulfilled >
            cs[i].needs[j].quantityRequired
  {
  }
}
