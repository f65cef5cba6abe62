/** How the store's copies relate to the gateway's list: when every
    campaign has its own id, and every need of a campaign its own id, each
    store action leaves the store's list as the gateway's call leaves the
    gateway's, or (for a creation) with the same campaigns in another
    order. */
module Consistency {
  import opened Wrappers
  import opened Models
  import Seqs
  import Text
  import Campaigns
  import Gateway

  /** No two needs of the campaign share an id. */
  predicate UniqueNeedIds(c: Campaign)
  {
    forall i, j :: 0 <= i < j < |c.needs| ==> c.needs[i].id != c.needs[j].id
  }

  /** With unique need ids, adding to every need with the id is adding to
      the first one. */
  lemma EngagedCampaignsAgree(c: Campaign, needId: string, quantity: int)
    requires UniqueNeedIds(c)
    ensures Campaigns.WithEngagement(c, needId, quantity) == Gateway.EngagedCampaign(c, needId, quantity)
  {
    var a := Campaigns.WithEngagement(c, needId, quantity);
    var b := Gateway.EngagedCampaign(c, needId, quantity);
    match Seqs.FindIndex(c.needs, (n: Need) => NeedHasId(needId, n))
    case None =>
      forall k | 0 <= k < |c.needs| ensures a.needs[k] == b.needs[k] {
        assert !NeedHasId(needId, c.needs[k]);
      }
    case Some(j) =>
      forall k | 0 <= k < |c.needs| ensures a.needs[k] == b.needs[k] {
        if k != j {
          assert c.needs[k].id != c.needs[j].id;
        }
      }
  }

  /** `updateNeedProgress` on the store's list is the gateway's
      `createEngagement` on its own list. */
  lemma StoreEngagementMatchesGateway(cs: seq<Campaign>, campaignId: string, needId: string, quantity: int)
    requires Gateway.UniqueIds(cs)
    requires forall c :: c in cs && c.id == campaignId ==> UniqueNeedIds(c)
    ensures Campaigns.ProgressCampaigns(cs, campaignId, needId, quantity) ==
            Gateway.EngagementApplied(cs, campaignId, needId, quantity)
  {
    var a := Campaigns.ProgressCampaigns(cs, campaignId, needId, quantity);
    var b := Gateway.EngagementApplied(cs, campaignId, needId, quantity);
    match Gateway.IndexOfId(cs, campaignId)
    case None =>
      forall k | 0 <= k < |cs| ensures a[k] == b[k] {
      }
    case Some(i) =>
      forall k | 0 <= k < |cs| ensures a[k] == b[k] {
        if k == i {
          EngagedCampaignsAgree(cs[i], needId, quantity);
        } else {
          assert cs[k].id != cs[i].id;
        }
      }
  }

  /** `deleteCampaign`: filtering out the id is splicing out its one
      campaign. */
  lemma StoreDeleteMatchesGateway(cs: seq<Campaign>, id: string)
    requires Gateway.UniqueIds(cs)
    ensures Campaigns.RemoveById(cs, id) == Gateway.Spliced(cs, id)
  {
    var p := (c: Campaign) => Campaigns.HasOtherId(id, c);
    match Gateway.IndexOfId(cs, id)
    case None =>
      Seqs.FilterAll(cs, p);
    case Some(i) =>
      forall k | 0 <= k < |cs| && k != i ensures p(cs[k]) {
        if k > i {
          assert cs[k].id != cs[i].id;
        }
      }
      Seqs.FilterDropsOne(cs, p, i);
  }

  /** `updateCampaign`: replacing every campaign with the id by the
      gateway's answer is patching its one campaign. */
  lemma StoreUpdateMatchesGateway(cs: seq<Campaign>, id: string, p: CampaignPatch)
    requires Gateway.UniqueIds(cs) && Gateway.IndexOfId(cs, id).Some?
    ensures Campaigns.ReplaceById(cs, id, PatchCampaign(cs[Gateway.IndexOfId(cs, id).value], p)) ==
            Gateway.Patched(cs, id, p)
  {
    var i := Gateway.IndexOfId(cs, id).value;
    var a := Campaigns.ReplaceById(cs, id, PatchCampaign(cs[i], p));
    var b := Gateway.Patched(cs, id, p);
    forall k | 0 <= k < |cs| ensures a[k] == b[k] {
      if k != i {
        assert cs[k].id != cs[i].id;
      }
    }
  }

  /** `addCampaignUpdate`: prepending to every campaign with the id is
      unshifting into its one campaign. */
  lemma StoreUpdatePostMatchesGateway(cs: seq<Campaign>, campaignId: string, u: CampaignUpdate)
    requires Gateway.UniqueIds(cs)
    ensures Campaigns.PrependUpdate(cs, campaignId, u) == Gateway.UpdateUnshifted(cs, campaignId, u)
  {
    var a := Campaigns.PrependUpdate(cs, campaignId, u);
    var b := Gateway.UpdateUnshifted(cs, campaignId, u);
    match Gateway.IndexOfId(cs, campaignId)
    case None =>
    case Some(i) =>
      forall k | 0 <= k < |cs| ensures a[k] == b[k] {
        if k != i {
          assert cs[k].id != cs[i].id;
        }
      }
  }

  /** `createCampaign`: the store puts the new campaign first and the
      gateway last; both hold the same campaigns, each as often. */
  lemma StoreCreateMatchesGateway(cs: seq<Campaign>, c: Campaign)
    ensures multiset([c] + cs) == multiset(cs + [c])
    ensures ([c] + cs)[0] == c && (cs + [c])[|cs|] == c
  {
  }

  /** An empty query is contained in every text. */
  lemma EmptyQueryMatches(c: Campaign)
    ensures MentionsText(c, "")
  {
    Text.IncludesEmpty(Text.ToLower(c.title));
  }

  /** With no category chosen, the store's filtered list is the gateway's
      search result for the same query, the empty query included. */
  lemma StoreSearchMatchesGateway(cs: seq<Campaign>, query: string)
    ensures Campaigns.FilterCampaigns(cs, query, None) ==
            Seqs.Filter(cs, (c: Campaign) => MentionsText(c, query))
  {
    forall c | true
      ensures Campaigns.MatchesFilters(query, None, c) == MentionsText(c, query)
    {
      if query == "" {
        EmptyQueryMatches(c);
      }
    }
    Seqs.FilterCongruent(cs, (c: Campaign) => Campaigns.MatchesFilters(query, None, c),
                         (c: Campaign) => MentionsText(c, query));
  }
}
