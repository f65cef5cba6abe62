/** What the store shows when its list is the gateway's own array.
    `fetchCampaigns` keeps the array the gateway returns, so until the
    store replaces them, its list, its campaigns, their needs and their
    update lists are the very objects the gateway changes in place. A
    gateway call that mutates one of them is then already visible in the
    store before the store applies the same change to its copy, and the
    change lands twice. Each view below is the store's list as written in
    that situation; the store module itself uses the corrected, value-only
    update, which `Consistency` proves equal to the gateway's change. */
module Aliasing {
  import opened Wrappers
  import opened Models
  import Campaigns
  import Gateway
  import Consistency

  // ---------------------------------------------------------------------
  // An engagement counted twice

  /** The store's list after `createEngagement` while it shares the
      gateway's campaign and need objects: `updateNeedProgress` adds to
      values the gateway has already increased. */
  function SharedEngagementView(cs: seq<Campaign>, campaignId: string, needId: string, quantity: int): (r: seq<Campaign>)
    ensures |r| == |cs|
  {
    Campaigns.ProgressCampaigns(Gateway.EngagementApplied(cs, campaignId, needId, quantity), campaignId, needId, quantity)
  }

  /** With unique ids, the shared view has the matching need at twice the
      quantity and the campaign at two more engagements. */
  lemma SharedEngagementCountsTwice(cs: seq<Campaign>, i: nat, j: nat, quantity: int)
    requires Gateway.UniqueIds(cs) && i < |cs| && Consistency.UniqueNeedIds(cs[i]) && j < |cs[i].needs|
    ensures var r := SharedEngagementView(cs, cs[i].id, cs[i].needs[j].id, quantity);
            |r[i].needs| == |cs[i].needs| &&
            r[i].needs[j].quantityFulfilled == cs[i].needs[j].quantityFulfilled + 2 * quantity &&
            r[i].totalEngagements == cs[i].totalEngagements + 2
  {
    var cid, nid := cs[i].id, cs[i].needs[j].id;
    forall c | c in cs && c.id == cid ensures Consistency.UniqueNeedIds(c) {
      var k :| 0 <= k < |cs| && cs[k] == c;
      assert k == i;
    }
    Consistency.StoreEngagementMatchesGateway(cs, cid, nid, quantity);
    var g := Campaigns.ProgressCampaigns(cs, cid, nid, quantity);
    Campaigns.NeedProgressAdds(cs, cid, nid, quantity, i, j);
    Campaigns.EngagementCountAdds(cs, cid, nid, quantity, i);
    Campaigns.NeedProgressAdds(g, cid, nid, quantity, i, j);
    Campaigns.EngagementCountAdds(g, cid, nid, quantity, i);
  }

  const SAMPLE_NEED := Need("need-1", Material, "Paniers alimentaires", 100, 75, "paniers", None)
  const SAMPLE_CAMPAIGN := Campaign("camp-1", "Ramadan", "Paniers pour les familles", "Aider", Ramadan,
                                    0, 0, Active, "user-1", "Ahmed Bennani", None, [SAMPLE_NEED], [], [], 0, 0)

  /** The witness: a need at 75 of 100 and an engagement of 25. The gateway
      records 100 and one engagement; the shared store view shows 125 and
      two. */
  lemma SharedEngagementExample()
    ensures Gateway.EngagementApplied([SAMPLE_CAMPAIGN], "camp-1", "need-1", 25)[0].needs[0].quantityFulfilled == 100
    ensures Gateway.EngagementApplied([SAMPLE_CAMPAIGN], "camp-1", "need-1", 25)[0].totalEngagements == 1
    ensures SharedEngagementView([SAMPLE_CAMPAIGN], "camp-1", "need-1", 25)[0].needs[0].quantityFulfilled == 125
    ensures SharedEngagementView([SAMPLE_CAMPAIGN], "camp-1", "need-1", 25)[0].totalEngagements == 2
  {
    SharedEngagementCountsTwice([SAMPLE_CAMPAIGN], 0, 0, 25);
    Consistency.StoreEngagementMatchesGateway([SAMPLE_CAMPAIGN], "camp-1", "need-1", 25);
    Campaigns.NeedProgressAdds([SAMPLE_CAMPAIGN], "camp-1", "need-1", 25, 0, 0);
  }

  /** The corrected update on the same witness agrees with the gateway. */
  lemma CorrectedEngagementExample()
    ensures Campaigns.ProgressCampaigns([SAMPLE_CAMPAIGN], "camp-1", "need-1", 25) ==
            Gateway.EngagementApplied([SAMPLE_CAMPAIGN], "camp-1", "need-1", 25)
    ensures Campaigns.ProgressCampaigns([SAMPLE_CAMPAIGN], "camp-1", "need-1", 25)[0].needs[0].quantityFulfilled == 100
  {
    Consistency.StoreEngagementMatchesGateway([SAMPLE_CAMPAIGN], "camp-1", "need-1", 25);
    Campaigns.NeedProgressAdds([SAMPLE_CAMPAIGN], "camp-1", "need-1", 25, 0, 0);
  }

  // ---------------------------------------------------------------------
  // A created campaign listed twice

  /** The store's list after `createCampaign` while it is the gateway's
      array: the gateway has already pushed the campaign onto it when the
      store puts the campaign in front. */
  function SharedCreateView(cs: seq<Campaign>, c: Campaign): (r: seq<Campaign>)
    ensures |r| == |cs| + 2
  {
    [c] + (cs + [c])
  }

  /** A new campaign appears twice in the shared view, once in the
      gateway's list. */
  lemma SharedCreateDuplicates(cs: seq<Campaign>, c: Campaign)
    requires c !in cs
    ensures multiset(SharedCreateView(cs, c))[c] == 2
    ensures multiset(cs + [c])[c] == 1
  {
    assert multiset(cs)[c] == 0;
  }

  /** The store's own update lists the new campaign once, as the gateway
      does. */
  lemma CorrectedCreateOnce(cs: seq<Campaign>, c: Campaign)
    requires c !in cs
    ensures multiset([c] + cs)[c] == 1
    ensures multiset([c] + cs) == multiset(cs + [c])
  {
    assert multiset(cs)[c] == 0;
    Consistency.StoreCreateMatchesGateway(cs, c);
  }

  // ---------------------------------------------------------------------
  // A posted update listed twice

  /** The store's list after `addCampaignUpdate` while the campaign's update
      list is the gateway's: the gateway has already put the update first
      when the store puts it in front again. */
  function SharedUpdateView(cs: seq<Campaign>, campaignId: string, u: CampaignUpdate): (r: seq<Campaign>)
    ensures |r| == |cs|
  {
    Campaigns.PrependUpdate(Gateway.UpdateUnshifted(cs, campaignId, u), campaignId, u)
  }

  /** With unique ids, the shared view starts the campaign's updates with
      the new update twice. */
  lemma SharedUpdateDuplicates(cs: seq<Campaign>, i: nat, u: CampaignUpdate)
    requires Gateway.UniqueIds(cs) && i < |cs|
    ensures SharedUpdateView(cs, cs[i].id, u)[i].updates == [u, u] + cs[i].updates
  {
    Consistency.StoreUpdatePostMatchesGateway(cs, cs[i].id, u);
    assert [u] + ([u] + cs[i].updates) == [u, u] + cs[i].updates;
  }

  /** The store's own update puts the new update first once, as the
      gateway does. */
  lemma CorrectedUpdateOnce(cs: seq<Campaign>, i: nat, u: CampaignUpdate)
    requires Gateway.UniqueIds(cs) && i < |cs|
    ensures Campaigns.PrependUpdate(cs, cs[i].id, u)[i].updates == [u] + cs[i].updates
    ensures Campaigns.PrependUpdate(cs, cs[i].id, u) == Gateway.UpdateUnshifted(cs, cs[i].id, u)
  {
    Consistency.StoreUpdatePostMatchesGateway(cs, cs[i].id, u);
  }
}
