# Waqt Lkhair: campaign, session and notification logic in Dafny

Waqt Lkhair is a mobile application for Moroccan charity campaigns.
Creators publish campaigns, each with a list of needs: material donations or
volunteer work, each with a required and a fulfilled quantity. Participants
sign up against a need (an *engagement*), get thank-you and reminder
notifications, and follow the updates the creator posts.

This project models the application's logic that is not screens:

- the **campaign store**: the in-memory campaign list, the selected campaign,
  the user's engagements, the collection points, the search and category
  filter, and the campaign and engagement entries kept in local storage;
- the **in-memory gateway** that stands in for a server: mock users, the
  campaign list it mutates, and the engagement log;
- the **session store**: the signed-in user, kept in local storage;
- the **notification service's** local log of notifications and the
  messages it schedules;
- the **pure helpers**: campaign status by date, label and colour tables,
  progress percentages, text truncation, and phone and e-mail checks.

Modules and files:

- `Wrappers` (`wrappers.dfy`): `Option`, and `Call<T>`, which is the
  outcome of an awaited call (`Returned(value)` or `Threw`).
- `Seqs` (`seqs.dfy`): `filter`, `find`, `findIndex` and `map`, with
  their laws.
- `Text` (`text.dfy`): `toLowerCase` and `includes`.
- `Models` (`models.dfy`): the entities, the drafts that creation
  receives, and the partial records that updates merge.
- `Helpers` (`helpers.dfy`).
- `Campaigns` (`campaign_store.dfy`), with the class `CampaignStore`.
- `Gateway` (`fake_api.dfy`), with the class `FakeApi`.
- `Auth` (`auth_store.dfy`), with the class `AuthStore`.
- `Notifications` (`notifications.dfy`), with the class `NotificationLog`.
- `Consistency` (`consistency.dfy`): the store's copy of each change
  equals the gateway's own change.
- `Aliasing` (`aliasing.dfy`): the findings below.

Stores and the gateway are classes whose methods update their fields. Their
contracts give the whole new state in terms of pure functions. The
properties are proved about those functions: round trips, idempotence,
commutation, membership and multiplicity, and agreement between store and
gateway.

Several things are method parameters instead of being performed:

- what the gateway answers, or that it threw;
- whether each local-storage read or write succeeds;
- the current instant, the hour of the day, and the identifiers that
  `generateId` would produce.

Notifications that the campaign store asks for are returned as
`NotificationRequest` values, not sent.

## Model

| member | source | states |
|---|---|---|
| `Models.FromDraft` | waqt-lkhair/src_app/services/fakeApi.ts:340-350 | a created campaign has the fresh id, the creation instant and no engagements, and otherwise is exactly its draft (`DraftOf` gives the draft back) |
| `Models.EngagementFromDraft` | waqt-lkhair/src_app/services/fakeApi.ts:368-374 | a recorded engagement carries every field of its draft, plus the fresh id and instant |
| `Models.UpdateFromDraft` | waqt-lkhair/src_app/services/fakeApi.ts:399-405 | a posted update carries its draft's campaign, title, content and image, plus the fresh id and instant |
| `Models.PatchCampaign` | waqt-lkhair/src_app/services/fakeApi.ts:356 | the spread merge, field by field for all sixteen fields: a supplied field wins, an absent one keeps the old value, and the empty patch changes nothing |
| `Models.PatchCampaignIdempotent` | waqt-lkhair/src_app/services/fakeApi.ts:356 | merging the same partial record twice is merging it once |
| `Models.PatchUser` | waqt-lkhair/src_app/store/auth.store.ts:85-92 | the user merge, field by field for all seven fields: supplied fields win, absent ones keep the old value, and the empty patch changes nothing |
| `Text.ToLower` | waqt-lkhair/src_app/services/fakeApi.ts:301 | lower-casing keeps the length and maps each character on its own |
| `Text.Includes` | waqt-lkhair/src_app/services/fakeApi.ts:418-419 | a text can only include a query no longer than itself; the full characterisation is `Text.IncludesIffOccurs` |
| `Text.ToLowerIdempotent` | waqt-lkhair/src_app/services/fakeApi.ts:301 | lower-casing an already lower-cased text changes nothing |
| `Text.IncludesEmpty` | waqt-lkhair/src_app/services/fakeApi.ts:418-419 | every text includes the empty query |
| `Text.IncludesIffOccurs` | waqt-lkhair/src_app/services/fakeApi.ts:416-420 | `includes` holds exactly when the query occurs at some position of the text |
| `Helpers.CampaignStatusAt` | waqt-lkhair/src_app/utils/helpers.ts:29-37 | upcoming iff now is before the start, completed iff after the end, active iff within both dates inclusive |
| `Helpers.Lookup` | waqt-lkhair/src_app/utils/helpers.ts:39-92 | the table's entry for a listed key, the given fallback for any other |
| `Helpers.StatusLabel` | waqt-lkhair/src_app/utils/helpers.ts:39-48 | a known status gets its table label; an unknown one comes back unchanged |
| `Helpers.StatusColor` | waqt-lkhair/src_app/utils/helpers.ts:50-59 | a known status gets its table colour; an unknown one gets the grey fallback |
| `Helpers.CategoryLabel` | waqt-lkhair/src_app/utils/helpers.ts:61-70 | a known category gets its label; an unknown one comes back unchanged |
| `Helpers.CategoryIcon` | waqt-lkhair/src_app/utils/helpers.ts:72-81 | a known category gets its icon; an unknown one gets the heart |
| `Helpers.CategoryColor` | waqt-lkhair/src_app/utils/helpers.ts:83-92 | a known category gets its colour; an unknown one gets the green fallback |
| `Helpers.TablesCoverEnumerations` | waqt-lkhair/src_app/utils/helpers.ts:39-92 | every category and status of the data model has an entry in each of its tables, so no model value falls back |
| `Helpers.Progress` | waqt-lkhair/src_app/utils/helpers.ts:94-97 | a need's progress is at most 100, is 0 when nothing is required, and is never negative for non-negative quantities |
| `Helpers.ProgressPercentage` | waqt-lkhair/src_app/utils/helpers.ts:94-97 | progress is 100 exactly when the need is met, and otherwise is fulfilled/required as a percentage |
| `Helpers.ProgressMonotone` | waqt-lkhair/src_app/utils/helpers.ts:94-97 | fulfilling more never lowers a need's progress |
| `Helpers.CampaignProgress` | waqt-lkhair/src_app/utils/helpers.ts:99-107 | the mean over the needs is 0 for a campaign without needs, never above 100, and never negative for non-negative needs |
| `Helpers.CampaignProgressUniform` | waqt-lkhair/src_app/utils/helpers.ts:99-107 | when every need stands at the same progress, the campaign's progress is that value |
| `Helpers.MeanUniform` | waqt-lkhair/src_app/utils/helpers.ts:102-106 | the sum of k equal values divided by k is that value |
| `Helpers.CampaignProgressExample` | waqt-lkhair/src_app/utils/helpers.ts:99-107 | needs at 40% and 60% give a campaign at 50% |
| `Helpers.NeedTypeLabel` | waqt-lkhair/src_app/utils/helpers.ts:109-111 | a material need is a "Don matériel", a volunteer need "Bénévolat" |
| `Helpers.NeedTypeIcon` | waqt-lkhair/src_app/utils/helpers.ts:113-115 | a material need shows the cube, a volunteer need the people icon |
| `Helpers.TruncateText` | waqt-lkhair/src_app/utils/helpers.ts:117-120 | a text within the limit is unchanged; a longer one is its prefix of the limit's length (0 for a negative limit) followed by three dots |
| `Helpers.TruncateIdempotent` | waqt-lkhair/src_app/utils/helpers.ts:117-120 | truncating a truncated text with the same limit changes nothing |
| `Helpers.Greeting` | waqt-lkhair/src_app/utils/helpers.ts:140-145 | morning before 12, afternoon from 12 to before 18, evening from 18, each as an if-and-only-if |
| `Helpers.FormatPhoneNumber` | waqt-lkhair/src_app/utils/helpers.ts:132-138 | a number without exactly ten digits is returned as typed; one with ten digits becomes 14 characters |
| `Helpers.FormatPhoneShape` | waqt-lkhair/src_app/utils/helpers.ts:132-138 | a formatted number is the ten digits in pairs, in order, separated by single spaces |
| `Helpers.FormatPhoneKeepsDigits` | waqt-lkhair/src_app/utils/helpers.ts:132-138 | formatting never changes the digits of a number |
| `Helpers.FormatPhoneIdempotent` | waqt-lkhair/src_app/utils/helpers.ts:132-138 | formatting a formatted number changes nothing |
| `Helpers.ValidNationalPhoneIsFormatted` | waqt-lkhair/src_app/utils/helpers.ts:127-138 | a number the check accepts in its national form (leading 0) has ten digits, so it is reformatted to 14 characters |
| `Helpers.ValidInternationalPhoneIsKept` | waqt-lkhair/src_app/utils/helpers.ts:127-138 | a number the check accepts in its international form (+212) does not have ten digits, so it is shown as typed |
| `Helpers.PhoneShape` | waqt-lkhair/src_app/utils/helpers.ts:128 | a number of the pattern is ten characters starting with 0, or thirteen starting with + |
| `Helpers.ValidatePhone` | waqt-lkhair/src_app/utils/helpers.ts:127-130 | an accepted number has ten or thirteen characters once whitespace is removed; `ValidNationalPhoneIsFormatted` and `ValidInternationalPhoneIsKept` relate it to the formatting |
| `Helpers.ValidateEmail` | waqt-lkhair/src_app/utils/helpers.ts:122-125 | an accepted address has at least five characters and neither starts nor ends with @; the exact pattern is `ValidateEmailMatchesPattern` |
| `Helpers.ValidateEmailMatchesPattern` | waqt-lkhair/src_app/utils/helpers.ts:122-125 | the check accepts exactly the texts the pattern matches: non-blank, @-free parts around one @ and a later dot |
| `Campaigns.AddToNeed` | waqt-lkhair/src_app/store/campaign.store.ts:252-259 | only the quantity fulfilled of a need can change; its id and every other field stay |
| `Campaigns.WithEngagement` | waqt-lkhair/src_app/store/campaign.store.ts:249-262 | an engaged campaign keeps its id and number of needs, gains exactly one engagement, and changes nothing but its needs and count |
| `Campaigns.ProgressCampaigns` | waqt-lkhair/src_app/store/campaign.store.ts:246-265 | the list keeps its length and ids, and every campaign with another id is unchanged |
| `Campaigns.ProgressSelected` | waqt-lkhair/src_app/store/campaign.store.ts:266-280 | a selection with another id, or no selection, is unchanged |
| `Campaigns.NeedProgressAdds` | waqt-lkhair/src_app/store/campaign.store.ts:246-265 | the matching need of the matching campaign gains exactly the quantity, and every other need keeps its quantity |
| `Campaigns.EngagementCountAdds` | waqt-lkhair/src_app/store/campaign.store.ts:261 | the matching campaign's engagement count goes up by one, and every other count stays |
| `Campaigns.SelectedStaysInSync` | waqt-lkhair/src_app/store/campaign.store.ts:246-280 | a selection that is a copy of a list entry is still a copy of that entry after the update |
| `Campaigns.ProgressCommutes` | waqt-lkhair/src_app/store/campaign.store.ts:246-265 | two engagements leave the same list in either order |
| `Campaigns.ReplaceById` | waqt-lkhair/src_app/store/campaign.store.ts:96-98 | the list keeps its length; entries with the id become the new record and the others stay |
| `Campaigns.ReplaceByIdSpec` | waqt-lkhair/src_app/store/campaign.store.ts:96-98 | after the replacement, every entry with the id is the new record; an absent id changes nothing; replacing twice is replacing once |
| `Campaigns.RemoveById` | waqt-lkhair/src_app/store/campaign.store.ts:117 | no campaign with the id is left and the list does not grow; the rest is `RemoveByIdSpec` |
| `Campaigns.RemoveByIdSpec` | waqt-lkhair/src_app/store/campaign.store.ts:117 | removal keeps exactly the campaigns with another id, each as often and in order, and an absent id changes nothing |
| `Campaigns.PrependUpdate` | waqt-lkhair/src_app/store/campaign.store.ts:199-205 | the update goes first in the updates of campaigns with the id, and everything else is unchanged |
| `Campaigns.PrependUpdateSelected` | waqt-lkhair/src_app/store/campaign.store.ts:206-208 | a matching selection gets the update first; any other selection is unchanged |
| `Campaigns.MatchesFilters` | waqt-lkhair/src_app/store/campaign.store.ts:235-243 | with neither a query nor a category, every campaign passes |
| `Campaigns.FilterCampaigns` | waqt-lkhair/src_app/store/campaign.store.ts:232-244 | every listed campaign matches the query and the category and the list does not grow; the rest is `FilterCampaignsSpec` |
| `Campaigns.FilterCampaignsSpec` | waqt-lkhair/src_app/store/campaign.store.ts:232-244 | a campaign is listed iff it is in the list and matches both the query and the category; it keeps its multiplicity and order; no filter gives the whole list |
| `Campaigns.EngagementNotifications` | waqt-lkhair/src_app/store/campaign.store.ts:143-160 | at most two notifications follow an engagement |
| `Campaigns.EngagementNotificationsSpec` | waqt-lkhair/src_app/store/campaign.store.ts:143-160 | a thank-you is sent iff the campaign and the need are found; a reminder follows it iff a reminder was asked for with a time, and carries the campaign, the label of the first need with the id, and the time |
| `Campaigns.RequestEngagementNotifications` | waqt-lkhair/src_app/store/campaign.store.ts:143-160 | the step-wise notification code asks for exactly the notifications the specification function gives |
| `Campaigns.CampaignStore.constructor` | waqt-lkhair/src_app/store/campaign.store.ts:35-44 | the initial state: nothing loaded, no selection, no filter, no error; storage holds what it held |
| `Campaigns.CampaignStore.FetchCampaigns` | waqt-lkhair/src_app/store/campaign.store.ts:46-60 | the cached list is shown first; the gateway's list replaces it only once it is cached; any failure sets the load error |
| `Campaigns.CampaignStore.FetchCampaignById` | waqt-lkhair/src_app/store/campaign.store.ts:62-72 | the answer, null included, becomes the selection; a failure keeps the selection and sets the error |
| `Campaigns.CampaignStore.CreateCampaign` | waqt-lkhair/src_app/store/campaign.store.ts:74-88 | the new campaign goes first and the list is cached; a failure of either step reports failure with the creation error |
| `Campaigns.CampaignStore.UpdateCampaign` | waqt-lkhair/src_app/store/campaign.store.ts:90-109 | a returned record replaces the campaigns and the selection with the id; null changes nothing; success iff returned and cached |
| `Campaigns.CampaignStore.DeleteCampaign` | waqt-lkhair/src_app/store/campaign.store.ts:111-129 | a confirmed deletion removes every campaign with the id; a declined one changes nothing; the selection is kept |
| `Campaigns.CampaignStore.UpdateNeedProgress` | waqt-lkhair/src_app/store/campaign.store.ts:246-282 | the list and the selection become their progressed versions, and nothing else changes |
| `Campaigns.CampaignStore.CreateEngagement` | waqt-lkhair/src_app/store/campaign.store.ts:131-172 | the engagement is appended, applied to its need, notified and stored; a gateway failure changes nothing; a storage failure keeps the in-memory changes but returns null |
| `Campaigns.CampaignStore.FetchUserEngagements` | waqt-lkhair/src_app/store/campaign.store.ts:174-184 | the list becomes the stored engagements of the user; nothing stored or a failed read leaves it |
| `Campaigns.CampaignStore.FetchCollectionPoints` | waqt-lkhair/src_app/store/campaign.store.ts:186-193 | the points are replaced on success and kept on failure |
| `Campaigns.CampaignStore.AddCampaignUpdate` | waqt-lkhair/src_app/store/campaign.store.ts:195-224 | the update goes first in the matching campaigns and selection; an "update posted" notification is asked for iff the campaign is listed, carrying the update's title, the campaign id and the title of the first listed campaign with the id |
| `Campaigns.CampaignStore.SetSearchQuery` | waqt-lkhair/src_app/store/campaign.store.ts:226 | only the query changes |
| `Campaigns.CampaignStore.SetSelectedCategory` | waqt-lkhair/src_app/store/campaign.store.ts:228 | only the category changes |
| `Campaigns.CampaignStore.ClearError` | waqt-lkhair/src_app/store/campaign.store.ts:230 | only the error is cleared |
| `Campaigns.CampaignStore.GetFilteredCampaigns` | waqt-lkhair/src_app/store/campaign.store.ts:232-244 | every listed campaign is in the store and matches the query and the category; no filter lists everything |
| `Campaigns.EngagementFillsNeed` | waqt-lkhair/src_app/store/campaign.store.ts:246-265 | a 25-unit engagement on a need at 75 of 100 fills it exactly |
| `Campaigns.NoCeilingOnFulfilled` | waqt-lkhair/src_app/store/campaign.store.ts:252-258 | nothing caps a need: an engagement on a full need takes it past its requirement |
| `Gateway.Login` | waqt-lkhair/src_app/services/fakeApi.ts:299-313 | a known e-mail, in any case, gives that user; an unknown one gives a fresh non-creator user with that e-mail and the default name and phone |
| `Gateway.LoginIgnoresPassword` | waqt-lkhair/src_app/services/fakeApi.ts:299-313 | the password never affects the result |
| `Gateway.LoginIsCaseInsensitive` | waqt-lkhair/src_app/services/fakeApi.ts:301 | any spelling of the first user's e-mail that lower-cases to it signs that user in |
| `Gateway.QuickLogin` | waqt-lkhair/src_app/services/fakeApi.ts:315-318 | quick login gives the first mock user, who is a creator |
| `Gateway.IndexOfId` | waqt-lkhair/src_app/services/fakeApi.ts:354 | the index found is the first campaign with the id; none is found iff no campaign has it |
| `Gateway.EngagedCampaign` | waqt-lkhair/src_app/services/fakeApi.ts:377-384 | exactly the first need with the id gains the quantity, every other need is unchanged, the campaign gains one engagement even when no need has the id, and nothing else changes |
| `Gateway.EngagementApplied` | waqt-lkhair/src_app/services/fakeApi.ts:377-384 | only the first campaign with the id changes, and an unknown id leaves the list |
| `Gateway.Patched` | waqt-lkhair/src_app/services/fakeApi.ts:352-358 | only the first campaign with the id is merged with the patch; an unknown id leaves the list |
| `Gateway.Spliced` | waqt-lkhair/src_app/services/fakeApi.ts:360-366 | exactly the first campaign with the id is removed, the rest keep their order; an unknown id leaves the list |
| `Gateway.UpdateUnshifted` | waqt-lkhair/src_app/services/fakeApi.ts:406-409 | only the first campaign with the id gets the update first in its updates |
| `Gateway.CampaignWithId` | waqt-lkhair/src_app/services/fakeApi.ts:327 | the campaign found is the first one with the id; null iff no campaign has the id |
| `Gateway.CreateThenGet` | waqt-lkhair/src_app/services/fakeApi.ts:325-350 | a campaign created under a new id is what fetching that id gives |
| `Gateway.DeleteThenGet` | waqt-lkhair/src_app/services/fakeApi.ts:325-366 | with unique ids, a deleted campaign can no longer be fetched |
| `Gateway.UpdateThenGet` | waqt-lkhair/src_app/services/fakeApi.ts:325-358 | fetching after an update that keeps the id gives the merged record; an unknown id stays unknown |
| `Gateway.EngagementAppliedCounts` | waqt-lkhair/src_app/services/fakeApi.ts:377-384 | an engagement raises the count of the first campaign with the id by one and no other |
| `Gateway.FakeApi.constructor` | waqt-lkhair/src_app/services/fakeApi.ts:23-296 | the gateway starts over its seed campaigns, engagements and collection points |
| `Gateway.FakeApi.GetCampaigns` | waqt-lkhair/src_app/services/fakeApi.ts:320-323 | the answer is exactly the gateway's own list |
| `Gateway.FakeApi.GetCampaignById` | waqt-lkhair/src_app/services/fakeApi.ts:325-328 | the first campaign with the id, or null iff there is none |
| `Gateway.FakeApi.GetActiveCampaigns` | waqt-lkhair/src_app/services/fakeApi.ts:330-333 | exactly the campaigns whose stored status is active, each as often as in the list, in list order |
| `Gateway.FakeApi.GetCampaignsByCategory` | waqt-lkhair/src_app/services/fakeApi.ts:335-338 | exactly the campaigns whose category key is the one asked for, each as often as in the list, in list order |
| `Gateway.FakeApi.GetUserEngagements` | waqt-lkhair/src_app/services/fakeApi.ts:389-392 | exactly the user's engagements, each as often as recorded, in recording order |
| `Gateway.FakeApi.GetCollectionPoints` | waqt-lkhair/src_app/services/fakeApi.ts:394-397 | the seeded collection points |
| `Gateway.FakeApi.SearchCampaigns` | waqt-lkhair/src_app/services/fakeApi.ts:413-421 | exactly the campaigns whose lower-cased title or description includes the lower-cased query, each as often as in the list, in list order |
| `Gateway.FakeApi.CreateCampaign` | waqt-lkhair/src_app/services/fakeApi.ts:340-350 | the campaign built from the draft is appended last |
| `Gateway.FakeApi.UpdateCampaign` | waqt-lkhair/src_app/services/fakeApi.ts:352-358 | the first campaign with the id is merged in place and returned; null iff none has the id |
| `Gateway.FakeApi.DeleteCampaign` | waqt-lkhair/src_app/services/fakeApi.ts:360-366 | the first campaign with the id is spliced out; true iff there was one |
| `Gateway.FakeApi.CreateEngagement` | waqt-lkhair/src_app/services/fakeApi.ts:368-387 | the engagement is logged and applied to the first campaign with the id and its first need with the id |
| `Gateway.FakeApi.AddCampaignUpdate` | waqt-lkhair/src_app/services/fakeApi.ts:399-411 | the update is built and put first in the first campaign with the id |
| `Consistency.EngagedCampaignsAgree` | waqt-lkhair/src_app/store/campaign.store.ts:249-262 | with unique need ids, the store's engagement of a campaign equals the gateway's |
| `Consistency.StoreEngagementMatchesGateway` | waqt-lkhair/src_app/store/campaign.store.ts:246-265 | with unique ids, the store's updated list equals the gateway's list after the same engagement |
| `Consistency.StoreDeleteMatchesGateway` | waqt-lkhair/src_app/store/campaign.store.ts:117 | with unique ids, the store's filter equals the gateway's splice |
| `Consistency.StoreUpdateMatchesGateway` | waqt-lkhair/src_app/store/campaign.store.ts:96-98 | with unique ids, replacing by the gateway's answer equals the gateway's in-place merge |
| `Consistency.StoreUpdatePostMatchesGateway` | waqt-lkhair/src_app/store/campaign.store.ts:199-205 | with unique ids, the store's prepended update equals the gateway's unshift |
| `Consistency.StoreCreateMatchesGateway` | waqt-lkhair/src_app/store/campaign.store.ts:78-81 | the store (first) and the gateway (last) hold the same campaigns, each as often |
| `Consistency.EmptyQueryMatches` | waqt-lkhair/src_app/services/fakeApi.ts:416-420 | the empty query is found in every campaign |
| `Consistency.StoreSearchMatchesGateway` | waqt-lkhair/src_app/store/campaign.store.ts:232-244 | with no category, the store's filter equals the gateway's search, the empty query included |
| `Aliasing.SharedEngagementView` | waqt-lkhair/src_app/store/campaign.store.ts:141 | the store's view of the shared list keeps its length |
| `Aliasing.SharedEngagementCountsTwice` | waqt-lkhair/src_app/store/campaign.store.ts:141 | on the shared list the engaged need gains twice the quantity and the campaign two engagements |
| `Aliasing.SharedEngagementExample` | waqt-lkhair/src_app/services/fakeApi.ts:381-384 | a 25-unit engagement on 75 of 100: the gateway shows 100 and one engagement, the shared store 125 and two |
| `Aliasing.CorrectedEngagementExample` | waqt-lkhair/src_app/store/campaign.store.ts:246-265 | the value-only update shows 100, as the gateway does |
| `Aliasing.SharedCreateView` | waqt-lkhair/src_app/store/campaign.store.ts:78-81 | the shared list after creation is two longer |
| `Aliasing.SharedCreateDuplicates` | waqt-lkhair/src_app/services/fakeApi.ts:348 | a created campaign is listed twice in the shared store and once by the gateway |
| `Aliasing.CorrectedCreateOnce` | waqt-lkhair/src_app/store/campaign.store.ts:78-81 | the value-only creation lists it once, with the gateway's contents |
| `Aliasing.SharedUpdateView` | waqt-lkhair/src_app/store/campaign.store.ts:199-209 | the shared list after posting keeps its length |
| `Aliasing.SharedUpdateDuplicates` | waqt-lkhair/src_app/services/fakeApi.ts:408 | on the shared list the campaign's updates start with the new update twice |
| `Aliasing.CorrectedUpdateOnce` | waqt-lkhair/src_app/store/campaign.store.ts:199-209 | the value-only post puts it first once, as the gateway does |
| `Notifications.Saved` | waqt-lkhair/src_app/services/notification.service.ts:181-190 | the new entry is first, the older ones follow in order, and the log is cut to 50 |
| `Notifications.SavedKeepsShortLog` | waqt-lkhair/src_app/services/notification.service.ts:184-186 | a log under 50 keeps every entry |
| `Notifications.SavedDropsOldest` | waqt-lkhair/src_app/services/notification.service.ts:184-186 | once full, saving drops exactly the oldest entry |
| `Notifications.Removed` | waqt-lkhair/src_app/services/notification.service.ts:197 | no entry with the id is left and the log does not grow; the rest is `RemovedSpec` |
| `Notifications.RemovedSpec` | waqt-lkhair/src_app/services/notification.service.ts:192-202 | removal keeps exactly the entries with another id, as often and in order, and is idempotent |
| `Notifications.MarkedRead` | waqt-lkhair/src_app/services/notification.service.ts:214-227 | the log keeps its length |
| `Notifications.MarkedReadAbsent` | waqt-lkhair/src_app/services/notification.service.ts:214-227 | a log without the id is unchanged |
| `Notifications.MarkedReadFirst` | waqt-lkhair/src_app/services/notification.service.ts:214-227 | exactly the first entry with the id becomes read |
| `Notifications.MarkedReadIdempotent` | waqt-lkhair/src_app/services/notification.service.ts:214-227 | marking twice is marking once |
| `Notifications.ReminderTrigger` | waqt-lkhair/src_app/services/notification.service.ts:101-102 | the reminder fires two hours before the engagement |
| `Notifications.ReminderBody` | waqt-lkhair/src_app/services/notification.service.ts:104-108 | the reminder text quotes the campaign title after its fixed opening and includes the need |
| `Notifications.ThankYouContent` | waqt-lkhair/src_app/services/notification.service.ts:112-130 | the thank-you has its fixed title and names the engagement kind and the campaign |
| `Notifications.UpdateContent` | waqt-lkhair/src_app/services/notification.service.ts:132-152 | the update notification names the campaign in its title, the update as its body, and carries the campaign id |
| `Notifications.ReminderRecord` | waqt-lkhair/src_app/services/notification.service.ts:74-88 | the saved reminder record is an unread reminder for the current user with the platform's identifier and the trigger |
| `Notifications.NotificationLog.constructor` | waqt-lkhair/src_app/services/notification.service.ts:7 | the log is whatever storage holds |
| `Notifications.NotificationLog.StoredNotifications` | waqt-lkhair/src_app/services/notification.service.ts:204-212 | the stored log, or empty when absent or unreadable, never above 50 entries in a valid log |
| `Notifications.NotificationLog.SaveNotification` | waqt-lkhair/src_app/services/notification.service.ts:181-190 | the stored log becomes the saved log, or stays on failure, and keeps within 50 entries |
| `Notifications.NotificationLog.RemoveNotification` | waqt-lkhair/src_app/services/notification.service.ts:192-202 | the stored log loses the id, or stays when absent or on failure |
| `Notifications.NotificationLog.MarkAsRead` | waqt-lkhair/src_app/services/notification.service.ts:214-227 | the stored log has the first entry with the id read, or stays |
| `Notifications.NotificationLog.CancelAllNotifications` | waqt-lkhair/src_app/services/notification.service.ts:163-170 | the stored log is removed once the platform has cancelled everything |
| `Notifications.NotificationLog.CancelNotification` | waqt-lkhair/src_app/services/notification.service.ts:154-161 | the platform cancels the identifier, then the entry with that id leaves the log |
| `Notifications.NotificationLog.ScheduleReminder` | waqt-lkhair/src_app/services/notification.service.ts:49-93 | a trigger not in the future is refused with nothing done; otherwise the platform is asked and, on success, the record is saved and its identifier returned |
| `Notifications.NotificationLog.ScheduleEngagementReminder` | waqt-lkhair/src_app/services/notification.service.ts:95-110 | a reminder two hours before the engagement with the reminder title and text: refused once that moment has passed, null on a platform failure, and otherwise the saved log is the reminder record in front of the old log |
| `Auth.ToggledCreator` | waqt-lkhair/src_app/store/auth.store.ts:94-101 | only the creator flag changes, and it is negated |
| `Auth.ToggleCreatorInvolution` | waqt-lkhair/src_app/store/auth.store.ts:94-101 | toggling twice gives the user back, and toggling is a merge of the negated flag |
| `Auth.MergeUserPatches` | waqt-lkhair/src_app/store/auth.store.ts:85-92 | the empty patch is neutral on either side of a merge |
| `Auth.PatchUserTwice` | waqt-lkhair/src_app/store/auth.store.ts:85-92 | two updates are one update with the merged patch, and repeating an update changes nothing |
| `Auth.AuthStore.constructor` | waqt-lkhair/src_app/store/auth.store.ts:22-26 | the session starts signed out and loading, with storage as it was |
| `Auth.AuthStore.Login` | waqt-lkhair/src_app/store/auth.store.ts:28-43 | success iff the gateway names a user and the store keeps it; null means wrong credentials; only success changes the session |
| `Auth.AuthStore.QuickLogin` | waqt-lkhair/src_app/store/auth.store.ts:45-56 | success iff the gateway answers and the store keeps the user; failure leaves the session with the quick-login error |
| `Auth.AuthStore.Logout` | waqt-lkhair/src_app/store/auth.store.ts:58-66 | the session ends once the stored user is removed; a failed removal keeps it and sets the error |
| `Auth.AuthStore.CheckAuth` | waqt-lkhair/src_app/store/auth.store.ts:68-83 | a readable stored user resumes the session; otherwise the session stays |
| `Auth.AuthStore.UpdateUser` | waqt-lkhair/src_app/store/auth.store.ts:85-92 | the signed-in user and its stored copy become the merge; nobody signed in means nothing to do |
| `Auth.AuthStore.ToggleCreatorMode` | waqt-lkhair/src_app/store/auth.store.ts:94-101 | the signed-in user and its stored copy have the creator flag flipped |
| `Auth.AuthStore.ClearError` | waqt-lkhair/src_app/store/auth.store.ts:103 | only the error is cleared |

## Left out

- Floating point. Progress is computed over exact reals. JavaScript's rounding in `fulfilled / required * 100` and in the mean is not modelled.
- Dates are integers (milliseconds). The reminder offset is a fixed 7,200,000 ms. `setHours(getHours() - 2)` in local time would differ across a daylight-saving change.
- Calendar and text formatting through date-fns (`formatDate`, `formatDateShort`, `formatTime`, `formatRelativeTime`) is not modelled. These are library calls with a French locale.
- `isRamadanPeriod`, `sleep` and `getGreeting`'s clock are not modelled. The greeting takes the hour as a parameter.
- `generateId` (clock and randomness) and the current instant are parameters (`freshId`, `now`).
- Helpers.TruncateText: lengths and cuts are counted in Unicode code points, not in JavaScript's UTF-16 code units, so a text with characters outside the Basic Multilingual Plane (an emoji, say) is cut at a different place than the source cuts it.
- Text.LowerChar: lower-cases ASCII and the Latin-1 capitals only. JavaScript's full Unicode `toLowerCase` is not modelled.
- Helpers.Lookup: the tables are maps over their listed keys. Keys inherited from `Object.prototype` (such as `"constructor"`) are not modelled; in JavaScript they would bypass the fallback.
- JSON serialisation and AsyncStorage are modelled as storage fields plus a success flag per call. Dates that come back from JSON as strings are not modelled.
- The platform notification API (expo-notifications) is left out: permission handling in `initialize`, `getScheduledNotifications`, and the notification handler and listeners. Its scheduling call is an input (`Call<string>`) and its content a returned `Content` value.
- The 400–800 ms artificial delays (`setTimeout`) and the interleaving of concurrent async calls are not modelled. Each store method runs to completion as one step.
- The gateway's mock campaigns, engagements and collection points are constructor parameters rather than literals. Only the two mock users are written out, because `login` and `quickLogin` depend on them.
- Screens, navigation, components and the theme are not modelled.
- Campaigns.CampaignStore.FetchCampaignById: a failure keeps the previous selection, as the store's code does.
- Campaigns.CampaignStore.CreateCampaign: a cache write that fails after the in-memory change keeps the new campaign in the list while returning null with the error set. `updateCampaign`, `deleteCampaign` and `createEngagement` behave the same way.
- Shared object references between the gateway and the store are modelled only in `Aliasing` (see the findings). The store's own operations are the value-only updates.
- Campaigns.EngagementNotifications: its own contract bounds the number of requests; the full description is the lemma `EngagementNotificationsSpec`.
- Helpers.FormatPhoneNumber: its own contract gives the length; the layout is the lemma `FormatPhoneShape`.

## Findings

| source | as written | input that shows it | evidently intended | confidence | as-written member | corrected member |
|---|---|---|---|---|---|---|
| waqt-lkhair/src_app/store/campaign.store.ts:141 | the store adds the engagement to needs that, after `fetchCampaigns` (line 56), are the very objects the gateway has already increased (fakeApi.ts:381-384) | a need at 75 of 100 in freshly fetched campaigns, an engagement of 25: the store shows 125 and two engagements, the gateway 100 and one | the engagement counted once, as the gateway records it | not executed | `Aliasing.SharedEngagementExample` | `Consistency.StoreEngagementMatchesGateway` |
| waqt-lkhair/src_app/store/campaign.store.ts:78-81 | after `fetchCampaigns` the store's list is the gateway's array, onto which the gateway has already pushed the new campaign (fakeApi.ts:348) before the store puts it first | any campaign created right after a fetch | the new campaign listed once | not executed | `Aliasing.SharedCreateDuplicates` | `Aliasing.CorrectedCreateOnce` |
| waqt-lkhair/src_app/store/campaign.store.ts:199-209 | the store prepends the update to an update list that is the gateway's, which has already unshifted it (fakeApi.ts:408) | any update posted on a fetched campaign | the update listed once, first | not executed | `Aliasing.SharedUpdateDuplicates` | `Aliasing.CorrectedUpdateOnce` |
