/** The notification service's log: the list of notifications kept in local
    storage, newest first and at most fifty long, and the reminders that
    add to it. The platform's scheduler is outside the model: what the
    service would ask it for is returned, and what it answers (an
    identifier, or a failure) is an input, as are the outcomes of the
    storage reads and writes and the current instant. */
module Notifications {
  import opened Wrappers
  import opened Models
  import Seqs
  import Text

  const MAX_STORED := 50
  const TWO_HOURS := 2 * 60 * 60 * 1000
  const REMINDER_TITLE := "⏰ Rappel d'engagement"
  const THANK_YOU_TITLE := "💚 Merci pour votre générosité !"
  const CURRENT_USER := "current"

  // ---------------------------------------------------------------------
  // The stored list

  /** `saveNotification`: the new entry first, then the older ones, cut to
      the first fifty. */
  function Saved(log: seq<Notification>, n: Notification): (r: seq<Notification>)
    ensures 1 <= |r| <= MAX_STORED && r[0] == n
    ensures |r| == if |log| < MAX_STORED then |log| + 1 else MAX_STORED
    ensures r[1..] == log[..|r| - 1]
  {
    var all := [n] + log;
    if |all| <= MAX_STORED then all else all[..MAX_STORED]
  }

  /** A log that fits keeps all of its entries behind the new one. */
  lemma SavedKeepsShortLog(log: seq<Notification>, n: Notification)
    requires |log| < MAX_STORED
    ensures Saved(log, n) == [n] + log
  {
  }

  /** Once the log is full, saving drops exactly the oldest entry. */
  lemma SavedDropsOldest(log: seq<Notification>, n: Notification)
    requires |log| == MAX_STORED
    ensures Saved(log, n) == [n] + log[..MAX_STORED - 1]
    ensures multiset(Saved(log, n)) + multiset{log[MAX_STORED - 1]} == multiset(log) + multiset{n}
  {
    assert log == log[..MAX_STORED - 1] + [log[MAX_STORED - 1]];
  }

  predicate HasOtherNotificationId(id: string, n: Notification)
  {
    n.id != id
  }

  /** `removeNotification`: every entry with the id goes. */
  function Removed(log: seq<Notification>, id: string): (r: seq<Notification>)
    ensures |r| <= |log|
    ensures forall i :: 0 <= i < |r| ==> r[i].id != id
  {
    Seqs.Filter(log, (n: Notification) => HasOtherNotificationId(id, n))
  }

  /** Removal keeps exactly the entries with another id, as often and in
      the same order, and removing again changes nothing. */
  lemma RemovedSpec(log: seq<Notification>, id: string)
    ensures forall n :: n in Removed(log, id) <==> n in log && n.id != id
    ensures forall n: Notification :: n.id != id ==> multiset(Removed(log, id))[n] == multiset(log)[n]
    ensures Seqs.Subsequence(Removed(log, id), log)
    ensures Removed(Removed(log, id), id) == Removed(log, id)
  {
    var p := (n: Notification) => HasOtherNotificationId(id, n);
    Seqs.FilterSpec(log, p);
    Seqs.FilterFilter(log, p, p);
  }

  predicate HasNotificationId(id: string, n: Notification)
  {
    n.id == id
  }

  /** `markAsRead`: the first entry with the id, and no other, is read. */
  function MarkedRead(log: seq<Notification>, id: string): (r: seq<Notification>)
    ensures |r| == |log|
  {
    match Seqs.FindIndex(log, (n: Notification) => HasNotificationId(id, n))
    case None => log
    case Some(i) => log[i := log[i].(read := true)]
  }

  /** A log without the id is left as it is. */
  lemma MarkedReadAbsent(log: seq<Notification>, id: string)
    requires forall k :: 0 <= k < |log| ==> log[k].id != id
    ensures MarkedRead(log, id) == log
  {
    var p := (n: Notification) => HasNotificationId(id, n);
    assert forall k :: 0 <= k < |log| ==> !p(log[k]);
  }

  /** When `k` is the first entry with the id, that entry becomes read and
      keeps everything else, and every other entry, later duplicates of the
      id included, is unchanged. */
  lemma MarkedReadFirst(log: seq<Notification>, id: string, k: nat)
    requires k < |log| && log[k].id == id && forall j :: 0 <= j < k ==> log[j].id != id
    ensures MarkedRead(log, id) == log[k := log[k].(read := true)]
  {
    var p := (n: Notification) => HasNotificationId(id, n);
    assert forall j :: 0 <= j < k ==> !p(log[j]);
    assert p(log[k]);
  }

  /** Marking twice is marking once. */
  lemma MarkedReadIdempotent(log: seq<Notification>, id: string)
    ensures MarkedRead(MarkedRead(log, id), id) == MarkedRead(log, id)
  {
    var p := (n: Notification) => HasNotificationId(id, n);
    match Seqs.FindIndex(log, p)
    case None =>
      MarkedReadAbsent(log, id);
    case Some(i) =>
      var r := MarkedRead(log, id);
      assert forall j :: 0 <= j < i ==> !p(log[j]);
      assert forall j :: 0 <= j < i ==> r[j].id != id;
      MarkedReadFirst(r, id, i);
      assert r[i := r[i].(read := true)] == r;
  }

  // ---------------------------------------------------------------------
  // Reminders and messages

  /** `scheduleEngagementReminder`'s trigger: two hours before the
      engagement, in milliseconds. */
  function ReminderTrigger(engagementDate: int): (r: int)
    ensures r + TWO_HOURS == engagementDate && r < engagementDate
  {
    engagementDate - TWO_HOURS
  }

  /** The reminder's text: the campaign's title in quotes, then the need. */
  function ReminderBody(campaignTitle: string, needLabel: string): (r: string)
    ensures Text.OccursAt(r, campaignTitle, 37)
    ensures Text.Includes(r, needLabel)
  {
    var prefix := "N'oubliez pas votre engagement pour \"";
    var r := prefix + campaignTitle + "\" - " + needLabel;
    assert |prefix| == 37;
    assert r[37..37 + |campaignTitle|] == campaignTitle;
    assert r[|r| - |needLabel|..] == needLabel;
    Text.OccursIncludes(r, needLabel, |r| - |needLabel|);
    r
  }

  /** The text of a notification handed to the platform. */
  datatype Content = Content(title: string, body: string, campaignId: Option<string>)

  /** `sendThankYouNotification`'s message names the engagement kind and
      the campaign. */
  function ThankYouContent(campaignTitle: string, engagementKind: string): (r: Content)
    ensures r.title == THANK_YOU_TITLE && r.campaignId == None
    ensures Text.Includes(r.body, campaignTitle) && Text.Includes(r.body, engagementKind)
  {
    var prefix := "Votre " + engagementKind + " pour \"";
    var body := prefix + campaignTitle + "\" a bien été enregistré. Baraka Allahou fik !";
    assert body[6..6 + |engagementKind|] == engagementKind;
    assert body[|prefix|..|prefix| + |campaignTitle|] == campaignTitle;
    Text.OccursIncludes(body, engagementKind, 6);
    Text.OccursIncludes(body, campaignTitle, |prefix|);
    Content(THANK_YOU_TITLE, body, None)
  }

  /** `sendUpdateNotification`'s message: the campaign in the title, the
      update's title as the body, the campaign id as data. */
  function UpdateContent(campaignTitle: string, updateTitle: string, campaignId: string): (r: Content)
    ensures r.body == updateTitle && r.campaignId == Some(campaignId)
    ensures Text.Includes(r.title, campaignTitle)
  {
    var title := "📢 " + campaignTitle;
    assert title[2..] == campaignTitle;
    Text.OccursIncludes(title, campaignTitle, 2);
    Content(title, updateTitle, Some(campaignId))
  }

  /** The record `scheduleReminder` saves for a scheduled reminder. */
  function ReminderRecord(identifier: string, title: string, body: string, trigger: int,
                          campaignId: Option<string>, now: int): (r: Notification)
    ensures r.id == identifier && r.kind == Reminder && !r.read && r.scheduledFor == Some(trigger)
    ensures r.userId == CURRENT_USER && r.campaignId == campaignId && r.createdAt == now
    ensures r.title == title && r.body == body
  {
    Notification(identifier, CURRENT_USER, title, body, Reminder, campaignId, false, Some(trigger), now)
  }

  // ---------------------------------------------------------------------
  // The service

  class NotificationLog {
    /** The stored log; `None` when nothing is stored under its key. */
    var stored: Option<seq<Notification>>

    /** The log as the application finds it in storage. Storage may hold
        a log of any length, written by anything, so the constructor does
        not establish `Valid()`; each write keeps the cap when it held
        before. */
    constructor(initial: Option<seq<Notification>>)
      ensures stored == initial
    {
      stored := initial;
    }

    /** The cap the service keeps on what it writes. */
    predicate Valid()
      reads this
    {
      stored.None? || |stored.value| <= MAX_STORED
    }

    /** `getStoredNotifications`: the stored log, empty when absent or
        unreadable. */
    function StoredNotifications(readOk: bool): (r: seq<Notification>)
      reads this
      ensures r == if readOk && stored.Some? then stored.value else []
      ensures Valid() ==> |r| <= MAX_STORED
    {
      if readOk && stored.Some? then stored.value else []
    }

    /** `saveNotification`: read, put first, cap, write. A failed read or
        write is caught and leaves the stored log as it was. */
    method SaveNotification(n: Notification, readOk: bool, writeOk: bool)
      modifies this
      ensures stored == if readOk && writeOk then Some(Saved(old(stored).GetOr([]), n)) else old(stored)
      ensures readOk && writeOk ==> Valid()
      ensures old(Valid()) ==> Valid()
    {
      if !readOk || !writeOk {
        return;
      }
      var log := stored.GetOr([]);
      stored := Some(Saved(log, n));
    }

    /** `removeNotification`: nothing stored means nothing to do. */
    method RemoveNotification(id: string, readOk: bool, writeOk: bool)
      modifies this
      ensures stored == if readOk && writeOk && old(stored).Some? then Some(Removed(old(stored).value, id)) else old(stored)
      ensures old(Valid()) ==> Valid()
    {
      if !readOk || stored.None? || !writeOk {
        return;
      }
      stored := Some(Removed(stored.value, id));
    }

    /** `markAsRead`: written back only when an entry has the id. */
    method MarkAsRead(id: string, readOk: bool, writeOk: bool)
      modifies this
      ensures readOk && writeOk && old(stored).Some? ==> stored == Some(MarkedRead(old(stored).value, id))
      ensures !(readOk && writeOk && old(stored).Some?) ==> stored == old(stored)
      ensures old(Valid()) ==> Valid()
    {
      if !readOk || stored.None? {
        return;
      }
      var log := stored.value;
      var index := Seqs.FindIndex(log, (n: Notification) => HasNotificationId(id, n));
      if index.Some? && writeOk {
        var i := index.value;
        stored := Some(log[i := log[i].(read := true)]);
      }
    }

    /** `cancelAllNotifications`: the platform's schedule is cleared, then
        the stored log; if the first step fails the second never runs. */
    method CancelAllNotifications(platformOk: bool, removeOk: bool)
      modifies this
      ensures stored == if platformOk && removeOk then None else old(stored)
      ensures Valid() || !old(Valid())
    {
      if platformOk && removeOk {
        stored := None;
      }
    }

    /** `cancelNotification`: the platform cancels the one identifier, then
        its entry leaves the log. */
    method CancelNotification(identifier: string, platformOk: bool, readOk: bool, writeOk: bool)
      modifies this
      ensures stored == if platformOk && readOk && writeOk && old(stored).Some?
                        then Some(Removed(old(stored).value, identifier)) else old(stored)
      ensures old(Valid()) ==> Valid()
    {
      if !platformOk {
        return;
      }
      RemoveNotification(identifier, readOk, writeOk);
    }

    /** `scheduleReminder`: a trigger that is not in the future is refused
        before anything is scheduled or saved. Otherwise the platform is
        asked (`request`), and its identifier is returned once the reminder
        is recorded, even if recording it fails; a platform failure returns
        `null`. */
    method ScheduleReminder(title: string, body: string, trigger: int, campaignId: Option<string>, now: int,
                            platform: Call<string>, readOk: bool, writeOk: bool)
      returns (r: Option<string>, request: Option<Content>)
      modifies this
      ensures trigger <= now ==> r == None && request == None && stored == old(stored)
      ensures trigger > now ==> request == Some(Content(title, body, campaignId))
      ensures trigger > now && platform.Threw? ==> r == None && stored == old(stored)
      ensures trigger > now && platform.Returned? ==>
                r == Some(platform.value) &&
                stored == if readOk && writeOk
                          then Some(Saved(old(stored).GetOr([]), ReminderRecord(platform.value, title, body, trigger, campaignId, now)))
                          else old(stored)
      ensures old(Valid()) ==> Valid()
    {
      if trigger <= now {
        return None, None;
      }
      request := Some(Content(title, body, campaignId));
      if platform.Threw? {
        return None, request;
      }
      var identifier := platform.value;
      SaveNotification(ReminderRecord(identifier, title, body, trigger, campaignId, now), readOk, writeOk);
      r := Some(identifier);
    }

    /** `scheduleEngagementReminder`: a reminder two hours before the
        engagement, naming the campaign and the need. */
    method ScheduleEngagementReminder(campaignTitle: string, needLabel: string, engagementDate: int, campaignId: string,
                                      now: int, platform: Call<string>, readOk: bool, writeOk: bool)
      returns (r: Option<string>, request: Option<Content>)
      modifies this
      ensures engagementDate - TWO_HOURS <= now ==> r == None && request == None && stored == old(stored)
      ensures engagementDate - TWO_HOURS > now ==>
                request == Some(Content(REMINDER_TITLE, ReminderBody(campaignTitle, needLabel), Some(campaignId)))
      ensures engagementDate - TWO_HOURS > now && platform.Threw? ==> r == None && stored == old(stored)
      ensures engagementDate - TWO_HOURS > now && platform.Returned? ==>
                r == Some(platform.value) &&
                stored == if readOk && writeOk
                          then Some(Saved(old(stored).GetOr([]),
                                          ReminderRecord(platform.value, REMINDER_TITLE, ReminderBody(campaignTitle, needLabel),
                                                         ReminderTrigger(engagementDate), Some(campaignId), now)))
                          else old(stored)
      ensures old(Valid()) ==> Valid()
    {
      r, request := ScheduleReminder(REMINDER_TITLE, ReminderBody(campaignTitle, needLabel), ReminderTrigger(engagementDate),
                                     Some(campaignId), now, platform, readOk, writeOk);
    }
  }
}
