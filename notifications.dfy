/**
 * The phone's notification feed: a bounded buffer that keeps the 20 most
 * recent notes plus the newest, a mark-all-read pass, the unread counter,
 * and the timer tick that picks which kind of note to raise and in which
 * tone.
 */
module Notifications {
  import opened GameTypes

  /** How many of the older notes survive an insertion. */
  const Kept: nat := 20

  /** The last `Kept` notes, in their original order (`slice(-20)`). */
  function LastKept(notes: seq<Notification>): (r: seq<Notification>)
    ensures |r| == Min(|notes|, Kept)
    ensures r == notes[|notes| - |r|..]
  {
    if |notes| <= Kept then notes else notes[|notes| - Kept..]
  }

  /**
   * Append a new unread note after the last 20 old ones; the feed never
   * holds more than 21 notes and nothing else in the state changes.
   */
  function AddNotification(s: GameState, kind: NotificationType, message: string, tone: NotificationTone): (r: GameState)
    ensures 1 <= |r.notifications| <= Kept + 1
    ensures |r.notifications| == Min(|s.notifications|, Kept) + 1
    ensures r.notifications[|r.notifications| - 1] == Notification(kind, message, tone, false)
    ensures r.notifications[..|r.notifications| - 1] == s.notifications[|s.notifications| - Min(|s.notifications|, Kept)..]
    ensures r == s.(notifications := r.notifications)
  {
    var kept := LastKept(s.notifications);
    var notes := kept + [Notification(kind, message, tone, false)];
    assert notes[..|notes| - 1] == kept;
    s.(notifications := notes)
  }

  /** With fewer than 20 notes in the feed nothing is dropped. */
  lemma ShortFeedKeepsAll(s: GameState, kind: NotificationType, message: string, tone: NotificationTone)
    requires |s.notifications| <= Kept
    ensures AddNotification(s, kind, message, tone).notifications ==
              s.notifications + [Notification(kind, message, tone, false)]
  {
    var r := AddNotification(s, kind, message, tone).notifications;
    assert r[..|r| - 1] == s.notifications;
    assert r == r[..|r| - 1] + [r[|r| - 1]];
  }

  /** A full feed drops exactly its oldest notes, down to 20, before appending. */
  lemma FullFeedDropsOldest(s: GameState, kind: NotificationType, message: string, tone: NotificationTone)
    requires |s.notifications| > Kept
    ensures |AddNotification(s, kind, message, tone).notifications| == Kept + 1
    ensures forall i :: 0 <= i < Kept ==>
              AddNotification(s, kind, message, tone).notifications[i] == s.notifications[|s.notifications| - Kept + i]
  {
    var r := AddNotification(s, kind, message, tone).notifications;
    forall i | 0 <= i < Kept
      ensures r[i] == s.notifications[|s.notifications| - Kept + i]
    {
      assert r[i] == r[..|r| - 1][i];
    }
  }

  /** Number of unread notes (`filter(n => !n.isRead).length`). */
  function UnreadCount(notes: seq<Notification>): (n: nat)
    ensures n <= |notes|
    ensures n == 0 <==> forall i :: 0 <= i < |notes| ==> notes[i].isRead
  {
    if notes == [] then 0
    else
      var rest := UnreadCount(notes[1..]);
      assert forall i :: 1 <= i < |notes| ==> notes[i] == notes[1..][i - 1];
      (if notes[0].isRead then 0 else 1) + rest
  }

  lemma {:induction false} UnreadAppend(notes: seq<Notification>, x: Notification)
    ensures UnreadCount(notes + [x]) == UnreadCount(notes) + (if x.isRead then 0 else 1)
    decreases |notes|
  {
    if notes == [] {
      assert [] + [x] == [x];
      assert [x][1..] == [];
    } else {
      assert (notes + [x])[1..] == notes[1..] + [x];
      UnreadAppend(notes[1..], x);
    }
  }

  lemma {:induction false} UnreadSuffix(notes: seq<Notification>, k: nat)
    requires k <= |notes|
    ensures UnreadCount(notes[k..]) <= UnreadCount(notes)
    decreases k
  {
    if k > 0 {
      assert notes[k..] == notes[1..][k - 1..];
      UnreadSuffix(notes[1..], k - 1);
    }
  }

  /**
   * A new note is always unread and counts once; dropping old notes can
   * only lower the count, so it grows by at most one.
   */
  lemma AddCountsOneUnread(s: GameState, kind: NotificationType, message: string, tone: NotificationTone)
    ensures var r := AddNotification(s, kind, message, tone).notifications;
            UnreadCount(r) == UnreadCount(LastKept(s.notifications)) + 1
            && 1 <= UnreadCount(r) <= UnreadCount(s.notifications) + 1
  {
    var kept := LastKept(s.notifications);
    var r := AddNotification(s, kind, message, tone).notifications;
    assert r == kept + [Notification(kind, message, tone, false)];
    UnreadAppend(kept, Notification(kind, message, tone, false));
    UnreadSuffix(s.notifications, |s.notifications| - |kept|);
  }

  /** Every note becomes read; order, length and every other field stay. */
  function MarkAllAsRead(s: GameState): (r: GameState)
    ensures |r.notifications| == |s.notifications|
    ensures forall i :: 0 <= i < |s.notifications| ==> r.notifications[i] == s.notifications[i].(isRead := true)
    ensures UnreadCount(r.notifications) == 0
    ensures r == s.(notifications := r.notifications)
  {
    s.(notifications := seq(|s.notifications|, i requires 0 <= i < |s.notifications| => s.notifications[i].(isRead := true)))
  }

  /** Right after marking everything read, one new note makes the count exactly one. */
  lemma MarkThenAddLeavesOne(s: GameState, kind: NotificationType, message: string, tone: NotificationTone)
    ensures UnreadCount(AddNotification(MarkAllAsRead(s), kind, message, tone).notifications) == 1
  {
    var m := MarkAllAsRead(s);
    AddCountsOneUnread(m, kind, message, tone);
    UnreadSuffix(m.notifications, |m.notifications| - |LastKept(m.notifications)|);
  }

  // ---------------------------------------------------------------------
  // The timer tick

  /** What one tick raises: nothing, a note of a kind and tone, or a social mention. */
  datatype TickResult = Silent | Emit(kind: NotificationType, tone: NotificationTone) | SocialMention

  /** A family message is rarer in Series A. */
  function FamilyProbability(phase: Phase): real
  {
    if phase == SeriesA then 0.10 else 0.20
  }

  /** The family tone for a positive relationship score. */
  function FamilyTone(rel: int): NotificationTone
  {
    if rel < 30 then FamilySad
    else if rel < 50 then FamilyAngry
    else if rel < 70 then ToneNormal
    else FamilyLove
  }

  /** Warmth of a family tone, from sad to loving. */
  function Warmth(t: NotificationTone): nat
  {
    match t
    case FamilySad => 0
    case FamilyAngry => 1
    case ToneNormal => 2
    case FamilyLove => 3
    case _ => 0
  }

  /** A better relationship never gives a colder family message. */
  lemma FamilyToneMonotone(rel: int, rel': int)
    requires 0 < rel <= rel'
    ensures Warmth(FamilyTone(rel)) <= Warmth(FamilyTone(rel'))
    ensures FamilyTone(rel) in {FamilySad, FamilyAngry, ToneNormal, FamilyLove}
  {
  }

  /** The team is stressed when sanity is below 40 or tech debt above 50. */
  predicate Stressed(s: GameState)
  {
    s.sanity < 40 || s.techDebt > 50
  }

  /**
   * One tick with `roll` in [0, 1): silent in game over or decision mode; a
   * robotic system log in machine mode; else a family message below the
   * family probability (none at relationship 0 or less); else a Slack note
   * below 0.6 when anyone is employed, urgent when the team is stressed;
   * else a social mention below 0.75; else nothing.
   */
  function Tick(s: GameState, roll: real): (t: TickResult)
    ensures s.isGameOver || s.isDecisionMode ==> t == Silent
    ensures (t.Emit? && t.tone == Robotic) <==> (!s.isGameOver && !s.isDecisionMode && s.isMachineMode)
    ensures s.isMachineMode ==> t == Silent || t == Emit(System, Robotic)
    ensures t.Emit? && t.kind == FamilyDm ==>
              roll < FamilyProbability(s.phase) && s.familyRelationship > 0 && t.tone == FamilyTone(s.familyRelationship)
    ensures t.Emit? && t.kind == Slack ==>
              |s.employees| > 0 && FamilyProbability(s.phase) <= roll < 0.6 && (t.tone == Urgent <==> Stressed(s))
    ensures t == SocialMention ==> FamilyProbability(s.phase) <= roll < 0.75 && (roll >= 0.6 || |s.employees| == 0)
    ensures !s.isGameOver && !s.isDecisionMode && !s.isMachineMode &&
            FamilyProbability(s.phase) <= roll < 0.6 && |s.employees| > 0 ==>
              t == Emit(Slack, if Stressed(s) then Urgent else ToneNormal)
    ensures !s.isGameOver && !s.isDecisionMode && !s.isMachineMode &&
            FamilyProbability(s.phase) <= roll < 0.75 && (roll >= 0.6 || |s.employees| == 0) ==>
              t == SocialMention
    ensures !s.isGameOver && !s.isDecisionMode && !s.isMachineMode &&
            roll < FamilyProbability(s.phase) && s.familyRelationship > 0 ==>
              t == Emit(FamilyDm, FamilyTone(s.familyRelationship))
    ensures !s.isGameOver && !s.isDecisionMode && !s.isMachineMode ==>
              (t == Silent <==> (roll < FamilyProbability(s.phase) && s.familyRelationship <= 0) || roll >= 0.75)
  {
    if s.isGameOver || s.isDecisionMode then Silent
    else if s.isMachineMode then Emit(System, Robotic)
    else if roll < FamilyProbability(s.phase) then
      if s.familyRelationship <= 0 then Silent
      else Emit(FamilyDm, FamilyTone(s.familyRelationship))
    else if roll < 0.6 && |s.employees| > 0 then
      Emit(Slack, if Stressed(s) then Urgent else ToneNormal)
    else if roll < 0.75 then SocialMention
    else Silent
  }

  /** The family thresholds: sad below 30, angry below 50, worried below 70, loving from 70. */
  lemma FamilyToneThresholds(s: GameState, roll: real)
    requires !s.isGameOver && !s.isDecisionMode && !s.isMachineMode
    requires roll < FamilyProbability(s.phase) && s.familyRelationship > 0
    ensures 0 < s.familyRelationship < 30 ==> Tick(s, roll) == Emit(FamilyDm, FamilySad)
    ensures 30 <= s.familyRelationship < 50 ==> Tick(s, roll) == Emit(FamilyDm, FamilyAngry)
    ensures 50 <= s.familyRelationship < 70 ==> Tick(s, roll) == Emit(FamilyDm, ToneNormal)
    ensures 70 <= s.familyRelationship ==> Tick(s, roll) == Emit(FamilyDm, FamilyLove)
  {
  }

  /**
   * Raise what the tick chose: its note with `message`, or a social
   * mention in the default tone; a silent tick changes nothing.
   */
  function ApplyTick(s: GameState, roll: real, message: string): (r: GameState)
    ensures Tick(s, roll) == Silent ==> r == s
    ensures Tick(s, roll) != Silent ==>
              |r.notifications| == Min(|s.notifications|, Kept) + 1 &&
              !r.notifications[|r.notifications| - 1].isRead &&
              r.notifications[|r.notifications| - 1].kind ==
                (if Tick(s, roll).Emit? then Tick(s, roll).kind else Social)
    ensures r == s.(notifications := r.notifications)
  {
    match Tick(s, roll)
    case Silent => s
    case Emit(kind, tone) => AddNotification(s, kind, message, tone)
    case SocialMention => AddNotification(s, Social, message, ToneNormal)
  }
}
