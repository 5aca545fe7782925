/**
 * The punishment lifecycle of src/utility/timeoutManager.js: applying a timeout,
 * escalating it when the member leaves while timed out, and reapplying it when an
 * evader rejoins. Discord's `member.timeout` is an external action whose success is
 * a parameter; `Date.now()` is the parameter `now`.
 */
module TimeoutManager {
  import opened Wrappers
  import opened JsonValues
  import opened Data

  const Minute: int := 60000
  const Hour: int := 60 * 60 * 1000
  const Day: int := 24 * Hour

  /**
   * The parts of a guild member the handlers look at: the ids that key its record and
   * `communicationDisabledUntilTimestamp` (`None` when Discord reports `null`).
   */
  datatype Member = Member(guildId: string, id: string, communicationDisabledUntil: Option<int>)

  /** `users([member.guild.id, member.id])`. */
  function RecordOf(m: Member): Handle
  {
    UsersHandle(m.guildId, m.id)
  }

  /** `member.isCommunicationDisabled()`: the live timeout ends after `now`. */
  predicate IsCommunicationDisabled(m: Member, now: int)
  {
    m.communicationDisabledUntil.Some? && m.communicationDisabledUntil.value > now
  }

  /** `Math.max(1, Math.floor(ms / 60000))`, the minute count shown to members. */
  function MinutesLeft(ms: int): (minutes: int)
    ensures minutes >= 1
    ensures ms >= Minute ==> minutes * Minute <= ms < (minutes + 1) * Minute
    ensures ms < 2 * Minute ==> minutes == 1
  {
    var q := ms / Minute;
    if q > 1 then q else 1
  }

  /** The escalation step of `handleLeave`, from the time the live timeout still has to run. */
  function EscalatedTimeout(remaining: int): (t: int)
    ensures t in {6 * Hour, 7 * Day, 28 * Day}
  {
    if remaining <= Hour then 6 * Hour
    else if remaining <= Day then 7 * Day
    else 28 * Day
  }

  /** The three buckets, with a tie going to the lower one. */
  lemma EscalationPolicy(remaining: int)
    ensures remaining <= 3600000 ==> EscalatedTimeout(remaining) == 21600000
    ensures 3600000 < remaining <= 86400000 ==> EscalatedTimeout(remaining) == 604800000
    ensures remaining > 86400000 ==> EscalatedTimeout(remaining) == 2419200000
  {
  }

  /** A longer remaining timeout never escalates to a shorter one. */
  lemma EscalationMonotone(a: int, b: int)
    requires a <= b
    ensures EscalatedTimeout(a) <= EscalatedTimeout(b)
  {
  }

  /**
   * Leaving always lengthens a timeout that Discord could still extend: below the
   * 28-day ceiling the escalated expiry is strictly later than the live one. At or
   * above that ceiling the step no longer lengthens anything.
   */
  lemma EscalationLengthens(remaining: int)
    ensures 0 < remaining < 28 * Day ==> EscalatedTimeout(remaining) > remaining
    ensures remaining >= 28 * Day ==> EscalatedTimeout(remaining) <= remaining
  {
  }

  /** The store after `applyTimeout`: written only when `member.timeout` succeeded. */
  function ApplyEffect(entries: map<string, Json>, m: Member, duration: int, now: int, timeoutSucceeded: bool): map<string, Json>
  {
    if timeoutSucceeded then WriteUpdate(entries, RecordOf(m), PunishmentUpdate(false, now + duration)) else entries
  }

  /**
   * After a successful `applyTimeout` the record holds `{ evading: false, time: now + duration }`
   * and nothing else in the store changed; after a failed one the store is untouched.
   */
  lemma ApplyRecordsExpiry(entries: map<string, Json>, m: Member, duration: int, now: int, timeoutSucceeded: bool)
    ensures timeoutSucceeded ==>
      PunishmentOf(Lookup(ApplyEffect(entries, m, duration, now, timeoutSucceeded), RecordOf(m))) == PunishmentValue(false, now + duration)
    ensures !timeoutSucceeded ==> ApplyEffect(entries, m, duration, now, timeoutSucceeded) == entries
    ensures forall k :: k in entries && k != RecordOf(m).key ==> ApplyEffect(entries, m, duration, now, timeoutSucceeded)[k] == entries[k]
  {
    PunishmentWrite(entries, RecordOf(m), PunishmentValue(false, now + duration));
  }

  method ApplyTimeout(db: Database, m: Member, duration: int, now: int, timeoutSucceeded: bool)
    modifies db
    ensures db.entries == ApplyEffect(old(db.entries), m, duration, now, timeoutSucceeded)
  {
    var timeoutUntil := now + duration;
    if !timeoutSucceeded {
      return;
    }
    db.Update(RecordOf(m), PunishmentUpdate(false, timeoutUntil));
  }

  /** The expiry `handleLeave` records, or `None` when it returns early. */
  function LeaveExpiry(m: Member, now: int): (r: Option<int>)
    ensures r.Some? <==> IsCommunicationDisabled(m, now)
    ensures r.Some? && m.communicationDisabledUntil.value - now < 28 * Day ==> r.value > m.communicationDisabledUntil.value
  {
    if !IsCommunicationDisabled(m, now) then None
    else
      var remaining := m.communicationDisabledUntil.value - now;
      if remaining <= 0 then None
      else
        EscalationLengthens(remaining);
        Some(now + EscalatedTimeout(remaining))
  }

  /** The store after `handleLeave`. */
  function LeaveEffect(entries: map<string, Json>, m: Member, now: int): map<string, Json>
  {
    match LeaveExpiry(m, now)
    case None => entries
    case Some(t) => WriteUpdate(entries, RecordOf(m), PunishmentUpdate(true, t))
  }

  /**
   * A member who is not timed out leaves the store as it was; one who is gets
   * `{ evading: true, time: escalated expiry }` and no other field or record changes.
   */
  lemma LeaveMarksEvading(entries: map<string, Json>, m: Member, now: int)
    ensures !IsCommunicationDisabled(m, now) ==> LeaveEffect(entries, m, now) == entries
    ensures IsCommunicationDisabled(m, now) ==>
      PunishmentOf(Lookup(LeaveEffect(entries, m, now), RecordOf(m))) == PunishmentValue(true, LeaveExpiry(m, now).value)
    ensures forall k :: k in entries && k != RecordOf(m).key ==> LeaveEffect(entries, m, now)[k] == entries[k]
  {
    if IsCommunicationDisabled(m, now) {
      PunishmentWrite(entries, RecordOf(m), PunishmentValue(true, LeaveExpiry(m, now).value));
    }
  }

  method HandleLeave(db: Database, m: Member, now: int)
    modifies db
    ensures db.entries == LeaveEffect(old(db.entries), m, now)
  {
    if !IsCommunicationDisabled(m, now) {
      return;
    }
    var remaining := m.communicationDisabledUntil.value - now;
    if remaining <= 0 {
      return;
    }
    var newTimeout;
    if remaining <= Hour {
      newTimeout := 6 * Hour;
    } else if remaining <= Day {
      newTimeout := 7 * Day;
    } else {
      newTimeout := 28 * Day;
    }
    db.Update(RecordOf(m), PunishmentUpdate(true, now + newTimeout));
  }

  /**
   * The timeout `handleJoin` tries to reapply to a record: the time left on an evaded
   * punishment whose expiry is still ahead, and `None` otherwise.
   */
  function ReapplyDuration(record: Json, now: int): (r: Option<int>)
    ensures r.Some? <==> Truthy(Prop(PunishmentOf(record), "evading")) && GreaterThan(Prop(PunishmentOf(record), "time"), now)
    ensures r.Some? ==> r.value > 0 && r.value == ToNumber(Prop(PunishmentOf(record), "time")).value - now
  {
    var p := PunishmentOf(record);
    if Truthy(Prop(p, "evading")) && GreaterThan(Prop(p, "time"), now) then
      Some(ToNumber(Prop(p, "time")).value - now)
    else None
  }

  /** The store after `handleJoin`: `evading` is cleared, keeping `time`, once the timeout is back on. */
  function JoinEffect(entries: map<string, Json>, m: Member, now: int, timeoutSucceeded: bool): map<string, Json>
  {
    var record := Lookup(entries, RecordOf(m));
    if ReapplyDuration(record, now).Some? && timeoutSucceeded then
      WriteUpdate(entries, RecordOf(m), map["punishment" := PunishmentRecord(false, Prop(PunishmentOf(record), "time"))])
    else entries
  }

  /** The direct message `handleJoin` sends: red with the minutes left, or green. */
  datatype JoinNotice = Reapplied(minutesLeft: int) | NoActivePunishment

  /**
   * `handleJoin` changes the store exactly when the record is an evasion still running
   * and the timeout could be reapplied; an expired evasion, a record that is not
   * evading and a failed reapplication all leave it as it was.
   */
  lemma {:induction false} JoinWritesIffReapplied(entries: map<string, Json>, m: Member, now: int, timeoutSucceeded: bool)
    ensures JoinEffect(entries, m, now, timeoutSucceeded) != entries
      <==> ReapplyDuration(Lookup(entries, RecordOf(m)), now).Some? && timeoutSucceeded
  {
    var h := RecordOf(m);
    var record := Lookup(entries, h);
    if ReapplyDuration(record, now).Some? && timeoutSucceeded {
      var p := PunishmentRecord(false, Prop(PunishmentOf(record), "time"));
      var after := JoinEffect(entries, m, now, timeoutSucceeded);
      PunishmentWrite(entries, h, p);
      assert !Truthy(Prop(PunishmentOf(Lookup(after, h)), "evading"));
      assert Lookup(after, h) != record;
    }
  }

  /**
   * After a reapplication the record keeps its expiry and is no longer evading, so
   * rejoining again reapplies nothing.
   */
  lemma {:induction false} ReapplyIsFinal(entries: map<string, Json>, m: Member, now: int, later: int)
    requires ReapplyDuration(Lookup(entries, RecordOf(m)), now).Some?
    ensures Prop(PunishmentOf(Lookup(JoinEffect(entries, m, now, true), RecordOf(m))), "time")
      == Prop(PunishmentOf(Lookup(entries, RecordOf(m))), "time")
    ensures ReapplyDuration(Lookup(JoinEffect(entries, m, now, true), RecordOf(m)), later).None?
  {
    var h := RecordOf(m);
    PunishmentWrite(entries, h, PunishmentRecord(false, Prop(PunishmentOf(Lookup(entries, h)), "time")));
  }

  method HandleJoin(db: Database, m: Member, now: int, timeoutSucceeded: bool) returns (notice: JoinNotice)
    modifies db
    ensures db.entries == JoinEffect(old(db.entries), m, now, timeoutSucceeded)
    ensures notice.Reapplied? <==> ReapplyDuration(Lookup(old(db.entries), RecordOf(m)), now).Some? && timeoutSucceeded
    ensures notice.Reapplied? ==>
      notice.minutesLeft == MinutesLeft(ReapplyDuration(Lookup(old(db.entries), RecordOf(m)), now).value)
  {
    var data := db.Get(RecordOf(m));
    var punishment := PunishmentOf(data);
    var timeoutReapplied := false;
    var remaining := 0;
    if Truthy(Prop(punishment, "evading")) && GreaterThan(Prop(punishment, "time"), now) {
      remaining := ToNumber(Prop(punishment, "time")).value - now;
      if remaining > 0 {
        if timeoutSucceeded {
          db.Update(RecordOf(m), map["punishment" := PunishmentRecord(false, Prop(punishment, "time"))]);
          timeoutReapplied := true;
        }
      }
    }
    if timeoutReapplied {
      notice := Reapplied(MinutesLeft(remaining));
    } else {
      notice := NoActivePunishment;
    }
  }
}
