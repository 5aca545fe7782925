/**
 * Properties of the punishment lifecycle as a whole: the handlers of
 * timeoutManager.js, TimeoutMonitor.js, guildUpdate.js, appealModal.js and appeal.js
 * all act on the same `punishment` record, and together they keep it consistent.
 */
module Lifecycle {
  import opened Wrappers
  import opened JsonValues
  import opened Data
  import opened TimeoutManager
  import TimeoutMonitor
  import GuildUpdate
  import AppealModal
  import AppealCommand

  /** The punishment stored under `key`, as the handlers read it. */
  function StoredPunishment(entries: map<string, Json>, key: string): Json
    requires key in entries
  {
    PunishmentOf(entries[key])
  }

  /**
   * Every stored record that is marked as evading carries a positive numeric expiry:
   * an evasion is never recorded without the time the escalated timeout ends.
   */
  predicate EvasionsHaveExpiry(entries: map<string, Json>)
  {
    forall k :: k in entries && Truthy(Prop(StoredPunishment(entries, k), "evading")) ==>
      GreaterThan(Prop(StoredPunishment(entries, k), "time"), 0)
  }

  /** Writing a punishment record keeps the invariant when the record is not an evasion or has a positive time. */
  lemma {:induction false} WriteKeeps(entries: map<string, Json>, h: Handle, evading: bool, time: Json)
    requires EvasionsHaveExpiry(entries)
    requires evading ==> GreaterThan(time, 0)
    ensures EvasionsHaveExpiry(WriteUpdate(entries, h, map["punishment" := PunishmentRecord(evading, time)]))
  {
    var after := WriteUpdate(entries, h, map["punishment" := PunishmentRecord(evading, time)]);
    forall k | k in after && Truthy(Prop(StoredPunishment(after, k), "evading"))
      ensures GreaterThan(Prop(StoredPunishment(after, k), "time"), 0)
    {
      if k == h.key {
        assert StoredPunishment(after, k) == PunishmentRecord(evading, time);
      } else {
        assert after[k] == entries[k];
      }
    }
  }

  lemma ApplyKeeps(entries: map<string, Json>, m: Member, duration: int, now: int, ok: bool)
    requires EvasionsHaveExpiry(entries)
    ensures EvasionsHaveExpiry(ApplyEffect(entries, m, duration, now, ok))
  {
    if ok {
      WriteKeeps(entries, RecordOf(m), false, Num(now + duration));
    }
  }

  lemma LeaveKeeps(entries: map<string, Json>, m: Member, now: int)
    requires EvasionsHaveExpiry(entries)
    requires now >= 0
    ensures EvasionsHaveExpiry(LeaveEffect(entries, m, now))
  {
    if LeaveExpiry(m, now).Some? {
      WriteKeeps(entries, RecordOf(m), true, Num(LeaveExpiry(m, now).value));
    }
  }

  lemma JoinKeeps(entries: map<string, Json>, m: Member, now: int, ok: bool)
    requires EvasionsHaveExpiry(entries)
    ensures EvasionsHaveExpiry(JoinEffect(entries, m, now, ok))
  {
    var record := Lookup(entries, RecordOf(m));
    if ReapplyDuration(record, now).Some? && ok {
      WriteKeeps(entries, RecordOf(m), false, Prop(PunishmentOf(record), "time"));
    }
  }

  lemma {:induction false} SweepKeeps(entries: map<string, Json>, targets: seq<Handle>)
    requires EvasionsHaveExpiry(entries)
    ensures EvasionsHaveExpiry(TimeoutMonitor.ClearAll(entries, targets))
  {
    if |targets| > 0 {
      SweepKeeps(entries, targets[..|targets| - 1]);
      WriteKeeps(TimeoutMonitor.ClearAll(entries, targets[..|targets| - 1]), targets[|targets| - 1], false, Num(0));
    }
  }

  lemma MemberUpdateKeeps(entries: map<string, Json>, ev: GuildUpdate.MemberUpdate)
    requires EvasionsHaveExpiry(entries)
    ensures EvasionsHaveExpiry(GuildUpdate.UpdateEffect(entries, ev))
  {
    if GuildUpdate.Target(ev).Some? {
      WriteKeeps(entries, GuildUpdate.Target(ev).value, false, Num(ev.isTimedOut.value));
    }
  }

  lemma ButtonKeeps(entries: map<string, Json>, customId: string, guilds: map<string, AppealModal.AppealGuild>,
                    hasEmbed: bool, ok: bool)
    requires EvasionsHaveExpiry(entries)
    ensures EvasionsHaveExpiry(AppealModal.ButtonEffect(entries, customId, guilds, hasEmbed, ok))
  {
    var p := AppealModal.ParseId(customId);
    if AppealModal.ButtonRecord(p).Success? {
      WriteKeeps(entries, AppealModal.ButtonRecord(p).value, false, Num(0));
    }
  }

  lemma CommandKeeps(entries: map<string, Json>, sub: AppealCommand.Subcommand, guildId: Option<string>,
                     canManageGuild: bool, targetId: string)
    requires EvasionsHaveExpiry(entries)
    ensures EvasionsHaveExpiry(AppealCommand.CommandEffect(entries, sub, guildId, canManageGuild, targetId))
  {
    var t := AppealCommand.CommandTarget(sub, guildId, canManageGuild, targetId);
    if t.Some? {
      WriteKeeps(entries, t.value, false, Num(0));
    }
  }

  /**
   * Leaving and coming back before the escalated timeout ends: the rejoin reapplies
   * exactly the time left until the escalated expiry.
   */
  lemma {:induction false} LeaveThenRejoin(entries: map<string, Json>, m: Member, now: int, later: int)
    requires IsCommunicationDisabled(m, now)
    requires now <= later < LeaveExpiry(m, now).value
    ensures ReapplyDuration(Lookup(LeaveEffect(entries, m, now), RecordOf(m)), later)
      == Some(LeaveExpiry(m, now).value - later)
  {
    LeaveMarksEvading(entries, m, now);
  }

  /**
   * The scenario the bot is built around: a member with 30 minutes of timeout left
   * leaves, the timeout escalates to 6 hours from the moment of leaving, and an
   * immediate rejoin reapplies those 6 hours and records the evasion as handled.
   */
  lemma {:induction false} ThirtyMinuteEvasion(entries: map<string, Json>, guildId: string, userId: string, now: int)
    requires now >= 0
    ensures var m := Member(guildId, userId, Some(now + 1800000));
      var left := LeaveEffect(entries, m, now);
      LeaveExpiry(m, now) == Some(now + 21600000)
      && ReapplyDuration(Lookup(left, RecordOf(m)), now) == Some(21600000)
      && PunishmentOf(Lookup(JoinEffect(left, m, now, true), RecordOf(m))) == PunishmentValue(false, now + 21600000)
  {
    var m := Member(guildId, userId, Some(now + 1800000));
    LeaveThenRejoin(entries, m, now, now);
    var left := LeaveEffect(entries, m, now);
    ReapplyIsFinal(left, m, now, now);
    LeaveMarksEvading(entries, m, now);
    var rejoined := JoinEffect(left, m, now, true);
    PunishmentWrite(left, RecordOf(m), PunishmentRecord(false, Num(now + 21600000)));
  }

  /**
   * Once the reapplied timeout has run out, the next sweep finds the record expired and
   * clears it, provided the member can still be resolved.
   */
  lemma {:induction false} SweepClearsAfterExpiry(key: string, value: Json, guilds: TimeoutMonitor.Guilds, now: int, expiry: int)
    requires TimeoutMonitor.KeyIds(key).Some?
    requires PunishmentOf(value) == PunishmentValue(false, expiry) && expiry != 0 && expiry <= now
    requires var (g, u) := TimeoutMonitor.KeyIds(key).value;
      g in guilds && TimeoutMonitor.ResolveMember(guilds[g], u).Some?
    ensures TimeoutMonitor.ClearTarget(key, value, guilds, now).Some?
  {
    TimeoutMonitor.ClearRule(key, value, guilds, now);
  }
}
