/**
 * The `guildMemberUpdate` handler of src/handlers/events/serverEvents/guildUpdate.js:
 * it notices a timeout that was added or changed on a member and records its expiry,
 * skipping the write when the same expiry is already stored.
 */
module GuildUpdate {
  import opened Wrappers
  import opened JsonValues
  import opened Data
  import TimeoutManager

  /**
   * The parts of the event the handler reads: the guild and user ids (`None` or ""
   * when missing) and `communicationDisabledUntilTimestamp` before and after (`None`
   * for `null`).
   */
  datatype MemberUpdate = MemberUpdate(
    guildId: Option<string>,
    userId: Option<string>,
    wasTimedOut: Option<int>,
    isTimedOut: Option<int>)

  /** Truthiness of a timestamp that may be `null`. */
  predicate Set(t: Option<int>)
  {
    t.Some? && t.value != 0
  }

  predicate HasIds(ev: MemberUpdate)
  {
    ev.guildId.Some? && ev.guildId.value != "" && ev.userId.Some? && ev.userId.value != ""
  }

  /** `!wasTimedOut && isTimedOut`. */
  predicate TimeoutAdded(ev: MemberUpdate)
  {
    !Set(ev.wasTimedOut) && Set(ev.isTimedOut)
  }

  /** `wasTimedOut && isTimedOut && wasTimedOut !== isTimedOut`. */
  predicate TimeoutChanged(ev: MemberUpdate)
  {
    Set(ev.wasTimedOut) && Set(ev.isTimedOut) && ev.wasTimedOut != ev.isTimedOut
  }

  /**
   * The handler goes on to the store exactly when the new timestamp is set and
   * differs from the old one: a removed timeout or an unchanged one is ignored.
   */
  lemma DetectsNewOrChanged(ev: MemberUpdate)
    ensures TimeoutAdded(ev) || TimeoutChanged(ev) <==> Set(ev.isTimedOut) && ev.wasTimedOut != ev.isTimedOut
  {
  }

  /** `!currentData?.punishment?.time || currentData.punishment.time !== isTimedOut`. */
  predicate ShouldWrite(current: Json, expiry: int)
  {
    var time := Prop(PunishmentOf(current), "time");
    !Truthy(time) || time != Num(expiry)
  }

  /** The record an event names, when the handler gets as far as the store. */
  function Target(ev: MemberUpdate): (r: Option<Handle>)
    ensures r.Some? <==> HasIds(ev) && (TimeoutAdded(ev) || TimeoutChanged(ev))
  {
    if !HasIds(ev) then None
    else if !TimeoutAdded(ev) && !TimeoutChanged(ev) then None
    else Some(UsersHandle(ev.guildId.value, ev.userId.value))
  }

  /** The store after the handler. */
  function UpdateEffect(entries: map<string, Json>, ev: MemberUpdate): map<string, Json>
  {
    match Target(ev)
    case None => entries
    case Some(h) =>
      if ShouldWrite(Lookup(entries, h), ev.isTimedOut.value) then
        WriteUpdate(entries, h, PunishmentUpdate(false, ev.isTimedOut.value))
      else entries
  }

  /**
   * A written record holds `{ evading: false, time: new expiry }`; nothing else in the
   * store changes; and when the handler does not reach the store nothing changes at all.
   */
  lemma RecordsNewExpiry(entries: map<string, Json>, ev: MemberUpdate)
    ensures Target(ev).None? ==> UpdateEffect(entries, ev) == entries
    ensures Target(ev).Some? && ShouldWrite(Lookup(entries, Target(ev).value), ev.isTimedOut.value) ==>
      PunishmentOf(Lookup(UpdateEffect(entries, ev), Target(ev).value)) == PunishmentValue(false, ev.isTimedOut.value)
    ensures Target(ev).Some? && !ShouldWrite(Lookup(entries, Target(ev).value), ev.isTimedOut.value) ==>
      UpdateEffect(entries, ev) == entries
      && Prop(PunishmentOf(Lookup(entries, Target(ev).value)), "time") == Num(ev.isTimedOut.value)
    ensures forall k :: k in entries && (Target(ev).None? || k != Target(ev).value.key) ==>
      UpdateEffect(entries, ev)[k] == entries[k]
  {
    if Target(ev).Some? {
      PunishmentWrite(entries, Target(ev).value, PunishmentValue(false, ev.isTimedOut.value));
    }
  }

  /** Handling the same event twice writes once: the second delivery finds the expiry stored. */
  lemma {:induction false} DuplicateEventIsNoOp(entries: map<string, Json>, ev: MemberUpdate)
    ensures UpdateEffect(UpdateEffect(entries, ev), ev) == UpdateEffect(entries, ev)
  {
    if Target(ev).Some? {
      var h := Target(ev).value;
      var expiry := ev.isTimedOut.value;
      if ShouldWrite(Lookup(entries, h), expiry) {
        PunishmentWrite(entries, h, PunishmentValue(false, expiry));
        var after := UpdateEffect(entries, ev);
        assert Prop(PunishmentOf(Lookup(after, h)), "time") == Num(expiry);
        assert !ShouldWrite(Lookup(after, h), expiry);
      }
    }
  }

  /** What the handler reports: skipped, nothing to do, a duplicate, or the minutes announced in the DM. */
  datatype UpdateOutcome = MissingIds | NoTimeoutChange | Duplicate | Logged(minutes: int)

  method OnMemberUpdate(db: Database, ev: MemberUpdate, now: int) returns (outcome: UpdateOutcome)
    modifies db
    ensures db.entries == UpdateEffect(old(db.entries), ev)
    ensures outcome.MissingIds? <==> !HasIds(ev)
    ensures outcome.NoTimeoutChange? <==> HasIds(ev) && Target(ev).None?
    ensures outcome.Logged? <==> Target(ev).Some? && ShouldWrite(Lookup(old(db.entries), Target(ev).value), ev.isTimedOut.value)
    ensures outcome.Logged? ==> outcome.minutes == TimeoutManager.MinutesLeft(ev.isTimedOut.value - now)
  {
    if !HasIds(ev) {
      return MissingIds;
    }
    var wasTimedOut := ev.wasTimedOut;
    var isTimedOut := ev.isTimedOut;
    var timeoutAdded := !Set(wasTimedOut) && Set(isTimedOut);
    var timeoutChanged := Set(wasTimedOut) && Set(isTimedOut) && wasTimedOut != isTimedOut;
    if !timeoutAdded && !timeoutChanged {
      return NoTimeoutChange;
    }
    var durationMs := isTimedOut.value - now;
    var minutes := TimeoutManager.MinutesLeft(durationMs);
    var userModel := UsersHandle(ev.guildId.value, ev.userId.value);
    var currentData := db.Get(userModel);
    if ShouldWrite(currentData, isTimedOut.value) {
      db.Update(userModel, PunishmentUpdate(false, isTimedOut.value));
      outcome := Logged(minutes);
    } else {
      outcome := Duplicate;
    }
  }
}
