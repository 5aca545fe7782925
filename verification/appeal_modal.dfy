/**
 * The appeal workflow of src/handlers/modals/appealModal.js: a punished member submits
 * the appeal modal, the bot posts it with Accept and Deny buttons to the server's appeal
 * channel, and a moderator's click either lifts the punishment or leaves it.
 */
module AppealModal {
  import opened Wrappers
  import opened Strings
  import opened JsonValues
  import opened Data
  import TimeoutManager

  /**
   * What the client can see of one guild: the members a fetch returns and the cached
   * channels, each with whether it is text based.
   */
  datatype AppealGuild = AppealGuild(members: set<string>, channels: map<string, bool>)

  /**
   * `punishment && (punishment.evading || (punishment.time && punishment.time > now))`.
   */
  predicate Punished(punishment: Json, now: int)
  {
    Truthy(punishment)
    && (Truthy(Prop(punishment, "evading"))
        || (Truthy(Prop(punishment, "time")) && GreaterThan(Prop(punishment, "time"), now)))
  }

  /**
   * For any `now` past the epoch the `time &&` guard is redundant: a member counts as
   * punished exactly when a punishment exists and it is an evasion or still running.
   */
  lemma PunishedMeaning(punishment: Json, now: int)
    requires now >= 0
    ensures Punished(punishment, now)
      <==> Truthy(punishment) && (Truthy(Prop(punishment, "evading")) || GreaterThan(Prop(punishment, "time"), now))
  {
  }

  /** A record cleared to `{ evading: false, time: 0 }` never counts as punished. */
  lemma ClearedIsNotPunished(now: int)
    requires now >= 0
    ensures !Punished(PunishmentValue(false, 0), now)
  {
  }

  /** `appeal-<action>-<serverId>-<userId>`, the id of a button on a posted appeal. */
  function ButtonId(action: string, serverId: string, userId: string): (id: string)
    ensures StartsWith(id, "appeal-")
  {
    Join(["appeal", action, serverId, userId], '-')
  }

  /** The parts of a clicked button's id, `undefined` past the end of the split. */
  datatype ParsedId = ParsedId(prefix: string, action: Json, guildId: Json, userId: Json)

  function PartAt(parts: seq<string>, i: nat): Json
  {
    if i < |parts| then Str(parts[i]) else Undefined
  }

  /** `const [prefix, action, guildId, userId] = customId.split("-")`. */
  function ParseId(customId: string): (p: ParsedId)
    ensures StartsWith(customId, "appeal-") ==> p.prefix == "appeal"
  {
    var parts := Split(customId, '-');
    if StartsWith(customId, "appeal-") then
      SplitAtPrefix(customId, "appeal", '-');
      ParsedId(parts[0], PartAt(parts, 1), PartAt(parts, 2), PartAt(parts, 3))
    else
      ParsedId(parts[0], PartAt(parts, 1), PartAt(parts, 2), PartAt(parts, 3))
  }

  /** A button id built from dash-free parts parses back to those parts. */
  lemma {:induction false} ButtonIdRoundTrip(action: string, serverId: string, userId: string)
    requires '-' !in action && '-' !in serverId && '-' !in userId
    ensures ParseId(ButtonId(action, serverId, userId)) == ParsedId("appeal", Str(action), Str(serverId), Str(userId))
  {
    var parts := ["appeal", action, serverId, userId];
    assert forall i :: 0 <= i < |parts| ==> '-' !in parts[i];
    SplitJoin(parts, '-');
  }

  /** The id of the appeal modal, and the ids of its two text inputs. */
  const ModalId := "appealModal"
  const ReasonInputId := "appeal_reason"
  const ServerInputId := "appeal_server"

  /** Why a submission was turned away, or the appeal that was posted. */
  datatype SubmitOutcome =
    | Ignored
    | FieldNotFound(fieldId: string)
    | MissingInput
    | NotPunished
    | ChannelInvalid
    | Posted(channelId: string, reason: string, minutesLeft: Option<int>, acceptId: string, denyId: string)

  /** `servers?.[serverId]?.set?.appeal?.channel` in the parsed `servers.json`. */
  function AppealChannelId(servers: Json, serverId: string): Json
  {
    Prop(Prop(Prop(Prop(servers, serverId), "set"), "appeal"), "channel")
  }

  /** Whether the configured appeal channel of `serverId` is a cached, text-based channel. */
  predicate ChannelValid(servers: Json, guilds: map<string, AppealGuild>, serverId: string)
  {
    var channelId := AppealChannelId(servers, serverId);
    serverId in guilds && channelId.Str? && channelId.s in guilds[serverId].channels
    && guilds[serverId].channels[channelId.s]
  }

  /** A submission of the appeal modal whose two inputs are present and not blank. */
  predicate Admitted(isModalSubmit: bool, customId: string, fields: map<string, string>)
  {
    isModalSubmit && customId == ModalId && ReasonInputId in fields && ServerInputId in fields
    && Trim(fields[ReasonInputId]) != "" && Trim(fields[ServerInputId]) != ""
  }

  /** The stored punishment of the submitting member in the server named by the form. */
  function AppealedPunishment(entries: map<string, Json>, fields: map<string, string>, userId: string): Json
    requires ServerInputId in fields
  {
    PunishmentOf(Lookup(entries, UsersHandle(Trim(fields[ServerInputId]), userId)))
  }

  /**
   * The answer to a modal submission. `fields` maps each submitted text input's id to
   * its value (`getTextInputValue` throws for an id it does not hold), `servers` is the
   * parsed `servers.json` and `guilds` the guild cache.
   */
  function SubmitAnswer(entries: map<string, Json>, isModalSubmit: bool, customId: string, fields: map<string, string>,
                        userId: string, servers: Json, guilds: map<string, AppealGuild>, now: int): (outcome: SubmitOutcome)
    ensures outcome.Ignored? <==> !isModalSubmit || customId != ModalId
  {
    if !isModalSubmit || customId != ModalId then Ignored
    else if ReasonInputId !in fields then FieldNotFound(ReasonInputId)
    else if ServerInputId !in fields then FieldNotFound(ServerInputId)
    else
      var reason := Trim(fields[ReasonInputId]);
      var serverId := Trim(fields[ServerInputId]);
      if serverId == "" || reason == "" then MissingInput
      else
        var punishment := AppealedPunishment(entries, fields, userId);
        if !Punished(punishment, now) then NotPunished
        else if !ChannelValid(servers, guilds, serverId) then ChannelInvalid
        else PostedAppeal(punishment, reason, serverId, userId, servers, guilds, now)
  }

  /**
   * The appeal posted once every check has passed: it goes to the configured text
   * channel, carries the reason and the accept and deny button ids of that server and
   * member, and the minutes the punishment has left (at least one) when its `time` is a
   * number.
   */
  function PostedAppeal(punishment: Json, reason: string, serverId: string, userId: string,
                        servers: Json, guilds: map<string, AppealGuild>, now: int): (outcome: SubmitOutcome)
    requires ChannelValid(servers, guilds, serverId)
    ensures outcome.Posted?
    ensures Str(outcome.channelId) == AppealChannelId(servers, serverId)
    ensures outcome.channelId in guilds[serverId].channels && guilds[serverId].channels[outcome.channelId]
    ensures outcome.reason == reason
    ensures outcome.acceptId == ButtonId("accept", serverId, userId) && outcome.denyId == ButtonId("deny", serverId, userId)
    ensures ToNumber(Prop(punishment, "time")).Some? ==>
      outcome.minutesLeft == Some(TimeoutManager.MinutesLeft(ToNumber(Prop(punishment, "time")).value - now))
    ensures ToNumber(Prop(punishment, "time")).None? ==> outcome.minutesLeft.None?
    ensures outcome.minutesLeft.Some? ==> outcome.minutesLeft.value >= 1
  {
    var time := ToNumber(Prop(punishment, "time"));
    Posted(AppealChannelId(servers, serverId).s, reason,
           if time.Some? then Some(TimeoutManager.MinutesLeft(time.value - now)) else None,
           ButtonId("accept", serverId, userId), ButtonId("deny", serverId, userId))
  }

  /** An input the handler reads is missing, or present but blank, before the store is read. */
  lemma SubmitInputChecks(entries: map<string, Json>, isModalSubmit: bool, customId: string, fields: map<string, string>,
                          userId: string, servers: Json, guilds: map<string, AppealGuild>, now: int)
    ensures var outcome := SubmitAnswer(entries, isModalSubmit, customId, fields, userId, servers, guilds, now);
      (outcome.FieldNotFound? <==>
         isModalSubmit && customId == ModalId && (ReasonInputId !in fields || ServerInputId !in fields))
      && (outcome.FieldNotFound? ==>
         outcome.fieldId == if ReasonInputId !in fields then ReasonInputId else ServerInputId)
      && (outcome.MissingInput? <==>
         isModalSubmit && customId == ModalId && ReasonInputId in fields && ServerInputId in fields
         && (Trim(fields[ReasonInputId]) == "" || Trim(fields[ServerInputId]) == ""))
  {
  }

  /**
   * An admitted submission is turned away as not punished exactly when the stored
   * punishment does not count; a punished one is posted exactly when the server's appeal
   * channel is a cached text channel, and refused otherwise.
   */
  lemma SubmitDecision(entries: map<string, Json>, isModalSubmit: bool, customId: string, fields: map<string, string>,
                       userId: string, servers: Json, guilds: map<string, AppealGuild>, now: int)
    ensures var outcome := SubmitAnswer(entries, isModalSubmit, customId, fields, userId, servers, guilds, now);
      (outcome.NotPunished? <==>
         Admitted(isModalSubmit, customId, fields) && !Punished(AppealedPunishment(entries, fields, userId), now))
      && (outcome.ChannelInvalid? <==>
         Admitted(isModalSubmit, customId, fields) && Punished(AppealedPunishment(entries, fields, userId), now)
         && !ChannelValid(servers, guilds, Trim(fields[ServerInputId])))
      && (outcome.Posted? <==>
         Admitted(isModalSubmit, customId, fields) && Punished(AppealedPunishment(entries, fields, userId), now)
         && ChannelValid(servers, guilds, Trim(fields[ServerInputId])))
  {
  }

  /** A posted appeal is the one `PostedAppeal` builds from the trimmed inputs and the stored punishment. */
  lemma SubmitPosted(entries: map<string, Json>, isModalSubmit: bool, customId: string, fields: map<string, string>,
                     userId: string, servers: Json, guilds: map<string, AppealGuild>, now: int)
    requires SubmitAnswer(entries, isModalSubmit, customId, fields, userId, servers, guilds, now).Posted?
    ensures ServerInputId in fields && ReasonInputId in fields
    ensures Trim(fields[ReasonInputId]) != "" && ChannelValid(servers, guilds, Trim(fields[ServerInputId]))
    ensures SubmitAnswer(entries, isModalSubmit, customId, fields, userId, servers, guilds, now)
      == PostedAppeal(AppealedPunishment(entries, fields, userId), Trim(fields[ReasonInputId]),
                      Trim(fields[ServerInputId]), userId, servers, guilds, now)
  {
  }

  /** The modal submission handler. The store is only read. */
  method Submit(db: Database, isModalSubmit: bool, customId: string, fields: map<string, string>, userId: string,
                servers: Json, guilds: map<string, AppealGuild>, now: int) returns (outcome: SubmitOutcome)
    ensures outcome == SubmitAnswer(db.entries, isModalSubmit, customId, fields, userId, servers, guilds, now)
  {
    if !isModalSubmit || customId != ModalId {
      return Ignored;
    }
    if ReasonInputId !in fields {
      return FieldNotFound(ReasonInputId);
    }
    if ServerInputId !in fields {
      return FieldNotFound(ServerInputId);
    }
    var reason := Trim(fields[ReasonInputId]);
    var serverId := Trim(fields[ServerInputId]);
    if serverId == "" || reason == "" {
      return MissingInput;
    }
    var userModel := UsersHandle(serverId, userId);
    var userData := db.Get(userModel);
    var punishment := PunishmentOf(userData);
    if !Punished(punishment, now) {
      return NotPunished;
    }
    if !ChannelValid(servers, guilds, serverId) {
      return ChannelInvalid;
    }
    outcome := PostedAppeal(punishment, reason, serverId, userId, servers, guilds, now);
  }

  /** A button of the row that replaces Accept and Deny once a moderator has decided. */
  datatype ButtonSpec = ButtonSpec(customId: string, caption: string, disabled: bool)

  const DisabledRow: seq<ButtonSpec> := [
    ButtonSpec("appeal-status-accept", "\U{2705} Accepted", true),
    ButtonSpec("appeal-status-deny", "\U{274C} Denied", true)
  ]

  /** What a button click leads to. */
  datatype ButtonOutcome =
    | NotAnAppeal
    | Threw(message: string)
    | MemberMissing
    | EmbedMissing
    | Accepted(components: seq<ButtonSpec>)
    | AcceptFailed
    | Denied(components: seq<ButtonSpec>)
    | OtherAction

  /** The record `users([guildId, userId])` names, or the error `createModel` throws. */
  function ButtonRecord(p: ParsedId): (r: Result<Handle>)
    ensures r.Failure? <==> p.guildId.Undefined? || p.userId.Undefined?
  {
    var subKeys := [p.guildId, p.userId];
    assert subKeys[0] == p.guildId && subKeys[1] == p.userId;
    Bind(UsersModel, subKeys)
  }

  /** Whether `guild?.members.fetch(userId)` finds the member. */
  predicate MemberFound(p: ParsedId, guilds: map<string, AppealGuild>)
  {
    p.guildId.Str? && p.userId.Str? && p.guildId.s in guilds && p.userId.s in guilds[p.guildId.s].members
  }

  /**
   * The store after a click: only an accept whose timeout removal succeeded writes,
   * and it clears the appealed record to `{ evading: false, time: 0 }`.
   */
  function ButtonEffect(entries: map<string, Json>, customId: string, guilds: map<string, AppealGuild>,
                        hasEmbed: bool, removalSucceeded: bool): map<string, Json>
  {
    var p := ParseId(customId);
    if p.prefix == "appeal" && ButtonRecord(p).Success? && MemberFound(p, guilds) && hasEmbed
       && p.action == Str("accept") && removalSucceeded
    then WriteUpdate(entries, ButtonRecord(p).value, PunishmentUpdate(false, 0))
    else entries
  }

  /**
   * Accepting an appeal from a posted button lifts that member's punishment, and only
   * when the live timeout could be removed; denying it never touches the store.
   */
  lemma {:induction false} AcceptClearsDenyKeeps(entries: map<string, Json>, serverId: string, userId: string,
                                                  guilds: map<string, AppealGuild>, removalSucceeded: bool)
    requires '-' !in serverId && '-' !in userId
    requires serverId in guilds && userId in guilds[serverId].members
    ensures ButtonEffect(entries, ButtonId("deny", serverId, userId), guilds, true, removalSucceeded) == entries
    ensures !removalSucceeded ==> ButtonEffect(entries, ButtonId("accept", serverId, userId), guilds, true, false) == entries
    ensures removalSucceeded ==>
      PunishmentOf(Lookup(ButtonEffect(entries, ButtonId("accept", serverId, userId), guilds, true, true),
                          UsersHandle(serverId, userId))) == PunishmentValue(false, 0)
  {
    ButtonIdRoundTrip("deny", serverId, userId);
    ButtonIdRoundTrip("accept", serverId, userId);
    var h := UsersHandle(serverId, userId);
    assert KeyParts([Str(serverId), Str(userId)]) == [serverId, userId];
    assert ButtonRecord(ParsedId("appeal", Str("accept"), Str(serverId), Str(userId))) == Success(h);
    PunishmentWrite(entries, h, PunishmentValue(false, 0));
  }

  /**
   * A click on a button. `hasEmbed` says whether the clicked message still has its
   * embed; `removalSucceeded` and `messageUpdated` are the outcomes of
   * `member.timeout(null)` and `interaction.update`, which run in one `try`.
   */
  method OnButton(db: Database, customId: string, guilds: map<string, AppealGuild>,
                  hasEmbed: bool, removalSucceeded: bool, messageUpdated: bool) returns (outcome: ButtonOutcome)
    modifies db
    ensures db.entries == ButtonEffect(old(db.entries), customId, guilds, hasEmbed, removalSucceeded)
    ensures outcome.NotAnAppeal? <==> ParseId(customId).prefix != "appeal"
    ensures outcome.Accepted? || outcome.Denied? ==> outcome.components == DisabledRow
    ensures outcome.Accepted? ==> removalSucceeded && messageUpdated
    ensures outcome.AcceptFailed? ==> !removalSucceeded || !messageUpdated
    ensures outcome.MemberMissing? || outcome.Threw? ==> db.entries == old(db.entries)
  {
    var parsed := ParseId(customId);
    if parsed.prefix != "appeal" {
      return NotAnAppeal;
    }
    var found := MemberFound(parsed, guilds);
    var userModel := ButtonRecord(parsed);
    if userModel.Failure? {
      return Threw(userModel.error);
    }
    if !found {
      return MemberMissing;
    }
    if !hasEmbed {
      return EmbedMissing;
    }
    var disabledRow := DisabledRow;
    outcome := OtherAction;
    if parsed.action == Str("accept") {
      if removalSucceeded {
        db.Update(userModel.value, PunishmentUpdate(false, 0));
        if messageUpdated {
          outcome := Accepted(disabledRow);
        } else {
          outcome := AcceptFailed;
        }
      } else {
        outcome := AcceptFailed;
      }
    }
    if parsed.action == Str("deny") {
      outcome := Denied(disabledRow);
    }
  }
}
