/**
 * The `/appeal` slash command of src/commands/system/appeal.js. `create` shows the
 * appeal modal; `accept` and `deny` are moderator actions on a member's stored
 * punishment in the current server.
 */
module AppealCommand {
  import opened Wrappers
  import opened JsonValues
  import opened Data
  import AppealModal

  datatype Subcommand = Create | Accept | Deny

  /** A text input of the modal: its id, whether it is the paragraph style, whether it is required. */
  datatype TextInput = TextInput(customId: string, paragraph: bool, required: bool)

  /** The modal `create` shows: its id and its inputs in order. */
  datatype AppealForm = AppealForm(customId: string, inputs: seq<TextInput>)

  const AppealFormShown: AppealForm := AppealForm(AppealModal.ModalId, [
    TextInput(AppealModal.ReasonInputId, true, true),
    TextInput(AppealModal.ServerInputId, false, true)
  ])

  /** The values Discord submits for a form: one for every required input, under its id. */
  predicate Filled(form: AppealForm, fields: map<string, string>)
  {
    forall i :: 0 <= i < |form.inputs| && form.inputs[i].required ==> form.inputs[i].customId in fields
  }

  datatype CommandOutcome =
    | ShowModal(form: AppealForm)
    | NotInGuild
    | NoPermission
    | NoPunishment
    | Lifted
    | Refused

  /** The record an `accept` or `deny` reaches, once the guild and permission guards pass. */
  function CommandTarget(sub: Subcommand, guildId: Option<string>, canManageGuild: bool, targetId: string): (r: Option<Handle>)
    ensures r.Some? <==> sub != Create && guildId.Some? && guildId.value != "" && canManageGuild
  {
    if sub == Create then None
    else if guildId.None? || guildId.value == "" then None
    else if !canManageGuild then None
    else Some(UsersHandle(guildId.value, targetId))
  }

  /** The store after the command. */
  function CommandEffect(entries: map<string, Json>, sub: Subcommand, guildId: Option<string>,
                         canManageGuild: bool, targetId: string): map<string, Json>
  {
    match CommandTarget(sub, guildId, canManageGuild, targetId)
    case None => entries
    case Some(h) =>
      if sub == Accept && Truthy(Prop(PunishmentOf(Lookup(entries, h)), "time")) then
        WriteUpdate(entries, h, PunishmentUpdate(false, 0))
      else entries
  }

  /**
   * Only an `accept` by a ManageGuild member in a server changes the store, and it then
   * clears any record with a truthy `time`, an expired one included. `create`, `deny`
   * and every rejected call leave the store as it was.
   */
  lemma AcceptOnlyWriter(entries: map<string, Json>, sub: Subcommand, guildId: Option<string>,
                         canManageGuild: bool, targetId: string)
    ensures CommandEffect(entries, sub, guildId, canManageGuild, targetId) != entries ==>
      sub == Accept && CommandTarget(sub, guildId, canManageGuild, targetId).Some?
      && Truthy(Prop(PunishmentOf(Lookup(entries, UsersHandle(guildId.value, targetId))), "time"))
    ensures (sub == Accept && CommandTarget(sub, guildId, canManageGuild, targetId).Some?
             && Truthy(Prop(PunishmentOf(Lookup(entries, UsersHandle(guildId.value, targetId))), "time"))) ==>
      PunishmentOf(Lookup(CommandEffect(entries, sub, guildId, canManageGuild, targetId), UsersHandle(guildId.value, targetId)))
        == PunishmentValue(false, 0)
  {
    if sub == Accept && CommandTarget(sub, guildId, canManageGuild, targetId).Some? {
      PunishmentWrite(entries, UsersHandle(guildId.value, targetId), PunishmentValue(false, 0));
    }
  }

  /**
   * After `/appeal accept` the appeal modal no longer sees the member as punished in that
   * server, although the command never removes the live Discord timeout.
   */
  lemma {:induction false} AcceptEndsAppeals(entries: map<string, Json>, guildId: string, targetId: string, now: int)
    requires guildId != "" && now >= 0
    requires Truthy(Prop(PunishmentOf(Lookup(entries, UsersHandle(guildId, targetId))), "time"))
    ensures !AppealModal.Punished(
      PunishmentOf(Lookup(CommandEffect(entries, Accept, Some(guildId), true, targetId), UsersHandle(guildId, targetId))), now)
  {
    AcceptOnlyWriter(entries, Accept, Some(guildId), true, targetId);
    AppealModal.ClearedIsNotPunished(now);
  }

  /**
   * The modal `create` shows is the one the submission handler answers: a filled-in
   * submission of it is never ignored and never lacks an input the handler reads, so it
   * ends in one of the handler's own answers.
   */
  lemma {:induction false} FormMatchesHandler(entries: map<string, Json>, fields: map<string, string>, userId: string,
                                              servers: Json, guilds: map<string, AppealModal.AppealGuild>, now: int)
    requires Filled(AppealFormShown, fields)
    ensures AppealModal.ReasonInputId in fields && AppealModal.ServerInputId in fields
    ensures var outcome := AppealModal.SubmitAnswer(entries, true, AppealFormShown.customId, fields, userId, servers, guilds, now);
      !outcome.Ignored? && !outcome.FieldNotFound?
  {
    assert AppealFormShown.inputs[0].required && AppealFormShown.inputs[1].required;
    AppealModal.SubmitInputChecks(entries, true, AppealFormShown.customId, fields, userId, servers, guilds, now);
  }

  /**
   * `execute`. `guildId` is `interaction.guildId` (`None` for a DM), `canManageGuild`
   * whether the caller holds ManageGuild, `targetId` the chosen user. Replies and DMs
   * are sent after the store change; a failed DM is caught.
   */
  method Execute(db: Database, sub: Subcommand, guildId: Option<string>, canManageGuild: bool, targetId: string)
    returns (outcome: CommandOutcome)
    modifies db
    ensures db.entries == CommandEffect(old(db.entries), sub, guildId, canManageGuild, targetId)
    ensures outcome.ShowModal? <==> sub == Create
    ensures outcome.ShowModal? ==> outcome.form == AppealFormShown
    ensures outcome.NotInGuild? <==> sub != Create && (guildId.None? || guildId.value == "")
    ensures outcome.NoPermission? <==> sub != Create && guildId.Some? && guildId.value != "" && !canManageGuild
    ensures outcome.NoPunishment? <==>
      (CommandTarget(sub, guildId, canManageGuild, targetId).Some?
       && !Truthy(Prop(PunishmentOf(Lookup(old(db.entries), UsersHandle(guildId.value, targetId))), "time")))
    ensures outcome.Lifted? <==>
      (sub == Accept && CommandTarget(sub, guildId, canManageGuild, targetId).Some?
       && Truthy(Prop(PunishmentOf(Lookup(old(db.entries), UsersHandle(guildId.value, targetId))), "time")))
    ensures outcome.Refused? <==>
      (sub == Deny && CommandTarget(sub, guildId, canManageGuild, targetId).Some?
       && Truthy(Prop(PunishmentOf(Lookup(old(db.entries), UsersHandle(guildId.value, targetId))), "time")))
    ensures outcome.Refused? ==> db.entries == old(db.entries)
  {
    if sub == Create {
      return ShowModal(AppealFormShown);
    }
    if guildId.None? || guildId.value == "" {
      return NotInGuild;
    }
    if !canManageGuild {
      return NoPermission;
    }
    var targetModel := UsersHandle(guildId.value, targetId);
    var userData := db.Get(targetModel);
    if !Truthy(Prop(PunishmentOf(userData), "time")) {
      return NoPunishment;
    }
    if sub == Accept {
      db.Update(targetModel, PunishmentUpdate(false, 0));
      outcome := Lifted;
    }
    if sub == Deny {
      outcome := Refused;
    }
  }
}
