/**
 * The embed builder of src/utility/helpers/embed.js: an embed whose title, description,
 * colour, footer and fields are set step by step, with helpers that compose the
 * description and field texts from the bot's custom emoji.
 */
module Embeds {
  import opened Wrappers
  import opened Strings
  import opened JsonValues

  /** An embed field. */
  datatype Field = Field(name: string, value: string, inline: bool)

  /** The `footer` option: absent, `null`, or a text. */
  datatype FooterArg = FooterUnset | FooterNull | FooterText(text: string)

  const SubEntryOne := "<:sub_entry_one:1360508842412347523>"
  const SubEntryTwo := "<:sub_entry_two:1360508800469041264>"
  const BulletPoint := "<:bullet_point:1360524552584827050>"
  const DefaultDividerId := "1360508812263690240"
  const DefaultDividerRepeat := 27
  const LevelColor := 0x5865f2
  /** The default tree-header emoji and separator, as the characters the file holds. */
  const DefaultTreeEmoji := "\U{F8FF}\U{00FC}\U{00EC}\U{00E5}"
  const TreeSeparator := "\U{201E}\U{00C9}\U{00AA}"
  /** The spacer value of a tree header: a zero-width space and a space. */
  const Spacer := "\U{200B} "

  /** discord.js `bold(text)`. */
  function Bold(s: string): string
  {
    "**" + s + "**"
  }

  /** The footer text: "Reaxion" when the footer is absent or empty, none when it is `null`. */
  function FooterOf(f: FooterArg): (r: Option<string>)
    ensures r.None? <==> f.FooterNull?
    ensures r.Some? ==> r.value != ""
    ensures f.FooterText? && f.text != "" ==> r == Some(f.text)
  {
    match f
    case FooterUnset => Some("Reaxion")
    case FooterNull => None
    case FooterText(t) => if t != "" then Some(t) else Some("Reaxion")
  }

  /** The value of `addSubEntryField`: the role line and the description line, joined by a newline. */
  function SubEntryValue(roleMention: string, description: string): string
  {
    Join([SubEntryOne + " " + roleMention, SubEntryTwo + " " + description], '\n')
  }

  /** The sub-entry value reads back as exactly two lines: the role, then the description. */
  lemma SubEntryTwoLines(roleMention: string, description: string)
    requires '\n' !in roleMention && '\n' !in description
    ensures Split(SubEntryValue(roleMention, description), '\n') ==
      [SubEntryOne + " " + roleMention, SubEntryTwo + " " + description]
  {
    var parts := [SubEntryOne + " " + roleMention, SubEntryTwo + " " + description];
    assert '\n' !in parts[0] && '\n' !in parts[1];
    SplitJoin(parts, '\n');
  }

  /** The description after `addBulletEntry`: the current one, a bullet line with the bold header, a sub-entry line. */
  function BulletEntry(current: string, header: string, description: string): string
  {
    current + "\n" + (BulletPoint + " " + Bold(header)) + "\n" + (SubEntryTwo + " " + description) + "\n"
  }

  /** Two lines appended after a newline split off as two parts and the empty part after the final newline. */
  lemma {:induction false} TwoLinesAfter(current: string, x: string, y: string)
    requires '\n' !in x && '\n' !in y
    ensures Split(current + "\n" + x + "\n" + y + "\n", '\n') == Split(current, '\n') + [x, y, ""]
  {
    var t3 := y + ['\n'] + "";
    var t2 := x + ['\n'] + t3;
    SplitAfterSeparator(y, "", '\n');
    SplitAfterSeparator(x, t3, '\n');
    SplitConcat(current, t2, '\n');
    assert current + "\n" + x + "\n" + y + "\n" == current + ['\n'] + t2;
  }

  /** A bullet entry appends exactly two lines (and the empty line after the final newline). */
  lemma BulletEntryLines(current: string, header: string, description: string)
    requires '\n' !in header && '\n' !in description
    ensures Split(BulletEntry(current, header, description), '\n') ==
      Split(current, '\n') + [BulletPoint + " " + Bold(header), SubEntryTwo + " " + description, ""]
  {
    var x := BulletPoint + " " + Bold(header);
    var y := SubEntryTwo + " " + description;
    assert '\n' !in x && '\n' !in y;
    TwoLinesAfter(current, x, y);
  }

  /** The divider `addDescriptionDivider` draws: the divider emoji repeated. */
  function Divider(emojiId: string, repeat: nat): (d: string)
    ensures |d| == repeat * |"<:divider:" + emojiId + ">"|
  {
    Repeat("<:divider:" + emojiId + ">", repeat)
  }

  /** The description after `addDescriptionDivider`: the divider alone, or on a new line after the current text. */
  function WithDivider(current: string, divider: string): string
  {
    if |current| > 0 then current + "\n" + divider else divider
  }

  /** The divider is always the last line, and the lines before it are those of the current description. */
  lemma DividerIsLastLine(current: string, emojiId: string, repeat: nat)
    requires '\n' !in emojiId
    ensures var d := Divider(emojiId, repeat);
      Split(WithDivider(current, d), '\n') == (if current == "" then [] else Split(current, '\n')) + [d]
  {
    var unit := "<:divider:" + emojiId + ">";
    assert '\n' !in unit;
    RepeatWithout(unit, repeat, '\n');
    var d := Divider(emojiId, repeat);
    SplitWithoutSeparator(d, '\n');
    if current != "" {
      assert WithDivider(current, d) == current + ['\n'] + d;
      SplitConcat(current, d, '\n');
    }
  }

  /** A preset theme: its title prefix and colour. */
  datatype Preset = Preset(title: string, color: int)

  /** The themes `setPreset` knows, with the title prefixes exactly as the file holds them. */
  function PresetOf(kind: string): (p: Option<Preset>)
    ensures p.Some? <==> kind in {"error", "success", "info", "warning"}
  {
    if kind == "error" then Some(Preset("\U{201A}\U{00F9}\U{00E5} Error", 0xff4d4d))
    else if kind == "success" then Some(Preset("\U{201A}\U{00FA}\U{00D6} Success", 0x4caf50))
    else if kind == "info" then Some(Preset("\U{201A}\U{00D1}\U{03C0}\U{00D4}\U{220F}\U{00E8} Info", 0x0099ff))
    else if kind == "warning" then Some(Preset("\U{201A}\U{00F6}\U{2020}\U{00D4}\U{220F}\U{00E8} Warning", 0xffc107))
    else None
  }

  /** `new ReaxionBuilder(options)` and the builder's chainable setters. */
  class ReaxionBuilder {
    var title: Option<string>
    var description: Option<string>
    var color: Option<int>
    var footer: Option<string>
    var fields: seq<Field>

    /** Title, description and colour are set only when truthy; the footer defaults to "Reaxion" unless `null`. */
    constructor (title: Option<string>, description: Option<string>, color: Option<int>, footer: FooterArg)
      ensures this.title == NonEmpty(title) && this.description == NonEmpty(description)
      ensures this.color == (if color.Some? && color.value != 0 then color else None)
      ensures this.footer == FooterOf(footer)
      ensures fields == []
    {
      this.title := NonEmpty(title);
      this.description := NonEmpty(description);
      this.color := if color.Some? && color.value != 0 then color else None;
      this.footer := FooterOf(footer);
      this.fields := [];
    }

    /** `addField(name, value, inline)`. */
    method AddField(name: string, value: string, inline: bool) returns (self: ReaxionBuilder)
      modifies this
      ensures fields == old(fields) + [Field(name, value, inline)]
      ensures title == old(title) && description == old(description) && color == old(color) && footer == old(footer)
      ensures self == this
    {
      fields := fields + [Field(name, value, inline)];
      self := this;
    }

    /** `addFieldsArray(fields)`. */
    method AddFieldsArray(more: seq<Field>) returns (self: ReaxionBuilder)
      modifies this
      ensures fields == old(fields) + more
      ensures title == old(title) && description == old(description) && color == old(color) && footer == old(footer)
      ensures self == this
    {
      fields := fields + more;
      self := this;
    }

    /** `useLevelStyle(text)`: the description and the Discord blurple colour. */
    method UseLevelStyle(text: string) returns (self: ReaxionBuilder)
      modifies this
      ensures description == Some(text) && color == Some(LevelColor)
      ensures title == old(title) && footer == old(footer) && fields == old(fields)
      ensures self == this
    {
      description := Some(text);
      color := Some(LevelColor);
      self := this;
    }

    /** `addTreeHeader(text, emoji)`: a bold header field with a spacer value, not inline; `None` is the default emoji. */
    method AddTreeHeader(text: string, emoji: Option<string>) returns (self: ReaxionBuilder)
      modifies this
      ensures fields == old(fields) + [Field(Bold(emoji.GetOr(DefaultTreeEmoji) + TreeSeparator + text), Spacer, false)]
      ensures title == old(title) && description == old(description) && color == old(color) && footer == old(footer)
      ensures self == this
    {
      var shown := emoji.GetOr(DefaultTreeEmoji);
      self := AddField(Bold(shown + TreeSeparator + text), Spacer, false);
    }

    /** `addSubEntryField(title, roleMention, description, inline)`: a bold name over the two-line value. */
    method AddSubEntryField(caption: string, roleMention: string, text: string, inline: bool) returns (self: ReaxionBuilder)
      modifies this
      ensures fields == old(fields) + [Field(Bold(caption), SubEntryValue(roleMention, text), inline)]
      ensures title == old(title) && description == old(description) && color == old(color) && footer == old(footer)
      ensures self == this
    {
      var value := Join([SubEntryOne + " " + roleMention, SubEntryTwo + " " + text], '\n');
      self := AddField(Bold(caption), value, inline);
    }

    /** `addBulletEntry(header, description)`: the entry appended to the current (or empty) description. */
    method AddBulletEntry(header: string, text: string) returns (self: ReaxionBuilder)
      modifies this
      ensures description == Some(BulletEntry(old(description).GetOr(""), header, text))
      ensures title == old(title) && color == old(color) && footer == old(footer) && fields == old(fields)
      ensures self == this
    {
      var current := description.GetOr("");
      description := Some(current + "\n" + (BulletPoint + " " + Bold(header)) + "\n" + (SubEntryTwo + " " + text) + "\n");
      self := this;
    }

    /** `addDescriptionDivider(emojiId, repeat)`: the divider on its own line under the current description; `None` takes the default. */
    method AddDescriptionDivider(emojiId: Option<string>, repeat: Option<nat>) returns (self: ReaxionBuilder)
      modifies this
      ensures description == Some(WithDivider(old(description).GetOr(""),
                                              Divider(emojiId.GetOr(DefaultDividerId), repeat.GetOr(DefaultDividerRepeat))))
      ensures title == old(title) && color == old(color) && footer == old(footer) && fields == old(fields)
      ensures self == this
    {
      var divider := Repeat("<:divider:" + emojiId.GetOr(DefaultDividerId) + ">", repeat.GetOr(DefaultDividerRepeat));
      var current := description.GetOr("");
      description := if |current| > 0 then Some(current + "\n" + divider) else Some(divider);
      self := this;
    }

    /** `setPreset(type, content)`: a known theme titles the embed `<theme> | <content>` and colours it; others change nothing. */
    method SetPreset(kind: string, content: string) returns (self: ReaxionBuilder)
      modifies this
      ensures PresetOf(kind).Some? ==>
        title == Some(PresetOf(kind).value.title + " | " + content) && color == Some(PresetOf(kind).value.color)
      ensures PresetOf(kind).None? ==> title == old(title) && color == old(color)
      ensures description == old(description) && footer == old(footer) && fields == old(fields)
      ensures self == this
    {
      var preset := PresetOf(kind);
      if preset.Some? {
        title := Some(preset.value.title + " | " + content);
        color := Some(preset.value.color);
      }
      self := this;
    }
  }
}
