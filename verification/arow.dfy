/**
 * The action-row builder of reaxion_modules/Arow.js: buttons whose style is chosen from
 * an explicit name or guessed from keywords in their id and label, select menus whose
 * plain string items are expanded, and modal text inputs.
 */
module ReaxionRows {
  import opened Wrappers
  import opened Strings
  import opened JsonValues

  datatype ButtonStyle = Primary | Secondary | Success | Danger | Link

  /** The explicit style names, matched after lower-casing. */
  function StyleByName(name: string): Option<ButtonStyle>
  {
    if name == "primary" || name == "blue" then Some(Primary)
    else if name == "secondary" || name == "gray" || name == "grey" then Some(Secondary)
    else if name == "success" || name == "green" then Some(ButtonStyle.Success)
    else if name == "danger" || name == "red" then Some(Danger)
    else if name == "link" then Some(Link)
    else None
  }

  /** Whether some word of the list occurs in `text` (an unanchored regular-expression alternation). */
  predicate AnyWord(text: string, words: seq<string>)
  {
    exists i :: 0 <= i < |words| && Contains(text, words[i])
  }

  const DangerWords: seq<string> := ["cancel", "close", "exit", "delete", "remove", "stop", "abort", "deny", "reject", "decline", "no"]
  const SuccessWords: seq<string> := ["ok", "accept", "confirm", "submit", "save", "yes", "approve", "continue", "next", "proceed", "create", "add"]
  const BackWords: seq<string> := ["back", "return", "prev", "previous"]

  /** `_detectButtonStyle(explicitStyle, textContext)`. */
  function DetectButtonStyle(explicit: Option<string>, textContext: string): (style: ButtonStyle)
    ensures style == Link ==> explicit.Some? && ToLower(explicit.value) == "link"
  {
    if explicit.Some? && explicit.value != "" then StyleByName(ToLower(explicit.value)).GetOr(Primary)
    else
      var text := ToLower(textContext);
      if AnyWord(text, DangerWords) then Danger
      else if AnyWord(text, SuccessWords) then ButtonStyle.Success
      else if AnyWord(text, BackWords) then Secondary
      else Primary
  }

  lemma {:induction false} ToLowerIdempotent(s: string)
    ensures ToLower(ToLower(s)) == ToLower(s)
  {
    forall i | 0 <= i < |s|
      ensures ToLower(ToLower(s))[i] == ToLower(s)[i]
    {
    }
  }

  /**
   * An explicit style decides alone, whatever the text, and its name is matched without
   * regard to case; a name outside the table gives Primary.
   */
  lemma {:induction false} ExplicitStyleDecides(name: string, text1: string, text2: string)
    requires name != ""
    ensures DetectButtonStyle(Some(name), text1) == DetectButtonStyle(Some(ToLower(name)), text2)
    ensures StyleByName(ToLower(name)).None? ==> DetectButtonStyle(Some(name), text1) == Primary
  {
    ToLowerIdempotent(name);
    assert ToLower(name) != "" by { assert |ToLower(name)| == |name|; }
  }

  /**
   * Without an explicit style the keyword groups are tried in order: a danger word wins
   * over a success word, which wins over a back word; no keyword gives Primary.
   */
  lemma KeywordOrder(text: string)
    ensures DetectButtonStyle(None, text) == Danger <==> AnyWord(ToLower(text), DangerWords)
    ensures DetectButtonStyle(None, text) == ButtonStyle.Success <==> !AnyWord(ToLower(text), DangerWords) && AnyWord(ToLower(text), SuccessWords)
    ensures DetectButtonStyle(None, text) == Secondary <==>
      !AnyWord(ToLower(text), DangerWords) && !AnyWord(ToLower(text), SuccessWords) && AnyWord(ToLower(text), BackWords)
    ensures DetectButtonStyle(None, text) != Link
  {
  }

  /**
   * Keywords match anywhere, inside longer words too: "Announcements" contains "no" and
   * is styled as a danger button, "Notes" as well.
   */
  lemma SubstringKeywords()
    ensures DetectButtonStyle(None, "Announcements") == Danger
    ensures DetectButtonStyle(None, "Notes") == Danger
  {
    ContainsAt(ToLower("Announcements"), "no", 2);
    assert Contains(ToLower("Announcements"), DangerWords[10]);
    ContainsAt(ToLower("Notes"), "no", 0);
    assert Contains(ToLower("Notes"), DangerWords[10]);
  }

  /** The options object a button is built from; `None` is an absent property. */
  datatype ButtonOptions = ButtonOptions(id: Option<string>, caption: Option<string>, url: Option<string>,
                                         style: Option<string>, emoji: Option<string>, disabled: bool)

  const NoButtonOptions := ButtonOptions(None, None, None, None, None, false)

  /** The first argument of `button`: a custom id or a whole options object. */
  datatype ButtonArg = IdArg(id: string) | ConfigArg(options: ButtonOptions)

  /** A component on the row. */
  datatype Component =
    | ButtonComponent(buttonId: Option<string>, url: Option<string>, style: ButtonStyle, caption: Option<string>,
                      emoji: Option<string>, disabled: bool)
    | SelectComponent(customId: string, placeholder: Option<string>, minValues: Option<int>, maxValues: Option<int>,
                      disabled: bool, options: seq<MenuOption>)
    | TextInputComponent(customId: string, title: string, paragraph: bool, required: bool, placeholder: Option<string>,
                         value: Option<string>, minLength: Option<int>, maxLength: Option<int>)

  /** An expanded select option. */
  datatype MenuOption = MenuOption(caption: string, value: string)

  /** The options `button(config, label)` works from. */
  function ButtonOptionsOf(config: ButtonArg, caption: Option<string>): ButtonOptions
  {
    match config
    case IdArg(id) => NoButtonOptions.(id := Some(id), caption := NonEmpty(caption))
    case ConfigArg(o) => o
  }

  /** `x || ''` for an optional string. */
  function OrEmpty(x: Option<string>): (r: string)
    ensures x.Some? ==> r == x.value
    ensures x.None? ==> r == ""
  {
    if x.Some? then x.value else ""
  }

  /**
   * The button built from its options; `now` stands for `Date.now()` in the fallback id.
   * The label and emoji are set only when truthy, and a truthy `disabled` disables it.
   * Without a url the style is detected from the explicit style and from the id followed
   * by the label.
   */
  function BuildButton(o: ButtonOptions, now: nat): (c: Component)
    ensures c.ButtonComponent?
    ensures c.caption == NonEmpty(o.caption) && c.emoji == NonEmpty(o.emoji) && c.disabled == o.disabled
    ensures NonEmpty(o.url).Some? ==> c.url == o.url
    ensures NonEmpty(o.url).None? ==> c.style == DetectButtonStyle(o.style, OrEmpty(o.id) + OrEmpty(o.caption))
  {
    if NonEmpty(o.url).Some? then
      ButtonComponent(None, o.url, Link, NonEmpty(o.caption), NonEmpty(o.emoji), o.disabled)
    else
      var id := if NonEmpty(o.id).Some? then o.id.value else "button_" + NatToString(now);
      var styleText := OrEmpty(o.id) + OrEmpty(o.caption);
      ButtonComponent(Some(id), None, DetectButtonStyle(o.style, styleText), NonEmpty(o.caption), NonEmpty(o.emoji), o.disabled)
  }

  /**
   * A url makes a link button without a custom id; otherwise the button always gets a
   * custom id, the given one or the generated `button_<now>`.
   */
  lemma UrlOrCustomId(o: ButtonOptions, now: nat)
    ensures NonEmpty(o.url).Some? ==> BuildButton(o, now).style == Link && BuildButton(o, now).buttonId.None?
    ensures NonEmpty(o.url).None? ==>
      (BuildButton(o, now).buttonId.Some? && BuildButton(o, now).url.None?
       && (BuildButton(o, now).style == Link ==> o.style.Some? && ToLower(o.style.value) == "link"))
    ensures NonEmpty(o.url).None? && NonEmpty(o.id).Some? ==> BuildButton(o, now).buttonId == o.id
    ensures NonEmpty(o.url).None? && NonEmpty(o.id).None? ==>
      BuildButton(o, now).buttonId == Some("button_" + NatToString(now))
  {
  }

  /** `{ ...options, style }` for the shortcut methods. */
  function WithStyle(config: ButtonArg, caption: Option<string>, style: string): ButtonOptions
  {
    match config
    case IdArg(id) => NoButtonOptions.(id := Some(id), caption := caption, style := Some(style))
    case ConfigArg(o) => o.(style := Some(style))
  }

  /**
   * `primary`, `secondary`, `success` and `danger` give their style whatever the id and
   * label say, unless the options carry a url, which makes a link button.
   */
  lemma {:induction false} ShortcutsForceStyle(config: ButtonArg, caption: Option<string>, now: nat)
    ensures var o := WithStyle(config, caption, "primary");
      BuildButton(o, now).style == (if NonEmpty(o.url).Some? then Link else Primary)
    ensures var o := WithStyle(config, caption, "secondary");
      BuildButton(o, now).style == (if NonEmpty(o.url).Some? then Link else Secondary)
    ensures var o := WithStyle(config, caption, "success");
      BuildButton(o, now).style == (if NonEmpty(o.url).Some? then Link else ButtonStyle.Success)
    ensures var o := WithStyle(config, caption, "danger");
      BuildButton(o, now).style == (if NonEmpty(o.url).Some? then Link else Danger)
  {
    assert ToLower("primary") == "primary";
    assert ToLower("secondary") == "secondary";
    assert ToLower("success") == "success";
    assert ToLower("danger") == "danger";
  }

  /** An item of a select menu: a plain string, or an option object kept as it is. */
  datatype MenuItem = TextItem(text: string) | OptionItem(option: MenuOption)

  function ExpandItem(item: MenuItem): (o: MenuOption)
    ensures item.TextItem? ==> o.caption == item.text && o.value == item.text
    ensures item.OptionItem? ==> o == item.option
  {
    match item
    case TextItem(t) => MenuOption(t, t)
    case OptionItem(o) => o
  }

  /** The options object of `select`. */
  datatype SelectOptions = SelectOptions(id: Option<string>, placeholder: Option<string>, minValues: Option<int>,
                                         maxValues: Option<int>, disabled: bool, items: Option<seq<MenuItem>>)

  /** The first argument of `select`: an id (with the items as second argument) or an options object. */
  datatype SelectArg = SelectId(id: string) | SelectConfig(options: SelectOptions)

  /** The options `select(config, options)` works from: an id alone, or the configuration object. */
  function SelectOptionsOf(config: SelectArg, items: Option<seq<MenuItem>>): (o: SelectOptions)
    ensures config.SelectId? ==> o == SelectOptions(Some(config.id), None, None, None, false, items)
    ensures config.SelectConfig? ==> o == config.options
  {
    match config
    case SelectId(id) => SelectOptions(Some(id), None, None, None, false, items)
    case SelectConfig(so) => so
  }

  /**
   * The select menu built from its options; `now` stands for `Date.now()` in the
   * fallback id. The placeholder is set only when truthy, min and max only when given,
   * and a truthy `disabled` disables it.
   */
  function BuildSelect(config: SelectArg, items: Option<seq<MenuItem>>, now: nat): (c: Component)
    ensures c.SelectComponent?
    ensures var o := SelectOptionsOf(config, items);
      (NonEmpty(o.id).Some? ==> c.customId == o.id.value)
      && (NonEmpty(o.id).None? ==> c.customId == "select_" + NatToString(now))
      && c.placeholder == NonEmpty(o.placeholder)
      && c.minValues == o.minValues && c.maxValues == o.maxValues
      && c.disabled == o.disabled
  {
    var o := SelectOptionsOf(config, items);
    var list := o.items.GetOr([]);
    SelectComponent(
      if NonEmpty(o.id).Some? then o.id.value else "select_" + NatToString(now),
      NonEmpty(o.placeholder), o.minValues, o.maxValues, o.disabled,
      seq(|list|, i requires 0 <= i < |list| => ExpandItem(list[i])))
  }

  /**
   * Every item becomes one option, in order: a string is both label and value, an
   * object is kept.
   */
  lemma ItemsExpanded(config: SelectArg, items: Option<seq<MenuItem>>, now: nat)
    ensures var list := (if config.SelectId? then items else config.options.items).GetOr([]);
      var c := BuildSelect(config, items, now);
      |c.options| == |list|
      && forall i :: 0 <= i < |list| ==>
        (list[i].TextItem? ==> c.options[i] == MenuOption(list[i].text, list[i].text))
        && (list[i].OptionItem? ==> c.options[i] == list[i].option)
  {
    var list := (if config.SelectId? then items else config.options.items).GetOr([]);
    var c := BuildSelect(config, items, now);
    assert c.options == seq(|list|, i requires 0 <= i < |list| => ExpandItem(list[i]));
  }

  /** The options object of `textInput`; `required` is `None` when absent. */
  datatype InputOptions = InputOptions(id: Option<string>, caption: Option<string>, style: Option<string>,
                                       required: Option<bool>, placeholder: Option<string>, value: Option<string>,
                                       minLength: Option<int>, maxLength: Option<int>)

  datatype InputArg = InputId(id: string) | InputConfig(options: InputOptions)

  function InputOptionsOf(config: InputArg, caption: Option<string>): InputOptions
  {
    match config
    case InputId(id) => InputOptions(Some(id), NonEmpty(caption), None, None, None, None, None, None)
    case InputConfig(o) => o
  }

  /**
   * The text input built from its options; `now` stands for `Date.now()` in the
   * fallback id. The label falls back to "Input", the placeholder and value are set
   * only when truthy, and the lengths only when given.
   */
  function BuildTextInput(o: InputOptions, now: nat): (c: Component)
    ensures c.TextInputComponent?
    ensures NonEmpty(o.id).Some? ==> c.customId == o.id.value
    ensures NonEmpty(o.id).None? ==> c.customId == "input_" + NatToString(now)
    ensures NonEmpty(o.caption).Some? ==> c.title == o.caption.value
    ensures NonEmpty(o.caption).None? ==> c.title == "Input"
    ensures c.paragraph <==> o.style == Some("paragraph")
    ensures c.required <==> o.required != Some(false)
    ensures c.placeholder == NonEmpty(o.placeholder) && c.value == NonEmpty(o.value)
    ensures c.minLength == o.minLength && c.maxLength == o.maxLength
    ensures c.title != ""
  {
    TextInputComponent(
      if NonEmpty(o.id).Some? then o.id.value else "input_" + NatToString(now),
      if NonEmpty(o.caption).Some? then o.caption.value else "Input",
      o.style == Some("paragraph"),
      o.required != Some(false),
      NonEmpty(o.placeholder), NonEmpty(o.value), o.minLength, o.maxLength)
  }

  /** `new ReaxionRow()`: a row whose components are appended by each call. */
  class ReaxionRow {
    var components: seq<Component>

    constructor ()
      ensures components == []
    {
      components := [];
    }

    /** `button(config, label)`. */
    method AddButton(config: ButtonArg, caption: Option<string>, now: nat) returns (self: ReaxionRow)
      modifies this
      ensures components == old(components) + [BuildButton(ButtonOptionsOf(config, caption), now)]
      ensures self == this
    {
      var options := ButtonOptionsOf(config, caption);
      components := components + [BuildButton(options, now)];
      self := this;
    }

    /** `primary` / `secondary` / `success` / `danger`: the button with its style forced. */
    method AddStyled(config: ButtonArg, caption: Option<string>, style: string, now: nat) returns (self: ReaxionRow)
      requires style in {"primary", "secondary", "success", "danger"}
      modifies this
      ensures components == old(components) + [BuildButton(WithStyle(config, caption, style), now)]
      ensures self == this
    {
      components := components + [BuildButton(WithStyle(config, caption, style), now)];
      self := this;
    }

    /** `link(url, labelOrConfig)`: a label or an options object, with the url added. */
    method AddLink(url: string, labelOrConfig: ButtonArg, now: nat) returns (self: ReaxionRow)
      modifies this
      ensures components == old(components) + [BuildButton(
        (match labelOrConfig
         case IdArg(caption) => NoButtonOptions.(caption := Some(caption))
         case ConfigArg(o) => o).(url := Some(url)), now)]
      ensures url != "" ==> components[|components| - 1].style == Link
      ensures self == this
    {
      var options := match labelOrConfig
        case IdArg(caption) => NoButtonOptions.(caption := Some(caption))
        case ConfigArg(o) => o;
      components := components + [BuildButton(options.(url := Some(url)), now)];
      self := this;
    }

    /** `select(config, options)`. */
    method AddSelect(config: SelectArg, items: Option<seq<MenuItem>>, now: nat) returns (self: ReaxionRow)
      modifies this
      ensures components == old(components) + [BuildSelect(config, items, now)]
      ensures self == this
    {
      components := components + [BuildSelect(config, items, now)];
      self := this;
    }

    /** `textInput(config, label)`; `paragraph` and `short` pass the style `paragraph` or `short`. */
    method AddTextInput(config: InputArg, caption: Option<string>, now: nat) returns (self: ReaxionRow)
      modifies this
      ensures components == old(components) + [BuildTextInput(InputOptionsOf(config, caption), now)]
      ensures self == this
    {
      components := components + [BuildTextInput(InputOptionsOf(config, caption), now)];
      self := this;
    }
  }

  /** `buttons(...configs)`: a fresh row with one button per configuration, in order. */
  method ButtonsRow(configs: seq<ButtonOptions>, now: nat) returns (row: ReaxionRow)
    ensures fresh(row)
    ensures |row.components| == |configs|
    ensures forall i :: 0 <= i < |configs| ==> row.components[i] == BuildButton(configs[i], now)
  {
    row := new ReaxionRow();
    var i := 0;
    while i < |configs|
      invariant 0 <= i <= |configs|
      invariant |row.components| == i
      invariant forall k :: 0 <= k < i ==> row.components[k] == BuildButton(configs[k], now)
    {
      var self := row.AddButton(ConfigArg(configs[i]), None, now);
      i := i + 1;
    }
  }
}
