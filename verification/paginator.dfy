/**
 * The interactive menu of src/utility/interaction/paginator.js: a registry of pages
 * keyed by id, the component rows a page renders to, and the routing of clicks from
 * the message component collector between pages.
 */
module Paging {
  import opened Wrappers
  import opened Strings
  import opened JsonValues

  /** Discord's numeric button styles used here. */
  const StyleSecondary: Json := Num(2)
  const StyleDanger: Json := Num(4)

  const DefaultTimeout := 300000

  /** One entry of a page's `buttons` list; `style` is whatever the caller supplied. */
  datatype ButtonConfig = ButtonConfig(id: string, caption: string, style: Json, emoji: Option<string>, disabled: bool)

  /** A built button. */
  datatype Button = Button(customId: string, caption: string, style: Json, emoji: Option<string>, disabled: bool)

  /** One option of the page select menu. */
  datatype SelectOption = SelectOption(caption: string, value: string, description: string)

  /** An action row: the page select menu, or a row of buttons. */
  datatype Row =
    | Select(customId: string, placeholder: string, options: seq<SelectOption>)
    | Buttons(buttons: seq<Button>)

  /**
   * A registered page. `handlers` maps a component id to the handler registered for it
   * (handlers are opaque, named by a number). `embed` is a prebuilt embed, by its text.
   * Embed styling (colour, fields, footer, thumbnail, image) is not modelled.
   */
  datatype Page = Page(
    id: string,
    title: string,
    description: string,
    options: seq<SelectOption>,
    buttons: seq<ButtonConfig>,
    components: Option<seq<Row>>,
    handlers: map<string, nat>,
    backTo: Option<string>,
    embed: Option<string>,
    placeholder: string,
    showCloseButton: bool)

  /**
   * The `options` argument of `page(id, options)`; `None` is an absent property and
   * `showCloseButton` keeps its JavaScript value because only `false` disables it.
   */
  datatype PageOptions = PageOptions(
    title: Option<string>,
    description: Option<string>,
    options: Option<seq<SelectOption>>,
    buttons: Option<seq<ButtonConfig>>,
    components: Option<seq<Row>>,
    handlers: Option<map<string, nat>>,
    backTo: Option<string>,
    embed: Option<string>,
    placeholder: Option<string>,
    showCloseButton: Json)

  /** `s || fallback` for an optional string: absent and empty strings are falsy. */
  function OrText(s: Option<string>, fallback: string): (r: string)
    ensures s.Some? && s.value != "" ==> r == s.value
    ensures (s.None? || s.value == "") ==> r == fallback
  {
    if s.Some? && s.value != "" then s.value else fallback
  }

  /** The page object `page(id, options)` stores, with every default filled in. */
  function NewPage(id: string, o: PageOptions): (p: Page)
    ensures p.id == id && p.title != "" && p.placeholder != ""
    ensures p.showCloseButton <==> o.showCloseButton != Bool(false)
    ensures o.buttons.None? ==> p.buttons == []
    ensures o.options.None? ==> p.options == []
    ensures o.handlers.None? ==> p.handlers == map[]
  {
    Page(id,
      OrText(o.title, "Menu"),
      OrText(o.description, ""),
      o.options.GetOr([]),
      o.buttons.GetOr([]),
      o.components,
      o.handlers.GetOr(map[]),
      NonEmpty(o.backTo),
      NonEmpty(o.embed),
      OrText(o.placeholder, "Select an option"),
      o.showCloseButton != Bool(false))
  }

  /** The button built from one configuration: Secondary unless a truthy style is given. */
  function ToButton(c: ButtonConfig): Button
  {
    Button(c.id, c.caption, Or(c.style, StyleSecondary), NonEmpty(c.emoji), c.disabled)
  }

  /** The Back button, present when `backTo` is set. */
  function BackButton(target: string): Button
  {
    Button("goto_" + target, "Back", StyleSecondary, None, false)
  }

  const CloseButton: Button := Button("close_menu", "Close", StyleDanger, None, false)

  /** The custom buttons, in order. */
  function CustomButtons(configs: seq<ButtonConfig>): (bs: seq<Button>)
    ensures |bs| == |configs|
    ensures forall i :: 0 <= i < |configs| ==> bs[i] == ToButton(configs[i])
  {
    seq(|configs|, i requires 0 <= i < |configs| => ToButton(configs[i]))
  }

  /** The buttons of the button row: the custom ones, then Back, then Close. */
  function ButtonRow(p: Page): seq<Button>
  {
    CustomButtons(p.buttons)
      + (if p.backTo.Some? then [BackButton(p.backTo.value)] else [])
      + (if p.showCloseButton then [CloseButton] else [])
  }

  /** The rows `_buildComponents(page)` returns. */
  function Components(p: Page): (rows: seq<Row>)
    ensures p.components.Some? ==> rows == p.components.value
    ensures p.components.None? ==> |rows| <= 2
    ensures p.components.None? ==>
      forall i :: 0 <= i < |rows| && rows[i].Select? ==> rows[i].customId == "page_select" && rows[i].options == p.options
  {
    if p.components.Some? then p.components.value
    else
      (if |p.options| > 0 then [Select("page_select", OrText(Some(p.placeholder), "Select an option"), p.options)] else [])
      + (if |ButtonRow(p)| > 0 then [Buttons(ButtonRow(p))] else [])
  }

  /**
   * The layout of a page without custom components: a select row exactly when the page
   * has options, first; a button row exactly when there is a button to show, last; the
   * custom buttons keep their ids and order, Back follows them and Close comes last.
   */
  lemma ComponentsLayout(p: Page)
    requires p.components.None?
    ensures |Components(p)| == (if |p.options| > 0 then 1 else 0)
      + (if |p.buttons| > 0 || p.backTo.Some? || p.showCloseButton then 1 else 0)
    ensures |p.options| > 0 ==>
      (Components(p)[0].Select? && Components(p)[0].customId == "page_select" && Components(p)[0].options == p.options)
    ensures |p.buttons| > 0 || p.backTo.Some? || p.showCloseButton ==>
      var row := Components(p)[|Components(p)| - 1];
      row.Buttons?
      && |row.buttons| == |p.buttons| + (if p.backTo.Some? then 1 else 0) + (if p.showCloseButton then 1 else 0)
      && (forall i :: 0 <= i < |p.buttons| ==> row.buttons[i].customId == p.buttons[i].id)
      && (p.backTo.Some? ==> row.buttons[|p.buttons|].customId == "goto_" + p.backTo.value)
      && (p.showCloseButton ==> row.buttons[|row.buttons| - 1] == CloseButton)
  {
  }

  /** A click received by the collector. `values` are the select menu's values. */
  datatype Click = Click(userId: string, customId: string, values: seq<string>)

  /** What the collector does with a click. */
  datatype Reaction =
    | NotOwner            // replied "controls belong to someone else"
    | Show(pageId: string) // the message now shows that page
    | Closed              // "Menu Closed", the collector stops with reason `closed`
    | Dispatch(handler: nat)
    | Ignored             // the current page has no handler for the id
    | Failed              // a TypeError was caught and an error reply sent

  /** The collector's state after a click: the current page id (`None` is `undefined`) and the reaction. */
  datatype Step = Step(current: Option<string>, reaction: Reaction)

  /** The value `values[0]`, `undefined` for an empty list. */
  function FirstValue(values: seq<string>): Option<string>
  {
    if |values| > 0 then Some(values[0]) else None
  }

  /** Moving to a page id: shown when registered, otherwise building its embed throws. */
  function MoveTo(pages: map<string, Page>, target: Option<string>): Reaction
  {
    if target.Some? && target.value in pages then Show(target.value) else Failed
  }

  /**
   * The `collect` listener. `goto_X` moves to X (`replace` removes the prefix, the first
   * occurrence); the current page id is updated before the page is looked up.
   */
  function Route(pages: map<string, Page>, ownerId: string, current: Option<string>, c: Click): (r: Step)
    ensures r.reaction.Show? ==> r.reaction.pageId in pages && r.current == Some(r.reaction.pageId)
    ensures r.reaction.Dispatch? ==>
      r.current == current && current.Some? && current.value in pages
      && c.customId in pages[current.value].handlers && pages[current.value].handlers[c.customId] == r.reaction.handler
    ensures r.current != current ==> c.userId == ownerId && (c.customId == "page_select" || StartsWith(c.customId, "goto_"))
  {
    if c.userId != ownerId then Step(current, NotOwner)
    else if c.customId == "page_select" then
      Step(FirstValue(c.values), MoveTo(pages, FirstValue(c.values)))
    else if StartsWith(c.customId, "goto_") then
      Step(Some(c.customId[5..]), MoveTo(pages, Some(c.customId[5..])))
    else if c.customId == "close_menu" then Step(current, Closed)
    else if current.None? || current.value !in pages then Step(current, Failed)
    else if c.customId in pages[current.value].handlers then Step(current, Dispatch(pages[current.value].handlers[c.customId]))
    else Step(current, Ignored)
  }

  /**
   * Routing: clicks from anyone but the menu's owner change nothing; the Back button
   * returns to its page; a click on any other component id keeps the current page and
   * reaches the current page's handler for it, if there is one.
   */
  lemma RouteRules(pages: map<string, Page>, ownerId: string, current: Option<string>, c: Click)
    ensures c.userId != ownerId ==> Route(pages, ownerId, current, c) == Step(current, NotOwner)
    ensures c.userId == ownerId && c.customId == "close_menu" ==> Route(pages, ownerId, current, c) == Step(current, Closed)
    ensures c.userId == ownerId && c.customId == "page_select" && |c.values| > 0 && c.values[0] in pages ==>
      Route(pages, ownerId, current, c) == Step(Some(c.values[0]), Show(c.values[0]))
    ensures c.userId == ownerId && c.customId != "page_select" && c.customId != "close_menu" && !StartsWith(c.customId, "goto_")
      ==> (Route(pages, ownerId, current, c).current == current
           && (Route(pages, ownerId, current, c).reaction.Dispatch? <==>
                 current.Some? && current.value in pages && c.customId in pages[current.value].handlers))
  {
    if c.customId == "close_menu" {
      assert !StartsWith(c.customId, "goto_") by { assert c.customId[0] != 'g'; }
    }
  }

  /** Pressing the Back button of a page shows the page it names, when that page is registered. */
  lemma {:induction false} BackButtonReturns(pages: map<string, Page>, ownerId: string, current: Option<string>, target: string)
    requires target in pages
    ensures Route(pages, ownerId, current, Click(ownerId, BackButton(target).customId, [])) == Step(Some(target), Show(target))
  {
    var id := BackButton(target).customId;
    assert id[..5] == "goto_" && id[5..] == target;
    assert id != "page_select" by { assert id[0] != "page_select"[0]; }
  }

  /** `end`: the timed-out notice is shown unless the menu was closed or its message deleted. */
  predicate ShowsTimeoutNotice(reason: string)
  {
    reason != "closed" && reason != "messageDelete"
  }

  /** A menu closed with its Close button never shows the timed-out notice. */
  lemma CloseButtonSilencesNotice(pages: map<string, Page>, ownerId: string, current: Option<string>)
    ensures Route(pages, ownerId, current, Click(ownerId, CloseButton.customId, [])).reaction == Closed
    ensures !ShowsTimeoutNotice("closed")
  {
    assert !StartsWith(CloseButton.customId, "goto_") by { assert CloseButton.customId[0] != 'g'; }
    assert CloseButton.customId != "page_select" by { assert CloseButton.customId[0] != 'p'; }
  }

  /** The first view `render` replies with: the start page and its rows. */
  datatype View = View(pageId: string, rows: seq<Row>)

  class Paginator {
    var pages: map<string, Page>
    var startPageId: string
    var timeout: int
    var ephemeral: bool
    var hasInteraction: bool

    /** `new Paginator({ timeout, ephemeral })`: falsy options fall back to the defaults. */
    constructor (timeout: Option<int>, ephemeral: Option<bool>)
      ensures pages == map[] && startPageId == "main" && !hasInteraction
      ensures this.timeout == (if timeout.Some? && timeout.value != 0 then timeout.value else DefaultTimeout)
      ensures this.ephemeral == (ephemeral == Some(true))
    {
      pages := map[];
      startPageId := "main";
      this.timeout := if timeout.Some? && timeout.value != 0 then timeout.value else DefaultTimeout;
      this.ephemeral := ephemeral == Some(true);
      hasInteraction := false;
    }

    /** `init(interaction)`. */
    method Init() returns (self: Paginator)
      modifies this
      ensures hasInteraction && self == this
      ensures pages == old(pages) && startPageId == old(startPageId)
      ensures timeout == old(timeout) && ephemeral == old(ephemeral)
    {
      hasInteraction := true;
      self := this;
    }

    /**
     * `setOptions({ timeout, ephemeral, startPage })`: a supplied timeout or ephemeral
     * flag is taken as given; the start page only when it is a non-empty string.
     */
    method SetOptions(timeout: Option<int>, ephemeral: Option<bool>, startPage: Option<string>) returns (self: Paginator)
      modifies this
      ensures this.timeout == (if timeout.Some? then timeout.value else old(this.timeout))
      ensures this.ephemeral == (if ephemeral.Some? then ephemeral.value else old(this.ephemeral))
      ensures startPageId == (if startPage.Some? && startPage.value != "" then startPage.value else old(startPageId))
      ensures pages == old(pages) && hasInteraction == old(hasInteraction) && self == this
    {
      if timeout.Some? {
        this.timeout := timeout.value;
      }
      if ephemeral.Some? {
        this.ephemeral := ephemeral.value;
      }
      if startPage.Some? && startPage.value != "" {
        startPageId := startPage.value;
      }
      self := this;
    }

    /** `page(id, options)`: registers the page, replacing any page with that id. */
    method AddPage(id: string, o: PageOptions) returns (page: Page)
      modifies this
      ensures page == NewPage(id, o)
      ensures pages == old(pages)[id := page]
      ensures startPageId == old(startPageId) && timeout == old(timeout)
      ensures ephemeral == old(ephemeral) && hasInteraction == old(hasInteraction)
    {
      page := NewPage(id, o);
      pages := pages[id := page];
    }

    /** `addButton(pageId, button)`: appends to that page, or throws for an unknown page. */
    method AddButton(pageId: string, b: ButtonConfig) returns (r: Result<Paginator>)
      modifies this
      ensures r.Failure? <==> pageId !in old(pages)
      ensures r.Failure? ==> pages == old(pages)
      ensures r.Success? ==>
        (r.value == this && pages == old(pages)[pageId := old(pages)[pageId].(buttons := old(pages)[pageId].buttons + [b])])
      ensures startPageId == old(startPageId) && hasInteraction == old(hasInteraction)
    {
      if pageId !in pages {
        return Failure("Page \"" + pageId + "\" not found");
      }
      var page := pages[pageId];
      pages := pages[pageId := page.(buttons := page.buttons + [b])];
      return Success(this);
    }

    /** `addOption(pageId, option)`: appends to that page, or throws for an unknown page. */
    method AddOption(pageId: string, option: SelectOption) returns (r: Result<Paginator>)
      modifies this
      ensures r.Failure? <==> pageId !in old(pages)
      ensures r.Failure? ==> pages == old(pages)
      ensures r.Success? ==>
        (r.value == this && pages == old(pages)[pageId := old(pages)[pageId].(options := old(pages)[pageId].options + [option])])
      ensures startPageId == old(startPageId) && hasInteraction == old(hasInteraction)
    {
      if pageId !in pages {
        return Failure("Page \"" + pageId + "\" not found");
      }
      var page := pages[pageId];
      pages := pages[pageId := page.(options := page.options + [option])];
      return Success(this);
    }

    /** `addHandler(pageId, componentId, handler)`: sets or replaces the handler on that page. */
    method AddHandler(pageId: string, componentId: string, handler: nat) returns (r: Result<Paginator>)
      modifies this
      ensures r.Failure? <==> pageId !in old(pages)
      ensures r.Failure? ==> pages == old(pages)
      ensures r.Success? ==>
        (r.value == this && pages == old(pages)[pageId := old(pages)[pageId].(handlers := old(pages)[pageId].handlers[componentId := handler])])
      ensures startPageId == old(startPageId) && hasInteraction == old(hasInteraction)
    {
      if pageId !in pages {
        return Failure("Page \"" + pageId + "\" not found");
      }
      var page := pages[pageId];
      pages := pages[pageId := page.(handlers := page.handlers[componentId := handler])];
      return Success(this);
    }

    /**
     * The checks `render` makes before replying, in order, and the first view it sends.
     * Collector set-up and the `onDisplay` hook are not modelled.
     */
    method Render() returns (r: Result<View>)
      ensures r.Failure? <==> !hasInteraction || startPageId !in pages
      ensures r.Failure? && hasInteraction && pages == map[] ==> r.error == "No pages defined. Create pages with page()"
      ensures r.Success? ==> r.value == View(startPageId, Components(pages[startPageId]))
    {
      if !hasInteraction {
        return Failure("No interaction provided. Call init() first");
      }
      if pages == map[] {
        return Failure("No pages defined. Create pages with page()");
      }
      if startPageId !in pages {
        return Failure("Start page \"" + startPageId + "\" not found in page definitions");
      }
      var rows := BuildComponents(pages[startPageId]);
      return Success(View(startPageId, rows));
    }
  }

  /** `_buildComponents(page)`, building the button row one custom button at a time. */
  method BuildComponents(page: Page) returns (rows: seq<Row>)
    ensures rows == Components(page)
  {
    if page.components.Some? {
      return page.components.value;
    }
    rows := [];
    if |page.options| > 0 {
      rows := rows + [Select("page_select", OrText(Some(page.placeholder), "Select an option"), page.options)];
    }
    var row: seq<Button> := [];
    var i := 0;
    while i < |page.buttons|
      invariant 0 <= i <= |page.buttons|
      invariant |row| == i
      invariant forall k :: 0 <= k < i ==> row[k] == ToButton(page.buttons[k])
    {
      row := row + [ToButton(page.buttons[i])];
      i := i + 1;
    }
    assert row == CustomButtons(page.buttons);
    var back := if page.backTo.Some? then [BackButton(page.backTo.value)] else [];
    var close := if page.showCloseButton then [CloseButton] else [];
    row := row + back + close;
    assert row == ButtonRow(page);
    if |row| > 0 {
      rows := rows + [Buttons(row)];
    }
  }

  /** The collector of one rendered menu: whose menu it is, the current page and why it stopped. */
  class MenuSession {
    const ownerId: string
    var current: Option<string>
    var stopReason: Option<string>

    constructor (ownerId: string, startPageId: string)
      ensures this.ownerId == ownerId && current == Some(startPageId) && stopReason.None?
    {
      this.ownerId := ownerId;
      current := Some(startPageId);
      stopReason := None;
    }

    /** One `collect` event, against the paginator's pages at that moment. */
    method OnCollect(p: Paginator, c: Click) returns (reaction: Reaction)
      modifies this
      ensures Step(current, reaction) == Route(p.pages, ownerId, old(current), c)
      ensures stopReason == (if reaction.Closed? then Some("closed") else old(stopReason))
    {
      var step := Route(p.pages, ownerId, current, c);
      current := step.current;
      reaction := step.reaction;
      if reaction.Closed? {
        stopReason := Some("closed");
      }
    }
  }
}
