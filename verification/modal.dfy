/**
 * The modal builder of src/utility/interaction/modal.js: one modal at a time is
 * configured (id, title, text fields), shown with one row per field, and its submission
 * dispatched to the handler registered under the modal's id.
 */
module Modals {
  import opened Wrappers
  import opened JsonValues

  /** The configuration `addField` receives; `None` is an absent property. */
  datatype FieldSpec = FieldSpec(id: string, caption: string, style: Option<string>, placeholder: Option<string>,
                                 value: Option<string>, minLength: Option<int>, maxLength: Option<int>,
                                 required: Option<bool>)

  /** A built text input. */
  datatype TextField = TextField(id: string, caption: string, paragraph: bool, required: bool,
                                 placeholder: Option<string>, value: Option<string>,
                                 minLength: Option<int>, maxLength: Option<int>)

  /**
   * The input `addField` builds: Short only for the style `short`, required unless told
   * otherwise, the placeholder and value only when truthy, the lengths as given.
   */
  function BuildField(f: FieldSpec): (t: TextField)
    ensures t.id == f.id && t.caption == f.caption
    ensures !t.paragraph <==> f.style == Some("short")
    ensures t.required <==> f.required != Some(false)
    ensures t.placeholder == NonEmpty(f.placeholder) && t.value == NonEmpty(f.value)
    ensures t.minLength == f.minLength && t.maxLength == f.maxLength
  {
    TextField(f.id, f.caption, f.style != Some("short"), f.required.GetOr(true),
              NonEmpty(f.placeholder), NonEmpty(f.value), f.minLength, f.maxLength)
  }

  /** The modal `show` sends: its id, its title and one action row per field. */
  datatype ModalView = ModalView(customId: string, title: string, rows: seq<seq<TextField>>)

  /**
   * The values `getValues` reads from submitted `(id, value)` pairs, in order; a later
   * pair with the same id overwrites an earlier one.
   */
  function ValuesOf(pairs: seq<(string, string)>): map<string, string>
  {
    if |pairs| == 0 then map[] else ValuesOf(pairs[..|pairs| - 1])[pairs[|pairs| - 1].0 := pairs[|pairs| - 1].1]
  }

  /** The ids `getValues` returns are exactly the submitted ids. */
  lemma {:induction false} ValuesOfKeys(pairs: seq<(string, string)>)
    ensures forall id :: id in ValuesOf(pairs) <==> exists i :: 0 <= i < |pairs| && pairs[i].0 == id
  {
    if |pairs| > 0 {
      var init := pairs[..|pairs| - 1];
      ValuesOfKeys(init);
      forall id
        ensures id in ValuesOf(pairs) <==> exists i :: 0 <= i < |pairs| && pairs[i].0 == id
      {
        if id == pairs[|pairs| - 1].0 {
          assert pairs[|pairs| - 1].0 == id;
        } else {
          if exists i :: 0 <= i < |pairs| && pairs[i].0 == id {
            var i :| 0 <= i < |pairs| && pairs[i].0 == id;
            assert init[i].0 == id;
          }
          if id in ValuesOf(init) {
            var i :| 0 <= i < |init| && init[i].0 == id;
            assert pairs[i].0 == id;
          }
        }
      }
    }
  }

  /** Each id reads the value of its last occurrence; with distinct ids, the value submitted for it. */
  lemma {:induction false} ValuesOfLastWins(pairs: seq<(string, string)>, i: nat)
    requires i < |pairs|
    requires forall j :: i < j < |pairs| ==> pairs[j].0 != pairs[i].0
    ensures pairs[i].0 in ValuesOf(pairs) && ValuesOf(pairs)[pairs[i].0] == pairs[i].1
  {
    if i < |pairs| - 1 {
      var init := pairs[..|pairs| - 1];
      assert init[i] == pairs[i];
      ValuesOfLastWins(init, i);
    }
  }

  /** `ModalHandler.getValues(interaction)`: `{}` unless the interaction is a modal submission. */
  method GetValues(isModalSubmit: bool, submitted: seq<(string, string)>) returns (values: map<string, string>)
    ensures !isModalSubmit ==> values == map[]
    ensures isModalSubmit ==> values == ValuesOf(submitted)
  {
    values := map[];
    if !isModalSubmit {
      return;
    }
    var i := 0;
    while i < |submitted|
      invariant 0 <= i <= |submitted|
      invariant values == ValuesOf(submitted[..i])
    {
      assert submitted[..i + 1][..i] == submitted[..i];
      values := values[submitted[i].0 := submitted[i].1];
      i := i + 1;
    }
    assert submitted[..|submitted|] == submitted;
  }

  /** `new ModalHandler()`: the one modal being built, with its submit handlers by modal id. */
  class ModalHandler {
    var customId: string
    var title: string
    var fields: seq<TextField>
    var handlers: map<string, nat>

    constructor ()
      ensures customId == "" && title == "" && fields == [] && handlers == map[]
    {
      customId, title, fields, handlers := "", "", [], map[];
    }

    /** `reset()`: back to an empty modal, dropping every registered handler. */
    method Reset() returns (self: ModalHandler)
      modifies this
      ensures customId == "" && title == "" && fields == [] && handlers == map[]
      ensures self == this
    {
      customId, title, fields, handlers := "", "", [], map[];
      self := this;
    }

    /** `create(customId, title)`: a reset, then the new id and title. */
    method Create(id: string, caption: string) returns (self: ModalHandler)
      modifies this
      ensures customId == id && title == caption && fields == [] && handlers == map[]
      ensures self == this
    {
      self := Reset();
      customId := id;
      title := caption;
    }

    /** `addField(field)`: appends the built input. */
    method AddField(f: FieldSpec) returns (self: ModalHandler)
      modifies this
      ensures fields == old(fields) + [BuildField(f)]
      ensures customId == old(customId) && title == old(title) && handlers == old(handlers)
      ensures self == this
    {
      fields := fields + [BuildField(f)];
      self := this;
    }

    /** `addFields(fields)`: the same as calling `addField` on each, in order. */
    method AddFields(specs: seq<FieldSpec>) returns (self: ModalHandler)
      modifies this
      ensures |fields| == |old(fields)| + |specs|
      ensures fields[..|old(fields)|] == old(fields)
      ensures forall i :: 0 <= i < |specs| ==> fields[|old(fields)| + i] == BuildField(specs[i])
      ensures customId == old(customId) && title == old(title) && handlers == old(handlers)
      ensures self == this
    {
      var i := 0;
      while i < |specs|
        invariant 0 <= i <= |specs|
        invariant |fields| == |old(fields)| + i
        invariant fields[..|old(fields)|] == old(fields)
        invariant forall k :: 0 <= k < i ==> fields[|old(fields)| + k] == BuildField(specs[k])
        invariant customId == old(customId) && title == old(title) && handlers == old(handlers)
      {
        self := AddField(specs[i]);
        i := i + 1;
      }
      self := this;
    }

    /** `onSubmit(handler)`: registers the handler under the current modal id, replacing any. */
    method OnSubmit(handler: nat) returns (self: ModalHandler)
      modifies this
      ensures handlers == old(handlers)[customId := handler]
      ensures customId == old(customId) && title == old(title) && fields == old(fields)
      ensures self == this
    {
      handlers := handlers[customId := handler];
      self := this;
    }

    /** `show(interaction)`: the modal with each field in its own row, in order. */
    method Show() returns (view: ModalView)
      ensures view.customId == customId && view.title == title
      ensures |view.rows| == |fields|
      ensures forall i :: 0 <= i < |fields| ==> view.rows[i] == [fields[i]]
    {
      var rows: seq<seq<TextField>> := [];
      var i := 0;
      while i < |fields|
        invariant 0 <= i <= |fields|
        invariant |rows| == i
        invariant forall k :: 0 <= k < i ==> rows[k] == [fields[k]]
      {
        rows := rows + [[fields[i]]];
        i := i + 1;
      }
      view := ModalView(customId, title, rows);
    }

    /**
     * `handleSubmit(interaction)`: true, with the handler to run, exactly when the
     * interaction is a modal submission whose id has a registered handler.
     */
    method HandleSubmit(isModalSubmit: bool, submittedId: string) returns (handled: bool, handler: Option<nat>)
      ensures handled <==> isModalSubmit && submittedId in handlers
      ensures handled ==> handler == Some(handlers[submittedId])
      ensures !handled ==> handler.None?
    {
      if !isModalSubmit {
        return false, None;
      }
      if submittedId in handlers {
        return true, Some(handlers[submittedId]);
      }
      return false, None;
    }
  }

  /**
   * Handlers do not outlive their modal: building the next modal with `create` drops the
   * handler of the previous one, so its submission is no longer handled.
   */
  method CreateForgetsHandlers(m: ModalHandler, first: string, second: string, handler: nat)
    returns (before: bool, after: bool)
    modifies m
    ensures before
    ensures !after
  {
    var self := m.Create(first, "first");
    self := m.OnSubmit(handler);
    var h;
    before, h := m.HandleSubmit(true, first);
    self := m.Create(second, "second");
    after, h := m.HandleSubmit(true, first);
  }
}
