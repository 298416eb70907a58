/**
 * The widgets of management/editor/elements.go that a content type's
 * editor calls: Input, Textarea, Timestamp, Richtext, Select, Checkbox and
 * Tags.
 *
 * A caller's `map[string]string` is a map together with the order in which
 * Go's `range` happens to visit it; where a widget writes into the caller's
 * map, the map is an `AttrMap` object. The elements a widget builds for
 * itself keep their attributes in the order the code writes them.
 */
module EditorWidgets {
  import opened Wrappers
  import opened GoText
  import opened EditorFields
  import opened EditorDom

  // ---------------------------------------------------------------------
  // The caller's maps
  // ---------------------------------------------------------------------

  /** Go's `m[k]` on a `map[string]string`: the empty string for a missing key. */
  function Lookup(m: map<string, string>, k: string): string {
    if k in m then m[k] else ""
  }

  /** `order` visits every key exactly once, as a `range` over the map does. */
  predicate IsEnumeration(order: seq<string>, keys: set<string>) {
    && (forall i, j :: 0 <= i < j < |order| ==> order[i] != order[j])
    && (forall i :: 0 <= i < |order| ==> order[i] in keys)
    && (forall k :: k in keys ==> k in order)
  }

  /** The pairs of `m` in the order `order` visits them. */
  function Pairs(m: map<string, string>, order: seq<string>): Attrs
    requires forall i :: 0 <= i < |order| ==> order[i] in m
  {
    seq(|order|, i requires 0 <= i < |order| => (order[i], m[order[i]]))
  }

  /**
   * Visiting a map in any order gives exactly its pairs, each key once:
   * the element's attribute list and the caller's map agree.
   */
  lemma PairsOfMap(m: map<string, string>, order: seq<string>)
    requires IsEnumeration(order, m.Keys)
    ensures var ps := Pairs(m, order);
      && (forall k :: k in m ==> (k, m[k]) in ps)
      && (forall i :: 0 <= i < |ps| ==> ps[i].0 in m && ps[i].1 == m[ps[i].0])
      && (forall i, j :: 0 <= i < j < |ps| ==> ps[i].0 != ps[j].0)
  {
    var ps := Pairs(m, order);
    forall k | k in m
      ensures (k, m[k]) in ps
    {
      assert k in order;
      var i :| 0 <= i < |order| && order[i] == k;
      assert ps[i] == (k, m[k]);
    }
  }

  /** A `map[string]string` owned by the caller, which some widgets write into. */
  class AttrMap {
    var entries: map<string, string>

    constructor (m: map<string, string>)
      ensures entries == m
    {
      entries := m;
    }

    /** Assigns to one key and leaves every other key as it was. */
    method Set(k: string, v: string)
      modifies this
      ensures entries == old(entries)[k := v]
      ensures forall j :: j != k ==> (j in entries <==> j in old(entries))
      ensures forall j :: j != k && j in entries ==> entries[j] == old(entries)[j]
    {
      entries := entries[k := v];
    }
  }

  /** Whether an element carries the attribute `k="v"`, wherever it is visited. */
  predicate HasAttr(e: Element, k: string, v: string) {
    (k, v) in e.attrs
  }

  // ---------------------------------------------------------------------
  // Input, Textarea, Timestamp
  // ---------------------------------------------------------------------

  /**
   * Input: the field's self-closing `<input>`, labelled by the "label"
   * attribute; it fails where the field's form name does.
   */
  method Input(fieldName: string, post: Post, attrs: map<string, string>, order: seq<string>)
    returns (r: Result<string, Panic>)
    requires IsEnumeration(order, attrs.Keys)
    ensures var name := TagNameFromStructField(fieldName, post);
      && (r.Failure? <==> name.Failure?)
      && (r.Failure? ==> r.error == name.error)
      && (r.Success? ==> r.value == SelfCloseHtml(Element("input", Pairs(attrs, order), name.value,
            Lookup(attrs, "label"), ValueString(ValueFromStructField(fieldName, post)))))
  {
    var e := NewElement("input", Lookup(attrs, "label"), fieldName, post, Pairs(attrs, order));
    if e.Failure? {
      return Failure(e.error);
    }
    var buf := new Buffer();
    var out := DomElementSelfClose(e.value, buf);
    EmptyAppend(SelfCloseHtml(e.value));
    r := Success(out);
  }

  /**
   * Textarea: the field's `<textarea>` holding its value, labelled by the
   * "label" attribute; it fails where the field's form name does.
   */
  method Textarea(fieldName: string, post: Post, attrs: map<string, string>, order: seq<string>)
    returns (r: Result<string, Panic>)
    requires IsEnumeration(order, attrs.Keys)
    ensures var name := TagNameFromStructField(fieldName, post);
      && (r.Failure? <==> name.Failure?)
      && (r.Failure? ==> r.error == name.error)
      && (r.Success? ==> r.value == ElementHtml(Element("textarea", Pairs(attrs, order), name.value,
            Lookup(attrs, "label"), ValueString(ValueFromStructField(fieldName, post)))))
  {
    var e := NewElement("textarea", Lookup(attrs, "label"), fieldName, post, Pairs(attrs, order));
    if e.Failure? {
      return Failure(e.error);
    }
    var buf := new Buffer();
    var out := DomElement(e.value, buf);
    EmptyAppend(ElementHtml(e.value));
    r := Success(out);
  }

  /** The value Timestamp shows for the field's integer: nothing for zero, else its decimal form. */
  function TimestampData(n: int): string {
    if n == 0 then "" else Decimal(n)
  }

  /** The shown value is empty exactly for zero, and otherwise reads back as the integer. */
  lemma TimestampDataMeaning(n: int)
    ensures TimestampData(n) == "" <==> n == 0
    ensures n != 0 ==> ParseDecimal(TimestampData(n)) == Some(n)
  {
    if n != 0 {
      DecimalRoundTrip(n);
    }
  }

  /**
   * Timestamp: a self-closing `<input>` holding the field's integer. It
   * reads the integer first, so a field that is missing or not an integer
   * fails before its form name is looked up.
   */
  method Timestamp(fieldName: string, post: Post, attrs: map<string, string>, order: seq<string>)
    returns (r: Result<string, Panic>)
    requires IsEnumeration(order, attrs.Keys)
    ensures var isInt := fieldName in post && post[fieldName].value.Int?;
      var name := TagNameFromStructField(fieldName, post);
      && (r.Failure? <==> !isInt || name.Failure?)
      && (!isInt ==> r == Failure(NotAnInteger(fieldName)))
      && (isInt && name.Failure? ==> r == Failure(name.error))
      && (r.Success? ==> r.value == SelfCloseHtml(Element("input", Pairs(attrs, order), name.value,
            Lookup(attrs, "label"), TimestampData(post[fieldName].value.n))))
  {
    var val := IntValue(fieldName, ValueFromStructField(fieldName, post));
    if val.Failure? {
      return Failure(val.error);
    }
    var data: string;
    if val.value == 0 {
      data := "";
    } else {
      data := Decimal(val.value);
    }
    var name := TagNameFromStructField(fieldName, post);
    if name.Failure? {
      return Failure(name.error);
    }
    var e := Element("input", Pairs(attrs, order), name.value, Lookup(attrs, "label"), data);
    var buf := new Buffer();
    var out := DomElementSelfClose(e, buf);
    EmptyAppend(SelfCloseHtml(e));
    r := Success(out);
  }

  // ---------------------------------------------------------------------
  // Richtext
  // ---------------------------------------------------------------------

  /** What a widget's `<script>` interpolates; the script text around it is not modelled. */
  datatype Script =
    | RichtextScript(fieldName: string, placeholder: string)
    | TagsScript(name: string, chips: string)

  /** A widget's markup, and the script that follows it. */
  datatype Widget = Widget(markup: string, script: Script)

  /** The wrapper that isolates the editor's styles, with the label. */
  function RichtextIso(labelText: string): string {
    "<div class=\"iso-texteditor input-field col s12\"><label>" + labelText + "</label>"
  }

  /** The hidden input that carries the field's value, escaped. */
  function RichtextInput(name: string, fieldName: string, value: string): string {
    "<input type=\"hidden\" name=\"" + name + "\" class=\"richtext-value " + fieldName + "\" value=\""
      + Escape(value) + "\"/>"
  }

  /**
   * Richtext: the caller's map gets its "class" and "id" set to the
   * editor's, before anything can fail, and keeps every other key; the
   * markup is the wrapper, the editor's target `<div>` carrying the map,
   * and the hidden input with the escaped value.
   */
  method Richtext(fieldName: string, post: Post, attrs: AttrMap, order: seq<string>)
    returns (r: Result<Widget, Panic>)
    requires IsEnumeration(order, attrs.entries.Keys + {"class", "id"})
    modifies attrs
    ensures attrs.entries == old(attrs.entries)["class" := "richtext " + fieldName]["id" := "richtext-" + fieldName]
    ensures forall k :: k != "class" && k != "id" ==>
      (k in attrs.entries <==> k in old(attrs.entries)) && (k in attrs.entries ==> attrs.entries[k] == old(attrs.entries)[k])
    ensures var name := TagNameFromStructField(fieldName, post);
      && (r.Failure? <==> name.Failure?)
      && (r.Failure? ==> r.error == name.error)
      && (r.Success? ==> r.value == Widget(
            RichtextIso(Lookup(old(attrs.entries), "label"))
              + ElementHtml(Element("div", Pairs(attrs.entries, order), "", "", ""))
              + RichtextInput(name.value, fieldName, ValueString(ValueFromStructField(fieldName, post)))
              + "</div>",
            RichtextScript(fieldName, Lookup(attrs.entries, "placeholder"))))
  {
    var iso := RichtextIso(Lookup(attrs.entries, "label"));
    attrs.Set("class", "richtext " + fieldName);
    attrs.Set("id", "richtext-" + fieldName);
    var div := Element("div", Pairs(attrs.entries, order), "", "", "");
    var val := ValueString(ValueFromStructField(fieldName, post));
    var name := TagNameFromStructField(fieldName, post);
    if name.Failure? {
      return Failure(name.error);
    }
    var input := RichtextInput(name.value, fieldName, val);
    var buf := new Buffer();
    var divHtml := DomElement(div, buf);
    EmptyAppend(ElementHtml(div));
    r := Success(Widget(iso + divHtml + input + "</div>", RichtextScript(fieldName, Lookup(attrs.entries, "placeholder"))));
  }

  // ---------------------------------------------------------------------
  // Select
  // ---------------------------------------------------------------------

  /** The call to action that opens the list. */
  function PromptOption(): Element {
    Element("option", [("disabled", "true"), ("selected", "true")], "", "", "Select an option...")
  }

  /** The choice that stores the empty string. */
  function ResetOption(): Element {
    Element("option", [("value", "")], "", "", "None")
  }

  /** The option for one entry: selected when its key is the field's current value. */
  function EntryOption(k: string, v: string, fieldVal: string): Element {
    Element("option", [("value", k)] + (if k == fieldVal then [("selected", "true")] else []), "", "", v)
  }

  /** One option per entry, in visiting order. */
  function EntryOptions(fieldVal: string, options: map<string, string>, order: seq<string>): seq<Element>
    requires forall i :: 0 <= i < |order| ==> order[i] in options
  {
    seq(|order|, i requires 0 <= i < |order| => EntryOption(order[i], options[order[i]], fieldVal))
  }

  /** The children of the select: the prompt, the reset, then the entries' options. */
  function SelectChildren(fieldVal: string, options: map<string, string>, order: seq<string>): seq<Element>
    requires forall i :: 0 <= i < |order| ==> order[i] in options
  {
    [PromptOption(), ResetOption()] + EntryOptions(fieldVal, options, order)
  }

  /** The loop of Select over the options, building one child per entry. */
  method BuildSelectOptions(fieldVal: string, options: map<string, string>, order: seq<string>)
    returns (opts: seq<Element>)
    requires forall i :: 0 <= i < |order| ==> order[i] in options
    ensures opts == SelectChildren(fieldVal, options, order)
  {
    var cta := Element("option", [("disabled", "true"), ("selected", "true")], "", "", "Select an option...");
    var reset := Element("option", [("value", "")], "", "", "None");
    opts := [cta, reset];
    var i := 0;
    while i < |order|
      invariant 0 <= i <= |order|
      invariant |opts| == i + 2
      invariant opts[..2] == [PromptOption(), ResetOption()]
      invariant forall j :: 0 <= j < i ==> opts[j + 2] == EntryOption(order[j], options[order[j]], fieldVal)
    {
      var k := order[i];
      var optAttrs := [("value", k)];
      if k == fieldVal {
        optAttrs := optAttrs + [("selected", "true")];
      }
      opts := opts + [Element("option", optAttrs, "", "", options[k])];
      i := i + 1;
    }
  }

  /**
   * The children of a select: the disabled, selected prompt; the reset
   * with the empty value; then for each entry an option with its key as
   * value and its text as data, selected exactly when the key is the
   * field's current value.
   */
  lemma SelectChildrenShape(fieldVal: string, options: map<string, string>, order: seq<string>)
    requires forall i :: 0 <= i < |order| ==> order[i] in options
    ensures var c, opts := SelectChildren(fieldVal, options, order), EntryOptions(fieldVal, options, order);
      && |c| == |order| + 2 && c[2..] == opts
      && HasAttr(c[0], "disabled", "true") && HasAttr(c[0], "selected", "true") && c[0].data == "Select an option..."
      && HasAttr(c[1], "value", "") && !HasAttr(c[1], "selected", "true") && c[1].data == "None"
      && (forall i :: 0 <= i < |order| ==>
            && HasAttr(opts[i], "value", order[i]) && opts[i].data == options[order[i]]
            && (HasAttr(opts[i], "selected", "true") <==> order[i] == fieldVal))
  {
    var opts := EntryOptions(fieldVal, options, order);
    forall i | 0 <= i < |order|
      ensures HasAttr(opts[i], "selected", "true") <==> order[i] == fieldVal
    {
      if order[i] != fieldVal {
        assert opts[i].attrs == [("value", order[i])];
      }
    }
  }

  /**
   * Among the entries, exactly one is pre-selected when the field's value
   * is a key of the options, and none otherwise.
   */
  lemma SelectedEntry(fieldVal: string, options: map<string, string>, order: seq<string>)
    requires IsEnumeration(order, options.Keys)
    ensures var opts := EntryOptions(fieldVal, options, order);
      fieldVal in options ==>
        exists i :: 0 <= i < |opts| && HasAttr(opts[i], "selected", "true")
          && forall j :: 0 <= j < |opts| && HasAttr(opts[j], "selected", "true") ==> j == i
    ensures var opts := EntryOptions(fieldVal, options, order);
      fieldVal !in options ==> forall i :: 0 <= i < |opts| ==> !HasAttr(opts[i], "selected", "true")
  {
    SelectChildrenShape(fieldVal, options, order);
    var opts := EntryOptions(fieldVal, options, order);
    if fieldVal in options {
      assert fieldVal in order;
      var i :| 0 <= i < |order| && order[i] == fieldVal;
      assert HasAttr(opts[i], "selected", "true");
      forall j | 0 <= j < |opts| && HasAttr(opts[j], "selected", "true")
        ensures j == i
      {
        assert order[j] == order[i];
      }
    }
  }

  /**
   * Select: the caller's map gets the "class" of a browser select, before
   * anything can fail, and keeps every other key; the markup is the
   * labelled, named select holding the children above, the field's current
   * value in string form deciding the selection.
   */
  method Select(fieldName: string, post: Post, attrs: AttrMap, attrOrder: seq<string>,
                options: map<string, string>, optOrder: seq<string>)
    returns (r: Result<string, Panic>)
    requires IsEnumeration(attrOrder, attrs.entries.Keys + {"class"})
    requires IsEnumeration(optOrder, options.Keys)
    modifies attrs
    ensures attrs.entries == old(attrs.entries)["class" := "browser-default"]
    ensures var name := TagNameFromStructField(fieldName, post);
      var fieldVal := ValueString(ValueFromStructField(fieldName, post));
      && (r.Failure? <==> name.Failure?)
      && (r.Failure? ==> r.error == name.error)
      && (r.Success? ==> r.value == WithChildrenSelectHtml(
            Element("select", Pairs(attrs.entries, attrOrder), name.value, Lookup(attrs.entries, "label"), fieldVal),
            SelectChildren(fieldVal, options, optOrder)))
  {
    var fieldVal := ValueString(ValueFromStructField(fieldName, post));
    attrs.Set("class", "browser-default");
    var sel := NewElement("select", Lookup(attrs.entries, "label"), fieldName, post, Pairs(attrs.entries, attrOrder));
    if sel.Failure? {
      return Failure(sel.error);
    }
    assert sel.value == Element("select", Pairs(attrs.entries, attrOrder), TagNameFromStructField(fieldName, post).value,
                                Lookup(attrs.entries, "label"), fieldVal);
    var opts := BuildSelectOptions(fieldVal, options, optOrder);
    var buf := new Buffer();
    var out := DomElementWithChildrenSelect(sel.value, opts, buf);
    EmptyAppend(WithChildrenSelectHtml(sel.value, opts));
    r := Success(out);
  }

  // ---------------------------------------------------------------------
  // Checkbox
  // ---------------------------------------------------------------------

  /** The attributes of the checkbox for one entry; `checked` only for a saved key. */
  function CheckboxAttrs(k: string, v: string, checked: seq<string>): Attrs {
    [("type", "checkbox"), ("value", k), ("id", LabelId(v))]
      + (if k in checked then [("checked", "checked")] else [])
  }

  /** The checkbox of the `i`-th entry visited, named `tag.i` and labelled by the entry's text. */
  function CheckboxChildren(tag: string, checked: seq<string>, options: map<string, string>, order: seq<string>)
    : seq<Element>
    requires forall i :: 0 <= i < |order| ==> order[i] in options
  {
    seq(|order|, i requires 0 <= i < |order| =>
      Element("input", CheckboxAttrs(order[i], options[order[i]], checked), tag + "." + Decimal(i),
              options[order[i]], ""))
  }

  /** The checkboxes, whose names need the field's form name as soon as there is one entry. */
  function CheckboxInputs(fieldName: string, post: Post, checked: seq<string>, options: map<string, string>,
                          order: seq<string>): Result<seq<Element>, Panic>
    requires forall i :: 0 <= i < |order| ==> order[i] in options
  {
    if |order| == 0 then Success([])
    else match TagNameFromStructField(fieldName, post)
      case Failure(e) => Failure(e)
      case Success(tag) => Success(CheckboxChildren(tag, checked, options, order))
  }

  /**
   * The loop of Checkbox over the options, with its inner loop
   * over the saved values; it fails at the first entry when the field has
   * no form name.
   */
  method BuildCheckboxInputs(fieldName: string, post: Post, checked: seq<string>, options: map<string, string>,
                             order: seq<string>)
    returns (r: Result<seq<Element>, Panic>)
    requires forall i :: 0 <= i < |order| ==> order[i] in options
    ensures r == CheckboxInputs(fieldName, post, checked, options, order)
  {
    var opts: seq<Element> := [];
    var i := 0;
    while i < |order|
      invariant 0 <= i <= |order|
      invariant i > 0 ==> TagNameFromStructField(fieldName, post).Success?
      invariant |opts| == i
      invariant forall j :: 0 <= j < i ==>
        opts[j] == CheckboxChildren(TagNameFromStructField(fieldName, post).value, checked, options, order)[j]
    {
      var k, v := order[i], options[order[i]];
      var inputAttrs := [("type", "checkbox"), ("value", k), ("id", Join(Split(v, ' '), "-"))];
      var isChecked := false;
      var j := 0;
      while j < |checked|
        invariant 0 <= j <= |checked|
        invariant isChecked <==> k in checked[..j]
      {
        if k == checked[j] {
          isChecked := true;
        }
        assert checked[..j + 1] == checked[..j] + [checked[j]];
        j := j + 1;
      }
      assert checked[..j] == checked;
      if isChecked {
        inputAttrs := inputAttrs + [("checked", "checked")];
      }
      var name := TagNameFromStructFieldMulti(fieldName, i, post);
      if name.Failure? {
        return Failure(name.error);
      }
      opts := opts + [Element("input", inputAttrs, name.value, v, "")];
      i := i + 1;
    }
    if i == 0 {
      return Success([]);
    }
    assert opts == CheckboxChildren(TagNameFromStructField(fieldName, post).value, checked, options, order);
    r := Success(opts);
  }

  /**
   * The checkbox of the `i`-th entry: a checkbox with the entry's key as
   * value, checked exactly when the key is among the saved values, its id
   * the entry's text with every space a hyphen, named `tag.i` and
   * labelled by the text.
   */
  lemma CheckboxShape(tag: string, checked: seq<string>, options: map<string, string>, order: seq<string>, i: int)
    requires forall i :: 0 <= i < |order| ==> order[i] in options
    requires 0 <= i < |order|
    ensures var c, v := CheckboxChildren(tag, checked, options, order)[i], options[order[i]];
      && c.tagName == "input"
      && HasAttr(c, "type", "checkbox") && HasAttr(c, "value", order[i])
      && HasAttr(c, "id", ReplaceChar(v, ' ', '-'))
      && (HasAttr(c, "checked", "checked") <==> order[i] in checked)
      && c.name == tag + "." + Decimal(i) && c.labelText == v
  {
    var v := options[order[i]];
    LabelIdHyphenates(v);
    var c := CheckboxChildren(tag, checked, options, order)[i];
    if order[i] !in checked {
      assert c.attrs == [("type", "checkbox"), ("value", order[i]), ("id", LabelId(v))];
    }
  }

  /** The checkboxes' names are pairwise distinct and read back as the form name and the index. */
  lemma CheckboxNames(tag: string, checked: seq<string>, options: map<string, string>, order: seq<string>, i: int, j: int)
    requires forall i :: 0 <= i < |order| ==> order[i] in options
    requires 0 <= i < |order| && 0 <= j < |order|
    ensures var c := CheckboxChildren(tag, checked, options, order);
      && StartsWith(c[i].name, tag + ".") && ParseDecimal(c[i].name[|tag| + 1..]) == Some(i)
      && (i != j ==> c[i].name != c[j].name)
  {
    var c := CheckboxChildren(tag, checked, options, order);
    assert c[i].name[..|tag| + 1] == tag + ".";
    assert c[i].name[|tag| + 1..] == Decimal(i);
    assert c[j].name[|tag| + 1..] == Decimal(j);
    DecimalRoundTrip(i);
    if c[i].name == c[j].name {
      DecimalInjective(i, j);
    }
  }

  /**
   * Checkbox: the caller's map gets the group's "class", before anything
   * can fail, and keeps every other key. The field must hold a `[]string`
   * of saved keys; the markup is the unnamed, labelled group holding the
   * checkboxes above.
   */
  method Checkbox(fieldName: string, post: Post, attrs: AttrMap, attrOrder: seq<string>,
                  options: map<string, string>, optOrder: seq<string>)
    returns (r: Result<string, Panic>)
    requires IsEnumeration(attrOrder, attrs.entries.Keys + {"class"})
    requires IsEnumeration(optOrder, options.Keys)
    modifies attrs
    ensures attrs.entries == old(attrs.entries)["class" := "input-field col s12"]
    ensures var saved := StringsValue(fieldName, ValueFromStructField(fieldName, post));
      && (saved.Failure? ==> r == Failure(saved.error))
      && (saved.Success? ==>
            var inputs := CheckboxInputs(fieldName, post, saved.value, options, optOrder);
            && (r.Failure? <==> inputs.Failure?)
            && (r.Failure? ==> r.error == inputs.error)
            && (r.Success? ==> r.value == WithChildrenCheckboxHtml(
                  Element("div", Pairs(attrs.entries, attrOrder), "", Lookup(attrs.entries, "label"), ValueString(None)),
                  inputs.value)))
  {
    attrs.Set("class", "input-field col s12");
    var div := NewElement("div", Lookup(attrs.entries, "label"), "", post, Pairs(attrs.entries, attrOrder));
    var saved := StringsValue(fieldName, ValueFromStructField(fieldName, post));
    if saved.Failure? {
      return Failure(saved.error);
    }
    var inputs := BuildCheckboxInputs(fieldName, post, saved.value, options, optOrder);
    if inputs.Failure? {
      return Failure(inputs.error);
    }
    var buf := new Buffer();
    var out := DomElementWithChildrenCheckbox(div.value, inputs.value, buf);
    EmptyAppend(WithChildrenCheckboxHtml(div.value, inputs.value));
    r := Success(out);
  }

  // ---------------------------------------------------------------------
  // Tags
  // ---------------------------------------------------------------------

  /** Strings written one after the other. */
  function Concat(parts: seq<string>): string {
    Flatten(parts, s => s)
  }

  /** The wrapper of the chips, with the label. */
  function TagsHeader(name: string, labelText: string): string {
    "\n\t<div class=\"input-field col s12 tags " + name + "\">\n\t\t<label class=\"active\">" + labelText
      + "</label>\n\t\t<div class=\"chips " + name + "\"></div>\n\t"
  }

  /** The hidden input that submits one saved tag. */
  function HiddenTagInput(tag: string, formName: string): string {
    "<input type=\"hidden\" class=\"tag-" + tag + "\" name=" + formName + " value=\"" + tag + "\"/>"
  }

  /** One hidden input per saved tag, the `k`-th named `name.k`. */
  function TagInputs(name: string, tags: seq<string>): seq<string> {
    seq(|tags|, k requires 0 <= k < |tags| => HiddenTagInput(tags[k], name + "." + Decimal(k)))
  }

  /** One initial chip per saved tag. */
  function TagChips(tags: seq<string>): seq<string> {
    seq(|tags|, k requires 0 <= k < |tags| => TagChip(tags[k]))
  }

  function TagChip(tag: string): string {
    "{tag: " + tag + "}"
  }

  /** The loop of Tags over the saved tags. */
  method BuildTagInputs(fieldName: string, post: Post, tags: seq<string>) returns (html: string, initial: seq<string>)
    requires TagNameFromStructField(fieldName, post).Success?
    ensures html == Concat(TagInputs(TagNameFromStructField(fieldName, post).value, tags))
    ensures initial == TagChips(tags)
  {
    ghost var name := TagNameFromStructField(fieldName, post).value;
    ghost var inputs := TagInputs(name, tags);
    html := "";
    initial := [];
    var i := 0;
    while i < |tags|
      invariant 0 <= i <= |tags|
      invariant html == Concat(inputs[..i])
      invariant initial == TagChips(tags[..i])
    {
      var tagName := TagNameFromStructFieldMulti(fieldName, i, post).value;
      TagInputStep(name, tags, i);
      html := html + HiddenTagInput(tags[i], tagName);
      TagChipStep(tags, i);
      initial := initial + [TagChip(tags[i])];
      i := i + 1;
    }
    assert inputs[..i] == inputs;
    assert tags[..i] == tags;
  }

  lemma TagChipStep(tags: seq<string>, i: nat)
    requires i < |tags|
    ensures TagChips(tags[..i + 1]) == TagChips(tags[..i]) + [TagChip(tags[i])]
  {
  }

  lemma TagInputStep(name: string, tags: seq<string>, i: nat)
    requires i < |tags|
    ensures Concat(TagInputs(name, tags)[..i + 1])
         == Concat(TagInputs(name, tags)[..i]) + HiddenTagInput(tags[i], name + "." + Decimal(i))
  {
    FlattenStep(TagInputs(name, tags), i, s => s);
  }

  /**
   * The `k`-th saved tag has exactly one hidden input, standing after
   * those of the tags before it: named `name.k`, with the tag as value,
   * and one chip holding the tag.
   */
  lemma TagInputAt(name: string, tags: seq<string>, k: int)
    requires 0 <= k < |tags|
    ensures |TagInputs(name, tags)| == |tags| && |TagChips(tags)| == |tags|
    ensures var inputs := TagInputs(name, tags);
      HasAt(Concat(inputs), |Concat(inputs[..k])|, HiddenTagInput(tags[k], name + "." + Decimal(k)))
    ensures TagChips(tags)[k] == "{tag: " + tags[k] + "}"
  {
    FlattenAt(TagInputs(name, tags), k, s => s);
  }

  /**
   * Tags: the form name is resolved first, then the field must hold a
   * `[]string` of saved tags; the markup is the labelled wrapper with one
   * hidden input per tag, and the script gets the chips joined by commas.
   */
  method Tags(fieldName: string, post: Post, attrs: map<string, string>) returns (r: Result<Widget, Panic>)
    ensures var name := TagNameFromStructField(fieldName, post);
      var saved := StringsValue(fieldName, ValueFromStructField(fieldName, post));
      && (r.Failure? <==> name.Failure? || saved.Failure?)
      && (name.Failure? ==> r == Failure(name.error))
      && (name.Success? && saved.Failure? ==> r == Failure(saved.error))
      && (r.Success? ==> r.value == Widget(
            TagsHeader(name.value, Lookup(attrs, "label")) + Concat(TagInputs(name.value, saved.value)) + "</div>",
            TagsScript(name.value, Join(TagChips(saved.value), ","))))
  {
    var name := TagNameFromStructField(fieldName, post);
    if name.Failure? {
      return Failure(name.error);
    }
    var saved := StringsValue(fieldName, ValueFromStructField(fieldName, post));
    if saved.Failure? {
      return Failure(saved.error);
    }
    var header := TagsHeader(name.value, Lookup(attrs, "label"));
    var inputs, initial := BuildTagInputs(fieldName, post, saved.value);
    r := Success(Widget(header + inputs + "</div>", TagsScript(name.value, Join(initial, ","))));
  }
}
