/**
 * The `element` struct of management/editor/elements.go and the
 * serialisers that write it into its view buffer.
 *
 * An element's `Attrs` map is modelled as the list of its pairs in the
 * order Go's `range` happens to visit them; the properties proved below
 * hold for every such order. Its `viewBuf` is the `Buffer` argument of
 * each serialiser.
 */
module EditorDom {
  import opened Wrappers
  import opened GoText
  import opened EditorFields

  type Attrs = seq<(string, string)>

  datatype Element = Element(tagName: string, attrs: Attrs, name: string, labelText: string, data: string)

  /** The tag names the editor creates its elements with. */
  predicate KnownTag(t: string) {
    t == "input" || t == "textarea" || t == "select" || t == "option" || t == "div"
  }

  /**
   * newElement: the element for a struct field, named by its json tag and
   * holding the string form of its value; it fails where the name does.
   */
  function NewElement(tagName: string, labelText: string, fieldName: string, post: Post, attrs: Attrs)
    : (r: Result<Element, Panic>)
    ensures r.Failure? <==> TagNameFromStructField(fieldName, post).Failure?
    ensures r.Failure? ==> r.error == TagNameFromStructField(fieldName, post).error
    ensures r.Success? ==> r.value.tagName == tagName && r.value.attrs == attrs && r.value.labelText == labelText
    ensures r.Success? ==> r.value.name == TagNameFromStructField(fieldName, post).value
    ensures r.Success? ==> r.value.data == ValueString(ValueFromStructField(fieldName, post))
    ensures r.Success? && fieldName in post && post[fieldName].value.Str? ==>
      r.value.data == post[fieldName].value.s
  {
    match TagNameFromStructField(fieldName, post)
    case Failure(e) => Failure(e)
    case Success(name) =>
      Success(Element(tagName, attrs, name, labelText, ValueString(ValueFromStructField(fieldName, post))))
  }

  // ---------------------------------------------------------------------
  // The view buffer
  // ---------------------------------------------------------------------

  /** A `bytes.Buffer` that is only ever appended to. */
  class Buffer {
    var content: string

    constructor ()
      ensures content == []
    {
      content := [];
    }

    method Write(p: string)
      modifies this
      ensures content == old(content) + p
    {
      content := content + p;
    }
  }

  // ---------------------------------------------------------------------
  // The markup each serialiser writes
  // ---------------------------------------------------------------------

  const FieldOpen := "<div class=\"input-field col s12\">"
  const SelectOpen := "<div class=\"input-field col s6\">"
  const CheckboxOpen := "<p class=\"col s6\">"
  const CheckboxGroupClose := "<div class=\"clear padding\">&nbsp;</div>"

  /** The `for`/`id` form of a label: split at its spaces and joined again with hyphens. */
  function LabelId(l: string): string {
    Join(Split(l, ' '), "-")
  }

  /** The id form of a label is the label with every space made a hyphen. */
  lemma LabelIdHyphenates(l: string)
    ensures LabelId(l) == ReplaceChar(l, ' ', '-')
  {
    JoinSplit(l, ' ', '-');
  }

  function AttrHtml(a: (string, string)): string {
    a.0 + "=\"" + a.1 + "\" "
  }

  lemma AppendAssoc(a: string, b: string, c: string)
    ensures a + b + c == a + (b + c)
  {
  }

  lemma EmptyAppend(a: string)
    ensures [] + a == a
  {
  }

  /** The markup of each item, one after the other, in order. */
  function Flatten<T>(xs: seq<T>, f: T -> string): string {
    if xs == [] then "" else Flatten(xs[..|xs| - 1], f) + f(xs[|xs| - 1])
  }

  lemma FlattenStep<T>(xs: seq<T>, i: nat, f: T -> string)
    requires i < |xs|
    ensures Flatten(xs[..i + 1], f) == Flatten(xs[..i], f) + f(xs[i])
  {
    assert xs[..i + 1][..i] == xs[..i];
  }

  /** Flattening distributes over concatenation. */
  lemma {:induction false} FlattenAppend<T>(a: seq<T>, b: seq<T>, f: T -> string)
    ensures Flatten(a + b, f) == Flatten(a, f) + Flatten(b, f)
    decreases |b|
  {
    if b == [] {
      assert a + b == a;
    } else {
      var b' := b[..|b| - 1];
      FlattenAppend(a, b', f);
      assert (a + b)[..|a + b| - 1] == a + b';
      AppendAssoc(Flatten(a, f), Flatten(b', f), f(b[|b| - 1]));
    }
  }

  /** The `j`-th item's markup stands between that of the items before and after it. */
  lemma FlattenAt<T>(xs: seq<T>, j: nat, f: T -> string)
    requires j < |xs|
    ensures Flatten(xs, f) == Flatten(xs[..j], f) + f(xs[j]) + Flatten(xs[j + 1..], f)
    ensures HasAt(Flatten(xs, f), |Flatten(xs[..j], f)|, f(xs[j]))
  {
    assert xs == xs[..j + 1] + xs[j + 1..];
    FlattenAppend(xs[..j + 1], xs[j + 1..], f);
    FlattenStep(xs, j, f);
    var s := Flatten(xs[..j], f) + f(xs[j]) + Flatten(xs[j + 1..], f);
    assert s[|Flatten(xs[..j], f)|..|Flatten(xs[..j], f)| + |f(xs[j])|] == f(xs[j]);
  }

  lemma Splice(h: string, a: string, b: string, c: string, t: string)
    ensures h + (a + b + c) + t == h + a + b + c + t
  {
  }

  /** The attribute pairs, each written as `key="value" `, in visiting order. */
  function AttrsHtml(attrs: Attrs): string {
    Flatten(attrs, AttrHtml)
  }

  /** The label of a stand-alone field, present only for a non-empty label. */
  function FieldLabel(l: string): string {
    if l != "" then "<label class=\"active\" for=\"" + LabelId(l) + "\">" + l + "</label>" else ""
  }

  /** The label after a checkbox, present only for a non-empty label. */
  function CheckboxLabel(l: string): string {
    if l != "" then "<label for=\"" + LabelId(l) + "\">" + l + "</label>" else ""
  }

  /** The label of a group (select or checkboxes), present only for a non-empty label. */
  function GroupLabel(l: string): string {
    if l != "" then "<label class=\"active\">" + l + "</label>" else ""
  }

  function NameAttr(name: string): string {
    " name=\"" + name + "\""
  }

  /** domElementSelfClose writes the opening part, the attributes, then the closing part. */
  function SelfCloseHtml(e: Element): string {
    SelfCloseOpen(e) + AttrsHtml(e.attrs) + SelfCloseClose(e)
  }

  function SelfCloseOpen(e: Element): string {
    FieldOpen + FieldLabel(e.labelText) + ("<" + e.tagName + " value=\"") + (Escape(e.data) + "\" ")
  }

  function SelfCloseClose(e: Element): string {
    NameAttr(e.name) + " />" + "</div>"
  }

  /** domElement writes the opening part, the attributes, then the name, data and closing tags. */
  function ElementHtml(e: Element): string {
    ElementOpen(e) + AttrsHtml(e.attrs) + ElementClose(e)
  }

  function ElementOpen(e: Element): string {
    FieldOpen + FieldLabel(e.labelText) + ("<" + e.tagName + " ")
  }

  function ElementClose(e: Element): string {
    NameAttr(e.name) + " >" + Escape(e.data) + ("</" + e.tagName + ">") + "</div>"
  }

  /** domElementCheckbox writes the opening part, the attributes, then name and label. */
  function CheckboxHtml(e: Element): string {
    CheckboxInputOpen(e) + AttrsHtml(e.attrs) + CheckboxClose(e)
  }

  function CheckboxInputOpen(e: Element): string {
    CheckboxOpen + ("<" + e.tagName + " ")
  }

  function CheckboxClose(e: Element): string {
    NameAttr(e.name) + " /> " + CheckboxLabel(e.labelText) + "</p>"
  }

  /** The children of a select, each as domElement writes it. */
  function OptionsHtml(children: seq<Element>): string {
    Flatten(children, ElementHtml)
  }

  /** The children of a checkbox group, each as domElementCheckbox writes it. */
  function CheckboxesHtml(children: seq<Element>): string {
    Flatten(children, CheckboxHtml)
  }

  /** domElementWithChildrenSelect writes the named select, its children, then the closing part. */
  function WithChildrenSelectHtml(e: Element, children: seq<Element>): string {
    SelectHead(e) + OptionsHtml(children) + SelectTail(e)
  }

  function SelectHead(e: Element): string {
    SelectOpen + ("<" + e.tagName + " ") + AttrsHtml(e.attrs) + NameAttr(e.name) + " >"
  }

  function SelectTail(e: Element): string {
    ("</" + e.tagName + ">") + GroupLabel(e.labelText) + "</div>"
  }

  /** domElementWithChildrenCheckbox writes the group and its label, its children, then the closing part; it has no name. */
  function WithChildrenCheckboxHtml(e: Element, children: seq<Element>): string {
    CheckboxGroupHead(e) + CheckboxesHtml(children) + CheckboxGroupTail(e)
  }

  function CheckboxGroupHead(e: Element): string {
    ("<" + e.tagName + " ") + AttrsHtml(e.attrs) + " >" + GroupLabel(e.labelText)
  }

  function CheckboxGroupTail(e: Element): string {
    "</" + e.tagName + ">" + CheckboxGroupClose
  }

  // ---------------------------------------------------------------------
  // The serialisers, writing fragment after fragment
  // ---------------------------------------------------------------------

  /** The loop over the element's attributes that every serialiser shares. */
  method WriteAttrs(buf: Buffer, attrs: Attrs)
    modifies buf
    ensures buf.content == old(buf.content) + AttrsHtml(attrs)
  {
    var i := 0;
    while i < |attrs|
      invariant 0 <= i <= |attrs|
      invariant buf.content == old(buf.content) + AttrsHtml(attrs[..i])
    {
      var (attr, value) := attrs[i];
      buf.Write(attr + "=\"" + value + "\" ");
      FlattenStep(attrs, i, AttrHtml);
      i := i + 1;
    }
    assert attrs[..i] == attrs;
  }

  /**
   * Appends `p` to the buffer and to the ghost record `acc` of what this
   * serialiser has written so far.
   */
  method Emit(buf: Buffer, ghost start: string, ghost acc: string, p: string) returns (ghost acc': string)
    requires buf.content == start + acc
    modifies buf
    ensures acc' == acc + p
    ensures buf.content == start + acc'
  {
    buf.Write(p);
    AppendAssoc(start, acc, p);
    acc' := acc + p;
  }

  method EmitAttrs(buf: Buffer, ghost start: string, ghost acc: string, attrs: Attrs) returns (ghost acc': string)
    requires buf.content == start + acc
    modifies buf
    ensures acc' == acc + AttrsHtml(attrs)
    ensures buf.content == start + acc'
  {
    WriteAttrs(buf, attrs);
    AppendAssoc(start, acc, AttrsHtml(attrs));
    acc' := acc + AttrsHtml(attrs);
  }

  method DomElementSelfClose(e: Element, buf: Buffer) returns (out: string)
    modifies buf
    ensures buf.content == old(buf.content) + SelfCloseHtml(e)
    ensures out == buf.content
  {
    ghost var start := buf.content;
    buf.Write(FieldOpen);
    ghost var acc := FieldOpen;
    if e.labelText != "" {
      acc := Emit(buf, start, acc,
        "<label class=\"active\" for=\"" + LabelId(e.labelText) + "\">" + e.labelText + "</label>");
    } else {
      assert acc + FieldLabel(e.labelText) == acc;
    }
    acc := Emit(buf, start, FieldOpen + FieldLabel(e.labelText), "<" + e.tagName + " value=\"");
    acc := Emit(buf, start, acc, Escape(e.data) + "\" ");
    acc := EmitAttrs(buf, start, acc, e.attrs);
    ghost var mid := start + acc;
    buf.Write(" name=\"" + e.name + "\"");
    ghost var tail := NameAttr(e.name);
    tail := Emit(buf, mid, tail, " />");
    tail := Emit(buf, mid, tail, "</div>");
    AppendAssoc(start, acc, tail);
    out := buf.content;
  }

  method DomElementCheckbox(e: Element, buf: Buffer) returns (out: string)
    modifies buf
    ensures buf.content == old(buf.content) + CheckboxHtml(e)
    ensures out == buf.content
  {
    ghost var start := buf.content;
    buf.Write(CheckboxOpen);
    ghost var acc := CheckboxOpen;
    acc := Emit(buf, start, acc, "<" + e.tagName + " ");
    acc := EmitAttrs(buf, start, acc, e.attrs);
    ghost var mid := start + acc;
    buf.Write(" name=\"" + e.name + "\"");
    ghost var tail := NameAttr(e.name);
    tail := Emit(buf, mid, tail, " /> ");
    ghost var pre := tail;
    if e.labelText != "" {
      tail := Emit(buf, mid, tail, "<label for=\"" + LabelId(e.labelText) + "\">" + e.labelText + "</label>");
    } else {
      assert tail + CheckboxLabel(e.labelText) == tail;
    }
    tail := Emit(buf, mid, pre + CheckboxLabel(e.labelText), "</p>");
    AppendAssoc(start, acc, tail);
    out := buf.content;
  }

  method DomElement(e: Element, buf: Buffer) returns (out: string)
    modifies buf
    ensures buf.content == old(buf.content) + ElementHtml(e)
    ensures out == buf.content
  {
    ghost var start := buf.content;
    buf.Write(FieldOpen);
    ghost var acc := FieldOpen;
    if e.labelText != "" {
      acc := Emit(buf, start, acc,
        "<label class=\"active\" for=\"" + LabelId(e.labelText) + "\">" + e.labelText + "</label>");
    } else {
      assert acc + FieldLabel(e.labelText) == acc;
    }
    acc := Emit(buf, start, FieldOpen + FieldLabel(e.labelText), "<" + e.tagName + " ");
    acc := EmitAttrs(buf, start, acc, e.attrs);
    ghost var mid := start + acc;
    buf.Write(" name=\"" + e.name + "\"");
    ghost var tail := NameAttr(e.name);
    tail := Emit(buf, mid, tail, " >");
    tail := Emit(buf, mid, tail, Escape(e.data));
    tail := Emit(buf, mid, tail, "</" + e.tagName + ">");
    tail := Emit(buf, mid, tail, "</div>");
    AppendAssoc(start, acc, tail);
    out := buf.content;
  }

  /** The loop of domElementWithChildrenSelect: each child in a view buffer of its own. */
  method WriteOptions(buf: Buffer, children: seq<Element>)
    modifies buf
    ensures buf.content == old(buf.content) + OptionsHtml(children)
  {
    var i := 0;
    while i < |children|
      invariant 0 <= i <= |children|
      invariant buf.content == old(buf.content) + OptionsHtml(children[..i])
    {
      var childBuf := new Buffer();
      var bytes := DomElement(children[i], childBuf);
      EmptyAppend(ElementHtml(children[i]));
      buf.Write(bytes);
      FlattenStep(children, i, ElementHtml);
      AppendAssoc(old(buf.content), OptionsHtml(children[..i]), bytes);
      i := i + 1;
    }
    assert children[..i] == children;
  }

  /** The loop of domElementWithChildrenCheckbox: each child in a view buffer of its own. */
  method WriteCheckboxes(buf: Buffer, children: seq<Element>)
    modifies buf
    ensures buf.content == old(buf.content) + CheckboxesHtml(children)
  {
    var i := 0;
    while i < |children|
      invariant 0 <= i <= |children|
      invariant buf.content == old(buf.content) + CheckboxesHtml(children[..i])
    {
      var childBuf := new Buffer();
      var bytes := DomElementCheckbox(children[i], childBuf);
      EmptyAppend(CheckboxHtml(children[i]));
      buf.Write(bytes);
      FlattenStep(children, i, CheckboxHtml);
      AppendAssoc(old(buf.content), CheckboxesHtml(children[..i]), bytes);
      i := i + 1;
    }
    assert children[..i] == children;
  }

  method EmitChildrenOptions(buf: Buffer, ghost start: string, ghost acc: string, children: seq<Element>)
    returns (ghost acc': string)
    requires buf.content == start + acc
    modifies buf
    ensures acc' == acc + OptionsHtml(children)
    ensures buf.content == start + acc'
  {
    WriteOptions(buf, children);
    AppendAssoc(start, acc, OptionsHtml(children));
    acc' := acc + OptionsHtml(children);
  }

  method EmitChildrenCheckboxes(buf: Buffer, ghost start: string, ghost acc: string, children: seq<Element>)
    returns (ghost acc': string)
    requires buf.content == start + acc
    modifies buf
    ensures acc' == acc + CheckboxesHtml(children)
    ensures buf.content == start + acc'
  {
    WriteCheckboxes(buf, children);
    AppendAssoc(start, acc, CheckboxesHtml(children));
    acc' := acc + CheckboxesHtml(children);
  }

  /** Each child is written into a view buffer of its own, then copied. */
  method DomElementWithChildrenSelect(e: Element, children: seq<Element>, buf: Buffer) returns (out: string)
    modifies buf
    ensures buf.content == old(buf.content) + WithChildrenSelectHtml(e, children)
    ensures out == buf.content
  {
    ghost var start := buf.content;
    buf.Write(SelectOpen);
    ghost var acc := SelectOpen;
    acc := Emit(buf, start, acc, "<" + e.tagName + " ");
    acc := EmitAttrs(buf, start, acc, e.attrs);
    acc := Emit(buf, start, acc, " name=\"" + e.name + "\"");
    acc := Emit(buf, start, acc, " >");
    acc := EmitChildrenOptions(buf, start, acc, children);
    ghost var mid := start + acc;
    buf.Write("</" + e.tagName + ">");
    ghost var tail := "</" + e.tagName + ">";
    ghost var pre := tail;
    if e.labelText != "" {
      tail := Emit(buf, mid, tail, "<label class=\"active\">" + e.labelText + "</label>");
    } else {
      assert tail + GroupLabel(e.labelText) == tail;
    }
    tail := Emit(buf, mid, pre + GroupLabel(e.labelText), "</div>");
    AppendAssoc(start, acc, tail);
    out := buf.content;
  }

  method DomElementWithChildrenCheckbox(e: Element, children: seq<Element>, buf: Buffer) returns (out: string)
    modifies buf
    ensures buf.content == old(buf.content) + WithChildrenCheckboxHtml(e, children)
    ensures out == buf.content
  {
    ghost var start := buf.content;
    buf.Write("<" + e.tagName + " ");
    ghost var acc := "<" + e.tagName + " ";
    acc := EmitAttrs(buf, start, acc, e.attrs);
    acc := Emit(buf, start, acc, " >");
    ghost var pre := acc;
    if e.labelText != "" {
      acc := Emit(buf, start, acc, "<label class=\"active\">" + e.labelText + "</label>");
    } else {
      assert acc + GroupLabel(e.labelText) == acc;
    }
    acc := EmitChildrenCheckboxes(buf, start, pre + GroupLabel(e.labelText), children);
    buf.Write("</" + e.tagName + ">" + CheckboxGroupClose);
    AppendAssoc(start, acc, CheckboxGroupTail(e));
    out := buf.content;
  }

  // ---------------------------------------------------------------------
  // The shape of the markup
  // ---------------------------------------------------------------------

  /** Every attribute pair is written out as `key="value" `, whatever the visiting order. */
  lemma AttrsAllWritten(attrs: Attrs, i: nat)
    requires i < |attrs|
    ensures Occurs(AttrHtml(attrs[i]), AttrsHtml(attrs))
  {
    FlattenAt(attrs, i, AttrHtml);
  }

  /** A non-empty label is written with its hyphenated `for` and the label text. */
  lemma FieldLabelHyphenated(l: string)
    requires l != ""
    ensures FieldLabel(l) == "<label class=\"active\" for=\"" + ReplaceChar(l, ' ', '-') + "\">" + l + "</label>"
    ensures CheckboxLabel(l) == "<label for=\"" + ReplaceChar(l, ' ', '-') + "\">" + l + "</label>"
  {
    LabelIdHyphenates(l);
  }

  /**
   * domElementSelfClose opens the field wrapper; the label follows it
   * when it is non-empty, and the opening tag follows the label.
   */
  lemma SelfCloseLabel(e: Element)
    ensures StartsWith(SelfCloseHtml(e), FieldOpen)
    ensures e.labelText != "" ==> HasAt(SelfCloseHtml(e), |FieldOpen|, FieldLabel(e.labelText))
    ensures HasAt(SelfCloseHtml(e), |FieldOpen| + |FieldLabel(e.labelText)|, "<" + e.tagName + " value=\"")
  {
    var lab, w := FieldLabel(e.labelText), "<" + e.tagName + " value=\"";
    var d, a, c := Escape(e.data) + "\" ", AttrsHtml(e.attrs), SelfCloseClose(e);
    Regroup(FieldOpen + lab + w, d, a, c);
    LabelledOpening(FieldOpen, lab, w, d + a + c);
  }

  /**
   * domElementSelfClose always ends with the name attribute and the
   * closing tags, and writes every attribute, whatever the visiting order.
   */
  lemma SelfCloseNameAndAttrs(e: Element)
    ensures EndsWith(SelfCloseHtml(e), NameAttr(e.name) + " />" + "</div>")
    ensures forall i :: 0 <= i < |e.attrs| ==> Occurs(AttrHtml(e.attrs[i]), SelfCloseHtml(e))
  {
    var o, a, c := SelfCloseOpen(e), AttrsHtml(e.attrs), SelfCloseClose(e);
    HasAtHalves(o + a, c);
    forall i | 0 <= i < |e.attrs|
      ensures Occurs(AttrHtml(e.attrs[i]), o + a + c)
    {
      AttrsAllWritten(e.attrs, i);
      OccursConcat(o, a, c, AttrHtml(e.attrs[i]));
    }
  }

  /** Where domElementSelfClose writes the data. */
  function SelfCloseDataStart(e: Element): nat {
    |FieldOpen| + |FieldLabel(e.labelText)| + |e.tagName| + 9
  }

  /** A text with a quote at the end of what precedes it and at the start of what follows it. */
  lemma QuotedBetween(p: string, v: string, q: string)
    requires |p| >= 1 && p[|p| - 1] == '"' && |q| >= 1 && q[0] == '"'
    ensures (p + v + q)[|p| - 1] == '"' && HasAt(p + v + q, |p|, v) && (p + v + q)[|p| + |v|] == '"'
  {
    ThreeParts(p, v, q);
  }

  /**
   * domElementSelfClose writes the escaped data as the whole quoted `value`
   * attribute: a quote stands right before it and right after it.
   */
  lemma SelfCloseData(e: Element)
    ensures var out, k, v := SelfCloseHtml(e), SelfCloseDataStart(e), Escape(e.data);
      out[k - 1] == '"' && HasAt(out, k, v) && out[k + |v|] == '"'
  {
    var p := FieldOpen + FieldLabel(e.labelText) + ("<" + e.tagName + " value=\"");
    var v := Escape(e.data);
    var a, c := AttrsHtml(e.attrs), SelfCloseClose(e);
    var q := "\" " + a + c;
    AppendAssoc(p, v, "\" ");
    Regroup(p + v, "\" ", a, c);
    QuotedBetween(p, v, q);
  }

  /**
   * The data domElementSelfClose and domElement write holds no markup and
   * no quote, and unescapes to the data.
   */
  lemma DataEscaped(e: Element)
    ensures var v := Escape(e.data);
      && (forall j :: 0 <= j < |v| ==> IsInert(v[j]))
      && Unescape(v) == e.data
  {
    EscapeIsInert(e.data);
    EscapeRoundTrip(e.data);
  }

  /**
   * domElement opens the field wrapper; the label follows it when it is
   * non-empty, and the opening tag follows the label.
   */
  lemma ElementLabel(e: Element)
    ensures StartsWith(ElementHtml(e), FieldOpen)
    ensures e.labelText != "" ==> HasAt(ElementHtml(e), |FieldOpen|, FieldLabel(e.labelText))
    ensures HasAt(ElementHtml(e), |FieldOpen| + |FieldLabel(e.labelText)|, "<" + e.tagName + " ")
  {
    var lab, w := FieldLabel(e.labelText), "<" + e.tagName + " ";
    AppendAssoc(FieldOpen + lab + w, AttrsHtml(e.attrs), ElementClose(e));
    LabelledOpening(FieldOpen, lab, w, AttrsHtml(e.attrs) + ElementClose(e));
  }

  /** The field wrapper, the label and the opening tag, at the head of the markup. */
  lemma LabelledOpening(f: string, lab: string, w: string, rest: string)
    ensures StartsWith(f + lab + w + rest, f)
    ensures HasAt(f + lab + w + rest, |f|, lab)
    ensures HasAt(f + lab + w + rest, |f| + |lab|, w)
  {
    var p := f + lab + w;
    ThreeParts(f, lab, w);
    HasAtHalves(f + lab, w);
    HasAtLeft(p, rest, 0, f);
    HasAtLeft(p, rest, |f|, lab);
    HasAtLeft(p, rest, |f| + |lab|, w);
  }

  lemma Regroup(x: string, d: string, a: string, c: string)
    ensures x + d + a + c == x + (d + a + c)
  {
  }

  /**
   * domElement always ends with the name attribute, the escaped data as
   * the element's text, `</TagName>` and `</div>`, and writes every
   * attribute, whatever the visiting order.
   */
  lemma ElementNameAndAttrs(e: Element)
    ensures EndsWith(ElementHtml(e), NameAttr(e.name) + " >" + Escape(e.data) + ("</" + e.tagName + ">") + "</div>")
    ensures forall i :: 0 <= i < |e.attrs| ==> Occurs(AttrHtml(e.attrs[i]), ElementHtml(e))
  {
    var o, a, c := ElementOpen(e), AttrsHtml(e.attrs), ElementClose(e);
    HasAtHalves(o + a, c);
    forall i | 0 <= i < |e.attrs|
      ensures Occurs(AttrHtml(e.attrs[i]), o + a + c)
    {
      AttrsAllWritten(e.attrs, i);
      OccursConcat(o, a, c, AttrHtml(e.attrs[i]));
    }
  }

  /** domElementCheckbox: a paragraph opening the input, which carries every attribute. */
  lemma CheckboxStart(e: Element)
    ensures StartsWith(CheckboxHtml(e), CheckboxOpen + ("<" + e.tagName + " "))
    ensures forall i :: 0 <= i < |e.attrs| ==> Occurs(AttrHtml(e.attrs[i]), CheckboxHtml(e))
  {
    var o, a, c := CheckboxInputOpen(e), AttrsHtml(e.attrs), CheckboxClose(e);
    ThreeParts(o, a, c);
    forall i | 0 <= i < |e.attrs|
      ensures Occurs(AttrHtml(e.attrs[i]), o + a + c)
    {
      AttrsAllWritten(e.attrs, i);
      OccursConcat(o, a, c, AttrHtml(e.attrs[i]));
    }
  }

  /** domElementCheckbox ends with the name attribute, the closed input and the label. */
  lemma CheckboxEnd(e: Element)
    ensures EndsWith(CheckboxHtml(e), NameAttr(e.name) + " /> " + CheckboxLabel(e.labelText) + "</p>")
  {
    ThreeParts(CheckboxInputOpen(e), AttrsHtml(e.attrs), CheckboxClose(e));
  }

  /** domElementCheckbox writes the label after the input exactly when it is non-empty. */
  lemma CheckboxLabelAtEnd(e: Element)
    ensures EndsWith(CheckboxHtml(e), "</label></p>") <==> e.labelText != ""
  {
    var c := CheckboxClose(e);
    var y, lab := NameAttr(e.name) + " /> ", CheckboxLabel(e.labelText);
    var out := CheckboxHtml(e);
    CheckboxEnd(e);
    if e.labelText == "" {
      assert c == y + "</p>";
      assert c[|c| - 5] == ' ';
      EndsWithAt(out, c, 5);
      NotEndsWithAt(out, "</label></p>", 5);
    } else {
      assert EndsWith(lab, "</label>");
      EndsWithRight(y, lab, "</label>");
      EndsWithExtend(y + lab, "</label>", "</p>");
      EndsWithBoth(out, c, "</label></p>");
    }
  }

  /** domElementWithChildrenSelect opens the select, carrying its name last. */
  lemma SelectStart(e: Element, children: seq<Element>)
    ensures StartsWith(WithChildrenSelectHtml(e, children), SelectOpen + ("<" + e.tagName + " "))
    ensures EndsWith(SelectHead(e), NameAttr(e.name) + " >")
  {
    var h := SelectHead(e);
    var w := SelectOpen + ("<" + e.tagName + " ");
    var n := w + AttrsHtml(e.attrs) + NameAttr(e.name);
    ThreeParts(w, AttrsHtml(e.attrs), NameAttr(e.name) + " >");
    assert h == w + AttrsHtml(e.attrs) + (NameAttr(e.name) + " >");
    ThreeParts(h, OptionsHtml(children), SelectTail(e));
    HasAtWithin(WithChildrenSelectHtml(e, children), 0, h, 0, w);
  }

  /** domElementWithChildrenSelect writes every child as domElement does, in order. */
  lemma SelectChildWritten(e: Element, children: seq<Element>, j: nat)
    requires j < |children|
    ensures WithChildrenSelectHtml(e, children)
         == SelectHead(e) + OptionsHtml(children[..j]) + ElementHtml(children[j]) + OptionsHtml(children[j + 1..]) + SelectTail(e)
  {
    FlattenAt(children, j, ElementHtml);
    Splice(SelectHead(e), OptionsHtml(children[..j]), ElementHtml(children[j]), OptionsHtml(children[j + 1..]), SelectTail(e));
  }

  /** domElementWithChildrenSelect closes the select, then writes the label exactly when it is non-empty. */
  lemma SelectEnd(e: Element, children: seq<Element>)
    ensures EndsWith(WithChildrenSelectHtml(e, children), ("</" + e.tagName + ">") + GroupLabel(e.labelText) + "</div>")
    ensures KnownTag(e.tagName) ==>
      (EndsWith(WithChildrenSelectHtml(e, children), "</label></div>") <==> e.labelText != "")
  {
    ThreeParts(SelectHead(e), OptionsHtml(children), SelectTail(e));
    GroupLabelAtEnd(e.tagName, e.labelText, WithChildrenSelectHtml(e, children), SelectTail(e));
  }

  /** The end of a group: `</TagName>`, the label if any, then `</div>`. */
  lemma GroupLabelAtEnd(tagName: string, l: string, out: string, t: string)
    requires t == ("</" + tagName + ">") + GroupLabel(l) + "</div>"
    requires EndsWith(out, t)
    ensures KnownTag(tagName) ==> (EndsWith(out, "</label></div>") <==> l != "")
  {
    if l == "" {
      if KnownTag(tagName) {
        NoGroupLabelAtEnd(tagName, out, t);
      }
    } else {
      GroupLabelEnds(tagName, l, out, t);
    }
  }

  lemma NoGroupLabelAtEnd(tagName: string, out: string, t: string)
    requires KnownTag(tagName)
    requires t == ("</" + tagName + ">") + GroupLabel("") + "</div>"
    requires EndsWith(out, t)
    ensures !EndsWith(out, "</label></div>")
  {
    assert t == "</" + tagName + ">" + "</div>";
    assert t[|t| - 8] == tagName[|tagName| - 1] != 'l';
    EndsWithAt(out, t, 8);
    NotEndsWithAt(out, "</label></div>", 8);
  }

  lemma GroupLabelEnds(tagName: string, l: string, out: string, t: string)
    requires l != ""
    requires t == ("</" + tagName + ">") + GroupLabel(l) + "</div>"
    requires EndsWith(out, t)
    ensures EndsWith(out, "</label></div>")
  {
    var y, g := "</" + tagName + ">", GroupLabel(l);
    assert EndsWith(g, "</label>");
    EndsWithRight(y, g, "</label>");
    EndsWithExtend(y + g, "</label>", "</div>");
    EndsWithBoth(out, t, "</label></div>");
  }

  /** domElementWithChildrenCheckbox opens the group element with its attributes. */
  lemma CheckboxGroupStart(e: Element, children: seq<Element>)
    ensures StartsWith(WithChildrenCheckboxHtml(e, children), "<" + e.tagName + " ")
  {
    var h := CheckboxGroupHead(e);
    CheckboxGroupHeadStart(e);
    ThreeParts(h, CheckboxesHtml(children), CheckboxGroupTail(e));
    HasAtWithin(WithChildrenCheckboxHtml(e, children), 0, h, 0, "<" + e.tagName + " ");
  }

  lemma CheckboxGroupHeadStart(e: Element)
    ensures StartsWith(CheckboxGroupHead(e), "<" + e.tagName + " ")
  {
    var w, a := "<" + e.tagName + " ", AttrsHtml(e.attrs);
    AppendAssoc(w + a, " >", GroupLabel(e.labelText));
    ThreeParts(w, a, " >" + GroupLabel(e.labelText));
  }

  /** The head of a checkbox group ends with the closed opening tag and the group label. */
  lemma CheckboxGroupHeadEnd(e: Element)
    ensures EndsWith(CheckboxGroupHead(e), " >" + GroupLabel(e.labelText))
  {
    var r := " >" + GroupLabel(e.labelText);
    assert CheckboxGroupHead(e) == ("<" + e.tagName + " ") + AttrsHtml(e.attrs) + r;
    ThreeParts("<" + e.tagName + " ", AttrsHtml(e.attrs), r);
  }

  /** domElementWithChildrenCheckbox writes every child as domElementCheckbox does, in order. */
  lemma CheckboxGroupChildWritten(e: Element, children: seq<Element>, j: nat)
    requires j < |children|
    ensures WithChildrenCheckboxHtml(e, children)
         == CheckboxGroupHead(e) + CheckboxesHtml(children[..j]) + CheckboxHtml(children[j]) + CheckboxesHtml(children[j + 1..])
          + CheckboxGroupTail(e)
  {
    FlattenAt(children, j, CheckboxHtml);
    Splice(CheckboxGroupHead(e), CheckboxesHtml(children[..j]), CheckboxHtml(children[j]), CheckboxesHtml(children[j + 1..]),
           CheckboxGroupTail(e));
  }

  /** domElementWithChildrenCheckbox ends with the closing tag and the clearing div. */
  lemma CheckboxGroupEnd(e: Element, children: seq<Element>)
    ensures EndsWith(WithChildrenCheckboxHtml(e, children), "</" + e.tagName + ">" + CheckboxGroupClose)
  {
    ThreeParts(CheckboxGroupHead(e), CheckboxesHtml(children), CheckboxGroupTail(e));
  }
}
