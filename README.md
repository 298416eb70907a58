# Ponzu editor elements, modelled in Dafny

This project models the form-building core of the ponzu CMS admin editor, `management/editor/elements.go`. A content type's editor form is made of widgets: Input, Textarea, Timestamp, Richtext, Select, Checkbox and Tags.

Each widget does three things:
- It resolves the struct field it edits to a form name, the field's `json` tag, and to its current value.
- It builds one or more `element`s.
- It serialises them into HTML through a view buffer.

The model has four modules, plus `Wrappers`, which holds `Option` and `Result`:

- `GoText` (`gotext.dfy`) holds the Go library text functions the code relies on:
  - `fmt.Sprintf("%d")` as `Decimal`, with a reference parser `ParseDecimal`;
  - `strings.Split` and `strings.Join`, with a character-replacement reference `ReplaceChar`;
  - `html.EscapeString` as `Escape`, with the unescaper `Unescape`;
  - substring-position predicates used to state the shape of the markup.
- `EditorFields` (`fields.dfy`) covers form-name and value resolution.
  - Reflection becomes a field table: a map `Post` from a Go field name to the field's optional `json` tag and its value.
  - Four panics become `Failure(Panic)`: a missing field, a missing `json` tag, `Int()` on a non-integer field, and the `[]string` cast on a field of another kind. The other reflection panics and the panic of an assignment into a nil caller map are not modelled; see "## Left out".
- `EditorDom` (`dom.dfy`) holds:
  - the `element` struct, as the `Element` datatype;
  - `newElement`;
  - the five serialisers.

  A serialiser is a method that appends fragment after fragment to a `Buffer` object, which stands for `bytes.Buffer`. It is proved to append exactly a reference function of the element: `SelfCloseHtml`, `ElementHtml`, `CheckboxHtml`, `WithChildrenSelectHtml` or `WithChildrenCheckboxHtml`. Lemmas then state the shape of each reference.
- `EditorWidgets` (`widgets.dfy`) holds the widgets.
  - A caller's attribute map that a widget writes into is an `AttrMap` object whose `Set` the widget calls.
  - Select, Checkbox and Tags build their children in loops. Each loop is a method proved equal to a reference function: `SelectChildren`, `CheckboxInputs` or `TagInputs`/`TagChips`. Lemmas state the selection, checking and naming rules of those functions.

Go's map iteration order is unspecified. A caller's `map[string]string` is therefore modelled as a Dafny map together with a sequence `order`, which is required to visit every key exactly once (`IsEnumeration`). Every property holds for every such order. Inside an `Element`, attributes are the sequence of pairs in visiting order.

## Model

| member | source | states |
|---|---|---|
| EditorFields.TagNameFromStructField | management/editor/elements.go:509-527 | An empty field name gives `""`. A missing field fails with `MissingField`. A field without a `json` tag fails with `MissingJsonTag`. Otherwise the result is the tag, unchanged. |
| EditorFields.TagNameFromStructFieldMulti | management/editor/elements.go:532-536 | It fails exactly when the plain form name fails, with the same error. Otherwise it is the tag, then `.`, then the decimal form of the index. |
| EditorFields.MultiNamesDistinct | management/editor/elements.go:529-536 | Different indices give different multi-value names. |
| EditorFields.MultiNameRoundTrip | management/editor/elements.go:529-536 | A multi-value name starts with `tag.`, and the rest parses back to the index. |
| EditorFields.ValueFromStructField | management/editor/elements.go:538-542 | The value is present exactly when the struct has the field, and is then that field's value. |
| EditorFields.ValueString | management/editor/elements.go:549 | A string field gives its string. Any other kind, or a missing field, gives a `<… Value>` placeholder, as `reflect.Value.String` does. |
| EditorFields.IntValue | management/editor/elements.go:46-47 | It succeeds only on an integer field, with its value. Otherwise it fails with `NotAnInteger`. |
| EditorFields.StringsValue | management/editor/elements.go:299-300 | It succeeds exactly on a `[]string` field, with its items, and fails with `NotAStringList` on every other modelled kind (string arrays are not among them; see "## Left out"). |
| EditorDom.NewElement | management/editor/elements.go:544-553 | It fails exactly when the form name fails, with the same error. Otherwise the element has the given tag name, attributes and label, the form name as name, and as data the string form of the field's value: the text of a string field, and a `<… Value>` placeholder for a missing or non-string field. |
| EditorDom.LabelIdHyphenates | management/editor/elements.go:405 | The `for` value of a label is the label with every space replaced by a hyphen. |
| EditorDom.FieldLabelHyphenated | management/editor/elements.go:404-406 | A non-empty field label or checkbox label is written with the hyphenated `for` value and the label text. |
| EditorDom.WriteAttrs | management/editor/elements.go:410-412 | The attribute loop appends `key="value" ` for every pair, in visiting order, and nothing else. |
| EditorDom.DomElementSelfClose | management/editor/elements.go:402-418 | It appends exactly `SelfCloseHtml(e)` to the buffer and returns the buffer's contents. |
| EditorDom.DomElementCheckbox | management/editor/elements.go:422-436 | It appends exactly `CheckboxHtml(e)` to the buffer and returns the buffer's contents. |
| EditorDom.DomElement | management/editor/elements.go:439-458 | It appends exactly `ElementHtml(e)` to the buffer and returns the buffer's contents. |
| EditorDom.WriteOptions | management/editor/elements.go:472-474 | Every child's `domElement` output is appended, in order. |
| EditorDom.WriteCheckboxes | management/editor/elements.go:500-502 | Every child's `domElementCheckbox` output is appended, in order. |
| EditorDom.DomElementWithChildrenSelect | management/editor/elements.go:460-484 | It appends exactly `WithChildrenSelectHtml(e, children)` and returns the buffer's contents. |
| EditorDom.DomElementWithChildrenCheckbox | management/editor/elements.go:486-507 | It appends exactly `WithChildrenCheckboxHtml(e, children)` and returns the buffer's contents. |
| EditorDom.AttrsAllWritten | management/editor/elements.go:410-412 | Every attribute pair occurs in the written attributes, whatever the visiting order. |
| EditorDom.SelfCloseLabel | management/editor/elements.go:403-407 | The markup starts with the `input-field col s12` wrapper. A non-empty label follows it. The opening tag follows the label, directly after the wrapper when the label is empty. |
| EditorDom.SelfCloseNameAndAttrs | management/editor/elements.go:410-416 | The markup always ends with the `name` attribute, ` />` and `</div>`. Every attribute occurs in it. |
| EditorDom.SelfCloseData | management/editor/elements.go:407-408 | The escaped data stands as the whole quoted `value` attribute: a quote stands directly before and after it. |
| EditorDom.DataEscaped | management/editor/elements.go:408 | The written data holds none of `<`, `>`, `"`, `'`, and unescapes back to the data. |
| EditorDom.ElementLabel | management/editor/elements.go:440-445 | domElement starts with the wrapper. A non-empty label follows it. The opening tag follows the label. |
| EditorDom.ElementNameAndAttrs | management/editor/elements.go:447-456 | domElement always ends with the name, the escaped data, `</TagName>` and `</div>`. Every attribute occurs in it. |
| EditorDom.CheckboxStart | management/editor/elements.go:423-428 | The checkbox markup opens the `col s6` paragraph and the input. Every attribute occurs in it. |
| EditorDom.CheckboxEnd | management/editor/elements.go:429-434 | The checkbox markup ends with the name, ` /> `, the label and `</p>`. |
| EditorDom.CheckboxLabelAtEnd | management/editor/elements.go:431-434 | The markup ends with `</label></p>` exactly when the label is non-empty. |
| EditorDom.SelectStart | management/editor/elements.go:461-469 | The select markup opens the `col s6` wrapper and the select. Its head ends with the name attribute and ` >`. |
| EditorDom.SelectChildWritten | management/editor/elements.go:472-474 | The markup is the head, the children before the j-th, the j-th child exactly as domElement writes it, the children after it, then the closing part. |
| EditorDom.SelectEnd | management/editor/elements.go:476-482 | The markup ends with `</TagName>`, the group label and `</div>`. For the editor's tag names it ends with `</label></div>` exactly when the label is non-empty. |
| EditorDom.CheckboxGroupStart | management/editor/elements.go:487-491 | The group markup opens with `<TagName `. |
| EditorDom.CheckboxGroupHeadEnd | management/editor/elements.go:493-497 | The group head ends with ` >` and the group label. |
| EditorDom.CheckboxGroupChildWritten | management/editor/elements.go:500-502 | The markup is the head, the checkboxes before the j-th, the j-th exactly as domElementCheckbox writes it, the checkboxes after it, then the closing part. |
| EditorDom.CheckboxGroupEnd | management/editor/elements.go:504 | The group markup ends with `</TagName>` and the clearing div. |
| GoText.DecimalRoundTrip | management/editor/elements.go:535 | Parsing the decimal form of an integer gives the integer back. |
| GoText.DecimalInjective | management/editor/elements.go:535 | Different integers have different decimal forms. |
| GoText.JoinSplit | management/editor/elements.go:405 | Splitting at one character and joining with another replaces the first character by the second. |
| GoText.SplitJoinRoundTrip | management/editor/elements.go:405 | Joining the pieces of a split with the same separator gives the string back. |
| GoText.EscapeIsInert | management/editor/elements.go:408 | Escaped text contains no `<`, `>`, `"` or `'`. |
| GoText.EscapeRoundTrip | management/editor/elements.go:453 | Unescaping escaped text gives the text back. |
| EditorWidgets.PairsOfMap | management/editor/elements.go:410-412 | Visiting a map in any enumeration order gives exactly its pairs, each key once. |
| EditorWidgets.AttrMap.Set | management/editor/elements.go:148-149 | Assigning one key of the caller's map changes that key and leaves every other key as it was. |
| EditorWidgets.Input | management/editor/elements.go:24-28 | It fails exactly when the form name fails. Otherwise it is the self-closing markup of the field's `input`, labelled by the "label" attribute. |
| EditorWidgets.Textarea | management/editor/elements.go:34-38 | It fails exactly when the form name fails. Otherwise it is the domElement markup of the field's `textarea`. |
| EditorWidgets.TimestampDataMeaning | management/editor/elements.go:45-51 | The shown value is empty exactly when the integer is 0. Otherwise it parses back to the integer. |
| EditorWidgets.Timestamp | management/editor/elements.go:44-63 | A missing or non-integer field fails with `NotAnInteger` first. Then a bad form name fails. Otherwise it is the self-closing `input` holding the shown value of the integer. |
| EditorWidgets.Richtext | management/editor/elements.go:142-167 | It sets "class" to `richtext <field>` and "id" to `richtext-<field>`, even when it then fails, and keeps every other key. It fails exactly when the form name fails. Otherwise it is the wrapper, the target `div` carrying the caller's map, and the hidden input with the escaped value. |
| EditorWidgets.BuildSelectOptions | management/editor/elements.go:252-282 | The loop builds exactly `SelectChildren`: the prompt, the reset, then one option per entry in visiting order. |
| EditorWidgets.SelectChildrenShape | management/editor/elements.go:252-282 | The prompt is disabled and selected. The reset has `value=""` and is not selected. Each entry's option has the key as value and its text as data, and is selected exactly when the key equals the field's current value. |
| EditorWidgets.SelectedEntry | management/editor/elements.go:269-273 | Exactly one entry is pre-selected when the field's value is a key of the options, and none otherwise. |
| EditorWidgets.Select | management/editor/elements.go:238-285 | It sets "class" to `browser-default`, even when it then fails. It fails exactly when the form name fails. Otherwise it is the select markup of the named, labelled select over `SelectChildren`. |
| EditorWidgets.BuildCheckboxInputs | management/editor/elements.go:302-330 | The loop and its inner loop over the saved values build exactly `CheckboxInputs`. With no options it cannot fail. Otherwise it fails exactly when the form name fails. |
| EditorWidgets.CheckboxShape | management/editor/elements.go:303-326 | The i-th checkbox has `type="checkbox"` and the key as value. It is checked exactly when the key is a saved value. Its id is the text with spaces made hyphens, it is named `tag.i`, and it is labelled by the text. |
| EditorWidgets.CheckboxNames | management/editor/elements.go:322 | The checkbox names are pairwise distinct, and each reads back as `tag.` and its index. |
| EditorWidgets.Checkbox | management/editor/elements.go:292-333 | It sets "class" to `input-field col s12`. A field that is not a `[]string` fails. Otherwise the markup is the labelled, unnamed group over `CheckboxInputs`, which fails as stated above. |
| EditorWidgets.BuildTagInputs | management/editor/elements.go:352-359 | The loop appends exactly one hidden input per saved tag, and collects exactly one chip per tag, in saved order. |
| EditorWidgets.TagInputAt | management/editor/elements.go:354-358 | The k-th tag's hidden input, named `name.k` with the tag as value, stands right after those of the tags before it. The k-th chip holds the k-th tag. |
| EditorWidgets.Tags | management/editor/elements.go:339-398 | A bad form name fails first, then a field that is not a `[]string`. Otherwise the markup is the labelled wrapper, the hidden inputs and `</div>`. The script receives the chips joined by commas. |

## Left out

- The text of the `<script>` blocks of Richtext, File and Tags. A widget's result records only the values the script interpolates: the field name and placeholder for Richtext, and the form name and joined chips for Tags. The markup and script are returned as two parts rather than one concatenated byte slice.
- File is not modelled. Its markup is fixed template text around the form name, the label and the unescaped value, and its script is left out with the others.
- Go reflection. The field table stands in for `reflect.TypeOf(...).FieldByName` and `reflect.Value`. `Value.String()` and `Value.Int()` are modelled only for the kinds the editor reads; other kinds of value are named by their type.
- EditorFields.StringsValue, EditorWidgets.Checkbox, EditorWidgets.Tags: a field is not marked exported or unexported. For an unexported `[]string` field that has a `json` tag, Go's `.Interface()` at elements.go:300 and 344 panics. The model instead reads its items and builds the markup.
- Reflection panics other than the four modelled ones are not modelled: `.Interface()` on an unexported field, `FieldByName` through a nil embedded pointer (elements.go:539), and a `p` that is not a pointer to a struct. The field table describes a well-formed pointer to a content struct with its fields flattened.
- EditorFields.StringsValue: a `[N]string` array field is not modelled as its own kind. It can only be held as `Other`, which fails. Go's `Slice(0, Len()).Interface().([]string)` (elements.go:300, 344) accepts such a field, because it is addressable through `reflect.Indirect`, and yields its items.
- EditorFields.ValueString: every integer field is printed as `<int64 Value>`, the type content structs use. An `int`, `int32` or other integer field would print under its own type name in Go (`<int Value>`, …); the `Int` case does not record that name.
- EditorWidgets.Richtext, EditorWidgets.Select, EditorWidgets.Checkbox: a nil caller map is not modelled. `AttrMap` always holds a map. Go panics on the first assignment into a nil map (elements.go:148, 247, 293), and there is no `Panic` case for that.
- Map iteration order. It is a parameter of each widget, not a random choice. The caller's maps are visited in the order given.
- The small maps a widget builds for its own elements are visited in the order the code writes them. These are the prompt's, the reset's, each entry's and each checkbox's attributes. The shape lemmas about them (`SelectChildrenShape`, `SelectedEntry`, `CheckboxShape`) speak only of membership, so they hold for any order.
- EditorWidgets.Select: its exact markup assumes that order. The prompt is written `disabled` then `selected`, and each entry `value` then `selected`. Go may visit these literals in either order, so the contract gives one of Go's possible outputs.
- EditorWidgets.Checkbox: its exact markup assumes that order for each input: `type`, `value`, `id`, then `checked`. Go may emit them in any order, so the contract gives one of Go's possible outputs.
- `html.EscapeString` is modelled after its documented behaviour on the five characters `<`, `>`, `&`, `'` and `"`. The library's own code is not part of this model.
- The view buffer is a string, not bytes. Conversions between `[]byte` and `string` are identities here, and every character is one element.
- Each element's own `viewBuf` is a fresh `Buffer`, and no two elements share one. Aliasing between buffers is therefore not modelled.
- Well-formedness and injection safety of the HTML are not stated. Labels, attribute values and names are written unescaped, as the code writes them.
- SelectEnd: the "label iff" part is stated only for the tag names the editor uses (`KnownTag`). A tag name ending in `l` could imitate a closing label.
