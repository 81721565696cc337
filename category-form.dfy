/** The category form of forms/category-form.tsx: its schema, its preset colours and
    its default values. */
module CategoryForm {
  import opened Js
  import opened Records
  import opened Validation

  /** One character of the class `[0-9A-Fa-f]`. */
  predicate IsHexDigit(c: char) {
    '0' <= c <= '9' || 'A' <= c <= 'F' || 'a' <= c <= 'f'
  }

  /** `s` is exactly `n` repetitions of the class followed by the end of input. */
  function HexRun(s: string, n: nat): bool {
    if n == 0 then s == [] else |s| > 0 && IsHexDigit(s[0]) && HexRun(s[1..], n - 1)
  }

  /** The pattern `/^#([0-9A-Fa-f]{6})$/` read element by element: the anchor and '#',
      then six repetitions of the class, then `$` (without the `m` flag, the end of input). */
  predicate MatchesHexPattern(s: string) {
    |s| > 0 && s[0] == '#' && HexRun(s[1..], 6)
  }

  /** What the pattern is meant to accept: '#' and six hex digits, nothing more. */
  predicate IsHexColor(s: string) {
    |s| == 7 && s[0] == '#' && forall i :: 1 <= i < 7 ==> IsHexDigit(s[i])
  }

  lemma {:induction false} HexRunMeaning(s: string, n: nat)
    ensures HexRun(s, n) <==> |s| == n && forall i :: 0 <= i < n ==> IsHexDigit(s[i])
  {
    if n > 0 && |s| > 0 {
      HexRunMeaning(s[1..], n - 1);
      if |s| == n && (forall i :: 0 <= i < n ==> IsHexDigit(s[i])) {
        assert forall i :: 0 <= i < n - 1 ==> IsHexDigit(s[1..][i]) by {
          forall i | 0 <= i < n - 1 ensures IsHexDigit(s[1..][i]) {
            assert s[1..][i] == s[i + 1];
          }
        }
      }
      if HexRun(s, n) {
        forall i | 0 <= i < n ensures IsHexDigit(s[i]) {
          if i > 0 {
            assert s[i] == s[1..][i - 1];
          }
        }
      }
    }
  }

  lemma HexColorPattern(s: string)
    ensures MatchesHexPattern(s) <==> IsHexColor(s)
  {
    if |s| > 0 {
      HexRunMeaning(s[1..], 6);
      if IsHexColor(s) {
        assert forall i :: 0 <= i < 6 ==> IsHexDigit(s[1..][i]) by {
          forall i | 0 <= i < 6 ensures IsHexDigit(s[1..][i]) {
            assert s[1..][i] == s[i + 1];
          }
        }
      }
      if MatchesHexPattern(s) {
        forall i | 1 <= i < 7 ensures IsHexDigit(s[i]) {
          assert s[i] == s[1..][i - 1];
        }
      }
    }
  }

  /** Shorthand, a missing '#' and a seventh digit are all refused. */
  lemma HexColorRejects()
    ensures !MatchesHexPattern("#FFF")
    ensures !MatchesHexPattern("FFFFFF")
    ensures !MatchesHexPattern("#FFFFFFF")
    ensures MatchesHexPattern("#a1B2c3")
  {
    HexColorPattern("#FFF");
    HexColorPattern("FFFFFF");
    HexColorPattern("#FFFFFFF");
    HexColorPattern("#a1B2c3");
  }

  const NameRequired := "Category name is required"
  const InvalidColor := "Invalid hex color code"

  datatype CategoryFormData = CategoryFormData(name: string, color: string)

  /** `categorySchema`: the name needs at least one character, the colour must match the pattern. */
  function CategoryIssues(data: CategoryFormData): seq<Issue> {
    (if |data.name| < 1 then [Issue("name", NameRequired)] else [])
    + (if MatchesHexPattern(data.color) then [] else [Issue("color", InvalidColor)])
  }

  lemma CategoryAccepted(data: CategoryFormData)
    ensures CategoryIssues(data) == [] <==> data.name != "" && IsHexColor(data.color)
    ensures Issue("name", NameRequired) in CategoryIssues(data) <==> data.name == ""
    ensures Issue("color", InvalidColor) in CategoryIssues(data) <==> !IsHexColor(data.color)
  {
    HexColorPattern(data.color);
  }

  const PresetColors: seq<string> := [
    "#FF5733", "#33FF57", "#3357FF", "#FF33A1", "#FFC733", "#33FFF6",
    "#8E44AD", "#E74C3C", "#2ECC71", "#5B5EA6", "#34495E", "#E67E22"
  ]

  const DefaultColor := "#000000"

  lemma PresetColorsAreHex()
    ensures forall i :: 0 <= i < |PresetColors| ==> IsHexColor(PresetColors[i])
    ensures IsHexColor(DefaultColor)
  {
  }

  lemma PresetColorsValid()
    ensures forall i :: 0 <= i < |PresetColors| ==> MatchesHexPattern(PresetColors[i])
    ensures MatchesHexPattern(DefaultColor)
  {
    PresetColorsAreHex();
    forall i | 0 <= i < |PresetColors| ensures MatchesHexPattern(PresetColors[i]) {
      HexColorPattern(PresetColors[i]);
    }
    HexColorPattern(DefaultColor);
  }

  /** `editingCategory?.name || ''` and `editingCategory?.color || '#000000'`. */
  function CategoryDefaults(editing: Option<Category>): CategoryFormData {
    CategoryFormData(
      if editing.Some? then editing.value.name else "",
      if editing.Some? && editing.value.color != "" then editing.value.color else DefaultColor)
  }

  /** A fresh form is refused for its empty name only. */
  lemma NewCategoryFormFailsOnName()
    ensures CategoryIssues(CategoryDefaults(None)) == [Issue("name", NameRequired)]
  {
    PresetColorsValid();
  }

  // ---------------------------------------------------------------------------
  // The colour inputs

  /** A change to the colour: typed into the text field, chosen with the colour picker
      or a preset swatch, or the text field losing focus. */
  datatype ColorInput = Typed(text: string) | Chosen(value: string) | LeftText

  /** The `color` state cell, which the submit handler sends, and the form value
      `data.color`, which the schema checks. */
  datatype ColorFields = ColorFields(submitted: string, validated: string)

  /** The text field's handler sets both; the picker's `handleColorChange` and a
      preset's `setColor` set only the state cell. The text field keeps the `onBlur` of
      `register('color')`, which copies the value it shows, the state cell, into the
      form value. */
  function OnColorInput(fields: ColorFields, input: ColorInput): ColorFields {
    match input
    case Typed(text) => ColorFields(text, text)
    case Chosen(value) => ColorFields(value, fields.validated)
    case LeftText => ColorFields(fields.submitted, fields.submitted)
  }

  function OnColorInputs(fields: ColorFields, inputs: seq<ColorInput>): ColorFields
    decreases |inputs|
  {
    if inputs == [] then fields else OnColorInputs(OnColorInput(fields, inputs[0]), inputs[1..])
  }

  /** Both start at the same colour (`editingCategory?.color || '#000000'`). When every
      choice is a hex colour, as the picker's values and the presets are, a form whose
      validated colour passes also submits a hex colour. */
  lemma {:induction false} SubmittedColorIsHex(fields: ColorFields, inputs: seq<ColorInput>)
    requires fields.submitted == fields.validated || IsHexColor(fields.submitted)
    requires forall i :: 0 <= i < |inputs| && inputs[i].Chosen? ==> IsHexColor(inputs[i].value)
    ensures var last := OnColorInputs(fields, inputs);
      IsHexColor(last.validated) ==> IsHexColor(last.submitted)
    decreases |inputs|
  {
    if inputs != [] {
      assert forall i :: 0 <= i < |inputs[1..]| && inputs[1..][i].Chosen? ==> IsHexColor(inputs[1..][i].value) by {
        forall i | 0 <= i < |inputs[1..]| && inputs[1..][i].Chosen? ensures IsHexColor(inputs[1..][i].value) {
          assert inputs[1..][i] == inputs[i + 1];
        }
      }
      SubmittedColorIsHex(OnColorInput(fields, inputs[0]), inputs[1..]);
    }
  }

  /** A choice does not reach the validated value until the text field next loses
      focus: after typing "xyz", leaving the field and picking the first preset, the
      schema refuses the colour, although the colour the form would submit is the
      preset. */
  lemma ChoiceBypassesSchema(name: string)
    ensures var last := OnColorInputs(ColorFields(DefaultColor, DefaultColor), [Typed("xyz"), LeftText, Chosen(PresetColors[0])]);
      && last == ColorFields(PresetColors[0], "xyz")
      && IsHexColor(last.submitted)
      && Issue("color", InvalidColor) in CategoryIssues(CategoryFormData(name, last.validated))
  {
    assert OnColorInputs(ColorFields("xyz", "xyz"), [LeftText, Chosen(PresetColors[0])])
      == OnColorInputs(ColorFields("xyz", "xyz"), [Chosen(PresetColors[0])]);
    assert OnColorInputs(ColorFields("xyz", "xyz"), [Chosen(PresetColors[0])]) == ColorFields(PresetColors[0], "xyz");
    PresetColorsAreHex();
    CategoryAccepted(CategoryFormData(name, "xyz"));
  }

  /** Once the text field loses focus, the schema checks the colour the form submits. */
  lemma LeavingTextSyncsColor(fields: ColorFields, inputs: seq<ColorInput>)
    requires inputs != [] && inputs[|inputs| - 1] == LeftText
    ensures var last := OnColorInputs(fields, inputs);
      last.validated == last.submitted
    decreases |inputs|
  {
    if |inputs| > 1 {
      assert inputs[1..][|inputs[1..]| - 1] == LeftText;
      LeavingTextSyncsColor(OnColorInput(fields, inputs[0]), inputs[1..]);
    }
  }
}
