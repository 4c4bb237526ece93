/**
 * The design editor: three groups of radio buttons, one per design choice,
 * each showing the current choice as checked and replacing only its own
 * choice when another option is picked.
 */
module DesignForm {
  import opened Optional
  import opened Types
  import Lists

  const ThemeOptions: seq<string> := ["light", "dark"]
  const ColorSchemeOptions: seq<string> := ["blue", "green", "purple", "orange", "cyan"]
  const LayoutOptions: seq<string> := ["one-page", "multi-page"]

  /** The offered values are exactly the names of the members of each enumeration, in declaration order. */
  lemma OptionsAreDomains()
    ensures ThemeOptions == Lists.Map(AllThemes, ThemeName)
    ensures ColorSchemeOptions == Lists.Map(AllColorSchemes, ColorSchemeName)
    ensures LayoutOptions == Lists.Map(AllLayouts, LayoutName)
    ensures forall o :: o in ThemeOptions <==> ThemeFromName(o).Some?
    ensures forall o :: o in ColorSchemeOptions <==> ColorSchemeFromName(o).Some?
    ensures forall o :: o in LayoutOptions <==> LayoutFromName(o).Some?
  {
  }

  /** `checked={selectedValue === option.value}`. */
  predicate Checked(selected: string, option: string) {
    selected == option
  }

  /** How many options of a group are checked. */
  function CheckedCount(options: seq<string>, selected: string): nat {
    Lists.Count(options, (o: string) => Checked(selected, o))
  }

  /** A group of distinct options has exactly one checked when the selection is among them. */
  lemma {:induction false} OneChecked(options: seq<string>, selected: string)
    requires forall i, j :: 0 <= i < j < |options| ==> options[i] != options[j]
    ensures CheckedCount(options, selected) == if selected in options then 1 else 0
  {
    if options != [] {
      OneChecked(options[1..], selected);
      assert selected in options <==> selected == options[0] || selected in options[1..];
      if selected == options[0] {
        assert selected !in options[1..] by {
          forall i | 0 <= i < |options[1..]| ensures options[1..][i] != selected {
            assert options[1..][i] == options[i + 1];
          }
        }
      }
    }
  }

  /** No group offers a value twice. */
  lemma OptionsDistinct()
    ensures forall i, j :: 0 <= i < j < |ThemeOptions| ==> ThemeOptions[i] != ThemeOptions[j]
    ensures forall i, j :: 0 <= i < j < |ColorSchemeOptions| ==> ColorSchemeOptions[i] != ColorSchemeOptions[j]
    ensures forall i, j :: 0 <= i < j < |LayoutOptions| ==> LayoutOptions[i] != LayoutOptions[j]
  {
    forall i, j | 0 <= i < j < |ColorSchemeOptions|
      ensures ColorSchemeOptions[i] != ColorSchemeOptions[j]
    {
      assert ColorSchemeOptions[i][0] != ColorSchemeOptions[j][0];
    }
    assert LayoutOptions[0][0] != LayoutOptions[1][0];
  }

  /** For any design, exactly one option of each group is checked. */
  lemma ExactlyOneChecked(d: Design)
    ensures CheckedCount(ThemeOptions, ThemeName(d.theme)) == 1
    ensures CheckedCount(ColorSchemeOptions, ColorSchemeName(d.colorScheme)) == 1
    ensures CheckedCount(LayoutOptions, LayoutName(d.layout)) == 1
  {
    OptionsAreDomains();
    OptionsDistinct();
    OneChecked(ThemeOptions, ThemeName(d.theme));
    OneChecked(ColorSchemeOptions, ColorSchemeName(d.colorScheme));
    OneChecked(LayoutOptions, LayoutName(d.layout));
  }

  /** The theme group's `onChange`: the picked theme, with the other two choices kept. */
  function OnThemeChange(d: Design, value: string): (r: Design)
    requires value in ThemeOptions
    ensures ThemeName(r.theme) == value
    ensures r.colorScheme == d.colorScheme && r.layout == d.layout
  {
    d.(theme := ThemeFromName(value).value)
  }

  /** The colour group's `onChange`: the picked scheme, with the other two choices kept. */
  function OnColorSchemeChange(d: Design, value: string): (r: Design)
    requires value in ColorSchemeOptions
    ensures ColorSchemeName(r.colorScheme) == value
    ensures r.theme == d.theme && r.layout == d.layout
  {
    d.(colorScheme := ColorSchemeFromName(value).value)
  }

  /** The layout group's `onChange`: the picked layout, with the other two choices kept. */
  function OnLayoutChange(d: Design, value: string): (r: Design)
    requires value in LayoutOptions
    ensures LayoutName(r.layout) == value
    ensures r.theme == d.theme && r.colorScheme == d.colorScheme
  {
    d.(layout := LayoutFromName(value).value)
  }

  /** Picking the option that is already checked changes nothing. */
  lemma PickingCheckedOptionIsNoChange(d: Design)
    ensures OnThemeChange(d, ThemeName(d.theme)) == d
    ensures OnColorSchemeChange(d, ColorSchemeName(d.colorScheme)) == d
    ensures OnLayoutChange(d, LayoutName(d.layout)) == d
  {
    OptionsAreDomains();
    EnumerationsComplete();
  }
}
