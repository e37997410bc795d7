/**
 * The heading drop-down of the rich-text editor's toolbar (components/EditorToolbar.tsx).
 * The editor itself is not modelled: what it reports is an input, and what the toolbar
 * asks of it is an `EditorCommand`.
 */
module EditorToolbar {
  import opened Wrappers
  import opened Text

  /** Which heading levels `editor.isActive('heading', { level })` reports. */
  datatype HeadingState = HeadingState(h1: bool, h2: bool, h3: bool)

  /** A chain the toolbar runs on the editor. `ToggleHeading(None)` is a toggle with level `NaN`. */
  datatype EditorCommand = SetParagraph | ToggleHeading(level: Option<int>)

  /** The values of the drop-down's items: Paragraph, Heading 1, Heading 2, Heading 3. */
  const SelectOptions: seq<string> := ["p", "h1", "h2", "h3"]

  /** The selected value: the first active level of 1, 2, 3, or paragraph when none is. */
  function SelectValue(active: HeadingState): (value: string)
    ensures value == "h1" <==> active.h1
    ensures value == "h2" <==> !active.h1 && active.h2
    ensures value == "h3" <==> !active.h1 && !active.h2 && active.h3
    ensures value == "p" <==> !active.h1 && !active.h2 && !active.h3
  {
    if active.h1 then "h1" else if active.h2 then "h2" else if active.h3 then "h3" else "p"
  }

  /** `onValueChange`: paragraph for `'p'`, otherwise a heading toggle at `parseInt(value.replace('h', ''))`. */
  function OnValueChange(value: string): (command: EditorCommand)
    ensures command == SetParagraph <==> value == "p"
    ensures value != "p" ==> command == ToggleHeading(ParseInt(RemoveFirst(value, 'h')))
  {
    if value == "p" then SetParagraph else ToggleHeading(ParseInt(RemoveFirst(value, 'h')))
  }

  /** The displayed value is always one of the items offered. */
  lemma SelectValueOffered(active: HeadingState)
    ensures SelectValue(active) in SelectOptions
  {
  }

  /** Choosing the item for heading level `n` toggles level `n`. */
  lemma {:induction false} HeadingItemTogglesItsLevel(n: nat)
    requires 1 <= n <= 3
    ensures "h" + NatToString(n) in SelectOptions
    ensures OnValueChange("h" + NatToString(n)) == ToggleHeading(Some(n))
  {
    var digits := NatToString(n);
    assert digits == [DigitChar(n)];
    if n == 1 {
      assert "h" + digits == SelectOptions[1];
    } else if n == 2 {
      assert "h" + digits == SelectOptions[2];
    } else {
      assert "h" + digits == SelectOptions[3];
    }
    assert RemoveFirst("h" + digits, 'h') == digits;
    ParseIntOfIntToString(n, "");
    assert IntToString(n) + "" == digits;
  }

  /** Choosing again what the drop-down shows: the active heading is toggled, or the paragraph set again. */
  lemma ChoosingShownValue(active: HeadingState)
    ensures OnValueChange(SelectValue(active)) ==
      if active.h1 then ToggleHeading(Some(1))
      else if active.h2 then ToggleHeading(Some(2))
      else if active.h3 then ToggleHeading(Some(3))
      else SetParagraph
  {
    if active.h1 {
      HeadingItemTogglesItsLevel(1);
    } else if active.h2 {
      HeadingItemTogglesItsLevel(2);
    } else if active.h3 {
      HeadingItemTogglesItsLevel(3);
    }
  }
}
