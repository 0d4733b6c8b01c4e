/** The remote's buttons: the static table from button names to what a press
    does, and the rule that decides which handler, if any, an element of the
    on-screen layout gets. */
module Buttons {
  import opened Protocol

  /** What pressing a bound button does: send one named key, run the power
      toggle, or launch an installed application by its display name. */
  datatype Action = Keypress(key: string) | PowerToggle | Launch(name: string)

  const BUTTON_MAPPING: map<string, Action> := map[
    "back" := Keypress("Back"),
    "home" := Keypress("Home"),
    "up" := Keypress("Up"),
    "left" := Keypress("Left"),
    "ok" := Keypress("Select"),
    "right" := Keypress("Right"),
    "down" := Keypress("Down"),
    "replay" := Keypress("InstantReplay"),
    "info" := Keypress("Info"),
    "previous" := Keypress("Rev"),
    "play" := Keypress("Play"),
    "next" := Keypress("Fwd"),
    "power" := PowerToggle,
    "vol_down" := Keypress("VolumeDown"),
    "vol_up" := Keypress("VolumeUp"),
    "vol_mute" := Keypress("VolumeMute")
  ]

  /** Python's `s[:k]` for a non-negative `k`. */
  function SliceTo(s: string, k: nat): string {
    if k <= |s| then s[..k] else s
  }

  /** Python's `s[k:]` for a non-negative `k`. */
  function SliceFrom(s: string, k: nat): string {
    if k <= |s| then s[k..] else []
  }

  /** `element[:3] == 'app'`: the test that makes an element an app button. */
  predicate IsAppElement(element: string) {
    SliceTo(element, 3) == "app"
  }

  /** The handler a layout element is bound to, or `None` when it gets none:
      an app element launches `element[4:]`, any other element gets its
      `BUTTON_MAPPING` entry if it has one. */
  function Binding(element: string): (b: Option<Action>)
    ensures b.Some? <==> "app" <= element || element in BUTTON_MAPPING
    ensures b.Some? && b.value.Launch? <==> "app" <= element
  {
    AppElementIsPrefix(element);
    if IsAppElement(element) then Some(Launch(SliceFrom(element, 4)))
    else if element in BUTTON_MAPPING then Some(BUTTON_MAPPING[element])
    else None
  }

  /** The app test holds exactly of the strings that start with `app`. */
  lemma AppElementIsPrefix(element: string)
    ensures IsAppElement(element) <==> "app" <= element
    ensures IsAppElement(element) <==>
      |element| >= 3 && element[0] == 'a' && element[1] == 'p' && element[2] == 'p'
  {
    if |element| < 3 {
      assert SliceTo(element, 3) == element;
      assert |element| != |"app"|;
    } else {
      assert SliceTo(element, 3) == [element[0], element[1], element[2]];
    }
  }

  /** `app_<name>` launches `<name>`; the drop of four characters means any
      other string that starts with `app` launches what follows its fourth
      character. */
  lemma AppButtonLaunches(name: string, element: string)
    ensures Binding("app_" + name) == Some(Launch(name))
    ensures "app" <= element ==> Binding(element) == Some(Launch(if |element| < 4 then "" else element[4..]))
  {
    AppElementIsPrefix("app_" + name);
    AppElementIsPrefix(element);
    assert ("app_" + name)[4..] == name;
  }

  /** Every table entry is reached: no mapped button name starts with `app`,
      so a mapped element is bound to its entry. */
  lemma MappedButtonsBind(element: string)
    ensures element in BUTTON_MAPPING ==> Binding(element) == Some(BUTTON_MAPPING[element])
  {
    if element in BUTTON_MAPPING {
      AppElementIsPrefix(element);
      assert element[0] != 'a' || element[1] != 'p';
    }
  }

  /** An element that neither starts with `app` nor appears in the table gets
      no handler, and these are the only elements without one. */
  lemma UnmappedGetsNoHandler(element: string)
    ensures Binding(element) == None <==> !("app" <= element) && element !in BUTTON_MAPPING
  {
    AppElementIsPrefix(element);
  }

  /** The whole table: its sixteen button names and the key each one sends;
      `power` runs the toggle, every other entry sends exactly one key. */
  lemma KeyNames()
    ensures BUTTON_MAPPING["ok"] == Keypress("Select")
    ensures BUTTON_MAPPING["replay"] == Keypress("InstantReplay")
    ensures BUTTON_MAPPING["previous"] == Keypress("Rev") && BUTTON_MAPPING["next"] == Keypress("Fwd")
    ensures BUTTON_MAPPING["power"] == PowerToggle
    ensures BUTTON_MAPPING["back"] == Keypress("Back") && BUTTON_MAPPING["home"] == Keypress("Home")
    ensures BUTTON_MAPPING["up"] == Keypress("Up") && BUTTON_MAPPING["down"] == Keypress("Down")
    ensures BUTTON_MAPPING["left"] == Keypress("Left") && BUTTON_MAPPING["right"] == Keypress("Right")
    ensures BUTTON_MAPPING["info"] == Keypress("Info") && BUTTON_MAPPING["play"] == Keypress("Play")
    ensures BUTTON_MAPPING["vol_down"] == Keypress("VolumeDown") && BUTTON_MAPPING["vol_up"] == Keypress("VolumeUp")
    ensures BUTTON_MAPPING["vol_mute"] == Keypress("VolumeMute")
    ensures forall b | b in BUTTON_MAPPING && b != "power" :: BUTTON_MAPPING[b].Keypress?
    ensures forall b | b in BUTTON_MAPPING :: !BUTTON_MAPPING[b].Launch?
    ensures BUTTON_MAPPING.Keys == {"back", "home", "up", "left", "ok", "right", "down", "replay", "info",
                                    "previous", "play", "next", "power", "vol_down", "vol_up", "vol_mute"}
  {
  }

  /** The four corners and the spacer of the shipped layout get no handler. */
  lemma CornersUnbound()
    ensures Binding("top_left_corner") == None && Binding("top_right_corner") == None
    ensures Binding("bottom_left_corner") == None && Binding("bottom_right_corner") == None
    ensures Binding("spacer_button_1_of_2") == None
  {
    assert "top_left_corner"[0] == 't' && "top_right_corner"[0] == 't';
    assert "bottom_left_corner"[0] == 'b' && "bottom_right_corner"[0] == 'b';
    assert "spacer_button_1_of_2"[0] == 's';
  }

  /** Elements of the shipped layout: an app button, the four corners and the
      spacer (no handler), a key button and the power button. */
  lemma BindingExamples()
    ensures Binding("app_Plex") == Some(Launch("Plex"))
    ensures Binding("top_left_corner") == None && Binding("top_right_corner") == None
    ensures Binding("bottom_left_corner") == None && Binding("bottom_right_corner") == None
    ensures Binding("spacer_button_1_of_2") == None
    ensures Binding("ok") == Some(Keypress("Select"))
    ensures Binding("power") == Some(PowerToggle)
  {
    AppButtonLaunches("Plex", "");
    CornersUnbound();
    MappedButtonsBind("ok");
    MappedButtonsBind("power");
  }
}
