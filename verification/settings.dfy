/**
 * The settings store of GhostWriter: the five recognised options, their
 * defaults, the merge of a parsed settings file over the current settings,
 * and the paste-delay choices offered by the settings window.
 */
module Settings {
  import opened Wrappers

  /** A value of a parsed JSON settings file. */
  datatype Value =
    | Null
    | Bool(b: bool)
    | Num(r: real)
    | Str(s: string)
    | Arr(items: seq<Value>)
    | Obj(fields: map<string, Value>)

  /** The recognised option names, in the order the merge visits them. */
  const DefaultKeys: seq<string> :=
    ["hotkey", "sound_enabled", "paste_delay", "start_minimized", "run_on_startup"]

  const DefaultSettings: map<string, Value> := map[
    "hotkey" := Str("F8"),
    "sound_enabled" := Bool(true),
    "paste_delay" := Num(0.15),
    "start_minimized" := Bool(false),
    "run_on_startup" := Bool(false)
  ]

  /** The labelled paste-delay choices of the settings window, in seconds. */
  const PasteDelayOptions: seq<(string, real)> := [
    ("Fast (0.05s)", 0.05),
    ("Normal (0.10s)", 0.10),
    ("Default (0.15s)", 0.15),
    ("Slow (0.25s)", 0.25),
    ("Very Slow (0.50s)", 0.50)
  ]

  /** Python's `dict.get(key, default)`. */
  function Get(m: map<string, Value>, key: string, default: Value): Value {
    if key in m then m[key] else default
  }

  /** Python truthiness of a JSON value. */
  predicate Truthy(v: Value) {
    match v
    case Null => false
    case Bool(b) => b
    case Num(r) => r != 0.0
    case Str(s) => s != ""
    case Arr(items) => items != []
    case Obj(fields) => fields != map[]
  }

  /**
   * The settings after visiting `keys` in order and, for each key present in
   * the parsed file, copying the parsed value over the current one. Keys of
   * the file that are not visited never enter the result.
   */
  function Overlay(current: map<string, Value>, parsed: map<string, Value>, keys: seq<string>): map<string, Value>
    decreases |keys|
  {
    if keys == [] then current
    else
      var prev := Overlay(current, parsed, keys[..|keys| - 1]);
      var last := keys[|keys| - 1];
      if last in parsed then prev[last := parsed[last]] else prev
  }

  /**
   * A key is in the overlaid settings when it was already there or is a
   * visited key of the file; it holds the file's value for a visited key the
   * file has, and its old value otherwise.
   */
  lemma {:induction false} OverlayContents(current: map<string, Value>, parsed: map<string, Value>, keys: seq<string>)
    ensures forall k :: k in Overlay(current, parsed, keys) <==> k in current || (k in keys && k in parsed)
    ensures forall k :: k in Overlay(current, parsed, keys) ==>
      Overlay(current, parsed, keys)[k] == if k in keys && k in parsed then parsed[k] else current[k]
    decreases |keys|
  {
    if keys != [] {
      var init := keys[..|keys| - 1];
      assert keys == init + [keys[|keys| - 1]];
      OverlayContents(current, parsed, init);
    }
  }

  /** The settings the application starts with: the defaults, overlaid with the parsed file if one was read. */
  function Loaded(parsed: Option<map<string, Value>>): map<string, Value> {
    match parsed
    case None => DefaultSettings
    case Some(p) => Overlay(DefaultSettings, p, DefaultKeys)
  }

  /**
   * Loading over the defaults yields exactly the recognised keys; each holds
   * the file's value when the file has one and the default otherwise.
   */
  lemma LoadedHasExactlyDefaultKeys(parsed: Option<map<string, Value>>)
    ensures Loaded(parsed).Keys == DefaultSettings.Keys
    ensures forall k :: k in DefaultSettings ==>
      Loaded(parsed)[k] == if parsed.Some? && k in parsed.value then parsed.value[k] else DefaultSettings[k]
  {
    if parsed.Some? {
      OverlayContents(DefaultSettings, parsed.value, DefaultKeys);
    }
    assert forall k :: k in DefaultKeys <==> k in DefaultSettings;
  }

  /** Reading back a file that was saved from a complete settings map restores that map. */
  lemma ReloadSavedSettings(current: map<string, Value>, saved: map<string, Value>)
    requires current.Keys == DefaultSettings.Keys
    requires saved.Keys == DefaultSettings.Keys
    ensures Overlay(current, saved, DefaultKeys) == saved
  {
    OverlayContents(current, saved, DefaultKeys);
    assert forall k :: k in DefaultKeys <==> k in DefaultSettings;
  }

  /** Loading the same file twice gives what loading it once gives. */
  lemma OverlayIdempotent(current: map<string, Value>, parsed: map<string, Value>, keys: seq<string>)
    ensures Overlay(Overlay(current, parsed, keys), parsed, keys) == Overlay(current, parsed, keys)
  {
    OverlayContents(current, parsed, keys);
    OverlayContents(Overlay(current, parsed, keys), parsed, keys);
  }

  /**
   * The value paired with the first option labelled `selected`, or None when no
   * option carries that label.
   */
  function DelayFor(options: seq<(string, real)>, selected: string): (r: Option<real>)
    ensures r.None? <==> forall i :: 0 <= i < |options| ==> options[i].0 != selected
    ensures r.Some? ==> exists i :: 0 <= i < |options| && options[i] == (selected, r.value) &&
                         forall j :: 0 <= j < i ==> options[j].0 != selected
  {
    if options == [] then None
    else if options[0].0 == selected then Some(options[0].1)
    else DelayFor(options[1..], selected)
  }

  /** Every label offered by the settings window selects its own delay. */
  lemma EveryDelayLabelSelectsItsValue(i: nat)
    requires i < |PasteDelayOptions|
    ensures DelayFor(PasteDelayOptions, PasteDelayOptions[i].0) == Some(PasteDelayOptions[i].1)
  {
  }
}
