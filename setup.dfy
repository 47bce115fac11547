/** The first-run setup wizard of ui/setup.go: a five-step state machine
    (provider, API key, location, saving, done). The text-input widgets are
    reduced to their value, focus and character limit; geocoding and the
    configuration write are commands whose results come back as messages. */
module Setup {
  import opened Wrappers
  import opened UiText

  datatype Step = SelectProvider | ApiKeyEntry | LocationEntry | Saving | Done

  const Providers: seq<string> := ["groq", "openai", "deepseek", "gemini", "claude", "local"]

  /** The key types the wizard distinguishes; `Runes` is typed text, every
      other key is `OtherKey`. */
  datatype Key = Up | ShiftTab | Down | Tab | Enter | Esc | Backspace | Runes(text: string) | OtherKey

  /** The geocoder and the configuration writer report an error text or success. */
  datatype SetupMsg =
    | WindowSize(width: int, height: int)
    | KeyPress(key: Key)
    | SpinnerTick
    | GeocodeResult(lat: real, lon: real, geoErr: Option<string>)
    | SaveResult(saveErr: Option<string>)

  /** The configuration doSave writes. */
  datatype Config = Config(
    provider: string,
    apiKey: string,
    city: string,
    country: string,
    latitude: real,
    longitude: real,
    refreshSec: int,
    briefCacheMins: int,
    cryptoPairs: seq<string>)

  /** Commands returned to the runtime. `InputCursor` and `SpinnerFrame` stand
      for the widget commands the text inputs and the spinner return. */
  datatype SetupCmd = Geocode(city: string, country: string) | SaveConfig(cfg: Config) | Quit | InputCursor | SpinnerFrame

  /** A text input: its value, whether it has focus, and its character limit
      (0 for none). */
  datatype TextInput = TextInput(value: string, focused: bool, charLimit: nat)

  /** textinput.Update reduced to appending and deleting at the end of the
      value; an unfocused input ignores every key. */
  function EditInput(t: TextInput, k: Key): (r: TextInput)
    ensures r.focused == t.focused && r.charLimit == t.charLimit
    ensures !t.focused ==> r == t
    ensures t.charLimit > 0 && |t.value| <= t.charLimit ==> |r.value| <= t.charLimit
  {
    if !t.focused then t
    else match k
      case Runes(text) =>
        if t.charLimit == 0 then t.(value := t.value + text)
        else if |t.value| >= t.charLimit then t
        else
          var room := t.charLimit - |t.value|;
          t.(value := t.value + (if |text| <= room then text else text[..room]))
      case Backspace => if |t.value| == 0 then t else t.(value := t.value[..|t.value| - 1])
      case _ => t
  }

  /** Typing into a focused, unlimited input appends the text. */
  lemma TypingAppends(t: TextInput, text: string)
    requires t.focused && t.charLimit == 0
    ensures EditInput(t, Runes(text)).value == t.value + text
  {
  }

  datatype SetupState = SetupState(
    step: Step,
    selectedIdx: int,
    apiKeyInput: TextInput,
    cityInput: TextInput,
    countryInput: TextInput,
    geocoding: bool,
    saving: bool,
    err: string,
    width: int,
    height: int,
    apiKeyWidth: int,
    cityWidth: int,
    countryWidth: int)

  /** NewSetupModel: provider step, first provider, API-key and city inputs
      focused, a two-character country input. */
  const Initial: SetupState := SetupState(
    SelectProvider, 0,
    TextInput("", true, 0), TextInput("", true, 0), TextInput("", false, 2),
    false, false, "", 0, 0, 0, 0, 0)

  /** What every reachable state keeps: a provider index in range and a
      country code within its limit. */
  predicate ValidState(s: SetupState) {
    && 0 <= s.selectedIdx < |Providers|
    && s.countryInput.charLimit == 2
    && |s.countryInput.value| <= 2
  }

  /** The configuration doSave writes from the wizard state and the
      coordinates. */
  function ConfigOf(s: SetupState, lat: real, lon: real): Config
    requires 0 <= s.selectedIdx < |Providers|
  {
    Config(Providers[s.selectedIdx], s.apiKeyInput.value, s.cityInput.value, s.countryInput.value,
           lat, lon, 120, 60, ["bitcoin", "ethereum", "dogecoin", "usd-coin"])
  }

  datatype Transition = Transition(state: SetupState, cmds: seq<SetupCmd>)

  /** The inner key switch, per step. */
  function StepKey(s: SetupState, k: Key): Transition
    requires ValidState(s) && s.step != Done
  {
    match s.step
      case SelectProvider =>
        if k == Up || k == ShiftTab then
          Transition(s.(selectedIdx := (s.selectedIdx - 1 + |Providers|) % |Providers|), [])
        else if k == Down || k == Tab then
          Transition(s.(selectedIdx := (s.selectedIdx + 1) % |Providers|), [])
        else if k == Enter then Transition(s.(step := ApiKeyEntry), [])
        else Transition(s, [])
      case ApiKeyEntry =>
        if k == Enter then
          if s.apiKeyInput.value != "" then Transition(s.(step := LocationEntry), []) else Transition(s, [])
        else Transition(s.(apiKeyInput := EditInput(s.apiKeyInput, k)), [InputCursor])
      case LocationEntry =>
        if k == Enter then
          if s.cityInput.value != "" && s.countryInput.value != "" then
            Transition(s.(step := Saving, geocoding := true), [Geocode(s.cityInput.value, s.countryInput.value)])
          else Transition(s, [])
        else if k == Tab then
          Transition(s.(cityInput := s.cityInput.(focused := false), countryInput := s.countryInput.(focused := true)), [])
        else
          Transition(s.(cityInput := EditInput(s.cityInput, k), countryInput := EditInput(s.countryInput, k)),
                     [InputCursor, InputCursor])
      case Saving =>
        if k == Enter && s.err != "" then Transition(s.(step := LocationEntry, err := ""), []) else Transition(s, [])
  }

  /** SetupModel.Update. */
  function Next(s: SetupState, msg: SetupMsg): Transition
    requires ValidState(s)
  {
    match msg
      case WindowSize(w, h) =>
        Transition(s.(width := w, height := h, apiKeyWidth := MinInt(50, w - 20),
                      cityWidth := MinInt(30, w - 20), countryWidth := 4), [])
      case KeyPress(k) =>
        if s.step == Done then Transition(s, [Quit])
        else
          var t := StepKey(s, k);
          if k == Esc then Transition(t.state, [Quit]) else t
      case SpinnerTick => Transition(s, [SpinnerFrame])
      case GeocodeResult(lat, lon, geoErr) =>
        var s1 := s.(geocoding := false);
        if geoErr.Some? then Transition(s1.(err := geoErr.value), [])
        else
          var s2 := s1.(saving := true);
          Transition(s2, [SaveConfig(ConfigOf(s2, lat, lon))])
      case SaveResult(saveErr) =>
        var s1 := s.(saving := false);
        if saveErr.Some? then Transition(s1.(err := saveErr.value), []) else Transition(s1.(step := Done), [])
  }

  // ---------------------------------------------------------------------------
  // Properties of the step machine
  // ---------------------------------------------------------------------------

  lemma InitialIsValid()
    ensures ValidState(Initial)
  {
  }

  /** Every message keeps the provider index in [0, 6) and the country code
      within two characters. */
  lemma NextKeepsValid(s: SetupState, msg: SetupMsg)
    requires ValidState(s)
    ensures ValidState(Next(s, msg).state)
  {
    if msg.KeyPress? && s.step == LocationEntry {
      var k := msg.key;
      if k != Enter && k != Tab {
        assert EditInput(s.countryInput, k).charLimit == 2;
      }
    }
  }

  /** Up/Shift-Tab and Down/Tab cycle the provider modulo 6; Enter moves to the
      API-key step; nothing else changes. */
  lemma ProviderStep(s: SetupState, k: Key)
    requires ValidState(s) && s.step == SelectProvider
    ensures k == Up || k == ShiftTab ==> Next(s, KeyPress(k)) == Transition(s.(selectedIdx := (s.selectedIdx + 5) % 6), [])
    ensures k == Down || k == Tab ==> Next(s, KeyPress(k)) == Transition(s.(selectedIdx := (s.selectedIdx + 1) % 6), [])
    ensures k == Enter ==> Next(s, KeyPress(k)) == Transition(s.(step := ApiKeyEntry), [])
  {
  }

  /** Enter leaves the API-key step exactly when a key was typed. */
  lemma ApiKeyGate(s: SetupState)
    requires ValidState(s) && s.step == ApiKeyEntry
    ensures Next(s, KeyPress(Enter)).state.step == LocationEntry <==> s.apiKeyInput.value != ""
    ensures s.apiKeyInput.value == "" ==> Next(s, KeyPress(Enter)) == Transition(s, [])
  {
  }

  /** Enter leaves the location step exactly when city and country are both
      filled in, and then starts geocoding them. */
  lemma LocationGate(s: SetupState)
    requires ValidState(s) && s.step == LocationEntry
    ensures Next(s, KeyPress(Enter)).state.step == Saving <==> s.cityInput.value != "" && s.countryInput.value != ""
    ensures Next(s, KeyPress(Enter)).state.step == Saving ==>
      Next(s, KeyPress(Enter)).state.geocoding
      && Next(s, KeyPress(Enter)).cmds == [Geocode(s.cityInput.value, s.countryInput.value)]
    ensures Next(s, KeyPress(Enter)).state.step != Saving ==> Next(s, KeyPress(Enter)) == Transition(s, [])
  {
  }

  /** A geocode result ends geocoding; success starts the save with the
      coordinates, failure records the error text. */
  lemma GeocodeOutcome(s: SetupState, lat: real, lon: real, geoErr: Option<string>)
    requires ValidState(s)
    ensures !Next(s, GeocodeResult(lat, lon, geoErr)).state.geocoding
    ensures geoErr.Some? ==> Next(s, GeocodeResult(lat, lon, geoErr)) == Transition(s.(geocoding := false, err := geoErr.value), [])
    ensures geoErr.None? ==> Next(s, GeocodeResult(lat, lon, geoErr)).state.saving
    ensures geoErr.None? ==> Next(s, GeocodeResult(lat, lon, geoErr)).cmds == [SaveConfig(ConfigOf(s, lat, lon))]
  {
  }

  /** A save result ends saving; success finishes the wizard, failure records
      the error text and keeps the step. */
  lemma SaveOutcome(s: SetupState, saveErr: Option<string>)
    requires ValidState(s)
    ensures !Next(s, SaveResult(saveErr)).state.saving
    ensures saveErr.None? ==> Next(s, SaveResult(saveErr)) == Transition(s.(saving := false, step := Done), [])
    ensures saveErr.Some? ==> Next(s, SaveResult(saveErr)) == Transition(s.(saving := false, err := saveErr.value), [])
  {
  }

  /** Enter while a saving error is shown goes back to the location step and
      clears the error; without an error Enter changes nothing. */
  lemma SavingRetry(s: SetupState)
    requires ValidState(s) && s.step == Saving
    ensures s.err != "" ==> Next(s, KeyPress(Enter)) == Transition(s.(step := LocationEntry, err := ""), [])
    ensures s.err == "" ==> Next(s, KeyPress(Enter)) == Transition(s, [])
  {
  }

  /** Esc quits from every step, and in the done step every key quits without
      changing the state. */
  lemma EscQuits(s: SetupState, k: Key)
    requires ValidState(s)
    ensures Next(s, KeyPress(Esc)).cmds == [Quit]
    ensures s.step == Done ==> Next(s, KeyPress(k)) == Transition(s, [Quit])
  {
  }

  /** The step moves only along the wizard: forward by one, back from saving to
      location, or to done on a successful save. */
  lemma StepOrder(s: SetupState, msg: SetupMsg)
    requires ValidState(s)
    ensures var s' := Next(s, msg).state;
      || s'.step == s.step
      || (s.step == SelectProvider && s'.step == ApiKeyEntry)
      || (s.step == ApiKeyEntry && s'.step == LocationEntry)
      || (s.step == LocationEntry && s'.step == Saving)
      || (s.step == Saving && s'.step == LocationEntry)
      || (msg.SaveResult? && s'.step == Done)
  {
  }

  // ---------------------------------------------------------------------------
  // The wizard as the Go value it updates
  // ---------------------------------------------------------------------------

  class SetupWizard {
    var step: Step
    var selectedIdx: int
    var apiKeyInput: TextInput
    var cityInput: TextInput
    var countryInput: TextInput
    var geocoding: bool
    var saving: bool
    var err: string
    var width: int
    var height: int
    var apiKeyWidth: int
    var cityWidth: int
    var countryWidth: int

    function State(): SetupState
      reads this
    {
      SetupState(step, selectedIdx, apiKeyInput, cityInput, countryInput, geocoding, saving, err,
                 width, height, apiKeyWidth, cityWidth, countryWidth)
    }

    predicate Valid()
      reads this
    {
      ValidState(State())
    }

    /** NewSetupModel. */
    constructor ()
      ensures State() == Initial && Valid()
    {
      step := SelectProvider;
      selectedIdx := 0;
      apiKeyInput := TextInput("", true, 0);
      cityInput := TextInput("", true, 0);
      countryInput := TextInput("", false, 2);
      geocoding, saving, err := false, false, "";
      width, height, apiKeyWidth, cityWidth, countryWidth := 0, 0, 0, 0, 0;
    }

    /** The key switch of Update for a step other than done. */
    method DispatchKey(k: Key) returns (cmds: seq<SetupCmd>)
      requires Valid() && step != Done
      modifies this
      ensures Transition(State(), cmds) == StepKey(old(State()), k)
    {
      cmds := [];
      match step
      case SelectProvider =>
        if k == Up || k == ShiftTab {
          selectedIdx := (selectedIdx - 1 + |Providers|) % |Providers|;
        } else if k == Down || k == Tab {
          selectedIdx := (selectedIdx + 1) % |Providers|;
        } else if k == Enter {
          step := ApiKeyEntry;
        }
      case ApiKeyEntry =>
        if k == Enter {
          if apiKeyInput.value != "" {
            step := LocationEntry;
          }
        } else {
          apiKeyInput := EditInput(apiKeyInput, k);
          cmds := cmds + [InputCursor];
        }
      case LocationEntry =>
        if k == Enter {
          if cityInput.value != "" && countryInput.value != "" {
            step := Saving;
            geocoding := true;
            cmds := cmds + [Geocode(cityInput.value, countryInput.value)];
          }
        } else if k == Tab {
          cityInput := cityInput.(focused := false);
          countryInput := countryInput.(focused := true);
        } else {
          cityInput := EditInput(cityInput, k);
          countryInput := EditInput(countryInput, k);
          cmds := cmds + [InputCursor, InputCursor];
        }
      case Saving =>
        if k == Enter && err != "" {
          step := LocationEntry;
          err := "";
        }
    }

    /** The geocodeResultMsg case of Update. */
    method GeocodeDone(lat: real, lon: real, geoErr: Option<string>) returns (cmds: seq<SetupCmd>)
      requires Valid()
      modifies this
      ensures Transition(State(), cmds) == Next(old(State()), GeocodeResult(lat, lon, geoErr))
    {
      cmds := [];
      geocoding := false;
      if geoErr.Some? {
        err := geoErr.value;
      } else {
        saving := true;
        cmds := cmds + [SaveConfig(ConfigOf(State(), lat, lon))];
      }
    }

    /** The saveResultMsg case of Update. */
    method SaveDone(saveErr: Option<string>) returns (cmds: seq<SetupCmd>)
      requires Valid()
      modifies this
      ensures Transition(State(), cmds) == Next(old(State()), SaveResult(saveErr))
    {
      cmds := [];
      saving := false;
      if saveErr.Some? {
        err := saveErr.value;
      } else {
        step := Done;
      }
    }

    /** SetupModel.Update: applies one message and returns the commands. */
    method Update(msg: SetupMsg) returns (cmds: seq<SetupCmd>)
      requires Valid()
      modifies this
      ensures Transition(State(), cmds) == Next(old(State()), msg)
      ensures Valid()
    {
      NextKeepsValid(State(), msg);
      cmds := [];
      match msg
      case WindowSize(w, h) =>
        width, height := w, h;
        apiKeyWidth := MinInt(50, w - 20);
        cityWidth := MinInt(30, w - 20);
        countryWidth := 4;
      case KeyPress(k) =>
        if step == Done {
          return [Quit];
        }
        cmds := DispatchKey(k);
        if k == Esc {
          return [Quit];
        }
      case SpinnerTick =>
        cmds := cmds + [SpinnerFrame];
      case GeocodeResult(lat, lon, geoErr) =>
        cmds := GeocodeDone(lat, lon, geoErr);
      case SaveResult(saveErr) =>
        cmds := SaveDone(saveErr);
    }
  }
}
