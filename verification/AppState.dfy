/**
 * The application's view state: a tracker of the synthesizer's global settings,
 * fed with every decoded message, and two wrap-around cursors for the on-screen
 * list and tabs.
 */
module AppState {
  import opened Bytes
  import opened Protocol

  // ---------------------------------------------------------------------------
  // Settings tracker
  // ---------------------------------------------------------------------------

  /** The settings the tracker keeps; only the paraphonic flag is ever written. */
  datatype GlobalSettingsState = GlobalSettingsState(deviceId: Byte, paraphonicMode: bool, oscSync: bool)

  /** The all-zero state a new tracker starts from. */
  const DefaultSettings: GlobalSettingsState := GlobalSettingsState(0, false, false)

  /** A toggle read as a flag: On is set, Off is clear. */
  function IsOn(t: ToggleOption): (b: bool)
    ensures b <==> ToggleOptionByte(t) == 0x01
  {
    t == On
  }

  /** The tracked settings after one catalogue entry: paraphonic mode is recorded, every other entry is ignored. */
  function SettingApplied(s: GlobalSettingsState, g: GlobalSetting): (r: GlobalSettingsState)
    ensures r.deviceId == s.deviceId && r.oscSync == s.oscSync
    ensures r.paraphonicMode == (if g.ParaphonicMode? then IsOn(g.toggle) else s.paraphonicMode)
  {
    match g
    case ParaphonicMode(t) => s.(paraphonicMode := IsOn(t))
    case _ => s
  }

  /** The setting a message carries, whichever direction it travels. */
  function CarriedSetting(m: NeutronMessage): Option<GlobalSetting>
  {
    match m
    case SetGlobalSetting(_, g) => Some(g)
    case GlobalSettingUpdate(_, g) => Some(g)
    case _ => None
  }

  /** The tracked settings after one message: sent and acknowledged settings count alike, other kinds are ignored. */
  function MessageApplied(s: GlobalSettingsState, m: NeutronMessage): (r: GlobalSettingsState)
    ensures CarriedSetting(m).None? ==> r == s
    ensures CarriedSetting(m).Some? ==> r == SettingApplied(s, CarriedSetting(m).value)
  {
    match m
    case SetGlobalSetting(_, g) => SettingApplied(s, g)
    case GlobalSettingUpdate(_, g) => SettingApplied(s, g)
    case _ => s
  }

  /** The tracker as the application holds it, updated in place. */
  class NeutronState {
    var globalSettings: GlobalSettingsState

    constructor ()
      ensures globalSettings == DefaultSettings
    {
      globalSettings := DefaultSettings;
    }

    method GlobalSettingUpdate(g: GlobalSetting)
      modifies this
      ensures globalSettings == SettingApplied(old(globalSettings), g)
    {
      match g {
        case ParaphonicMode(t) =>
          globalSettings := globalSettings.(paraphonicMode := IsOn(t));
        case _ =>
      }
    }

    method Update(m: NeutronMessage)
      modifies this
      ensures globalSettings == MessageApplied(old(globalSettings), m)
    {
      match m {
        case SetGlobalSetting(_, g) => GlobalSettingUpdate(g);
        case GlobalSettingUpdate(_, g) => GlobalSettingUpdate(g);
        case RestoreGlobalSetting(_) =>
        case CalibrationModeCommand(_) =>
        case SoftwareVersionRequest(_) =>
        case SoftwareVersionResponse(_, _) =>
      }
    }
  }

  /** The tracked settings after a whole stream of messages, in arrival order. */
  function AllApplied(s: GlobalSettingsState, ms: seq<NeutronMessage>): GlobalSettingsState
    decreases |ms|
  {
    if ms == [] then s else MessageApplied(AllApplied(s, ms[..|ms| - 1]), ms[|ms| - 1])
  }

  /** The paraphonic flag of the last message in `ms` that carries one, or `initial` if none does. */
  function LastParaphonic(initial: bool, ms: seq<NeutronMessage>): bool
    decreases |ms|
  {
    if ms == [] then initial
    else
      var m := ms[|ms| - 1];
      if CarriedSetting(m).Some? && CarriedSetting(m).value.ParaphonicMode? then IsOn(CarriedSetting(m).value.toggle)
      else LastParaphonic(initial, ms[..|ms| - 1])
  }

  /** The tracker holds the last paraphonic flag it saw and never changes its other fields. */
  lemma {:induction false} AllAppliedTracksParaphonic(s: GlobalSettingsState, ms: seq<NeutronMessage>)
    ensures AllApplied(s, ms).paraphonicMode == LastParaphonic(s.paraphonicMode, ms)
    ensures AllApplied(s, ms).deviceId == s.deviceId && AllApplied(s, ms).oscSync == s.oscSync
    decreases |ms|
  {
    if ms != [] {
      AllAppliedTracksParaphonic(s, ms[..|ms| - 1]);
    }
  }

  /** Applying the same message twice records nothing more than applying it once. */
  lemma MessageAppliedIdempotent(s: GlobalSettingsState, m: NeutronMessage)
    ensures MessageApplied(MessageApplied(s, m), m) == MessageApplied(s, m)
  {
  }

  /** The tracker's own scenario: clear at first, set by a sent On, cleared by an acknowledged Off. */
  method ParaphonicModeIsUpdated() returns (observed: seq<bool>)
    ensures observed == [false, true, false]
  {
    var ns := new NeutronState();
    observed := [ns.globalSettings.paraphonicMode];
    ns.Update(SetGlobalSetting(DeviceId.Channel(1), ParaphonicMode(On)));
    observed := observed + [ns.globalSettings.paraphonicMode];
    ns.Update(GlobalSettingUpdate(DeviceId.Channel(1), ParaphonicMode(ToggleOption.Off)));
    observed := observed + [ns.globalSettings.paraphonicMode];
  }

  // ---------------------------------------------------------------------------
  // Wrap-around cursors
  // ---------------------------------------------------------------------------

  /** One step forward through `n` positions, wrapping from the last to the first. */
  function NextIndex(i: nat, n: nat): (j: nat)
    requires n > 0
    ensures j < n
    ensures i < n ==> (if i == n - 1 then j == 0 else j == i + 1)
  {
    (i + 1) % n
  }

  /** One step back through `n` positions, wrapping from the first to the last. */
  function PreviousIndex(i: nat, n: nat): (j: nat)
    requires i == 0 ==> n > 0
    ensures i < n ==> j < n
    ensures i == 0 ==> j == n - 1
    ensures i > 0 ==> j + 1 == i
  {
    if i == 0 then n - 1 else i - 1
  }

  /** A step back undoes a step forward. */
  lemma PreviousUndoesNext(i: nat, n: nat)
    requires i < n
    ensures PreviousIndex(NextIndex(i, n), n) == i
  {
  }

  /** A step forward undoes a step back. */
  lemma NextUndoesPrevious(i: nat, n: nat)
    requires i < n
    ensures NextIndex(PreviousIndex(i, n), n) == i
  {
  }

  /** `k` steps forward from a position inside the range. */
  function StepsForward(i: nat, n: nat, k: nat): (j: nat)
    requires i < n
    ensures j < n
    decreases k
  {
    if k == 0 then i else NextIndex(StepsForward(i, n, k - 1), n)
  }

  /** Up to `n` steps forward move `k` places, wrapping past the end once: the cursor cycles. */
  lemma {:induction false} StepsForwardWraps(i: nat, n: nat, k: nat)
    requires i < n && k <= n
    ensures StepsForward(i, n, k) == if i + k < n then i + k else i + k - n
    decreases k
  {
    if k > 0 {
      StepsForwardWraps(i, n, k - 1);
    }
  }

  /** The on-screen list and its selected position. */
  class ListState<T> {
    var items: seq<T>
    var selection: nat

    constructor (items: seq<T>)
      ensures this.items == items && selection == 0
    {
      this.items := items;
      selection := 0;
    }

    /** The remainder by the length fails on an empty list. */
    method SelectNext()
      requires |items| > 0
      modifies this
      ensures items == old(items) && selection == NextIndex(old(selection), |old(items)|)
    {
      selection := (selection + 1) % |items|;
    }

    /** Only the wrap from the first position needs a non-empty list. */
    method SelectPrevious()
      requires selection == 0 ==> |items| > 0
      modifies this
      ensures items == old(items) && selection == PreviousIndex(old(selection), |old(items)|)
    {
      if selection == 0 {
        selection := |items| - 1;
      } else {
        selection := selection - 1;
      }
    }
  }

  /** The tab bar and its active tab. */
  class TabsState {
    var titles: seq<string>
    var index: nat

    constructor (titles: seq<string>)
      ensures this.titles == titles && index == 0
    {
      this.titles := titles;
      index := 0;
    }

    method Next()
      requires |titles| > 0
      modifies this
      ensures titles == old(titles) && index == NextIndex(old(index), |old(titles)|)
    {
      index := (index + 1) % |titles|;
    }

    method Previous()
      requires index == 0 ==> |titles| > 0
      modifies this
      ensures titles == old(titles) && index == PreviousIndex(old(index), |old(titles)|)
    {
      if index > 0 {
        index := index - 1;
      } else {
        index := |titles| - 1;
      }
    }
  }
}
