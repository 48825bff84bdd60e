# Hotkey state of the PowerUtilities renderer, modelled in Dafny

This project models the two renderer hooks that hold hotkey state in the desktop utility:

- **Capture session** (`src/renderer/src/hooks/useCaptureHotkey.js`, module `CaptureHotkey`).
  While the session is active, each keydown becomes an accelerator string. The modifier
  tokens come in the fixed order `Ctrl`, `Alt`, `Shift`, `Super`, followed by one base-key
  token (the normalised DOM key name), and they are joined with `+`. A bare modifier key
  completes no chord. Each complete chord replaces the previous one. `clear` empties the
  value. The class `CaptureSession` holds `accel` and `active`. `NormalizeKey`,
  `ModifierTokens` and `ChordOf` are the pure parts. `KeyDown` builds the token list step
  by step, as the handler does, and is proved against `ChordOf`.
- **Hotkey configuration** (`src/renderer/src/hooks/useHotkeys.js`, module `Hotkeys`).
  The class `HotkeyState` holds the objects `hotkeys` (action to accelerator) and `enabled`
  (action to flag), the `remoteLoaded` gate, and the memoised `defaults`/`defaultEnabled`
  that `reset` returns to. Its methods are `Load` (the mount effect that reads the host's
  stored record), `SetHotkey`, `ToggleEnabled`, `Reset` and `PersistEffect` (the body of
  the effect that writes `{ hotkeys, enabled }` back). Each map update is stated through a
  pure function (`Defaults`, `Loaded`, `Toggled`, `ResetConfig`) whose properties are
  proved as lemmas. `Valid()` says that all six actions (`shortcuts`, `windows`,
  `palette`, `capture`, `search`, `monitor`) always have an accelerator entry and a flag
  entry. Every method preserves it.

Entries of `hotkeys` and `enabled` are JavaScript values (`JsValues.Value`), not strings
and booleans. Neither the remote record nor the caller's arguments are type-checked. A
legacy record is merged whole, so its `enabled` object becomes an accelerator entry.
`toggleEnabled` negates whatever value is stored, using JavaScript truthiness. The module
`JsValues` gives the few JavaScript operations the hooks rely on: truthiness,
`typeof v === 'object'`, reading a data property, `a || b`, default parameters and object
spread (for arrays and strings, under decimal index keys).

The host bridge `window.hotkeys` is a parameter (`HostApi`: whether `get` and `set`
exist). The settled promise of `get()` is the argument of `Load` (`GetOutcome`). The
window preload (`src/preload/index.js:5`) defines no `hotkeys` bridge today, so
`HostApi(false, false)` is the configuration that runs.

Facts about the code that the model keeps:

- The handler emits `Ctrl` for the control modifier (`CtrlShiftK`).
- Deactivating the session only detaches the listener; `accel` is kept (`SetActive`).
- The default accelerators such as `SUPER + K` are stored verbatim, with no normalisation.

Observations that follow from the code as written (lemmas, not corrections):

- Pressing the `+` key with Shift gives `Shift++`. That string no longer splits into one
  modifier and one base-key token (`PlusKeyChord`, `PlusChordSplit`).
- The key name `Arrow` alone would leave an empty base-key token (`BareArrowChord`). No
  real key has that name, so the handler never receives this input.
- The comments at `src/renderer/src/hooks/useHotkeys.js:7` and `:84` say that the hook
  does not overwrite the stored shortcuts before loading them, and that after a failed
  load nothing is persisted until the user changes something. On a failed load the code keeps neither promise.
  The `.catch` handler opens the gate (`:85`), and the gate is a dependency of the
  persistence effect (`:121`). So when `get()` rejects and `set` exists, the defaults are
  written over the stored record with no user edit (`FailedLoadOverwritesStore`).

## Model

| member | source | states |
|---|---|---|
| CaptureHotkey.ToUpper | src/renderer/src/hooks/useCaptureHotkey.js:7 | a lower-case ASCII letter becomes its upper-case letter; every other character is unchanged |
| CaptureHotkey.NormalizeKey | src/renderer/src/hooks/useCaptureHotkey.js:3-9 | `' '` gives `Space`; a key starting with `Arrow` is that prefix plus the result; any other single character gives one upper-case character; any other key is returned unchanged |
| CaptureHotkey.NormalizeKeyFixedPoint | src/renderer/src/hooks/useCaptureHotkey.js:3-9 | normalising twice equals normalising once, for every key not starting with `Arrow` and for the four arrow keys |
| CaptureHotkey.BareModifierExactly | src/renderer/src/hooks/useCaptureHotkey.js:26-27 | a key normalises to `Control`/`Shift`/`Alt`/`Meta` exactly when it is one of them, or one of them behind an `Arrow` prefix |
| CaptureHotkey.ModifierTokens | src/renderer/src/hooks/useCaptureHotkey.js:21-25 | every token is a modifier; each of `Ctrl`, `Alt`, `Shift`, `Super` is present exactly when its flag is set; tokens are strictly ordered Ctrl < Alt < Shift < Super, so none repeats |
| CaptureHotkey.IsBareModifier | src/renderer/src/hooks/useCaptureHotkey.js:27 | the four modifier key names are at least three characters long and pass through `NormalizeKey` unchanged, so the check after normalisation still sees them |
| CaptureHotkey.Join | src/renderer/src/hooks/useCaptureHotkey.js:29 | `join` of no parts is empty; the result starts with the first part, followed by the separator when there are more parts |
| CaptureHotkey.ChordOf | src/renderer/src/hooks/useCaptureHotkey.js:19-31 | no accelerator exactly for a bare modifier key; otherwise the accelerator is the modifier tokens and the normalised key joined with `+`, and when the base key holds no `+` it splits back into the modifier tokens followed by exactly one base-key token |
| CaptureHotkey.SplitJoin | src/renderer/src/hooks/useCaptureHotkey.js:29 | joining tokens free of the separator and splitting on it gives the tokens back |
| CaptureHotkey.CtrlShiftK | src/renderer/src/hooks/useCaptureHotkey.js:22-29 | Ctrl+Shift with key `k` is captured as `Ctrl+Shift+K` |
| CaptureHotkey.PlusKeyChord | src/renderer/src/hooks/useCaptureHotkey.js:26-29 | Shift with the `+` key is captured as `Shift++` |
| CaptureHotkey.PlusChordSplit | src/renderer/src/hooks/useCaptureHotkey.js:29 | `Shift++` splits into three tokens, two of them empty |
| CaptureHotkey.BareArrowChord | src/renderer/src/hooks/useCaptureHotkey.js:5 | Ctrl with the key name `Arrow` (which no real key has) is captured as `Ctrl+`, with an empty base-key token |
| CaptureHotkey.CaptureSession.constructor | src/renderer/src/hooks/useCaptureHotkey.js:16-17 | a new session starts with an empty accelerator |
| CaptureHotkey.CaptureSession.SetActive | src/renderer/src/hooks/useCaptureHotkey.js:33-37 | attaching or detaching the listener leaves `accel` unchanged |
| CaptureHotkey.CaptureSession.KeyDown | src/renderer/src/hooks/useCaptureHotkey.js:19-37 | while inactive, or for a bare modifier key, `accel` is unchanged; otherwise `accel` becomes this event's chord alone, replacing any earlier one |
| CaptureHotkey.CaptureSession.Clear | src/renderer/src/hooks/useCaptureHotkey.js:39 | `accel` becomes empty |
| Hotkeys.Overlay | src/renderer/src/hooks/useHotkeys.js:30 | spreading `v` (or `{}` when falsy) over a base: keys are the union; entries of `v` win; other base entries are kept |
| Hotkeys.Defaults | src/renderer/src/hooks/useHotkeys.js:22-33 | all six actions present; `initial.hotkeys` entries override or extend; unmentioned actions keep their built-in accelerator |
| Hotkeys.DefaultEnabled | src/renderer/src/hooks/useHotkeys.js:35-46 | the same for the flags and `initial.enabled` |
| Hotkeys.DefaultsWithoutInitial | src/renderer/src/hooks/useHotkeys.js:21-46 | with no `initial` the defaults are exactly the built-in tables |
| Hotkeys.Loaded | src/renderer/src/hooks/useHotkeys.js:70-80 | a non-object record changes nothing; otherwise the remote accelerator entries (structured `hotkeys`, else the whole legacy record) and the remote `enabled` object win per key, and all local keys are kept |
| Hotkeys.LoadedIdempotent | src/renderer/src/hooks/useHotkeys.js:70-80 | merging the same record twice equals merging it once |
| Hotkeys.EmptyRemoteChangesNothing | src/renderer/src/hooks/useHotkeys.js:73-76 | an empty object or array record leaves both maps unchanged |
| Hotkeys.StructuredRecordMerge | src/renderer/src/hooks/useHotkeys.js:71-79 | `{hotkeys: h, enabled: e, ...}` gives exactly `hotkeys ⊕ h` and `enabled ⊕ e`; other fields are ignored |
| Hotkeys.LegacyRecordMerge | src/renderer/src/hooks/useHotkeys.js:73-79 | without a `hotkeys` object the whole record is merged into the accelerators, its `enabled` field included; the flags change only when `enabled` is an object |
| Hotkeys.Toggled | src/renderer/src/hooks/useHotkeys.js:101-107 | a boolean value is stored; otherwise the negated truthiness of the current flag is stored (a missing flag becomes true); no other key changes |
| Hotkeys.ToggleTwice | src/renderer/src/hooks/useHotkeys.js:105 | toggling twice restores a boolean flag; a non-boolean entry becomes its truthiness, a missing one false |
| Hotkeys.ToggleWithValueOverwrites | src/renderer/src/hooks/useHotkeys.js:102-103 | setting a flag explicitly forgets any earlier explicit setting |
| Hotkeys.ResetConfig | src/renderer/src/hooks/useHotkeys.js:123-129 | the result is the defaults overlaid with `newDefaults.hotkeys`/`.enabled`, independent of the current maps |
| Hotkeys.ResetWithoutArgument | src/renderer/src/hooks/useHotkeys.js:124-126 | `reset()` restores the defaults exactly |
| Hotkeys.Startup | src/renderer/src/hooks/useHotkeys.js:53-121 | nothing is persisted before the load; the first payload already holds the merged remote entries, or the defaults when there is no `get` or it failed; nothing is sent without `set` |
| Hotkeys.FailedLoadOverwritesStore | src/renderer/src/hooks/useHotkeys.js:83-121 | after a rejected `get()` with `set` present, the first persistence call sends exactly the defaults, with no user edit |
| Hotkeys.HotkeyState.constructor | src/renderer/src/hooks/useHotkeys.js:21-53 | the state starts at the defaults with the gate closed |
| Hotkeys.HotkeyState.Rerender | src/renderer/src/hooks/useHotkeys.js:22-46 | a new `initial` recomputes the defaults and leaves the live state alone |
| Hotkeys.HotkeyState.Load | src/renderer/src/hooks/useHotkeys.js:56-95 | the gate opens in every case; only a resolved `get()` changes the maps, to the merge `Loaded` |
| Hotkeys.HotkeyState.SetHotkey | src/renderer/src/hooks/useHotkeys.js:97-99 | only the accelerator of `key` changes, to `value`; flags and gate unchanged |
| Hotkeys.HotkeyState.ToggleEnabled | src/renderer/src/hooks/useHotkeys.js:101-107 | the flags become `Toggled`; accelerators and gate unchanged |
| Hotkeys.HotkeyState.Reset | src/renderer/src/hooks/useHotkeys.js:123-129 | both maps become `ResetConfig` of the defaults; gate unchanged |
| Hotkeys.HotkeyState.PersistEffect | src/renderer/src/hooks/useHotkeys.js:111-121 | something is sent exactly when the gate is open and `set` exists, and then it is exactly `{ hotkeys, enabled }` |

## Left out

- React mechanics: effect scheduling and batching, the `mounted` guard that drops a late `get()` result after unmount, `preventDefault`, and listener attachment. `Load` and `PersistEffect` are explicit calls. `PersistEffect` stands for the effect that runs after each render in which `hotkeys`, `enabled` or `remoteLoaded` changed.
- The promise returned by `window.hotkeys.set` and its swallowed rejection: the model stops at the payload sent.
- CaptureHotkey.ToUpper: only ASCII letters are upper-cased. JavaScript's `toUpperCase` also maps other letters, and some become two characters (`ß` gives `SS`). For those keys the one-character claim of `NormalizeKey` holds only in the model.
- Key length and string spread count UTF-16 code units in JavaScript and characters here.
- Numbers are integers: fractions and `NaN` (which is falsy) are not modelled.
- Property reads see own data properties only. A key inherited from `Object.prototype`, such as `toString`, makes `!e[key]` false rather than true in JavaScript. The model treats it as missing.
- Key order of JavaScript objects (and so the byte layout of the persisted payload) is not modelled: maps are unordered.
- Passing `null` as `initial` or `newDefaults` throws in JavaScript (`null.hotkeys`); it is a precondition here.
- The presentational components (`FeatureCard.jsx` and the layout components), window creation in `src/main/index.js` and the preload bridge are not part of this model. They hold no hotkey logic.
