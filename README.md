# BongoCat input capture and front-end bookkeeping, in Dafny

BongoCat is a desktop pet: a Live2D cat that mirrors the user's keyboard,
mouse and gamepad. This project models the part of it that turns raw input
into the cat's reactions, and proves properties of that model:

- **Scancode tables.** The native side has two tables from Linux evdev key
  codes to key names. One serves the privileged backend, the other the setup
  code. The model shows the two are identical, that no two codes share a name,
  and exactly which codes have a name.
- **Event normalisers.** Each backend turns its raw events into the shared
  `DeviceEvent` record (a kind plus a payload):
  - the generic hook backend, from rdev events;
  - the privileged libinput backend, from keyboard, button and motion events;
  - the gamepad loop, from gilrs events, into `GamepadEvent`s.
- **Listener flag machines.** Each capture loop is guarded by a process-wide
  flag. The model covers:
  - what a second start returns;
  - what a failing start leaves behind;
  - which events a running loop emits, in which order.
- **Front-end bookkeeping.** The model covers:
  - `useDevice`: the key-name fallbacks, the auto-release timers and the
    rounding filter on mouse moves;
  - `useGamepad`: the stick state and its watchers, and the mode watcher that
    starts and stops the gamepad loop;
  - `useSharedMenu`: the tray and context menu;
  - the model store's `init`, which merges the three preset models with the
    user's own;
  - the path `join` helper, `clearObject`, and the general store's
    migration of deprecated settings.

Modules follow the source files:

| file | source |
|---|---|
| `wrappers.dfy` | `Option`, `Result`, `Unit` |
| `text.dfy` | decimal rendering as `format!("{}")` and template strings print numbers |
| `seqs.dfy` | concatenating batches and keeping the recognised results of a translation |
| `device_types.dfy` | `DeviceEvent`, `DeviceKind`, the JSON payloads |
| `device_keymap.dfy` | `keyname_from_code` of the libinput backend |
| `setup_keymap.dfy` | `key_from_code` of the setup code |
| `rdev_backend.dfy` | `device.rs` / `device/common.rs`: the rdev hook backend |
| `linux_backend.dfy` | `device/linux.rs`: the libinput backend |
| `gamepad.dfy` | `gamepad.rs` |
| `use_device.dfy` | `useDevice.ts` |
| `use_gamepad.dfy` | `useGamepad.ts` |
| `shared_menu.dfy` | `useSharedMenu.ts` |
| `model_store.dfy` | `stores/model.ts` |
| `path.dfy` | `utils/path.ts` |
| `shared.dfy` | `utils/shared.ts` |
| `general_store.dfy` | `stores/general.ts` |

Objects the source updates in place are classes with those fields:

- the listener flags and their emitted events;
- the `useDevice` and `useGamepad` handlers;
- the model store, the general store, the cat window and `clearObject`'s
  records.

Calls the code makes into other components become a log field that the
methods append to. These are the `useModel` handlers, `invoke`, the Live2D
parameter writes and `emit`. Outcomes of the operating system and of
libraries become method parameters. These are:

- a failed seat assignment, hook installation or gilrs initialisation;
- the events a loop receives;
- the fresh ids `nanoid` would generate;
- the path separator.

Behaviour worth noting:

- **Duplicate start.** libinput's `start_device_listening` returns `Ok(())`
  when its flag is already set (`src-tauri/src/core/device/linux.rs:246-248`),
  while the rdev backend returns `Err("Device is already listening")`.
- **Read-only opens.** The libinput interface's open-flag computation grants no
  access to a read-only open (see Findings).

Methods whose doc comment starts with "Example:" are worked scenarios. Each
runs the model's methods on one input and asserts what the source does on it:
`RdevBackend.SecondStartRefused`, `LinuxBackend.FailedStartBlocksRetry`,
`Gamepad.RestartAfterStop`, `UseDevice.CapsLockReleaseStillPresses`,
`UseDevice.RepeatedMoveIgnored`, `UseGamepad.StickRoundTrip`,
`SharedMenu.HideThenShowLabel`, `Shared.ClearingScenario` and
`GeneralStore.InitIdempotent`.

## Model

| member | source | states |
|---|---|---|
| DeviceKeymap.KeynameFromCode | src-tauri/src/core/device/linux.rs:47-190 | only codes 1 to 127 can have a name |
| DeviceKeymap.KeynameListed | src-tauri/src/core/device/linux.rs:47-190 | every listed name has two or more characters, does not end in `)`, and its fingerprint leads back to its own code |
| DeviceKeymap.KeynameInjective | src-tauri/src/core/device/linux.rs:47-190 | two codes with the same name are the same code |
| DeviceKeymap.KeynameSamples | src-tauri/src/core/device/linux.rs:50-54 | 1 is Escape, 28 is Return, 57 is Space |
| DeviceKeymap.KeynameDomain | src-tauri/src/core/device/linux.rs:47-190 | a code has a name exactly when it lies in 1..127 and is not one of 84, 85, 95, 112, 116, 118, 120, 122, 123 |
| SetupKeymap.KeyFromCode | src-tauri/src/core/setup/linux.rs:10-153 | only codes 1 to 127 can have a name |
| SetupKeymap.KeyFromCodeAgrees | src-tauri/src/core/setup/linux.rs:10-153 | the setup table gives every code the same result as the libinput backend's table |
| SetupKeymap.FunctionKeys | src-tauri/src/core/setup/linux.rs:37-48 | codes 59..68 are F1..F10, and 87 and 88 are F11 and F12: "F" followed by the decimal number |
| SetupKeymap.SingleDigitFunctionKeys | src-tauri/src/core/setup/linux.rs:37-45 | codes 59..67 are "F" followed by the single digit code − 58 |
| SetupKeymap.OutsideRangeUnnamed | src-tauri/src/core/setup/linux.rs:151 | code 0 and every code above 127 fall to the `_ => None` arm |
| Text.DigitChar | src-tauri/src/core/device/linux.rs:198 | the character of a digit is a decimal digit denoting that digit |
| Text.DigitValue | src-tauri/src/core/device/linux.rs:198 | a digit character's value is below 10 and renders back to that character |
| Text.NatToDecimal | src-tauri/src/core/device/linux.rs:198 | a numeral is non-empty, all digits, without a leading zero, and one digit long exactly for numbers below 10 |
| Text.DecimalValue | src-tauri/src/core/device/linux.rs:198 | reading a numeral of n digits gives a number below 10^n; DecimalRoundTrip makes it the inverse of NatToDecimal |
| Text.DecimalRoundTrip | src-tauri/src/core/device/linux.rs:198 | reading a rendered numeral gives the number back |
| Text.NatToDecimalInjective | src-tauri/src/core/device/linux.rs:198 | distinct numbers render to distinct numerals |
| Text.IntToDecimal | src/composables/useSharedMenu.ts:26 | a rendered integer starts with '-' exactly when it is negative, and the rest is all digits |
| Text.IntToDecimalInjective | src/composables/useSharedMenu.ts:26 | distinct integers render to distinct texts |
| RdevBackend.Normalize | src-tauri/src/core/device.rs:32-55 | the wheel (every other event type) is dropped; presses and releases become the matching kind carrying the debug name; a move carries its x and y; every result has the payload its kind calls for |
| RdevBackend.PressAndReleaseShareName | src-tauri/src/core/device/common.rs:18-41 | a press and a release of the same key or button give the same name and differ only in kind |
| RdevBackend.WheelIsInvisible | src-tauri/src/core/device/common.rs:40 | inserting a wheel event anywhere in a stream leaves the emissions unchanged |
| RdevBackend.Emissions | src-tauri/src/core/device.rs:32-57 | the emitted events of a stream are never more than its events; WheelIsInvisible and EmissionsOneToOne say which ones and in which order |
| RdevBackend.EmissionsOneToOne | src-tauri/src/core/device.rs:32-57 | a stream without wheel events is emitted one for one, in order, each as its normalisation |
| RdevBackend.DeviceListener.constructor | src-tauri/src/core/device.rs:7 | the flag starts cleared and nothing is emitted |
| RdevBackend.DeviceListener.StartDeviceListening | src-tauri/src/core/device.rs:25-63 | a start while running returns "Device is already listening" and emits nothing; a failed hook returns "Failed to listen device: …" with the flag left set; otherwise the flag is set, the result is Ok, and the emissions are exactly the normalised non-wheel events in order |
| RdevBackend.DeviceListener.Callback | src-tauri/src/core/device.rs:32-58 | the callback appends the normalised event, or nothing for a wheel event |
| LinuxBackend.AccessAsWritten | src-tauri/src/core/device/linux.rs:31-39 | read access is asked for exactly when the O_RDWR bit is set; write access exactly when the access mode is nonzero |
| LinuxBackend.ReadOnlyRequestGetsNoAccess | src-tauri/src/core/device/linux.rs:34-35 | an O_RDONLY request, whatever its other flags, gets neither read nor write access |
| LinuxBackend.AccessIntended | src-tauri/src/core/device/linux.rs:31-39 | O_RDONLY asks for read only, O_WRONLY for write only, O_RDWR for both |
| LinuxBackend.AccessAgreesOutsideReadOnly | src-tauri/src/core/device/linux.rs:34-35 | for write-only and read-write requests the written and the intended access agree |
| LinuxBackend.UnknownLabel | src-tauri/src/core/device/linux.rs:198 | the fallback label is "Unknown(", a non-empty run of digits and ")"; UnknownLabelInjective shows distinct numbers get distinct labels |
| LinuxBackend.KeyLabel | src-tauri/src/core/device/linux.rs:195-199 | a key's name ends in ")" exactly when the table has no name for its code; KeyLabelInjective shows no two codes share a name |
| LinuxBackend.ButtonLabel | src-tauri/src/core/device/linux.rs:213-219 | a button's name ends in ")" exactly when it is none of 0x110, 0x111, 0x112; ButtonLabelLowByte shows the fallback depends only on the low byte |
| LinuxBackend.UnknownLabelInjective | src-tauri/src/core/device/linux.rs:198 | distinct numbers get distinct "Unknown(n)" labels |
| LinuxBackend.KeyLabelInjective | src-tauri/src/core/device/linux.rs:195-199 | no key event loses its code: distinct codes, listed or not, get distinct names |
| LinuxBackend.ButtonLabelLowByte | src-tauri/src/core/device/linux.rs:213-219 | apart from 0x110, 0x111 and 0x112, a button's name is "Unknown" of its code's low byte |
| LinuxBackend.ButtonLabelCollides | src-tauri/src/core/device/linux.rs:218 | buttons 0x999 and 0x99 are both named "Unknown(153)" |
| LinuxBackend.UnknownLabel153 | src-tauri/src/core/device/linux.rs:218 | the fallback label of 153 is "Unknown(153)" |
| LinuxBackend.BuildDeviceEvent | src-tauri/src/core/device/linux.rs:192-242 | keyboard, button and motion events give an event; every other event gives None; keys carry their label, buttons theirs, motion its unaccelerated deltas, each in the payload its kind calls for |
| LinuxBackend.StateSelectsKind | src-tauri/src/core/device/linux.rs:200-229 | pressed and released give the press and release kinds with the same name |
| LinuxBackend.KeyboardEventLossless | src-tauri/src/core/device/linux.rs:194-210 | two keyboard events with equal DeviceEvents have the same code and state |
| LinuxBackend.NormalizerExamples | src-tauri/src/core/device/linux.rs:192-242 | key 28 pressed is a Return press, button 0x110 released is a Left release, button 0x999 pressed is "Unknown(153)", motion (3.5, −1.2) is carried as is |
| LinuxBackend.Emissions | src-tauri/src/core/device/linux.rs:259-264 | a round emits no more events than it holds; EmissionsWellFormed and EmissionsOneToOne say what and in which order |
| LinuxBackend.EmissionsWellFormed | src-tauri/src/core/device/linux.rs:259-264 | everything a round emits has the payload shape of its kind |
| LinuxBackend.EmissionsOneToOne | src-tauri/src/core/device/linux.rs:259-264 | a round of keyboard events and pointer button or motion events (no other pointer event) emits one event per raw event, in order |
| LinuxBackend.DeviceListener.constructor | src-tauri/src/core/device/linux.rs:26 | the flag starts cleared and nothing is emitted |
| LinuxBackend.DeviceListener.StartDeviceListening | src-tauri/src/core/device/linux.rs:244-271 | a start while running returns Ok and emits nothing; a failed seat assignment returns "Failed to assign seat: ()", since that error is the unit value, and leaves the flag set; otherwise every round's recognised events are emitted in order and the result is Ok once poll fails |
| LinuxBackend.DeviceListener.DispatchRounds | src-tauri/src/core/device/linux.rs:257-265 | the poll loop appends the emissions of all its rounds, in order |
| LinuxBackend.DeviceListener.EmitRound | src-tauri/src/core/device/linux.rs:258-264 | one dispatch round appends exactly its recognised, normalised events in delivery order |
| LinuxBackend.EmissionsOfNextRound | src-tauri/src/core/device/linux.rs:257-265 | the emissions of one more round follow those of the earlier rounds |
| Gamepad.Translate | src-tauri/src/core/gamepad.rs:33-45 | exactly button and axis changes give an event, carrying their debug name and the raw value unchanged |
| Gamepad.Emissions | src-tauri/src/core/gamepad.rs:32-48 | a drain emits no more events than the queue holds; EmissionsKeepValues says which ones and in which order |
| Gamepad.EmissionsKeepValues | src-tauri/src/core/gamepad.rs:32-48 | a queue of button and axis changes is emitted one for one, each its translation with the raw value, in queue order |
| Gamepad.SkippedIsInvisible | src-tauri/src/core/gamepad.rs:44 | inserting an event of a skipped kind anywhere in a queue leaves the emissions unchanged |
| Gamepad.EmissionsOfNextBatch | src-tauri/src/core/gamepad.rs:31-49 | the emissions of one more queue drain follow those of the earlier drains |
| Gamepad.GamepadListener.constructor | src-tauri/src/core/gamepad.rs:6 | the flag starts cleared and nothing is emitted |
| Gamepad.GamepadListener.StartGamepadListing | src-tauri/src/core/gamepad.rs:21-52 | a start while listening is Ok and emits nothing; a failed initialisation returns its message with the flag left set; otherwise all queued button and axis changes are emitted in order until the stop clears the flag, and the result is Ok |
| Gamepad.GamepadListener.DrainQueue | src-tauri/src/core/gamepad.rs:32-48 | draining a queue appends exactly its translated events in order |
| Gamepad.GamepadListener.StopGamepadListing | src-tauri/src/core/gamepad.rs:54-61 | afterwards the flag is cleared, whether or not it was set |
| Seqs.FilterMap | src-tauri/src/core/device/linux.rs:259-264 | keeping the recognised results never emits more than the events; FilterMapAppend, FilterMapTotal and FilterMapNone pin it down |
| Seqs.FilterMapAppend | src-tauri/src/core/device/linux.rs:259-264 | keeping the recognised results distributes over concatenation of event streams |
| Seqs.FilterMapTotal | src-tauri/src/core/device/linux.rs:259-264 | when every event is recognised, nothing is dropped and order is kept |
| Seqs.FilterMapNone | src-tauri/src/core/device/linux.rs:259-264 | when no event is recognised, nothing is emitted |
| UseDevice.FromLineEnd | src/composables/useDevice.ts:56-57 | what `.*` leaves: a suffix that is empty or starts with a line terminator, with no terminator before it |
| UseDevice.DropDigits | src/composables/useDevice.ts:51 | what `\d+` leaves: a suffix that is empty or starts with a non-digit, with only digits before it |
| UseDevice.ReplaceFirstFDigits | src/composables/useDevice.ts:51 | the replacement never lengthens the key and gives the empty text only for the empty text; ReplaceFirstAt, NoFDigitsUnchanged and FunctionKeyDigitsReplaced say exactly what it replaces |
| UseDevice.CollapseThrough | src/composables/useDevice.ts:54-59 | the loop over the modifier names never lengthens the key, and with non-empty names gives the empty text only for the empty key |
| UseDevice.CollapseUnfolded | src/composables/useDevice.ts:54-59 | the loop over Meta, Shift, Alt and Control, written out: the last name the unsupported key starts with wins |
| UseDevice.SupportedKey | src/composables/useDevice.ts:45-62 | the fallback is never longer than the key and is empty only for the empty key; SupportedKeyUnchanged, FunctionKeyRewritten, ModifierCollapsed and OtherKeyUnchanged give its value case by case |
| UseDevice.ModifierPrefixesDisjoint | src/composables/useDevice.ts:54 | no key starts with two of Meta, Shift, Alt, Control, or with one of them and F |
| UseDevice.Supported | src/composables/useDevice.ts:48 | a key is supported exactly when its entry is present and not the empty string: a missing entry and an empty one are both falsy |
| UseDevice.SupportedKeyUnchanged | src/composables/useDevice.ts:45-62 | a key the model supports is passed on unchanged |
| UseDevice.FunctionKeyRewritten | src/composables/useDevice.ts:50-52 | an unsupported key starting with F has its first F-and-digits replaced by Fn |
| UseDevice.ModifierCollapsed | src/composables/useDevice.ts:54-59 | an unsupported key starting with a modifier name becomes that name followed by what `.*` leaves of the rest |
| UseDevice.OtherKeyUnchanged | src/composables/useDevice.ts:45-62 | an unsupported key with neither prefix is passed on unchanged |
| UseDevice.NoFDigitsUnchanged | src/composables/useDevice.ts:51 | a text with no F followed by a digit is not changed by the replacement |
| UseDevice.ReplaceFirstAt | src/composables/useDevice.ts:51 | the leftmost F-and-digits, and only that one, becomes Fn |
| UseDevice.FunctionKeyDigitsReplaced | src/composables/useDevice.ts:51 | F, a run of digits and a rest not starting with a digit becomes Fn and that rest |
| UseDevice.DropDigitsRun | src/composables/useDevice.ts:51 | `\d+` consumes exactly a leading run of digits |
| UseDevice.ModifierCollapsedToName | src/composables/useDevice.ts:54-59 | an unsupported key without line breaks that starts with a modifier name becomes exactly that name |
| UseDevice.KeyFallbackExamples | src/composables/useDevice.ts:45-62 | unsupported F11 becomes Fn, ShiftLeft becomes Shift, AltGr becomes Alt |
| UseDevice.Round | src/composables/useDevice.ts:79 | the rounded value r satisfies r ≤ x + 1/2 < r + 1 |
| UseDevice.DeviceHandler.constructor | src/composables/useDevice.ts:36-39 | the last point is (0, 0), no timers are pending and nothing is called |
| UseDevice.DeviceHandler.GetSupportedKey | src/composables/useDevice.ts:45-62 | the loop over the modifier names computes the key-name fallback |
| UseDevice.DeviceHandler.ScheduleRelease | src/composables/useDevice.ts:64-76 | a key's pending release is replaced by one with the new delay; nothing is called yet |
| UseDevice.DeviceHandler.FireReleaseTimer | src/composables/useDevice.ts:69-73 | a timer going off releases its key and removes its entry |
| UseDevice.DeviceHandler.ProcessMouseMove | src/composables/useDevice.ts:78-86 | the rounded point is stored; the move reaches the model exactly when that point differs from the last one |
| UseDevice.DeviceHandler.HandleDeviceChanged | src/composables/useDevice.ts:88-121 | for keys: nothing for an empty name; CapsLock is pressed with a 100 ms release whatever the state; other presses are pressed with a 500 ms release on Windows only; releases are released. Mouse buttons become mouse changes with their state; moves go through the rounding filter |
| UseGamepad.ModeCommand | src/composables/useGamepad.ts:48-54 | the gamepad loop is started exactly for the gamepad mode and stopped for every other mode or none |
| UseGamepad.AxisParam | src/composables/useGamepad.ts:72-87 | exactly the four stick axes drive a stick parameter |
| UseGamepad.ThumbParam | src/composables/useGamepad.ts:88-95 | exactly the two thumb buttons press a stick |
| UseGamepad.Settle | src/composables/useGamepad.ts:56-66 | the watcher sets `moved` from the coordinates and changes nothing else; a settled stick stays as it is |
| UseGamepad.StickActive | src/composables/useGamepad.ts:43-46 | a settled stick is active exactly when it is off centre or pressed |
| UseGamepad.WatcherWrites | src/composables/useGamepad.ts:56-66 | a flush makes one write for a settled stick and two when its own write changes `moved`; the first write shows the flags the watcher read; WatcherEndsOnActive gives the last |
| UseGamepad.WatcherEndsOnActive | src/composables/useGamepad.ts:56-66 | the last parameter write of a watcher flush shows the paw exactly when the settled stick is active |
| UseGamepad.GamepadHandler.constructor | src/composables/useGamepad.ts:38-54 | both sticks start from the initial state, and the immediate mode watcher sends its command once |
| UseGamepad.GamepadHandler.ModeChanged | src/composables/useGamepad.ts:48-54 | the mode watcher sends a command only when the mode changes |
| UseGamepad.GamepadHandler.WatcherRun | src/composables/useGamepad.ts:56-66 | one watcher run settles its stick and writes the flag values it read |
| UseGamepad.GamepadHandler.FlushWatcher | src/composables/useGamepad.ts:56-66 | a flush settles the stick and makes exactly the watcher's writes |
| UseGamepad.GamepadHandler.GamepadChanged | src/composables/useGamepad.ts:68-99 | an axis sets its coordinate and forwards the value; a thumb sets `pressed` and writes its parameter; each is followed by the watcher when the stick changed; any other name is a press when positive and a release otherwise; only the named stick changes, and sticks stay settled |
| SharedMenu.Range | src/composables/useSharedMenu.ts:12 | `range(start, end, step)` lists start, start + step, … while below end, and is empty exactly when start ≥ end |
| SharedMenu.PercentLabel | src/composables/useSharedMenu.ts:26 | a percentage label ends in "%" and starts with "-" exactly for a negative value |
| SharedMenu.OptionLabel | src/composables/useSharedMenu.ts:16 | an option reads "默认" exactly when it is size 100; every other option is its percentage |
| SharedMenu.CustomItem | src/composables/useSharedMenu.ts:24-30 | the entry for a value that is not an option is checked, disabled, does nothing, and reads as a percentage, never as the default |
| SharedMenu.MenuItems | src/composables/useSharedMenu.ts:11-33 | an item is enabled exactly when choosing it does something; ExactlyOneChecked, MenuLength and CustomValueShown give the rest |
| SharedMenu.OptionItems | src/composables/useSharedMenu.ts:14-22 | one enabled item per option, labelled, checked exactly when it is the current value, with that option's action |
| SharedMenu.OptionsExact | src/composables/useSharedMenu.ts:12 | the size options are 50, 75, 100, 125, 150 and the opacity options 25, 50, 75, 100 |
| SharedMenu.CountOptionItems | src/composables/useSharedMenu.ts:14-22 | over distinct options the current value is checked once if it is an option and never otherwise |
| SharedMenu.ExactlyOneChecked | src/composables/useSharedMenu.ts:11-57 | every submenu has exactly one checked item |
| SharedMenu.MenuLength | src/composables/useSharedMenu.ts:24-30 | the size submenu has 5 or 6 items and the opacity submenu 4 or 5; the extra one only for a value that is not an option |
| SharedMenu.CustomValueShown | src/composables/useSharedMenu.ts:24-30 | a value that is not an option heads the submenu as a checked, disabled percentage item |
| SharedMenu.SelectedOptionChecked | src/composables/useSharedMenu.ts:14-22 | once an option is chosen, the rebuilt submenu checks that option's item and no other |
| SharedMenu.OptionsDistinct | src/composables/useSharedMenu.ts:12 | the options of each submenu are distinct |
| SharedMenu.CheckedAtOption | src/composables/useSharedMenu.ts:17 | over distinct options, only the current option's item is checked |
| SharedMenu.CatWindow.GetScaleMenuItems | src/composables/useSharedMenu.ts:11-33 | the size submenu, with exactly one checked item |
| SharedMenu.CatWindow.GetOpacityMenuItems | src/composables/useSharedMenu.ts:35-57 | the opacity submenu, with exactly one checked item |
| SharedMenu.CatWindow.GetSharedMenu | src/composables/useSharedMenu.ts:59-89 | the six entries in order: preferences, hide or show by visibility, a separator, pass-through checked by its flag, the size and opacity submenus |
| SharedMenu.CatWindow.Perform | src/composables/useSharedMenu.ts:18-78 | the toggles negate their flag, the options set their value, and nothing else changes |
| ModelStore.NonPresets | src/stores/model.ts:46 | the kept models are all user models, no more than before |
| ModelStore.Presets | src/stores/model.ts:47 | the kept models are all presets, no more than before |
| ModelStore.FindByMode | src/stores/model.ts:52 | a found model is in the list and has the mode; None means no model has it |
| ModelStore.FindById | src/stores/model.ts:62 | a found model is in the list and has the id; None means no model has it |
| ModelStore.PresetFor | src/stores/model.ts:51-60 | a rebuilt preset is a preset of its mode, with the fresh id when no old preset has that mode; PresetIdReused and PresetIdFresh give its id exactly |
| ModelStore.MergedModels | src/stores/model.ts:43-67 | the new list is the user models plus three, led by the standard, keyboard and gamepad modes; MergedShape, MergedStable and MergedSplits give the rest |
| ModelStore.SelectCurrent | src/stores/model.ts:62-64 | the new current model is in the list, and keeps the old current id when the list has it |
| ModelStore.Store.constructor | src/stores/model.ts:36-37 | no models and no current model |
| ModelStore.Store.Init | src/stores/model.ts:43-67 | the list becomes the merged list, and the current model is the one with the old current id, else the first |
| ModelStore.BuiltStep | src/stores/model.ts:51-60 | the loop's next round puts the preset of the next mode in front of those it has built |
| ModelStore.PresetRound | src/stores/model.ts:51-60 | one round of the loop puts the next preset in front |
| ModelStore.LoopBuildsMerged | src/stores/model.ts:49-60 | after three rounds the list is standard, keyboard and gamepad presets, then the user models |
| ModelStore.MergedShape | src/stores/model.ts:43-67 | three presets first (standard, keyboard, gamepad) at the models path joined with their mode, then exactly the old user models in their order |
| ModelStore.FirstPresetFound | src/stores/model.ts:52 | the lookup among the old presets finds the first old preset of the mode |
| ModelStore.NoPresetFound | src/stores/model.ts:52 | with no old preset of a mode, the lookup finds nothing |
| ModelStore.PresetIdReused | src/stores/model.ts:55 | a rebuilt preset keeps the id of the first old preset of its mode |
| ModelStore.PresetIdFresh | src/stores/model.ts:55 | a mode with no old preset gets the freshly generated id |
| ModelStore.NonPresetsAppend | src/stores/model.ts:46 | filtering out presets distributes over concatenation |
| ModelStore.NonPresetsOfUserModels | src/stores/model.ts:46 | a list without presets goes through the filter unchanged |
| ModelStore.MergedStable | src/stores/model.ts:43-67 | running `init` again on its own result gives the same list, whatever fresh ids it is given |
| ModelStore.MergedSplits | src/stores/model.ts:46-47 | the merged list splits back into its three presets and its user models |
| ModelStore.PresetsOfPresets | src/stores/model.ts:47 | a list of presets goes through the preset filter unchanged |
| ModelStore.NonPresetsOfPresets | src/stores/model.ts:46 | a list of presets has no user models |
| ModelStore.PresetsAppend | src/stores/model.ts:47 | the preset filter distributes over concatenation |
| ModelStore.PresetsOfUserModels | src/stores/model.ts:47 | a list of user models has no presets |
| ModelStore.CurrentSelection | src/stores/model.ts:62-64 | the current model keeps its id when the new list has a model with it; otherwise it becomes the head of the list |
| Path.Seps | src/utils/path.ts:6 | a run of n separators |
| Path.StripTrailing | src/utils/path.ts:6 | a prefix of the path, not ending in the separator, followed in the path only by separators |
| Path.StripLeading | src/utils/path.ts:8 | a suffix of the path, not starting with the separator, preceded in the path only by separators |
| Path.StripBoth | src/utils/path.ts:8 | a later segment neither starts nor ends with the separator and is no longer than before; StripBothPadded shows separators inside it are kept |
| Path.Stripped | src/utils/path.ts:4-10 | the first segment loses its trailing separators, every other segment its leading and trailing ones |
| Path.Intercalate | src/utils/path.ts:12 | `Array.join` has at least one character, the separator, between each two parts; SplitIntercalate shows the reference split undoes it |
| Path.Join | src/utils/path.ts:3-13 | the joined path has at least one character, the separator, per joint; JoinSingle, JoinExample and JoinSplitRoundTrip give it exactly |
| Path.Split | src/utils/path.ts:12 | the reference inverse of `Array.join`, which the source does not contain: JavaScript `String.split` on one character; it always gives at least one piece |
| Path.StripTrailingPadded | src/utils/path.ts:6 | stripping the trailing run of a padded path gives exactly the unpadded path |
| Path.StripLeadingPadded | src/utils/path.ts:8 | stripping the leading run gives exactly the unpadded path |
| Path.StripBothPadded | src/utils/path.ts:8 | stripping both runs keeps the inner part, separators inside it included |
| Path.JoinSingle | src/utils/path.ts:3-13 | joining one path removes only its trailing separators; joining none gives the empty string |
| Path.JoinExample | src/utils/path.ts:3-13 | "a/" and "/b/" join to "a/b": exactly one separator between segments |
| Path.SplitNoSep | src/utils/path.ts:12 | for the reference split (not in the source): a text without the separator splits into itself |
| Path.SplitAtSep | src/utils/path.ts:12 | for the reference split (not in the source): splitting at the first separator peels off the first piece |
| Path.SplitIntercalate | src/utils/path.ts:12 | `Array.join` of separator-free parts is undone by the reference split, which JoinSplitRoundTrip relies on |
| Path.JoinSplitRoundTrip | src/utils/path.ts:3-13 | when the stripped segments hold no separator, splitting the joined path gives exactly the stripped segments |
| Shared.CastArray | src/utils/shared.ts:4 | one object becomes a list of itself, a list stays as it is |
| Shared.ClearObject | src/utils/shared.ts:3-9 | afterwards every target has no keys, and only the targets are changed |
| GeneralStore.Store.constructor | src/stores/general.ts:24-50 | every flag is false, the theme is auto, and the nested settings agree with the deprecated fields |
| GeneralStore.Store.Init | src/stores/general.ts:52-60 | the nested settings take the deprecated fields' values, and the deprecated fields stay as they were |

## Left out

- Concurrency is not modelled. Each flag is read and then set in two steps,
  so two concurrent starts can both see it cleared. The model runs one call
  at a time, so each start sees the flag as the previous call left it.
- Blocking forever is not modelled. A running loop is given the finite
  sequence of event rounds it receives:
  - the libinput loop stops when `poll` fails;
  - the gamepad loop stops when the stop command clears the flag after the
    last drain.
  Busy polling of an empty queue and the process exit are not modelled.
- Panics are not modelled. These are the `unwrap()` calls on `dispatch` and
  `emit` and on a missing OS error number in `open_restricted`. The rdev
  backend's discarded `emit` result is modelled as always succeeding.
- libinput, udev, poll, rdev and gilrs are left out: only their event types,
  as the code matches on them, are modelled. The debug names of rdev keys and
  buttons and of gilrs buttons and axes are function parameters, because they
  are the libraries' own `Debug` output. `close_restricted` only drops a file
  descriptor and is left out.
- Timers are left out. A pending auto-release is an entry in a map from key to
  delay. Its expiry is the `FireReleaseTimer` method, called by the
  environment, so the interleaving of real time is not modelled.
- Live2D, window plumbing and the handlers of `useModel` are left out. They
  are recorded as calls in a log. `showWindow` and the macOS accelerator text
  of the preferences entry are not modelled.
- Floating point is modelled with `real`:
  - pointer coordinates, deltas and gamepad values are `real`;
  - `Math.round` is floor(x + 1/2), which ignores floating-point edge
    cases;
  - the `value > 0` and `value !== 0` tests are on reals, so NaN is not
    modelled.
- Scale and opacity are integers, so JavaScript's rendering of a fractional
  percentage in the custom menu entry is not modelled.
- The path separator is one character. `sep()` is inserted into a regular
  expression unescaped, so on Windows the backslash would change the pattern;
  that is not modelled.
- `supportKeys` is a map from key name to string. A key counts as supported
  when its entry is present and not empty, which is JavaScript truthiness
  for strings.
- Vue reactivity is modelled as explicit calls:
  - the mode watcher is a method the environment calls with a mode, and it
    fires only when that mode changes;
  - the deep stick watchers run after the listener has changed their stick,
    and again when their own write changed it.
  The order of flushes across several changes in one tick is not modelled.
- UseGamepad.GamepadHandler.ModeChanged: `useGamepad.ts:36` destructures
  `currentModel` from the store without `storeToRefs`, so the watcher at line
  48 reads `.mode` of the model object captured at setup. That is undefined
  when no model was selected then, and switching the store to another model
  does not re-trigger the watcher. The model takes the watched mode as an
  argument and does not model which object it is read from.
- `Object.keys` order is left out: `clearObject` removes the keys of a record
  in any order, and the result does not depend on it.
- `device.rs` and `device/mod.rs` plus `device/common.rs` hold the same rdev
  backend. It is modelled once, in `RdevBackend`.
- `nanoid` and `resolveResource` are parameters: three fresh ids, and the
  models directory.
- The model store's `motions`, `expressions` and `pressedKeys` are not touched
  by `init` and are not modelled.

## Findings

| source | as written | input that shows it | evidently intended | confidence | as-written member | corrected member |
|---|---|---|---|---|---|---|
| src-tauri/src/core/device/linux.rs:34 | read access is asked for when `flags & O_RDONLY != 0`; O_RDONLY is 0, so this test is always false | flags with access mode O_RDONLY (0), as libinput passes for a read-only open | read access for O_RDONLY and O_RDWR, write access for O_WRONLY and O_RDWR, decided on `flags & O_ACCMODE` | not executed | LinuxBackend.AccessAsWritten, LinuxBackend.ReadOnlyRequestGetsNoAccess | LinuxBackend.AccessIntended |
