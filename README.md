# LED matrix drawer: verified model of its state rules

The LED controller app lets a user draw on an 8×8 board, keep named presets
of a grid in local storage, find and connect to an LED controller over
Bluetooth Low Energy, and format single LED positions for the controller.
This project models the four pieces of that app that hold logic, and proves
what they promise:

- `Presets.dfy`: the preset panel. A class holds the preset list, the name
  input and the grid. Saving trims the name, ignores an empty one, refuses a
  name already stored ignoring case, and otherwise appends `{name, data}`,
  writes the list to storage and clears the input. Loading copies a preset's
  data into the grid. Deleting splices one entry out by index.
- `Text.dfy`: ECMAScript `trim` (the exact WhiteSpace and LineTerminator code
  points) and `toLowerCase` restricted to ASCII, which the panel uses.
- `PixelBoard.dfy`: the board. It is an 8×8 grid of on/off cells. A click
  flips one cell; reset turns every cell off.
- `Bluetooth.dfy`: the scanner component. A class holds the flags, the device
  list, the connected device, and the status and error texts. The device-list
  updater is a pure function: it drops results weaker than −70 dBm and ids
  already listed, appends the rest, and caps the list at 10. Every call into
  the BLE plugin is a parameter of type `Outcome`, success or failure with the
  error text.
- `Coord.dfy`: `getActiveLEDCoordinates`, the JSON text `[row+1,col+1]` of a
  0-based position, with a reader for that text that states the round trip.
- `Wrappers.dfy`: `Option`, standing for JavaScript's `null` or `undefined`.

The board toggles boolean cells on click. It has no colours and no gesture
drawing, so neither appears in the model. The doc comment of
`getActiveLEDCoordinates` gives `"[3, 5]"` as an example output, but
`JSON.stringify` writes no space after the comma; `Coord.CoordExample` states
the text it does produce.

## Model

| member | source | states |
|---|---|---|
| `Text.IsWhiteSpace` | LEDApp/src/components/PresetPanel.jsx:25 | the characters `trim` removes include space, tab, line feed and carriage return, and never a digit or an ASCII letter |
| `Text.TrimStart` | LEDApp/src/components/PresetPanel.jsx:25 | the result is the suffix of the input left after removing leading white space: every removed character is white space and the result does not start with any |
| `Text.TrimEnd` | LEDApp/src/components/PresetPanel.jsx:25 | the result is the prefix left after removing trailing white space: every removed character is white space and the result does not end with any |
| `Text.Trim` | LEDApp/src/components/PresetPanel.jsx:25 | the trimmed name is no longer than the input and starts and ends with a non-white-space character when non-empty |
| `Text.TrimOfTrimmed` | LEDApp/src/components/PresetPanel.jsx:25 | a string with no white space at either end is unchanged by trimming |
| `Text.TrimIdempotent` | LEDApp/src/components/PresetPanel.jsx:25 | the trimmed name is trimmed; trimming it again changes nothing |
| `Text.TrimEmptyIff` | LEDApp/src/components/PresetPanel.jsx:25-26 | the trimmed name is empty exactly when every character of the input is white space |
| `Text.LowerChar` | LEDApp/src/components/PresetPanel.jsx:30 | an ASCII capital becomes its lower-case letter (code point + 32); every other character is kept |
| `Text.ToLower` | LEDApp/src/components/PresetPanel.jsx:30 | lower-casing keeps the length and folds each character independently |
| `Text.ToLowerIdempotent` | LEDApp/src/components/PresetPanel.jsx:30 | lower-casing twice is lower-casing once |
| `Text.EqualIgnoringCase` | LEDApp/src/components/PresetPanel.jsx:30 | two names are equal ignoring case exactly when they have the same length and agree character by character once each character is folded |
| `Presets.NameExists` | LEDApp/src/components/PresetPanel.jsx:29-31 | the `some` test fails on an empty list and finds every stored name that matches exactly |
| `Presets.NameExistsIgnoresCase` | LEDApp/src/components/PresetPanel.jsx:29-31 | two names equal ignoring case are both taken or both free |
| `Presets.SaveCheck` | LEDApp/src/components/PresetPanel.jsx:24-36 | a save is ignored exactly when the input is all white space, and refused as a duplicate exactly when the trimmed name is non-empty and some stored name equals it ignoring case |
| `Presets.SaveList` | LEDApp/src/components/PresetPanel.jsx:37-39 | an ignored or refused save leaves the list as it was; a successful one adds exactly one entry, `{trimmed name, grid}`, at the end and keeps every earlier entry in order |
| `Presets.AppendPreservesNames` | LEDApp/src/components/PresetPanel.jsx:38-39 | appending a preset whose name is non-empty, trimmed and new ignoring case keeps the invariant |
| `Presets.SavePreservesNames` | LEDApp/src/components/PresetPanel.jsx:24-39 | saving keeps the invariant that names are non-empty, trimmed and pairwise distinct ignoring case |
| `Presets.SavedNameBlocksDuplicate` | LEDApp/src/components/PresetPanel.jsx:29-36 | after a name is saved, a later input whose trimmed form equals it ignoring case ("A" then "a") is refused as a duplicate |
| `Presets.RemoveAt` | LEDApp/src/components/PresetPanel.jsx:50-52 | `splice(index, 1)` on a copy: a negative index counts from the end, an index past the end removes nothing, otherwise one entry is removed and entry `k` of the result is entry `k` or `k+1` of the old list |
| `Presets.RemoveAtIndex` | LEDApp/src/components/PresetPanel.jsx:50-52 | deleting at a rendered index `i` leaves `presets[..i] + presets[i+1..]`, one entry shorter |
| `Presets.RemovePreservesNames` | LEDApp/src/components/PresetPanel.jsx:50-53 | deleting keeps the name invariant |
| `Presets.PresetPanel.Mount` | LEDApp/src/components/PresetPanel.jsx:14-21 | on mount the list is the stored list, or empty when storage holds none; the input is empty; storage and memory agree |
| `Presets.PresetPanel.SetPresetName` | LEDApp/src/components/PresetPanel.jsx:61-65 | typing sets the name input and nothing else |
| `Presets.PresetPanel.SavePreset` | LEDApp/src/components/PresetPanel.jsx:24-43 | the outcome (ignored, alert, saved) and the new list follow `SaveCheck` and `SaveList`; the input is cleared after a save and kept after a rejection; storage holds the new list; the name invariant is kept |
| `Presets.PresetPanel.LoadPreset` | LEDApp/src/components/PresetPanel.jsx:45-47 | the grid becomes exactly the preset's stored data; nothing else changes |
| `Presets.PresetPanel.DeletePreset` | LEDApp/src/components/PresetPanel.jsx:50-55 | the list becomes `RemoveAt(old list, index)`, exactly entry `index` removed for a rendered index; storage holds the new list; the name invariant is kept |
| `PixelBoard.EmptyGrid` | LEDApp/src/components/PixelBoard.jsx:4-8 | the empty grid is 8 rows of 8 cells, every cell off |
| `PixelBoard.Toggled` | LEDApp/src/components/PixelBoard.jsx:16-19 | the new grid has the old shape; the cell at `(rowIdx, colIdx)` is negated and every other cell is kept |
| `PixelBoard.ToggleTwice` | LEDApp/src/components/PixelBoard.jsx:16-19 | toggling the same cell twice restores the grid |
| `PixelBoard.ToggleCommutes` | LEDApp/src/components/PixelBoard.jsx:16-19 | toggles of two cells give the same grid in either order |
| `PixelBoard.ToggleOutside` | LEDApp/src/components/PixelBoard.jsx:17-18 | a position outside the grid leaves it unchanged |
| `PixelBoard.Board.constructor` | LEDApp/src/components/PixelBoard.jsx:10 | the board starts as the empty 8×8 grid |
| `PixelBoard.Board.TogglePixel` | LEDApp/src/components/PixelBoard.jsx:16-21 | a click flips exactly the clicked cell, leaves the other 63, and keeps the board 8×8 |
| `PixelBoard.Board.ResetGrid` | LEDApp/src/components/PixelBoard.jsx:23-25 | reset yields the empty grid whatever the board held |
| `Bluetooth.Take` | LEDApp/src/components/BluetoothManager.jsx:114 | `slice(0, n)` keeps a prefix: the whole list when it has at most `n` entries, exactly the first `n` otherwise |
| `Bluetooth.AddDevice` | LEDApp/src/components/BluetoothManager.jsx:102-115 | a result below −70 dBm or with a listed id leaves the list unchanged; a result without a signal strength passes the filter, as `undefined < -70` is false; any other device is appended at the end while fewer than 10 are held; with 10 held the list stays as it is |
| `Bluetooth.AddDeviceKeepsList` | LEDApp/src/components/BluetoothManager.jsx:102-115 | the updater keeps the list at 10 entries or fewer with pairwise distinct ids, and the old list is a prefix of the new |
| `Bluetooth.Step` | LEDApp/src/components/BluetoothManager.jsx:101-115 | a result without a device leaves the list unchanged; a result with one keeps a list of at most 10 entries with distinct ids so, and keeps what it listed as a prefix |
| `Bluetooth.StepTakesPrefix` | LEDApp/src/components/BluetoothManager.jsx:112-114 | one callback keeps the capped list equal to the first 10 entries of the uncapped list |
| `Bluetooth.ListIsFirstSighted` | LEDApp/src/components/BluetoothManager.jsx:96-118 | after any sequence of scan results the list is the first 10 distinct strong devices in order of first sighting: capping at every step equals capping once at the end |
| `Bluetooth.SightedIds` | LEDApp/src/components/BluetoothManager.jsx:101-115 | an id is in the uncapped list exactly when it was listed or some result reported it with a signal the filter lets through (−70 dBm or stronger, or no strength given) |
| `Bluetooth.ScanListBounded` | LEDApp/src/components/BluetoothManager.jsx:96-118 | starting from any list of at most 10 devices with distinct ids (the empty list after `startScan`), any sequence of scan results leaves at most 10 devices, no id twice, and the starting list as a prefix |
| `Bluetooth.Label` | LEDApp/src/components/BluetoothManager.jsx:197 | a device is shown by its name when the name is present and non-empty, and by its id otherwise |
| `Bluetooth.Scanner.constructor` | LEDApp/src/components/BluetoothManager.jsx:6-11 | not initialised, not scanning, no devices, nothing connected, status "Initialize BLE...", no error |
| `Bluetooth.Scanner.Initialize` | LEDApp/src/components/BluetoothManager.jsx:23-40 | the client is initialised exactly when `initialize` succeeded, with the matching status and error texts |
| `Bluetooth.Scanner.StartScan` | LEDApp/src/components/BluetoothManager.jsx:71-128 | nothing changes unless initialised and not scanning; otherwise the list is emptied and the error cleared, then set to the scan error on failure, and scanning stays on exactly when `requestLEScan` succeeded |
| `Bluetooth.Scanner.OnScanResult` | LEDApp/src/components/BluetoothManager.jsx:96-117 | the list is updated by `AddDevice` when the result carries a device, keeping at most 10 distinct ids; the result is flagged for the auto-connect shortcut exactly when the device is named "TestLED" |
| `Bluetooth.Scanner.StopScan` | LEDApp/src/components/BluetoothManager.jsx:175-187 | nothing changes when not scanning; otherwise scanning ends whether `stopLEScan` succeeded or failed, with the matching status or error |
| `Bluetooth.Scanner.HandleConnect` | LEDApp/src/components/BluetoothManager.jsx:190-223 | nothing changes unless initialised and unconnected; otherwise a running scan is stopped, and the device becomes the connected one on success, while a failure leaves no device connected |
| `Bluetooth.Scanner.OnDisconnected` | LEDApp/src/components/BluetoothManager.jsx:202-208 | the disconnect callback clears the connected device and reports its id |
| `Bluetooth.Scanner.HandleDisconnect` | LEDApp/src/components/BluetoothManager.jsx:225-241 | nothing changes when nothing is connected; a failed `disconnect` forces the connected device to none; a successful one leaves it until the callback runs |
| `Bluetooth.Scanner.SendTestValue` | LEDApp/src/components/BluetoothManager.jsx:130-172 | nothing changes when nothing is connected; otherwise the status reports success or the send error |
| `Coord.Decimal` | LEDApp/src/components/LEDCoordFunction.jsx:16 | a number is written as a non-empty run of decimal digits with no leading zero; zero is the single digit `0` |
| `Coord.NumberText` | LEDApp/src/components/LEDCoordFunction.jsx:16 | a non-negative integer is written with digits only; a negative one is a minus sign followed by at least one digit, the first not a zero |
| `Coord.CoordString` | LEDApp/src/components/LEDCoordFunction.jsx:14-19 | the output is bracketed text of at least five characters |
| `Coord.ParseDecimal` | LEDApp/src/components/LEDCoordFunction.jsx:16 | reading back the digits of `n` gives `n` |
| `Coord.ParseNumberText` | LEDApp/src/components/LEDCoordFunction.jsx:16 | reading back the text of any integer gives that integer |
| `Coord.CoordRoundTrip` | LEDApp/src/components/LEDCoordFunction.jsx:4-16 | parsing the output gives `(row + 1, col + 1)`: the 0-based position in 1-based form |
| `Coord.CoordInjective` | LEDApp/src/components/LEDCoordFunction.jsx:16 | distinct positions give distinct strings |
| `Coord.CoordAlphabet` | LEDApp/src/components/LEDCoordFunction.jsx:16 | for non-negative inputs the output holds only digits, `[`, `,` and `]`, with exactly one comma, and both numbers are at least 1 |
| `Coord.CoordExample` | LEDApp/src/components/LEDCoordFunction.jsx:12-16 | position `(2, 4)` gives `[3,5]`, not the `[3, 5]` of the doc comment |

## Left out

- Local storage and JSON (de)serialisation: storage is the ghost field `stored`, equal to the list last written. Reading back what was written, and storage the app did not write, are not modelled. Only the missing key is: it reads as the empty list.
- Mount-time validation: the panel does not check the list it loads, so the name invariant is only proved to be kept by save and delete, not to hold on mount.
- `Text.LowerChar`: folds only the ASCII capitals `A`-`Z`. Every other character is kept, including the non-ASCII letters that JavaScript's `toLowerCase` folds.
- `Text.ToLower`: folds ASCII letters only. JavaScript's `toLowerCase` folds all of Unicode, so the duplicate test of the model is weaker for non-ASCII names.
- `alert`: the duplicate-name alert is the `DuplicateName` outcome of `SavePreset`.
- Rendering, CSS and the `onGridChange` effect of the board (`LEDApp/src/components/PixelBoard.jsx:12-14`), which only reports the grid upward.
- The BLE plugin (`initialize`, `requestLEScan`, `stopLEScan`, `connect`, `read`, `write`, `disconnect`) is foreign native code. Each call is an `Outcome` parameter. The `TextEncoder`/`TextDecoder` payloads of `sendTestValue` and the logging go with it.
- Timing and concurrency: the handlers are sequential atomic steps. Not modelled: the 5-second `setTimeout(stopScan, 5000)`, async interleaving, and the stale values a closure may see. This includes the `stopScan` captured by that timer and the `handleConnect` called from the scan callback.
- The "TestLED" shortcut: `OnScanResult` reports when it fires; the caller may then call `HandleConnect`. Its own `stopLEScan` call is not a state change of the component.
- The unmount cleanup (`LEDApp/src/components/BluetoothManager.jsx:46-66`).
- `Coord.CoordString`: integers only. `JSON.stringify` writes non-integer numbers, NaN (as `null`) and numbers of 1e21 or more differently, and loses precision past 2^53. The `console.log` is dropped.
- `LEDApp/src/App.jsx` (one HTTP POST) and `LEDApp/src/components/ColorPicker.jsx` (rendering with a constant swatch list) are not part of this model.
