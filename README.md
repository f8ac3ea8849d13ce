# Barcode scanner check: capture engine and scan log

This project models the core of a small barcode-scanner test screen, written once for Angular
and once for React. The parts modelled are:

- the **keyboard-wedge accumulator** of `UrovoScannerService`. Key presses whose JavaScript
  length is one (counted in UTF-16 code units) are collected in a `buffer`. `Enter` flushes a
  non-empty buffer as one emission. A 100 ms reset timeout drops a buffer that is typed too
  slowly.
- the **paste handlers**. The service emits the clipboard text whenever a clipboard object
  exists. The `useScannerListener` hook emits it only when it is non-empty, tagged `'clipboard'`.
- the **scan log** kept by both `ScannerCheckComponent`s. Entries are newest first, every entry
  is tagged `'clipboard'`, and `handleClear` empties the list.
- the **date and time formatting** (`formatDate` of `utils/dateUtils.ts`, and `formatDate` /
  `formatTime` of the React component). This is zero padding and concatenation over the
  integer fields of a date.

Modules follow the source files:

| module | file |
|---|---|
| `Common` (`common.dfy`) | `Option`, and `Channel` (`'clipboard' \| 'keyboard'`) |
| `Clipboard` (`clipboard.dfy`) | the `event.clipboardData \|\| window.clipboardData` fallback shared by both paste handlers |
| `UrovoScannerService` (`urovo_scanner_service.dfy`) | the accumulator as functions of the input history (`Step`, `Run`), its lemmas, and the class `ScannerService` |
| `UseScannerListener` (`use_scanner_listener.dfy`) | the hook's `onEvent` |
| `ScanLog` (`scan_log.dfy`) | `ScanResult`, the prepend updater, the log after a run of scans |
| `ScannerCheckNg` (`scanner_check_ng.dfy`) | the Angular component's `scanResult` signal |
| `ScannerCheckReact` (`scanner_check_react.dfy`) | the React component's `results` state and its date/time formatting |
| `NumberText` (`number_text.dfy`) | `Number.prototype.toString` for integers, and `String.prototype.padStart` |
| `DateUtils` (`date_utils.dfy`) | `pad` and `formatDate` |

The class `ScannerService` updates `buffer`, `timerArmed` and `listening` in place. It also
keeps two ghost fields: `emitted` (every string pushed to the `scannerInput` subject) and
`history` (every event that reached a handler). Its invariant `Valid()` fixes the fields to
`Run(history)`, so each lemma proved about `Run` holds for the object at every point.
The real clock is not modelled. The timeout's expiry is the explicit method `OnTimerFires`.
The `Date` object is replaced by the integers its getters return (`LocalDate`), and the time
a scan arrives is taken as an integer parameter.

The model follows the code in three places where a reader might expect otherwise:

- The service emits the empty string when the clipboard text is empty. Only the hook drops it.
  `EmissionsNonEmpty` therefore assumes there is no empty paste. `EmptyPasteEmitted` and
  `AgreesWithServiceExceptEmpty` show the difference.
- `ngOnDestroy` removes the listeners but does not cancel a pending reset timeout. After
  destruction the timeout can still fire. It only clears the buffer and never emits.
- Both components tag every entry `'clipboard'`, including keyboard-wedge scans. The React
  component also ignores the channel argument passed by the hook.

## Model

| member | source | states |
|---|---|---|
| `Clipboard.ClipboardText` | app/services/urovo-scanner.service.ts:42-44 | The event's clipboard object is used when present; otherwise the window's; the result is absent exactly when both are |
| `UrovoScannerService.Utf16Length` | app/services/urovo-scanner.service.ts:85 | `event.key.length` counts UTF-16 code units: between one and two per character, and exactly one only for a single character of the Basic Multilingual Plane |
| `UrovoScannerService.IsEnter` | app/services/urovo-scanner.service.ts:70 | The terminator is the key named "Enter", whatever modifiers are held; `ModifiedEnterFlushes` carries its consequence |
| `UrovoScannerService.IsAppendable` | app/services/urovo-scanner.service.ts:85 | A key is appended only when its JavaScript length is one and ctrl, alt and meta are all up; such a key is one Basic Multilingual Plane character and never "Enter" |
| `UrovoScannerService.Step` | app/services/urovo-scanner.service.ts:40-90 | One event emits at most once; a key press emits exactly when it is Enter on a non-empty buffer, and then emits that buffer and leaves the accumulator idle; a paste leaves the accumulator untouched |
| `UrovoScannerService.Run` | app/services/urovo-scanner.service.ts:40-90 | The service after a history of events, from its constructed state; no history emits more strings than it has events |
| `UrovoScannerService.ArmedIffBuffered` | app/services/urovo-scanner.service.ts:70-88 | After any history a reset is pending exactly when the buffer is non-empty (Idle / Accumulating are the only states) |
| `UrovoScannerService.BufferIsKeysSinceLastCut` | app/services/urovo-scanner.service.ts:80-88 | The buffer is always the concatenation of the unmodified keys of JavaScript length one pressed since the last Enter or reset |
| `UrovoScannerService.EnterEmitsKeysSinceLastCut` | app/services/urovo-scanner.service.ts:70-83 | Enter emits exactly the keys accepted since the last cut, once, when there are any, emits nothing otherwise, and leaves the accumulator idle |
| `UrovoScannerService.EmissionsNonEmpty` | app/services/urovo-scanner.service.ts:40-90 | Every emission is non-empty as long as no paste carried empty text (keyboard emissions are never empty) |
| `UrovoScannerService.FastBurstCaptured` | app/services/urovo-scanner.service.ts:68-90 | Any four plain keys (7, 7, 1, 2, say) then Enter emit exactly those four characters ("7712") once and end idle |
| `UrovoScannerService.SlowTypingDiscarded` | app/services/urovo-scanner.service.ts:85-88 | Two plain keys, each followed by the reset firing, emit nothing and leave the buffer empty |
| `UrovoScannerService.BareEnterIgnored` | app/services/urovo-scanner.service.ts:70-83 | A lone Enter emits nothing |
| `UrovoScannerService.ModifiedEnterFlushes` | app/services/urovo-scanner.service.ts:70-85 | Enter is tested before the modifiers: a plain key then Enter with any of ctrl, alt, meta held still emits that key |
| `UrovoScannerService.EmptyPasteEmitted` | app/services/urovo-scanner.service.ts:43-64 | A paste of empty clipboard text is emitted as the empty string |
| `UrovoScannerService.AstralKeyIgnored` | app/services/urovo-scanner.service.ts:85-90 | A key outside the Basic Multilingual Plane (an emoji, length two) is not appended, so the Enter after it emits nothing |
| `UrovoScannerService.ScannerService.constructor` | app/services/urovo-scanner.service.ts:24-28 | Starts with an empty buffer, no timeout, no emissions; listening exactly on the browser platform |
| `UrovoScannerService.ScannerService.OnKeyDown` | app/services/urovo-scanner.service.ts:68-90 | Enter with a non-empty buffer emits it once and clears buffer and timeout; Enter with an empty buffer changes nothing; an accepted key (JavaScript length one, no ctrl, alt or meta) is appended at the end and re-arms the one pending reset; any other key, or any key after destruction, changes nothing |
| `UrovoScannerService.ScannerService.OnTimerFires` | app/services/urovo-scanner.service.ts:88 | The reset clears the buffer, disarms, and emits nothing |
| `UrovoScannerService.ScannerService.OnPaste` | app/services/urovo-scanner.service.ts:40-66 | While listening, a paste with a clipboard object emits its text unchanged (no emptiness check); without one, or after destruction, nothing changes |
| `UrovoScannerService.ScannerService.NgOnDestroy` | app/services/urovo-scanner.service.ts:93-102 | Listening stops; buffer, pending timeout and emissions are untouched |
| `UseScannerListener.OnEvent` | hooks/useScannerListener.ts:12-24 | At most one scan; one exactly when a clipboard object exists and its text is non-empty; it carries that text unchanged, tagged clipboard |
| `UseScannerListener.AgreesWithServiceExceptEmpty` | hooks/useScannerListener.ts:18-23 | The hook emits what the service emits for the same paste, except that an empty text is emitted by the service and dropped by the hook |
| `ScanLog.NewEntry` | app/components/scanner-check.component.ts:105-109 | The entry built for a received barcode; `NewestFirstReverses` states that it keeps the barcode and the time and is tagged clipboard |
| `ScanLog.Prepend` | app/components/scanner-check.component.ts:111 | The new entry is first, the old list follows unchanged, the length grows by one |
| `ScanLog.NewestFirst` | app/components/scanner-check.component.ts:104-111 | The log after a run of scans has one entry per scan, and its first entry is the entry for the latest scan |
| `ScanLog.NewestFirstReverses` | app/components/scanner-check.component.ts:104-111 | The log after any run of scans is that run reversed, each barcode and time kept and tagged clipboard |
| `ScanLog.ThreeScansNewestFirst` | app/components/scanner-check.component.ts:101-112 | After X, Y, Z the log reads Z, Y, X |
| `ScannerCheckNg.ScannerCheckComponent.constructor` | app/components/scanner-check.component.ts:96 | The signal starts as the empty list |
| `ScannerCheckNg.ScannerCheckComponent.OnScannerInput` | app/components/scanner-check.component.ts:104-112 | A received barcode is prepended as a clipboard entry; the log stays the reversed run of received scans |
| `ScannerCheckNg.ScannerCheckComponent.HandleClear` | app/components/scanner-check.component.ts:115-117 | The list becomes empty whatever it held, so clearing twice equals clearing once |
| `ScannerCheckReact.ScannerCheckComponent.constructor` | components/ScannerCheckComponent.tsx:6 | The results start as the empty list |
| `ScannerCheckReact.ScannerCheckComponent.OnScan` | components/ScannerCheckComponent.tsx:8-17 | The channel argument is ignored; the barcode is prepended as a clipboard entry |
| `ScannerCheckReact.ScannerCheckComponent.OnPaste` | components/ScannerCheckComponent.tsx:8 | A paste through the hook adds exactly one entry when the hook emits and none otherwise |
| `ScannerCheckReact.ScannerCheckComponent.HandleClear` | components/ScannerCheckComponent.tsx:19-21 | The list becomes empty whatever it held |
| `ScannerCheckReact.FormatDate` | components/ScannerCheckComponent.tsx:23-28 | `dd.MM.yyyy`; its properties are stated by `FormatDateAnyYear` and `FormatDateLayout` |
| `ScannerCheckReact.FormatTime` | components/ScannerCheckComponent.tsx:30-35 | `HH:mm:ss`; its properties are stated by `FormatTimeLayout` |
| `ScannerCheckReact.FormatsMatchDateUtils` | components/ScannerCheckComponent.tsx:23-35 | The component's date and time formats joined by a space are the utility's `formatDate` |
| `ScannerCheckReact.FormatDateAnyYear` | components/ScannerCheckComponent.tsx:23-28 | For any year, the year is written unpadded and uncut: it is everything after the six characters `dd.MM.` |
| `ScannerCheckReact.FormatDateLayout` | components/ScannerCheckComponent.tsx:23-28 | Ten characters: two-digit day, dot, two-digit 1-based month, dot, unpadded four-digit year, each reading back as its field |
| `ScannerCheckReact.FormatTimeLayout` | components/ScannerCheckComponent.tsx:30-35 | Eight characters `HH:mm:ss`, each field two digits reading back as its value |
| `NumberText.DecimalString` | utils/dateUtils.ts:2 | The decimal text of a number is non-empty, all digits, one digit exactly below 10, with no leading zero unless the number is 0 |
| `NumberText.DecimalRoundTrip` | utils/dateUtils.ts:2 | Reading back the decimal text of n gives n |
| `NumberText.NumberToString` | utils/dateUtils.ts:6-14 | `${yyyy}` for any integer: non-empty, a leading minus exactly for a negative year, and the digits after it read back as the magnitude |
| `NumberText.PadStart` | utils/dateUtils.ts:2 | The text is kept when already wide enough; otherwise it is preceded by fill characters up to the width |
| `DateUtils.Pad` | utils/dateUtils.ts:2 | `n.toString().padStart(2, '0')`; its properties are stated by `PadSpec` and `PadWidth` |
| `DateUtils.PadSpec` | utils/dateUtils.ts:2 | `pad(n)` is "0" and the digit for 0..9; the plain decimal from 10 on; two characters exactly up to 99; reads back as n |
| `DateUtils.PadOneDigit` | utils/dateUtils.ts:2 | For 0..9, `pad(n)` is "0" followed by the digit, and reads back as n |
| `DateUtils.PadNoFill` | utils/dateUtils.ts:2 | From 10 on, `pad(n)` is the plain decimal text, two characters exactly up to 99, and reads back as n |
| `DateUtils.PadWidth` | utils/dateUtils.ts:2 | Up to 99, `pad(n)` is two digits that read back as n |
| `DateUtils.FormatDate` | utils/dateUtils.ts:1-15 | The template `dd.MM.yyyy HH:mm:ss`; its properties are stated by `FormatDateAnyYear` and `FormatDateLayout` |
| `DateUtils.FormatDateAnyYear` | utils/dateUtils.ts:4-14 | For in-range fields and any year, the year is written unpadded and uncut: with k its length the text is 15 + k characters, `dd.MM.` in front of the year and ` HH:mm:ss` behind it |
| `DateUtils.FormatDateLayout` | utils/dateUtils.ts:4-14 | For in-range fields and a four-digit year: 19 characters with separators at 2, 5, 10, 13, 16 and fields day, month+1 (in 1..12), year, hours, minutes, seconds reading back in that order |

## Left out

- Angular and React rendering, the templates and the `MockMatTooltip` directive: display only.
- DOM listener registration, `NgZone.run` / `runOutsideAngular`, and `event.stopPropagation()`. The registered listeners are the boolean `listening`. `isPlatformBrowser` is the constructor argument `isBrowser`.
- The hook's `useEffect` registration, its cleanup and re-registration when `onScan` changes: host plumbing. The React model calls the hook's handler directly (`OnPaste`).
- `setTimeout` / `clearTimeout` and wall-clock time. The 100 ms interval is the constant `ResetTimeoutMs`. Its expiry is the explicit `OnTimerFires`, which may only be called while a reset is pending.
- The rxjs `Subject` and `takeUntilDestroyed`. Emissions are the ghost sequence `emitted`, and the Angular component's subscriber is the method `OnScannerInput`.
- The `async` paste handlers are modelled as running to completion in one call. Their bodies contain no `await` and `getData` is synchronous, so each handler finishes in the turn in which its event arrives.
- `getData('text')` always returns a string, as the DOM's `DataTransfer` does. A legacy `window.clipboardData` returning `null` is not modelled.
- The `Date` object and its getters: their results are parameters. An invalid date (getters returning `NaN`) is not modelled.
- The React screen has no keydown listener, so its keyboard channel is not modelled.
- `main.ts`, `app/app.component.ts`, `app/tokens.ts` and `App.tsx` hold only bootstrap and dependency-injection wiring.
