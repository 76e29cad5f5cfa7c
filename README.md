# voicekeyboard core, modelled in Dafny

A Dafny model of the sequential logic inside voicekeyboard, a desktop tool
that listens to a microphone, cuts the audio into voiced spans and
transcribes them, with global hotkeys to start and stop it. Four pieces are
modelled, each in its own module:

- `RingBuffers` (ring_buffer.dfy): the bounded sample buffer `RingBuffer`.
  It is a class whose `chunks: seq<seq<T>>` field stands for the deque and
  whose `length` field is the running count. `Append` evicts whole chunks
  from the oldest end, then trims the oldest remaining chunk. It is proved
  to leave exactly the newest `min(capacity, old + new)` samples of the old
  contents followed by the chunk. Lemmas show that this composes over any
  sequence of appends.
- `Segmentation` (segmentation.dfy): one iteration of the consumer loop
  `processAudioStream`, with the lazy model load `_ensure_models_loaded`.
  The iteration works on a `RingBuffer` object and a `SpeechConverter`
  object, which holds the model-presence flags and a ghost trace of
  collaborator calls. The voice-activity detector, the transcriber and the
  success of a model load are parameters. A detector or transcriber result
  of `None` means the call raised. A `None` chunk means the queue wait timed
  out. Python's slice semantics (`audio_data[start:end]`) and
  `" ".join(...)` are modelled exactly.
- `Settings` (settings.dfy): `SettingsManager.validate`, the type-directed
  string coercion and the early return of `load`, and the value-to-string
  mapping of `save`. Attributes are the instance dictionary, a map from name
  to a value tagged with its Python type. `int()` on strings (whitespace,
  sign, digits with single underscores) and `str()` on integers are written
  out, and their round trip is proved.
- `Hotkeys` (hotkeys.dfy): `HotkeysManager` registrations and the
  `HotkeysService` start/stop/restart state machine. The keyboard facility
  is a `Keyboard` object that records every call made into it. The
  `VOICEKB_DISABLE_HOTKEYS` switch is a boolean parameter. The hotkey
  strings read from the settings are a `HotkeyCombos` parameter. The
  facility follows the `keyboard` library's documented behaviour:
  `clear_all_hotkeys` removes `add_hotkey` registrations only, and
  `unhook_all` removes key hooks too.

In three places the code behaves differently from what its names and
comments suggest, and the model follows the code:

- A transcription error is not caught per span. It leaves the
  `for segment in ...` loop, the remaining spans are not transcribed, and
  `ring.clear()` is skipped (voicekeyboard/stt.py:184-203).
- `HotkeysService.stop()` calls `clear_all_hotkeys` even when hotkeys are
  disabled, so only `start()` makes no call into the facility in that mode
  (voicekeyboard/hotkeys.py:52-54,75-81).
- In `RingBuffer.append` the guard `need > 0` is always true inside the
  eviction loop, because the loop runs only while `length > capacity`. The
  trim always removes fewer samples than the oldest chunk holds
  (voicekeyboard/stt.py:41-52).

## Model

| member | source | states |
|---|---|---|
| `RingBuffers.TotalLengthIsFlattenLength` | voicekeyboard/stt.py:24-39 | the running count (sum of chunk lengths) equals the length of the concatenated stream |
| `RingBuffers.PopOldest` | voicekeyboard/stt.py:42-45 | dropping the oldest chunk of the buffered suffix of the stream leaves a suffix shorter by exactly that chunk's length |
| `RingBuffers.TrimOldest` | voicekeyboard/stt.py:47-51 | cutting `need` leading samples (fewer than it holds) off the oldest chunk leaves a suffix of the stream exactly `need` samples shorter |
| `RingBuffers.NewestIsSuffix` | voicekeyboard/stt.py:40-52 | the kept window has length `min(k, |s|)` and its i-th sample is the matching sample of the stream's tail |
| `RingBuffers.NewestOfAppend` | voicekeyboard/stt.py:30-52 | bounding the window, appending and bounding again equals bounding the whole stream |
| `RingBuffers.AfterAppendsIsNewest` | voicekeyboard/stt.py:30-52 | after any sequence of appends the buffer holds exactly the newest `capacity` samples of everything appended, in arrival order |
| `RingBuffers.RingBuffer.constructor` | voicekeyboard/stt.py:21-24 | capacity is clamped to at least 1; the buffer starts empty with length 0 and satisfies the invariant |
| `RingBuffers.RingBuffer.Clear` | voicekeyboard/stt.py:26-28 | no chunks, length 0, invariant kept |
| `RingBuffers.RingBuffer.Concat` | voicekeyboard/stt.py:54-57 | the view's length is the sum of the chunk lengths; no chunks gives the empty sequence |
| `RingBuffers.Evict` | voicekeyboard/stt.py:40-52 | the eviction loop ends with non-empty chunks whose count matches the running length, at most `capacity`, holding exactly the newest `capacity` samples of the stream |
| `RingBuffers.RingBuffer.Append` | voicekeyboard/stt.py:30-52 | `None` or an empty chunk changes nothing; otherwise the contents become the newest `capacity` samples of old contents followed by the chunk; the invariant (non-empty chunks, length = sum, length <= capacity) is kept and the eviction loop terminates |
| `Segmentation.SliceBound` | voicekeyboard/stt.py:188 | a Python slice bound: negative counts from the end, then clamped into `[0, n]` |
| `Segmentation.PySlice` | voicekeyboard/stt.py:188 | the slice holds the samples from the normalised start up to the normalised end, in order, and is empty when the normalised end is not past the normalised start; it is `s[start..end]` for in-range bounds and empty for `0 <= end <= start` |
| `Segmentation.JoinWithSpaces` | voicekeyboard/stt.py:196 | `" ".join`: empty for no parts; begins with the first part, followed by a space when a second part comes; at least `|parts| - 1` characters |
| `Segmentation.JoinSplitRoundTrip` | voicekeyboard/stt.py:196 | joining segment texts with single spaces loses nothing: splitting on spaces gives them back when none contains a space |
| `Segmentation.NonEmptyTexts` | voicekeyboard/stt.py:196-198 | the typed texts are exactly the non-empty span texts |
| `Segmentation.TranscribeSpans` | voicekeyboard/stt.py:184-198 | the transcriber is called once per span, in order, on that span's slice; each span's text is its segments joined by spaces; the first raising call ends the loop; exactly the non-empty texts are reported as typed |
| `Segmentation.SpeechConverter.constructor` | voicekeyboard/stt.py:84-94 | models start absent and the detector is the no-op one |
| `Segmentation.SpeechConverter.EnsureModelsLoaded` | voicekeyboard/stt.py:112-144 | no load in dry-run mode or when both models are present; otherwise one attempt that installs both models and the detector, or on failure leaves both absent with the no-op detector; models stay all-or-nothing |
| `Segmentation.SpeechConverter.LoadAndDetect` | voicekeyboard/stt.py:178-183 | a load is attempted only outside dry-run mode when a model is missing, and its outcome sets both models; the detector runs (and is recorded) only when the real one is installed, otherwise no span is found |
| `Segmentation.SpeechConverter.FinishBatch` | voicekeyboard/stt.py:184-200 | with no span or no model nothing is transcribed and the buffer is cleared; otherwise the spans are transcribed in order and the buffer is cleared unless a transcription raised, in which case it still holds the window |
| `Segmentation.SpeechConverter.AnalyzeWindow` | voicekeyboard/stt.py:178-200 | at most one load, then the detector; no transcription when no span is found or no model is present; the buffer is cleared unless detection or a transcription raised |
| `Segmentation.SpeechConverter.ProcessStep` | voicekeyboard/stt.py:171-203 | a timeout changes nothing; below `minWindow` after the append no collaborator is called and the buffer is kept; otherwise the window is analysed as above |
| `Settings.ParseInt` | voicekeyboard/settings.py:131 | `int(value)` on a string: an empty or all-whitespace string raises; a negative result needs a leading '-' |
| `Settings.IntToString` | voicekeyboard/settings.py:160 | `str(i)`: non-empty, a leading '-' exactly when `i < 0`, digits everywhere else |
| `Settings.Truthy` | voicekeyboard/settings.py:259 | `bool(v)` is false exactly for `False`, 0, 0.0, the empty string and `None` |
| `Settings.PyInt` | voicekeyboard/settings.py:227-245 | `int(v)` raises exactly for `None` and for a string that is not an integer literal; a bool gives 0 or 1, an int itself, a float its truncation toward zero |
| `Settings.ParseIntRoundTrip` | voicekeyboard/settings.py:130-131 | `int(str(i)) == i` for every integer |
| `Settings.ToIni` | voicekeyboard/settings.py:159-160 | the string `save` writes for a value reads back: `None` as "None", a bool lowercasing to "true" or "false", an int that `int()` parses back to it, a string unchanged |
| `Settings.Saved` | voicekeyboard/settings.py:159-162 | `save` writes one string per attribute, `None` as "None" |
| `Settings.Coerce` | voicekeyboard/settings.py:126-137 | bool is tested before int, so a bool attribute becomes true iff the lowercased value is "true", "1" or "yes" and never raises; a `None` attribute becomes `None` iff the lowercased value is "none" and the raw string otherwise; a string attribute takes the raw string; an int attribute takes `int(value)` and the conversion fails exactly when `int()` raises, and likewise a float attribute with `float(value)`; no other conversion raises; the attribute keeps its type, except that a `None` attribute may become a string |
| `Settings.ApplyItems` | voicekeyboard/settings.py:125-137 | applying the items never adds or removes an attribute, and an attribute that no item names keeps its value (unknown keys are ignored) |
| `Settings.ApplyItemsConcat` | voicekeyboard/settings.py:125-137 | applying two runs of items is applying the first, then the second to its result unless a conversion in the first raised |
| `Settings.ApplyItemsFailsPartWay` | voicekeyboard/settings.py:125-144 | when a conversion raises part-way, the items before it stay applied, none after it is applied, and the result is marked failed |
| `Settings.IsDefaultsRequest` | voicekeyboard/settings.py:117-122 | only the `settingsJustUseDefaults` item asks for the early return, and only when the instance holds `settingsJustUseDefaults = True` and the value lowercases to "true", "1" or "yes" |
| `Settings.Validated` | voicekeyboard/settings.py:224-260 | after `validate` the width is an int >= 50, the height >= 20, the sample rate >= 8000; when the old values convert with `int()` they are exactly `max(50, int(width))`, `max(20, int(height))` and `max(8000, int(rate))`; the channels are 1 or 2, the language truthy; the five touched keys exist; every other attribute is unchanged |
| `Settings.ValidatedIdempotent` | voicekeyboard/settings.py:227-260 | validating twice equals validating once |
| `Settings.ValidatedKeepsInRange` | voicekeyboard/settings.py:227-260 | in-range integer width, height and sample rate, and a truthy language, pass through unchanged |
| `Settings.ValidatedFallbacks` | voicekeyboard/settings.py:227-260 | a non-integer width or height gives 200 by 50; a non-integer rate gives 16000; channels are 2 iff the old value converts to 2; a missing or falsy language becomes "en" |
| `Settings.CoerceRoundTrip` | voicekeyboard/settings.py:128-137 | loading a saved string into an attribute of a compatible type gives the saved value back |
| `Settings.ApplySavedItems` | voicekeyboard/settings.py:125-137 | applying the saved items for some keys sets exactly those keys to the saved values, without failure |
| `Settings.SaveLoadRoundTrip` | voicekeyboard/settings.py:125-162 | the apply loop of `load`, run on the saved section of all attributes into a type-compatible instance, succeeds and reproduces the saved attributes |
| `Settings.LoadSaved` | voicekeyboard/settings.py:96-162 | save-then-load through the whole of `load` into an instance that does not opt in to defaults: no early return, no failure, and the attributes end as `validate` of the saved ones |
| `Settings.NoDefaultsWithoutOptIn` | voicekeyboard/settings.py:115-124 | when the instance does not hold `settingsJustUseDefaults = True`, no file stops the load early |
| `Settings.SettingsManager.constructor` | voicekeyboard/settings.py:21-94 | the attributes are the defaults `__init__` assigns |
| `Settings.SettingsManager.Validate` | voicekeyboard/settings.py:224-260 | the new attributes are `Validated` of the old ones |
| `Settings.SettingsManager.Load` | voicekeyboard/settings.py:96-144 | unreadable file: error reported, nothing applied; no section, or a defaults request while the instance opts in: nothing applied; otherwise items applied in order until a conversion raises (reported, earlier items kept); `validate` runs in every case |
| `Hotkeys.Keyboard.Register` | voicekeyboard/hotkeys.py:17-31 | a registration is appended to the facility's bindings and recorded as one call |
| `Hotkeys.Keyboard.ClearAllHotkeys` | voicekeyboard/hotkeys.py:79 | `clear_all_hotkeys` keeps exactly the key hooks and is recorded as one call |
| `Hotkeys.Keyboard.UnhookAll` | voicekeyboard/hotkeys.py:79 | `unhook_all`, used by the corrected stop, removes every registration and is recorded as one call |
| `Hotkeys.HotkeysManager.constructor` | voicekeyboard/hotkeys.py:13-15 | the manager keeps its two callbacks |
| `Hotkeys.HotkeysManager.RegisterStart` | voicekeyboard/hotkeys.py:17-20 | one `add_hotkey` of the start combo to `start_fn` |
| `Hotkeys.HotkeysManager.RegisterStop` | voicekeyboard/hotkeys.py:22-25 | one `add_hotkey` of the stop combo to `stop_fn` |
| `Hotkeys.HotkeysManager.RegisterPushToTalk` | voicekeyboard/hotkeys.py:27-31 | press registered to `start_fn`, then release to `stop_fn`, on the push-to-talk key |
| `Hotkeys.HotkeysManager.Bindings` | voicekeyboard/hotkeys.py:17-38 | four registrations: the start and stop combos, then press and release hooks on the push-to-talk key; the first and third invoke `start_fn`, the second and fourth `stop_fn` |
| `Hotkeys.HotkeysManager.RegisterAll` | voicekeyboard/hotkeys.py:33-38 | start combo, stop combo, push-to-talk press, push-to-talk release, in that order |
| `Hotkeys.ManagerBindingsDispatch` | voicekeyboard/hotkeys.py:17-38 | with these bindings a push-to-talk press invokes `start_fn` after whatever combo the held keys complete, the release only `stop_fn`; so a press completing no combo, then the release, gives start then stop; completing the start combo on another key invokes `start_fn`, and `stop_fn` as well only when the two combos are the same |
| `Hotkeys.KeyHooks` | voicekeyboard/hotkeys.py:75-81 | what `clear_all_hotkeys` leaves: exactly the registrations that are not `add_hotkey` combos |
| `Hotkeys.TriggeredKeyHooks` | voicekeyboard/hotkeys.py:75-81 | after `clear_all_hotkeys` a key-down invokes the same callbacks whatever keys are held, and an event that completed no combo invokes exactly what it did before |
| `Hotkeys.StaleHooksAfterRestart` | voicekeyboard/hotkeys.py:69-81 | after `stop` a push-to-talk press still invokes the old `start_fn`; after a restart with a second manager a press completing no combo invokes both managers' `start_fn` |
| `Hotkeys.HotkeysService.constructor` | voicekeyboard/hotkeys.py:42-45 | no thread, stop event clear |
| `Hotkeys.HotkeysService.Start` | voicekeyboard/hotkeys.py:47-65 | nothing changes and no facility call is made when the thread is alive or hotkeys are disabled; otherwise the stop event is cleared, the thread runs and the manager's four bindings are registered |
| `Hotkeys.HotkeysService.Stop` | voicekeyboard/hotkeys.py:75-84 | always sets the stop event, calls `clear_all_hotkeys` once and leaves no thread; the combos are gone but the key hooks stay; repeatable |
| `Hotkeys.HotkeysService.RestartWithManager` | voicekeyboard/hotkeys.py:69-73 | stop, swap, start: the manager is the new one; the facility holds the key hooks registered before, then the new manager's bindings unless disabled |
| `Hotkeys.HotkeysService.StopUnhookingAll` | voicekeyboard/hotkeys.py:75-84 | the corrected stop: `unhook_all` leaves no registration, so no keyboard event invokes anything |
| `Hotkeys.HotkeysService.RestartUnhookingAll` | voicekeyboard/hotkeys.py:69-73 | restart over the corrected stop: the facility holds only the new manager's bindings, so a push-to-talk press invokes only the new manager's callbacks (its `start_fn`, after any combo the key alone completes; nothing when disabled) |

## Left out

- Threads, blocking and timing: the thread spawns and joins with timeouts, the blocking `Queue.get(timeout=1)`, the `_process_flag` loop condition, and `time.sleep` polling (voicekeyboard/stt.py:169-173,205-266; voicekeyboard/hotkeys.py:56-66). One loop iteration and a sequential service state machine are modelled instead.
- `SpeechConverter.start`/`stop` only spawn and join threads and close the audio device, so they are not modelled.
- Audio capture: `sounddevice.InputStream` and the floating-point channel-mean downmix in `audioCallback` (voicekeyboard/stt.py:146-153,205-223).
- Whisper and Silero loading and inference are oracles: the detector, the transcriber and whether a load succeeds are parameters. `.astype(numpy.float32)` is the identity on the abstract samples.
- `RingBuffers.RingBuffer.Append`: only 1-D chunks are modelled (the `reshape` just flattens). A stored chunk is a value, so aliasing with the caller's numpy array is not captured.
- `Segmentation.SpeechConverter.ProcessStep`: detector results with a missing `"start"` or `"end"` key (a `KeyError` part-way through the spans) are not modelled. `minWindow` (`max(160, int(sr*0.02))`, a float product) is a parameter with `minWindow >= 160`.
- `Segmentation.SpeechConverter.EnsureModelsLoaded`: a load either installs both models and the detector or fails as a whole, as the `except` branch resets them. The model does not distinguish which import or constructor raised.
- `Settings.Validated`: the `windowOpacity` clamp and the chunk-size derivations `int(rate * float(duration))` are floating point and are not modelled. Those attributes are left unchanged (voicekeyboard/settings.py:232-236,247-257).
- `Settings.SettingsManager.Load`: `float(value)` is an oracle parameter. File reading, `ConfigParser` (interpolation of `%`, whitespace stripping, multi-line values, the DEFAULT section), `messagebox` (a returned failure flag instead), and the singleton `__new__` are not modelled. The round trip is stated on the saved string map, not on the file.
- `Settings.ParseIntRoundTrip`: `int()` is modelled for ASCII digits and the ASCII characters Python counts as whitespace (space, tab, line feed, vertical tab, form feed, carriage return and U+001C to U+001F). Python also accepts Unicode whitespace and digits. `str.lower()` is modelled on ASCII letters, which decides every comparison `load` makes.
- `Settings.SettingsManager.constructor`: `hasattr` also sees class attributes and methods (`load`, `_instance`, ...). Only instance attributes are modelled.
- `save`'s file writing and `setLogging`, `loadHotkeys` and `debugDumpToConsole` are I/O.
- `Hotkeys.HotkeysService.Start`: the service thread is taken to register successfully. A `keyboard` library rejection of a key name, which would end the thread early, is not modelled.
- `Hotkeys.HotkeysService.Stop`: the `keyboard` library is not part of this model. `clear_all_hotkeys` follows its documentation: an alias of `unhook_all_hotkeys`, which removes `add_hotkey` registrations and leaves the `on_press_key`/`on_release_key` hooks.
- `Hotkeys.HotkeysService.RestartWithManager`: its bindings clause rests on the same documented behaviour of `clear_all_hotkeys`. The callbacks are compared by identity; closures over `self` are not modelled.
- `Hotkeys.ManagerBindingsDispatch`: the callbacks an event invokes are listed in registration order. The order in which the `keyboard` library's listener runs key hooks and combos for one event, and the thread it runs them on, are not modelled. A combo is matched by comparing the held-keys string, so key-name normalisation is not modelled.
- GUI, tray, preferences and process control (voicekeyboard/window.py, tray.py, preferences.py, app.py), label updates and logging are left out.

## Findings

| source | as written | input that shows it | evidently intended | confidence | as-written member | corrected member |
|---|---|---|---|---|---|---|
| voicekeyboard/hotkeys.py:75-81 | `stop()` calls `keyboard.clear_all_hotkeys()`, which removes only `add_hotkey` registrations; the press and release hooks from `register_push_to_talk` stay registered | with `hotkeyPushToTalk = "f9"` (a single key, which `on_press_key` accepts; the default `"alt+p"` is a combination, which it refuses), start the service with manager m1, call `restart_with_manager(m2)`, press f9 alone: m1's and m2's `start_fn` both run (after `stop()` alone a press still runs m1's `start_fn`) | stopping removes every registration (`keyboard.unhook_all()`), so after a restart a press runs only the new manager's `start_fn` | medium: not executed; rests on the `keyboard` library's documented behaviour | `Hotkeys.StaleHooksAfterRestart` | `Hotkeys.HotkeysService.RestartUnhookingAll` |
