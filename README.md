# stdAudio device core, modelled in Dafny

This project models the sound-device layer of `stdAudio/audio.h`. That layer is a C++ wrapper over WASAPI, the Windows audio session API. The model covers five parts:

- **The interleaved buffer view** (`cAudioBuffer`), in `interleaved_buffer.dfy`. It is a non-owning view over a block of samples, addressed by (frame, channel). Its six-slot channel table is filled by the constructor's loop.
- **The mix format** (`WAVEFORMATEXTENSIBLE`), in `wave_format.dfy`. This covers the `fixupMixFormat` arithmetic, with WORD and DWORD wrap-around written out. It also covers the switch to 32-bit float that `connect` performs, and the buffer duration `start` hands to `IAudioClient::Initialize`.
- **The device lifecycle** (`cAudioDevice`), in `audio_device.dfy`. It has the following parts:
  - The private constructor's error checks and its three-key name lookup.
  - The move constructor.
  - The getters.
  - `hasUnprocessedIo`, `setSampleRate`, `setBufferSizeFrames` and `connect`.
  - The stepwise `start` and `stop`.
  - The destructor.
  - `process`, which acquires a buffer, calls the application callback and releases the buffer.
  - One iteration of the processing thread's loop.

  The WASAPI side is a `Backend` object. Its fields say what each backend call reports. Its `trace` records, in order, every backend call and application callback that `start`, `stop`, `process` and the destructor make, and the contracts of those operations are stated over it. `hasUnprocessedIo` takes the padding `GetCurrentPadding` reports as a parameter and records no trace entry.
- **Device-change notifications** (`cAudioDeviceMonitor`, `WASAPINotificationClient`), in `device_monitor.dfy`. This covers the per-notification decision of whether a client fires, and the monitor's three slots, one per `cAudioDeviceListEvent`. The enumerator's notification registry is the log of register and unregister calls.
- **Enumeration** (`cAudioDeviceEnumerator`), in `device_enumerator.dfy`. This covers `getDevices`, `getDeviceList` with its `push_front` and its skipping of devices whose constructor throws, and `getDefaultDevice`. The platform's answers are an input value.

Shared types live in `common.dfy`: `Option`, `Result`, the device exception reasons, and the `WORD` and `DWORD` widths.

Two behaviours of the enumeration code are easy to miss:

- An endpoint whose `Activate` fails is still listed. The device constructor returns normally in that case (stdAudio/audio.h:453-455), so the device is listed without an audio client. `Enumerator.NamedEndpointsAllListed` states this.
- Enumeration does not throw when no device enumerator can be created. `getDevices` and `getDefaultDevice` then return an empty result (stdAudio/audio.h:742-743 and 768-769).

## Model

| member | source | states |
|---|---|---|
| `InterleavedBuffer.OffsetInBounds` | stdAudio/audio.h:47-55 | every in-range (frame, channel) pair addresses a sample inside the `numFrames * numChannels` block |
| `InterleavedBuffer.OffsetSplits` | stdAudio/audio.h:53-55 | an interleaved offset divides back into its frame (quotient) and its channel (remainder) |
| `InterleavedBuffer.OffsetInjective` | stdAudio/audio.h:53-55 | two distinct in-range (frame, channel) pairs never address the same sample |
| `InterleavedBuffer.ChannelTableWrites` | stdAudio/audio.h:41-42 | the slots the constructor loop writes (its loop invariant is stated with this function): one per channel; with more channels than `MaxNumChannels`, some slot written lies at or past the end of the six-entry table (lines 62-63); with at most that many, every slot written lies inside it |
| `InterleavedBuffer.AudioBuffer.constructor` | stdAudio/audio.h:38-43 | the view keeps its frame and channel counts, sets the stride to the channel count, and fills slot `i` of a fresh six-slot table with base offset `i` |
| `InterleavedBuffer.AudioBuffer.SizeSamples` | stdAudio/audio.h:47 | the sample count covers every addressable sample and does not exceed the viewed array |
| `InterleavedBuffer.AudioBuffer.At` | stdAudio/audio.h:53-55 | `operator()` reads the sample at `channel + frame * numChannels` of the block |
| `InterleavedBuffer.AudioBuffer.Write` | stdAudio/audio.h:49-51 | a write through `operator()` changes exactly that one sample; every other (frame, channel) reads as before |
| `WaveFormats.Fixup` | stdAudio/audio.h:520-524 | the fix-up changes only `nBlockAlign` and `nAvgBytesPerSec` |
| `WaveFormats.FixupExact` | stdAudio/audio.h:520-524 | when nothing overflows, `nBlockAlign = nChannels * bits / 8` and `nAvgBytesPerSec = rate * bits * nChannels / 8` |
| `WaveFormats.ForceFloat` | stdAudio/audio.h:352-355 | `connect` makes the sub-format IEEE float with 32 (valid) bits and keeps the channel count and the rate |
| `WaveFormats.ForceFloatConsistent` | stdAudio/audio.h:352-355 | after the rewrite, a realistic format has four bytes per sample per channel and `nAvgBytesPerSec = nSamplesPerSec * nBlockAlign` |
| `WaveFormats.WithSampleRate` | stdAudio/audio.h:286-292 | `setSampleRate` sets the rate and keeps the sub-format, channels and bit depths |
| `WaveFormats.BufferDurationIsFloor` | stdAudio/audio.h:376-378 | the buffer duration is the floor of `10'000'000 * frames / rate` and fits a signed 64-bit REFERENCE_TIME |
| `Device.FirstValueIsFirstSuccess` | stdAudio/audio.h:479-491 | the `||` chain of `try_acquire_name` yields nothing exactly when every key fails, and otherwise the value of the first key that succeeds |
| `Device.DeviceNameOrder` | stdAudio/audio.h:489-491 | the name is the friendly name; failing that, the interface friendly name; failing that, the description; failing all three, empty |
| `Device.OpenEndpoint` | stdAudio/audio.h:439-458 | the constructor succeeds exactly when the device is non-null and has a non-empty id and a non-empty name, raising "null", "no id" and "no name" in that order; a device whose activation fails is still built, without a client |
| `Device.StartPlan.CallsMade` | stdAudio/audio.h:372-396 | a start attempt stops at its first failing step, and it makes all nine calls exactly when every step succeeds |
| `Device.FailedStartSpawnsNothing` | stdAudio/audio.h:372-410 | a start attempt that fails at any step spawns no thread and invokes no start callback |
| `Device.StopCalls` | stdAudio/audio.h:419-430 | `stop` on a running device ends with the stop callback, and invokes it exactly once |
| `Device.AvailableFrames` | stdAudio/audio.h:311-315 | `bufferFrameCount - padding` (also in `hasUnprocessedIo`, line 280) in UINT32 arithmetic: exact when the padding fits, wrapped modulo 2^32 otherwise, and zero exactly when the two are equal |
| `Device.AudioDevice.FromInfo` | stdAudio/audio.h:439-458 | a new device holds the endpoint's id, name, client and mix format; it has no services, no event, a zero buffer size, no callbacks, and is not running |
| `Device.AudioDevice.MoveAsWritten` | stdAudio/audio.h:185-206 | the new device takes over every field; the source loses its handles and its thread but stays marked running |
| `Device.AudioDevice.Move` | stdAudio/audio.h:185-206 | as `MoveAsWritten`, but the source is also left stopped (the correction in Findings) |
| `Device.AudioDevice.HasUnprocessedIo` | stdAudio/audio.h:269-282 | there is no unprocessed I/O without an audio client or while stopped |
| `Device.AudioDevice.SetSampleRate` | stdAudio/audio.h:286-292 | returns true and replaces the format by the re-fixed-up format at the new rate |
| `Device.AudioDevice.SetBufferSizeFrames` | stdAudio/audio.h:295-298 | returns true and sets the buffer size |
| `Device.AudioDevice.Connect` | stdAudio/audio.h:350-361 | the format becomes 32-bit float even on a running device; a running device then throws and keeps its old callback, and a stopped one installs the new callback |
| `Device.AudioDevice.Start` | stdAudio/audio.h:365-414 | no client: returns false and changes nothing. Already running: returns true and changes nothing (no second event, no second thread). Otherwise, specified by `StartedFrom`: succeeds exactly when every backend step succeeds; records the buffer size and services only once the steps that set them are reached; marks the device running and stores the stop callback only on success; the trace is the planned call sequence cut at the first failure |
| `Device.AudioDevice.OpenStream` | stdAudio/audio.h:372-392 | the event, Initialize with the computed duration and the current format, both services and GetBufferSize, stopping at the first failure |
| `Device.AudioDevice.Stop` | stdAudio/audio.h:417-433 | always returns true and leaves the device stopped with no joinable thread; a stopped device is unchanged; a running one joins the thread, stops the stream, closes the event and calls the stop callback, each only if present |
| `Device.AudioDevice.Destroy` | stdAudio/audio.h:237-252 | the destructor stops first (the same calls as `stop`) and then drops every COM handle |
| `Device.AudioDevice.Process` | stdAudio/audio.h:303-347 | the status and the calls made are those of `ProcessCalls`: `process` as written, plus the channel check from Findings after the client check; the buffer view built over the acquired buffer fits the channel table and the buffer |
| `Device.AudioDevice.Step` | stdAudio/audio.h:402-404 | a running device with a connected callback does exactly what `process` does with it; otherwise nothing happens |
| `Device.ChannelCountsSplit` | stdAudio/audio.h:258-262 | a device is input or output, never both; the getter for the other direction reports zero channels, and the two counts add up to the format's channels |
| `Device.ProcessLeasesBalanced` | stdAudio/audio.h:311-346 | in one `process` call the callback runs at most once; it runs between the GetBuffer that produced its view and a ReleaseBuffer of exactly the same frame count (flags 0 on render); nothing is released without a callback; the view has the format's channel count |
| `Device.ProcessEarlyExits` | stdAudio/audio.h:305-309 | a non-float sample type throws before the backend is touched; a float device without a client does nothing, whatever its channel count |
| `Device.RenderCallbackFrames` | stdAudio/audio.h:312-325 | on a render device with a buffer, the callback runs exactly when the padding differs from the buffer size, on `bufferFrameCount - padding` frames |
| `Device.CaptureCallbackFrames` | stdAudio/audio.h:331-345 | on a capture device with a buffer, the callback runs exactly when a packet is pending, and the frame count GetBuffer reports is the one released |
| `Device.UnprocessedIoMatchesProcess` | stdAudio/audio.h:269-282 | on a running render device, `hasUnprocessedIo` is true exactly when `process` would run the callback |
| `Device.MoveRunningAsWritten` | stdAudio/audio.h:185-206 | moving a running device and destroying both devices runs the stop callback twice, the first time for the moved-from device, which owns no stream |
| `Device.MoveRunning` | stdAudio/audio.h:185-206 | with the corrected move, the same sequence runs the stop callback once |
| `Device.AsWrittenViewOverrunsTable` | stdAudio/audio.h:303-347 | as written, every float device wider than the table that has a client, pending frames and a non-null buffer reaches the view's construction and hands the callback a view over all its channels, so the constructor loop (lines 41-42) writes a slot at or past the end of the table (lines 62-63); the corrected `process` refuses the same device before any backend call |
| `Device.CorrectionKeepsNarrowFormats` | stdAudio/audio.h:303-347 | for a format the table can hold, the corrected `process` does exactly what the code as written does |
| `Device.CorrectedProcessRefusesWideFormat` | stdAudio/audio.h:303-347 | with the channel check, a float device with a client whose format is wider than the table is refused before any backend call, and no callback runs |
| `Device.StartedDeviceHasServices` | stdAudio/audio.h:387-388 | a start that succeeds and obtains the service for the device's direction leaves a non-null service on every path of `process` that dereferences one |
| `Device.StartSucceedsWithoutService` | stdAudio/audio.h:387-398 | `start` ignores the GetService results: a render device can be left running without a render service |
| `Monitor.SlotOf` | stdAudio/audio.h:567-570 | each event maps to one of the three slots |
| `Monitor.SlotOfInjective` | stdAudio/audio.h:567-570 | distinct events use distinct slots |
| `Monitor.Fires` | stdAudio/audio.h:623-677 | default-device changes fire only for the console role: render changes only the default-output client, capture changes only the default-input client, and any other flow fires every client; added, removed and state-changed fire exactly the list-changed client; property changes never fire |
| `Monitor.AtMostOneKindFires` | stdAudio/audio.h:623-671 | apart from a console default change on all flows, a notification fires at most one kind of client |
| `Monitor.KindsDoNotCross` | stdAudio/audio.h:623-671 | default-device clients fire only on console default changes; the list client fires on a default change only when it names no single flow |
| `Monitor.UnregisterAll` | stdAudio/audio.h:595-596 | the destructor's loop makes only unregistration calls, at most one per slot |
| `Monitor.UnregisterAllNamesOccupants` | stdAudio/audio.h:595-596 | the destructor's loop unregisters exactly the clients the slots hold |
| `Monitor.DeviceMonitor.constructor` | stdAudio/audio.h:581-587 | a new monitor has three empty slots and has registered nothing |
| `Monitor.DeviceMonitor.RegisterCallback` | stdAudio/audio.h:567-570 | the new client registers first, is stored in its event's slot, and only then does the client it replaces unregister; the other slots are untouched; afterwards exactly one registered client serves the event |
| `Monitor.DeviceMonitor.ClearCallback` | stdAudio/audio.h:573-576 | the event's slot is emptied, its client (if any) unregisters, the other slots are untouched, and no registered client serves the event |
| `Monitor.DeviceMonitor.ResetSlot` | stdAudio/audio.h:615-618 | resetting one slot empties it and unregisters the client it held, and nothing else |
| `Monitor.DeviceMonitor.Destroy` | stdAudio/audio.h:590-599 | every slot is reset in slot order and then the enumerator is released; nothing is left registered |
| `Monitor.ClientsForIsSlot` | stdAudio/audio.h:567-576 | the registered clients for an event are exactly the occupant of its slot |
| `Monitor.WokenAreFiringSlots` | stdAudio/audio.h:623-677 | a notification wakes exactly the slot occupants whose event it fires for |
| `Monitor.ListChangeWakesListSlot` | stdAudio/audio.h:643-671 | device added, removed or state changed wakes the list-changed client and no other |
| `Monitor.SetAudioDeviceListCallback` | stdAudio/audio.h:713-715 | forwards to the monitor's `registerCallback` |
| `Enumerator.KeptMembers` | stdAudio/audio.h:785-796 | an endpoint is returned exactly when some index's `Item` call succeeded with it |
| `Enumerator.KeptAppend` | stdAudio/audio.h:785-796 | the kept endpoints of a split collection are the kept endpoints of each part, in order |
| `Enumerator.GetDevices` | stdAudio/audio.h:759-799 | empty when the enumerator, the collection or the count fails; otherwise, in index order, the items whose `Item` succeeded with a non-null device |
| `Enumerator.OpenedMembers` | stdAudio/audio.h:808-822 | a device is listed exactly when its endpoint's constructor succeeds; a throwing constructor drops its endpoint silently |
| `Enumerator.NamedEndpointsAllListed` | stdAudio/audio.h:453-455 | endpoints that all have an id and a name are all listed, those whose activation failed without a client |
| `Enumerator.Reverse` | stdAudio/audio.h:813 | `push_front` of each element in turn keeps the length |
| `Enumerator.ReverseIndex` | stdAudio/audio.h:813 | element `k` of the list is element `n - 1 - k` of the input |
| `Enumerator.PushFrontStep` | stdAudio/audio.h:808-814 | each step of the loop puts the next constructed device at the front |
| `Enumerator.ConstructAll` | stdAudio/audio.h:808-822 | returns fresh, distinct devices, one per successfully constructed endpoint, in reverse endpoint order, each in its freshly constructed state |
| `Enumerator.GetDeviceList` | stdAudio/audio.h:802-825 | the devices built from `getDevices`' endpoints, in reverse order, skipping those whose constructor throws |
| `Enumerator.DefaultInfo` | stdAudio/audio.h:732-756 | a default device exists exactly when the enumerator is created, the default endpoint is found, and its constructor succeeds; it then has an id and a name |
| `Enumerator.GetDefaultDevice` | stdAudio/audio.h:732-756 | returns a freshly constructed device exactly when `DefaultInfo` does, in that device's initial state |

## Left out

- COM plumbing is left out: `cComInitializer`, `cAutoRelease`, `CoCreateInstance` beyond its success flag, the interface-id getters, and `QueryInterface`, `AddRef` and `Release`. These are foreign calls with no state logic.
- `convertString` is left out. It is a `WideCharToMultiByte` wrapper; names are already strings in the model.
- The processing thread, `SetThreadPriority`, `WaitForSingleObject`, the atomic `mRunning`, and `join` itself are left out. `Step` models one iteration of the thread's loop, run sequentially; concurrency is not modelled.
- Sample values are left out. Samples are an abstract element type, because floating point plays no part in indexing.
- Move assignment is left out. It has no `return` on its main path, and it does not release the destination's handles.
- Leaked handles are left out: the event and services after a partial `start` failure, and the `Release` calls in the destructor. These are resource cleanup, not observable behaviour.
- Monitor failure handling is left out:
  - A failure to create the monitor's enumerator, which throws in the singleton constructor.
  - The null-enumerator check in the notification client's constructor.
  - The null-enumerator early return in the monitor's destructor.

  The model's monitor always holds an enumerator.
- `Monitor.DeviceMonitor.RegisterCallback`: an empty `std::function` passed to `setAudioDeviceListCallback` is modelled as a callback like any other, as the code treats it.
- The `Device.AudioDevice.Start` callbacks are always present. The default no-op lambdas of `start` are not distinguished from user callbacks.
- `WaveFormats.Fixup`: `nChannels * wBitsPerSample` is computed in signed `int` and can overflow for absurd formats. The model computes the exact product and keeps its low 16 bits.
- `WaveFormats.BufferDuration` requires a non-zero rate. The source divides unchecked, and `Device.AudioDevice.Start` demands the non-zero rate only where it divides.
- The default `cAudioBuffer` constructor, which holds no data, is not part of this model.
- `Device.AudioDevice.MoveAsWritten` and `Device.AudioDevice.Move`: the moved-from `std::string` and `std::function` members are in a valid but unspecified state after the move. The model leaves them unchanged.
- The capture path's `flags` output of `GetBuffer`, and the timestamp outputs, are modelled as ignored, since the code ignores them.
- `wait()` is not modelled separately. It is the blocking part of the thread loop.
- `Device.AudioDevice.Process` requires that the service it dereferences is non-null. The source dereferences it unchecked, and `start` ignores the GetService results (stdAudio/audio.h:387-388). So the model leaves out the null-service crash. This crash happens for a capture device processed before `start`, or after a start whose service request failed, as `Device.StartSucceedsWithoutService` shows; it also happens for a render device processed before `start` once `setBufferSizeFrames` has made frames available. `Device.StartedDeviceHasServices` states when the requirement holds after `start`.
- `Device.AudioDevice.Step` has the same requirement as `Device.AudioDevice.Process`, for the same reason.
- `Device.AudioDevice.HasUnprocessedIo` takes the padding as a parameter. Its `GetCurrentPadding` call is not recorded in the trace.
- The moved-to device's processing thread is left out. Its lambda captures the moved-from `this` and loops on that device's `mRunning` (stdAudio/audio.h:399-403). Under the corrected `Device.AudioDevice.Move`, that thread would therefore exit at once; the correction is self-consistent only because the thread is not modelled.

## Findings

| source | as written | input that shows it | evidently intended | confidence | as-written member | corrected member |
|---|---|---|---|---|---|---|
| stdAudio/audio.h:303-347 | `process` (lines 305-306) checks only the sample type before building a `cAudioBuffer` over `mMixFormat.Format.nChannels` channels; the buffer's constructor writes `mChannels[i]` for every `i < numChannels` into a six-entry array, which release builds (no `assert`) overrun | an IEEE-float mix format with 8 channels (7.1), as `connect` produces for such a device | a format wider than the six-channel table is refused rather than written past the table | not executed; high | `Device.AsWrittenViewOverrunsTable` | `Device.AudioDevice.Process` |
| stdAudio/audio.h:185-206 | the move constructor nulls the source's handles but copies `mRunning` without clearing it in the source, so destroying the moved-from device calls `stop()`, which calls the moved-from stop callback (or throws `std::bad_function_call` out of the destructor when that function is empty) | move-construct from a running device, then destroy both devices | the moved-from device is left stopped, like its handles (the processing thread, which captured the moved-from `this` at lines 399-403, would then also stop; a full fix also re-targets the thread) | not executed; medium | `Device.MoveRunningAsWritten` | `Device.MoveRunning` |
