/** cAudioDevice: one endpoint's lifecycle (connect, start, stop, process)
    over an abstract WASAPI backend. The backend is an oracle object: its
    fields are the outcomes its calls report, and `trace` records, in order,
    every call the device makes on it and every application callback the
    device invokes. */
module Device {
  import opened Common
  import opened WaveFormats
  import opened InterleavedBuffer

  /** Sample values are not modelled; an integer stands in for float. */
  type Sample = int

  // ---------------------------------------------------------------------
  // Construction: the private constructor's checks and the name lookup.
  // ---------------------------------------------------------------------

  datatype PropertyKey = DeviceFriendlyName | InterfaceFriendlyName | DeviceDesc

  /** The property keys tried for the display name, in order. */
  const NameKeys: seq<PropertyKey> := [DeviceFriendlyName, InterfaceFriendlyName, DeviceDesc]

  /** An IMMDevice as the constructor sees it: what GetId returns, the
      property store (None when OpenPropertyStore fails; a key is present
      when GetValue succeeds, mapped to its converted value), whether
      Activate yields an IAudioClient, and what GetMixFormat returns. */
  datatype Endpoint = Endpoint(
    id: Option<string>,
    properties: Option<map<PropertyKey, string>>,
    activates: bool,
    mixFormat: Option<WaveFormat>)

  /** try_acquire_name chained with `||`: the value of the first key whose
      GetValue succeeds. */
  function FirstValue(store: map<PropertyKey, string>, keys: seq<PropertyKey>): Option<string>
    decreases |keys|
  {
    if keys == [] then None
    else if keys[0] in store then Some(store[keys[0]])
    else FirstValue(store, keys[1..])
  }

  /** The lookup falls through exactly the failing keys and stops at the
      first success. */
  lemma {:induction false} FirstValueIsFirstSuccess(store: map<PropertyKey, string>, keys: seq<PropertyKey>)
    ensures FirstValue(store, keys).None? <==> forall i :: 0 <= i < |keys| ==> keys[i] !in store
    ensures FirstValue(store, keys).Some? ==>
      exists i :: 0 <= i < |keys| && keys[i] in store && FirstValue(store, keys).value == store[keys[i]] &&
        forall j :: 0 <= j < i ==> keys[j] !in store
    decreases |keys|
  {
    if keys != [] {
      FirstValueIsFirstSuccess(store, keys[1..]);
      if keys[0] in store {
        assert keys[0] in store && FirstValue(store, keys).value == store[keys[0]];
      } else {
        assert forall i :: 1 <= i < |keys| ==> keys[i] == keys[1..][i - 1];
        if FirstValue(store, keys[1..]).Some? {
          var i :| 0 <= i < |keys[1..]| && keys[1..][i] in store &&
            FirstValue(store, keys[1..]).value == store[keys[1..][i]] &&
            forall j :: 0 <= j < i ==> keys[1..][j] !in store;
          assert keys[i + 1] in store && FirstValue(store, keys).value == store[keys[i + 1]];
          assert forall j :: 0 <= j < i + 1 ==> keys[j] !in store by {
            forall j | 0 <= j < i + 1 ensures keys[j] !in store {
              if j > 0 { assert keys[j] == keys[1..][j - 1]; }
            }
          }
        }
      }
    }
  }

  /** initDeviceIdName's name: empty when the store cannot be opened or no key succeeds. */
  function DeviceName(properties: Option<map<PropertyKey, string>>): string {
    match properties
    case None => ""
    case Some(store) => FirstValue(store, NameKeys).GetOr("")
  }

  /** The name comes from the friendly name when that succeeds, otherwise
      from the interface friendly name, otherwise from the description. */
  lemma DeviceNameOrder(store: map<PropertyKey, string>)
    ensures DeviceFriendlyName in store ==> DeviceName(Some(store)) == store[DeviceFriendlyName]
    ensures DeviceFriendlyName !in store && InterfaceFriendlyName in store ==>
      DeviceName(Some(store)) == store[InterfaceFriendlyName]
    ensures DeviceFriendlyName !in store && InterfaceFriendlyName !in store && DeviceDesc in store ==>
      DeviceName(Some(store)) == store[DeviceDesc]
    ensures DeviceFriendlyName !in store && InterfaceFriendlyName !in store && DeviceDesc !in store ==>
      DeviceName(Some(store)) == ""
  {
    assert NameKeys[1..] == [InterfaceFriendlyName, DeviceDesc];
    assert NameKeys[1..][1..] == [DeviceDesc];
    assert NameKeys[1..][1..][1..] == [];
  }

  /** What a successfully constructed device starts from. */
  datatype DeviceInfo = DeviceInfo(id: string, name: string, hasClient: bool, format: WaveFormat)

  /** Stands for mMixFormat when the source leaves it uninitialised
      (Activate or GetMixFormat failed). */
  const UnsetFormat: WaveFormat := WaveFormat(OtherSubFormat, 0, 0, 0, 0, 0, 0)

  /** cAudioDevice(IMMDevice*, bool): throws for a null device, an empty id
      or an empty name; a device whose Activate fails is still constructed,
      without an audio client. */
  function OpenEndpoint(ep: Option<Endpoint>): (r: Result<DeviceInfo>)
    ensures r.Ok? <==> ep.Some? && ep.value.id.GetOr("") != "" && DeviceName(ep.value.properties) != ""
    ensures ep.None? ==> r == Err(NullDevice)
    ensures ep.Some? && ep.value.id.GetOr("") == "" ==> r == Err(NoDeviceId)
    ensures ep.Some? && ep.value.id.GetOr("") != "" && DeviceName(ep.value.properties) == "" ==>
      r == Err(NoDeviceName)
    ensures r.Ok? ==> r.value.id == ep.value.id.value && r.value.name == DeviceName(ep.value.properties)
    ensures r.Ok? ==> r.value.hasClient == ep.value.activates
    ensures r.Ok? && ep.value.activates && ep.value.mixFormat.Some? ==> r.value.format == ep.value.mixFormat.value
  {
    if ep.None? then Err(NullDevice)
    else
      var id := ep.value.id.GetOr("");
      var name := DeviceName(ep.value.properties);
      if id == "" then Err(NoDeviceId)
      else if name == "" then Err(NoDeviceName)
      else if !ep.value.activates then Ok(DeviceInfo(id, name, false, UnsetFormat))
      else Ok(DeviceInfo(id, name, true, ep.value.mixFormat.GetOr(UnsetFormat)))
  }

  // ---------------------------------------------------------------------
  // The backend oracle.
  // ---------------------------------------------------------------------

  /** A call the device makes, or an application callback it invokes. */
  datatype Call =
    | CreateEvent
    | Initialize(duration: int, format: WaveFormat)
    | GetService(render: bool)
    | GetBufferSize
    | SetEventHandle
    | StreamStart
    | SpawnThread
    | StartCallback(onStart: CallbackId)
    | JoinThread
    | StreamStop
    | CloseEvent
    | StopCallback(onStop: CallbackId)
    | GetCurrentPadding
    | GetRenderBuffer(frames: nat)
    | ReleaseRenderBuffer(frames: nat, flags: nat)
    | GetNextPacketSize
    | GetCaptureBuffer
    | ReleaseCaptureBuffer(frames: nat)
    | UserCallback(callback: CallbackId, frames: nat, channels: nat)

  /** What `process` observes from the backend in one call. */
  datatype Observed = Observed(
    padding: DWord,
    packetSize: DWord,
    capturedFrames: DWord,
    renderBufferNull: bool,
    captureBufferNull: bool)

  /** The outcomes of the backend calls `start` makes. */
  datatype StartPlan = StartPlan(
    eventCreated: bool,
    initializeOk: bool,
    renderServiceOk: bool,
    captureServiceOk: bool,
    bufferSizeOk: bool,
    reportedBufferSize: DWord,
    setEventHandleOk: bool,
    streamStartOk: bool)
  {
    predicate Succeeds() {
      eventCreated && initializeOk && bufferSizeOk && setEventHandleOk && streamStartOk
    }

    /** How many of StartCalls a start attempt gets through: it stops at
        the first failing step. */
    function CallsMade(): (n: nat)
      ensures n <= 9
      ensures n == 9 <==> Succeeds()
    {
      if !eventCreated then 1
      else if !initializeOk then 2
      else if !bufferSizeOk then 5
      else if !setEventHandleOk then 6
      else if !streamStartOk then 7
      else 9
    }
  }

  class Backend {
    const plan: StartPlan
    // what `process` and `hasUnprocessedIo` observe
    var padding: DWord
    var packetSize: DWord
    var capturedFrames: DWord
    var renderBuffer: array?<Sample>
    var captureBuffer: array?<Sample>
    // every call made on the backend, in order
    var trace: seq<Call>

    function Observe(): Observed
      reads this
    {
      Observed(padding, packetSize, capturedFrames, renderBuffer == null, captureBuffer == null)
    }
  }

  /** The calls of a start attempt that gets through every step. */
  function StartCalls(duration: int, format: WaveFormat, onStart: CallbackId): seq<Call> {
    [CreateEvent, Initialize(duration, format), GetService(true), GetService(false),
     GetBufferSize, SetEventHandle, StreamStart, SpawnThread, StartCallback(onStart)]
  }

  /** A start attempt that stops at a failing step spawns no thread and
      invokes no start callback. */
  lemma FailedStartSpawnsNothing(plan: StartPlan, duration: int, format: WaveFormat, onStart: CallbackId)
    requires !plan.Succeeds()
    ensures forall c :: c in StartCalls(duration, format, onStart)[..plan.CallsMade()] ==>
      !c.SpawnThread? && !c.StartCallback?
  {
    var calls := StartCalls(duration, format, onStart);
    var made := plan.CallsMade();
    assert made <= 7;
    assert calls[..made] <= calls[..7];
    assert calls[..7] == [CreateEvent, Initialize(duration, format), GetService(true), GetService(false),
                          GetBufferSize, SetEventHandle, StreamStart];
  }

  /** Appending the next calls of a planned sequence to a trace holding its
      first `k` calls leaves the trace holding its first k + |more|. */
  lemma PrefixExtends(trace0: seq<Call>, calls: seq<Call>, k: nat, more: seq<Call>)
    requires k + |more| <= |calls| && calls[k..k + |more|] == more
    ensures trace0 + calls[..k] + more == trace0 + calls[..k + |more|]
  {
    assert calls[..k] + more == calls[..k + |more|];
  }

  /** The calls of `stop` on a running device: join the thread if it is
      joinable, stop the stream if there is a client, close the event if
      there is one, then the stored stop callback. */
  function StopCalls(joinable: bool, hasClient: bool, hasEvent: bool, onStop: CallbackId): (calls: seq<Call>)
    ensures |calls| > 0 && calls[|calls| - 1] == StopCallback(onStop)
    ensures forall i :: 0 <= i < |calls| - 1 ==> !calls[i].StopCallback?
  {
    (if joinable then [JoinThread] else []) + (if hasClient then [StreamStop] else []) +
    (if hasEvent then [CloseEvent] else []) + [StopCallback(onStop)]
  }

  /** bufferFrameCount - padding in UINT32 arithmetic: it wraps when the
      padding exceeds the frame count. */
  function AvailableFrames(bufferFrameCount: DWord, padding: DWord): (n: DWord)
    ensures padding <= bufferFrameCount ==> n == bufferFrameCount - padding
    ensures padding > bufferFrameCount ==> n == DWordLimit - (padding - bufferFrameCount)
    ensures n == 0 <==> padding == bufferFrameCount
  {
    (bufferFrameCount - padding) % DWordLimit
  }

  /** The result of one `process` call: whether it threw, and the calls it made. */
  datatype ProcessResult = ProcessResult(status: Outcome, calls: seq<Call>)

  /** A call list contains an application processing callback. */
  predicate CallbackRuns(calls: seq<Call>) {
    exists i :: 0 <= i < |calls| && calls[i].UserCallback?
  }

  // ---------------------------------------------------------------------
  // The device.
  // ---------------------------------------------------------------------

  class AudioDevice {
    const isRender: bool
    var deviceId: string
    var name: string
    // which COM handles are non-null
    var hasDevice: bool
    var hasClient: bool
    var hasCaptureClient: bool
    var hasRenderClient: bool
    var hasEvent: bool
    var format: WaveFormat
    var bufferFrameCount: DWord
    var running: bool
    var threadJoinable: bool
    var stopCallback: Option<CallbackId>
    var userCallback: Option<CallbackId>

    /** A joinable processing thread exists only while running, and a
        running device has a stop callback to invoke. */
    ghost predicate Valid()
      reads this
    {
      && (threadJoinable ==> running)
      && (running ==> stopCallback.Some?)
    }

    /** The state the enumerator's constructor call leaves a device in. */
    ghost predicate OpenedFrom(info: DeviceInfo, render: bool)
      reads this
    {
      && isRender == render && deviceId == info.id && name == info.name
      && hasDevice && hasClient == info.hasClient
      && !hasCaptureClient && !hasRenderClient && !hasEvent
      && format == info.format && bufferFrameCount == 0
      && !running && !threadJoinable && stopCallback.None? && userCallback.None?
    }

    constructor FromInfo(info: DeviceInfo, render: bool)
      ensures OpenedFrom(info, render) && Valid()
    {
      isRender := render;
      deviceId := info.id;
      name := info.name;
      hasDevice := true;
      hasClient := info.hasClient;
      hasCaptureClient := false;
      hasRenderClient := false;
      hasEvent := false;
      format := info.format;
      bufferFrameCount := 0;
      running := false;
      threadJoinable := false;
      stopCallback := None;
      userCallback := None;
    }

    /** The move constructor as written: every field is taken from `other`,
        whose COM handles become null and whose thread is no longer
        joinable, but whose running flag is left as it was. */
    constructor MoveAsWritten(other: AudioDevice)
      requires other.Valid()
      modifies other
      ensures Valid() && other.Valid()
      ensures MovedFrom(this, other)
      ensures other.running == old(other.running)
    {
      isRender := other.isRender;
      deviceId := other.deviceId;
      name := other.name;
      hasDevice := other.hasDevice;
      hasClient := other.hasClient;
      hasCaptureClient := other.hasCaptureClient;
      hasRenderClient := other.hasRenderClient;
      hasEvent := other.hasEvent;
      format := other.format;
      bufferFrameCount := other.bufferFrameCount;
      running := other.running;
      threadJoinable := other.threadJoinable;
      stopCallback := other.stopCallback;
      userCallback := other.userCallback;
      new;
      other.hasDevice := false;
      other.hasClient := false;
      other.hasCaptureClient := false;
      other.hasRenderClient := false;
      other.hasEvent := false;
      other.threadJoinable := false;
    }

    /** The move constructor with the moved-from device also marked stopped,
        so that nothing of the stream is left for its destructor to stop. */
    constructor Move(other: AudioDevice)
      requires other.Valid()
      modifies other
      ensures Valid() && other.Valid()
      ensures MovedFrom(this, other)
      ensures !other.running
    {
      isRender := other.isRender;
      deviceId := other.deviceId;
      name := other.name;
      hasDevice := other.hasDevice;
      hasClient := other.hasClient;
      hasCaptureClient := other.hasCaptureClient;
      hasRenderClient := other.hasRenderClient;
      hasEvent := other.hasEvent;
      format := other.format;
      bufferFrameCount := other.bufferFrameCount;
      running := other.running;
      threadJoinable := other.threadJoinable;
      stopCallback := other.stopCallback;
      userCallback := other.userCallback;
      new;
      other.hasDevice := false;
      other.hasClient := false;
      other.hasCaptureClient := false;
      other.hasRenderClient := false;
      other.hasEvent := false;
      other.threadJoinable := false;
      other.running := false;
    }

    function GetName(): string
      reads this
    {
      name
    }

    function GetDeviceId(): string
      reads this
    {
      deviceId
    }

    function IsInput(): bool { !isRender }

    function IsOutput(): bool { isRender }

    function NumInputChannels(): nat
      reads this
    {
      if IsInput() then format.nChannels else 0
    }

    function NumOutputChannels(): nat
      reads this
    {
      if IsOutput() then format.nChannels else 0
    }

    function SampleRate(): DWord
      reads this
    {
      format.nSamplesPerSec
    }

    function BufferSizeFrames(): DWord
      reads this
    {
      bufferFrameCount
    }

    function IsRunning(): bool
      reads this
    {
      running
    }

    /** hasUnprocessedIo, given the padding GetCurrentPadding reports. */
    function HasUnprocessedIo(padding: DWord): (r: bool)
      reads this
      ensures r ==> hasClient && running
    {
      if !hasClient then false
      else if !running then false
      else AvailableFrames(bufferFrameCount, padding) > 0
    }

    method SetSampleRate(rate: DWord) returns (ok: bool)
      modifies this`format
      ensures ok && format == WithSampleRate(old(format), rate)
    {
      format := WithSampleRate(format, rate);
      ok := true;
    }

    method SetBufferSizeFrames(size: DWord) returns (ok: bool)
      modifies this`bufferFrameCount
      ensures ok && bufferFrameCount == size
    {
      bufferFrameCount := size;
      ok := true;
    }

    /** connect: the format is switched to 32-bit float first, and only then
        is a running device refused. */
    method Connect(callback: Option<CallbackId>) returns (status: Outcome)
      modifies this`format, this`userCallback
      ensures format == ForceFloat(old(format))
      ensures running ==> status == Fail(ConnectWhileRunning) && userCallback == old(userCallback)
      ensures !running ==> status == Pass && userCallback == callback
    {
      format := ForceFloat(format);
      if running {
        return Fail(ConnectWhileRunning);
      }
      userCallback := callback;
      return Pass;
    }

    method Start(sys: Backend, onStart: CallbackId, onStop: CallbackId) returns (ok: bool)
      requires Valid()
      requires hasClient && !running ==> format.nSamplesPerSec > 0
      modifies this`hasEvent, this`hasRenderClient, this`hasCaptureClient, this`bufferFrameCount
      modifies this`running, this`threadJoinable, this`stopCallback, sys`trace
      ensures Valid()
      ensures !old(hasClient) ==> !ok && unchanged(this) && sys.trace == old(sys.trace)
      ensures old(hasClient) && old(running) ==> ok && unchanged(this) && sys.trace == old(sys.trace)
      ensures old(hasClient) && !old(running) ==> StartedFrom(sys, old(bufferFrameCount), old(hasRenderClient),
        old(hasCaptureClient), old(stopCallback), old(sys.trace), onStart, onStop, ok)
    {
      if !hasClient {
        return false;
      }
      if running {
        return true;
      }
      ok := Launch(sys, onStart, onStop);
    }

    /** The state and trace a start attempt on a device with a client that
        is not running leaves behind: it gets as far as the first failing
        backend call, and only a full success marks the device running. */
    ghost predicate StartedFrom(sys: Backend, frames0: DWord, render0: bool, capture0: bool,
                                stop0: Option<CallbackId>, trace0: seq<Call>,
                                onStart: CallbackId, onStop: CallbackId, ok: bool)
      reads this, sys
    {
      && format.nSamplesPerSec > 0
      && (ok <==> sys.plan.Succeeds())
      && running == ok && threadJoinable == ok
      && stopCallback == (if ok then Some(onStop) else stop0)
      && hasEvent == sys.plan.eventCreated
      && (sys.plan.eventCreated && sys.plan.initializeOk ==>
            hasRenderClient == sys.plan.renderServiceOk && hasCaptureClient == sys.plan.captureServiceOk)
      && (!(sys.plan.eventCreated && sys.plan.initializeOk) ==>
            hasRenderClient == render0 && hasCaptureClient == capture0)
      && bufferFrameCount == (if sys.plan.eventCreated && sys.plan.initializeOk && sys.plan.bufferSizeOk
                              then sys.plan.reportedBufferSize else frames0)
      && sys.trace == trace0 + StartCalls(BufferDuration(frames0, format.nSamplesPerSec), format, onStart)[..sys.plan.CallsMade()]
    }

    /** The body of `start` once it has found a client and no running stream. */
    method Launch(sys: Backend, onStart: CallbackId, onStop: CallbackId) returns (ok: bool)
      requires Valid() && hasClient && !running && format.nSamplesPerSec > 0
      modifies this`hasEvent, this`hasRenderClient, this`hasCaptureClient, this`bufferFrameCount
      modifies this`running, this`threadJoinable, this`stopCallback, sys`trace
      ensures Valid()
      ensures StartedFrom(sys, old(bufferFrameCount), old(hasRenderClient), old(hasCaptureClient),
        old(stopCallback), old(sys.trace), onStart, onStop, ok)
    {
      ghost var trace0 := sys.trace;
      var duration := BufferDuration(bufferFrameCount, format.nSamplesPerSec);
      ghost var calls := StartCalls(duration, format, onStart);
      ok := OpenStream(sys, duration, onStart);
      if !ok {
        return;
      }
      sys.trace := sys.trace + [SetEventHandle];
      assert calls[5] == SetEventHandle;
      PrefixExtends(trace0, calls, 5, [SetEventHandle]);
      if !sys.plan.setEventHandleOk {
        return false;
      }
      sys.trace := sys.trace + [StreamStart];
      assert calls[6] == StreamStart;
      PrefixExtends(trace0, calls, 6, [StreamStart]);
      if !sys.plan.streamStartOk {
        return false;
      }
      running := true;
      threadJoinable := true;
      sys.trace := sys.trace + [SpawnThread, StartCallback(onStart)];
      assert calls[7] == SpawnThread && calls[8] == StartCallback(onStart);
      PrefixExtends(trace0, calls, 7, [SpawnThread, StartCallback(onStart)]);
      stopCallback := Some(onStop);
      assert calls[..9] == calls;
      return true;
    }

    /** The first steps of `start`: the event handle, Initialize, the two
        services and GetBufferSize, stopping at the first failure. */
    method OpenStream(sys: Backend, duration: int, onStart: CallbackId) returns (ok: bool)
      modifies this`hasEvent, this`hasRenderClient, this`hasCaptureClient, this`bufferFrameCount, sys`trace
      ensures ok == (sys.plan.eventCreated && sys.plan.initializeOk && sys.plan.bufferSizeOk)
      ensures hasEvent == sys.plan.eventCreated
      ensures sys.plan.eventCreated && sys.plan.initializeOk ==>
        hasRenderClient == sys.plan.renderServiceOk && hasCaptureClient == sys.plan.captureServiceOk
      ensures !(sys.plan.eventCreated && sys.plan.initializeOk) ==>
        hasRenderClient == old(hasRenderClient) && hasCaptureClient == old(hasCaptureClient)
      ensures bufferFrameCount == (if ok then sys.plan.reportedBufferSize else old(bufferFrameCount))
      ensures sys.trace == old(sys.trace) + StartCalls(duration, format, onStart)[..if ok then 5 else sys.plan.CallsMade()]
    {
      ghost var trace0 := sys.trace;
      ghost var calls := StartCalls(duration, format, onStart);
      hasEvent := sys.plan.eventCreated;
      sys.trace := sys.trace + [CreateEvent];
      PrefixExtends(trace0, calls, 0, [CreateEvent]);
      if !hasEvent {
        return false;
      }
      sys.trace := sys.trace + [Initialize(duration, format)];
      PrefixExtends(trace0, calls, 1, [Initialize(duration, format)]);
      if !sys.plan.initializeOk {
        return false;
      }
      hasRenderClient := sys.plan.renderServiceOk;
      hasCaptureClient := sys.plan.captureServiceOk;
      sys.trace := sys.trace + [GetService(true), GetService(false), GetBufferSize];
      PrefixExtends(trace0, calls, 2, [GetService(true), GetService(false), GetBufferSize]);
      if !sys.plan.bufferSizeOk {
        return false;
      }
      bufferFrameCount := sys.plan.reportedBufferSize;
      return true;
    }

    method Stop(sys: Backend) returns (ok: bool)
      requires Valid()
      modifies this`running, this`threadJoinable, sys`trace
      ensures ok && Valid() && !running && !threadJoinable
      ensures !old(running) ==> unchanged(this) && sys.trace == old(sys.trace)
      ensures old(running) ==> sys.trace == old(sys.trace) + StopCalls(old(threadJoinable), hasClient, hasEvent, stopCallback.value)
    {
      if running {
        running := false;
        if threadJoinable {
          sys.trace := sys.trace + [JoinThread];
          threadJoinable := false;
        }
        if hasClient {
          sys.trace := sys.trace + [StreamStop];
        }
        if hasEvent {
          sys.trace := sys.trace + [CloseEvent];
        }
        sys.trace := sys.trace + [StopCallback(stopCallback.value)];
      }
      return true;
    }

    /** The destructor: `stop` first, then the COM handles are released. */
    method Destroy(sys: Backend)
      requires Valid()
      modifies this`running, this`threadJoinable, this`hasDevice, this`hasClient
      modifies this`hasCaptureClient, this`hasRenderClient, sys`trace
      ensures !running && !threadJoinable
      ensures !hasDevice && !hasClient && !hasCaptureClient && !hasRenderClient
      ensures sys.trace == old(sys.trace) +
        (if old(running) then StopCalls(old(threadJoinable), old(hasClient), hasEvent, stopCallback.value) else [])
    {
      var stopped := Stop(sys);
      hasCaptureClient := false;
      hasRenderClient := false;
      hasClient := false;
      hasDevice := false;
    }

    /** What `process` does, given what the backend reports. The channel
        check after the client check is the correction described in the
        README's findings; past it, `process` proceeds as written. */
    function ProcessCalls(obs: Observed, callback: CallbackId): ProcessResult
      reads this
    {
      if format.subFormat != IeeeFloat then ProcessResult(Fail(SampleTypeMismatch), [])
      else if !hasClient then ProcessResult(Pass, [])
      else if format.nChannels > MaxNumChannels then ProcessResult(Fail(TooManyChannels), [])
      else ProcessCallsAsWritten(obs, callback)
    }

    /** `process` as written: only the sample type is checked before the
        buffer view is built over nChannels channels. */
    function ProcessCallsAsWritten(obs: Observed, callback: CallbackId): ProcessResult
      reads this
    {
      if format.subFormat != IeeeFloat then ProcessResult(Fail(SampleTypeMismatch), [])
      else if !hasClient then ProcessResult(Pass, [])
      else if isRender then
        var frames := AvailableFrames(bufferFrameCount, obs.padding);
        if frames == 0 then ProcessResult(Pass, [GetCurrentPadding])
        else if obs.renderBufferNull then ProcessResult(Pass, [GetCurrentPadding, GetRenderBuffer(frames)])
        else ProcessResult(Pass, [GetCurrentPadding, GetRenderBuffer(frames),
                                  UserCallback(callback, frames, format.nChannels),
                                  ReleaseRenderBuffer(frames, 0)])
      else
        if obs.packetSize == 0 then ProcessResult(Pass, [GetNextPacketSize])
        else if obs.captureBufferNull then ProcessResult(Pass, [GetNextPacketSize, GetCaptureBuffer])
        else ProcessResult(Pass, [GetNextPacketSize, GetCaptureBuffer,
                                  UserCallback(callback, obs.capturedFrames, format.nChannels),
                                  ReleaseCaptureBuffer(obs.capturedFrames)])
    }

    /** The render or capture service pointer `process` dereferences is
        non-null on the paths where it is dereferenced. */
    ghost predicate ServicesPresent(padding: DWord)
      reads this
    {
      (format.subFormat == IeeeFloat && hasClient && format.nChannels <= MaxNumChannels) ==>
        && (isRender && AvailableFrames(bufferFrameCount, padding) != 0 ==> hasRenderClient)
        && (!isRender ==> hasCaptureClient)
    }

    /** A non-null buffer from GetBuffer holds the frames it was asked for
        (render) or reports (capture), for every channel. */
    ghost predicate BuffersCover(sys: Backend)
      reads this, sys
    {
      && (sys.renderBuffer != null ==>
            AvailableFrames(bufferFrameCount, sys.padding) * format.nChannels <= sys.renderBuffer.Length)
      && (sys.captureBuffer != null ==> sys.capturedFrames * format.nChannels <= sys.captureBuffer.Length)
    }

    method Process(sys: Backend, callback: CallbackId) returns (status: Outcome)
      requires ServicesPresent(sys.padding) && BuffersCover(sys)
      modifies sys`trace
      ensures status == ProcessCalls(sys.Observe(), callback).status
      ensures sys.trace == old(sys.trace) + ProcessCalls(sys.Observe(), callback).calls
    {
      if format.subFormat != IeeeFloat {
        return Fail(SampleTypeMismatch);
      }
      if !hasClient {
        return Pass;
      }
      if format.nChannels > MaxNumChannels {
        return Fail(TooManyChannels);
      }
      if isRender {
        sys.trace := sys.trace + [GetCurrentPadding];
        var frames := AvailableFrames(bufferFrameCount, sys.padding);
        if frames == 0 {
          return Pass;
        }
        sys.trace := sys.trace + [GetRenderBuffer(frames)];
        var data := sys.renderBuffer;
        if data == null {
          return Pass;
        }
        var view := new AudioBuffer<Sample>(data, frames, format.nChannels);
        sys.trace := sys.trace + [UserCallback(callback, view.SizeFrames(), view.SizeChannels())];
        sys.trace := sys.trace + [ReleaseRenderBuffer(frames, 0)];
      } else {
        sys.trace := sys.trace + [GetNextPacketSize];
        if sys.packetSize == 0 {
          return Pass;
        }
        sys.trace := sys.trace + [GetCaptureBuffer];
        var data := sys.captureBuffer;
        if data == null {
          return Pass;
        }
        var frames := sys.capturedFrames;
        var view := new AudioBuffer<Sample>(data, frames, format.nChannels);
        sys.trace := sys.trace + [UserCallback(callback, view.SizeFrames(), view.SizeChannels())];
        sys.trace := sys.trace + [ReleaseCaptureBuffer(frames)];
      }
      return Pass;
    }

    /** One iteration of the processing thread's loop: while running, hand
        the connected callback (if any) to `process`. The wait on the event
        handle is not modelled. */
    method Step(sys: Backend) returns (status: Outcome)
      requires ServicesPresent(sys.padding) && BuffersCover(sys)
      modifies sys`trace
      ensures running && userCallback.Some? ==>
        status == ProcessCalls(sys.Observe(), userCallback.value).status &&
        sys.trace == old(sys.trace) + ProcessCalls(sys.Observe(), userCallback.value).calls
      ensures !(running && userCallback.Some?) ==> status == Pass && sys.trace == old(sys.trace)
    {
      status := Pass;
      if running && userCallback.Some? {
        status := Process(sys, userCallback.value);
      }
    }
  }

  /** `d` holds everything `other` held before the move, and `other`
      keeps none of the COM handles nor the thread. The moved-from
      strings and callbacks are modelled as left unchanged. */
  twostate predicate MovedFrom(new d: AudioDevice, other: AudioDevice)
    reads d, other
  {
    && d.isRender == other.isRender && d.deviceId == old(other.deviceId) && d.name == old(other.name)
    && d.hasDevice == old(other.hasDevice) && d.hasClient == old(other.hasClient)
    && d.hasCaptureClient == old(other.hasCaptureClient) && d.hasRenderClient == old(other.hasRenderClient)
    && d.hasEvent == old(other.hasEvent) && d.format == old(other.format)
    && d.bufferFrameCount == old(other.bufferFrameCount) && d.running == old(other.running)
    && d.threadJoinable == old(other.threadJoinable)
    && d.stopCallback == old(other.stopCallback) && d.userCallback == old(other.userCallback)
    && !other.hasDevice && !other.hasClient && !other.hasCaptureClient && !other.hasRenderClient
    && !other.hasEvent && !other.threadJoinable
    && other.deviceId == old(other.deviceId) && other.name == old(other.name)
    && other.format == old(other.format) && other.bufferFrameCount == old(other.bufferFrameCount)
    && other.stopCallback == old(other.stopCallback) && other.userCallback == old(other.userCallback)
  }

  /** Exactly one of the channel getters reports the mix format's channels;
      the other reports zero. */
  lemma ChannelCountsSplit(d: AudioDevice)
    ensures d.NumInputChannels() + d.NumOutputChannels() == d.format.nChannels
    ensures d.IsInput() != d.IsOutput()
    ensures d.IsInput() ==> d.NumOutputChannels() == 0
    ensures d.IsOutput() ==> d.NumInputChannels() == 0
  {
  }

  /** Buffer leases in one `process` call are balanced: a callback runs at
      most once, always between the GetBuffer that produced its view and the
      ReleaseBuffer of exactly the same frame count (flags 0 on render), and
      nothing is released without a callback. The view it gets has the
      device's channel count, which fits the channel table. */
  lemma ProcessLeasesBalanced(d: AudioDevice, obs: Observed, cb: CallbackId)
    ensures var calls := d.ProcessCalls(obs, cb).calls;
      && (forall i :: 0 <= i < |calls| && calls[i].UserCallback? ==>
            && 0 < i < |calls| - 1
            && calls[i].callback == cb
            && calls[i].channels == d.format.nChannels <= MaxNumChannels
            && (d.isRender ==> calls[i - 1] == GetRenderBuffer(calls[i].frames) &&
                               calls[i + 1] == ReleaseRenderBuffer(calls[i].frames, 0))
            && (!d.isRender ==> calls[i - 1] == GetCaptureBuffer &&
                                calls[i + 1] == ReleaseCaptureBuffer(calls[i].frames)))
      && (forall i :: 0 <= i < |calls| && (calls[i].ReleaseRenderBuffer? || calls[i].ReleaseCaptureBuffer?) ==>
            0 < i && calls[i - 1].UserCallback?)
      && (forall i, j :: 0 <= i < j < |calls| && calls[i].UserCallback? ==> !calls[j].UserCallback?)
      && (CallbackRuns(calls) ==> d.ProcessCalls(obs, cb).status == Pass && d.hasClient)
  {
  }

  /** A sample type other than float is refused before the backend is
      touched, and a device without a client does nothing. */
  lemma ProcessEarlyExits(d: AudioDevice, obs: Observed, cb: CallbackId)
    ensures d.format.subFormat != IeeeFloat ==> d.ProcessCalls(obs, cb) == ProcessResult(Fail(SampleTypeMismatch), [])
    ensures d.format.subFormat == IeeeFloat && !d.hasClient ==> d.ProcessCalls(obs, cb) == ProcessResult(Pass, [])
  {
  }

  /** On a render device with a buffer, the callback runs exactly when frames
      are available, on bufferFrameCount - padding frames. */
  lemma RenderCallbackFrames(d: AudioDevice, obs: Observed, cb: CallbackId)
    requires d.isRender && d.hasClient && d.format.subFormat == IeeeFloat
    requires d.format.nChannels <= MaxNumChannels && !obs.renderBufferNull
    ensures CallbackRuns(d.ProcessCalls(obs, cb).calls) <==> obs.padding != d.bufferFrameCount
    ensures obs.padding < d.bufferFrameCount ==>
      d.ProcessCalls(obs, cb).calls[2] == UserCallback(cb, d.bufferFrameCount - obs.padding, d.format.nChannels)
  {
    var calls := d.ProcessCalls(obs, cb).calls;
    if obs.padding == d.bufferFrameCount {
      assert calls == [GetCurrentPadding];
    } else {
      assert calls[2].UserCallback?;
    }
  }

  /** On a capture device with a packet and a buffer, the callback runs on
      the frame count GetBuffer reports and releases exactly that many. */
  lemma CaptureCallbackFrames(d: AudioDevice, obs: Observed, cb: CallbackId)
    requires !d.isRender && d.hasClient && d.format.subFormat == IeeeFloat
    requires d.format.nChannels <= MaxNumChannels && !obs.captureBufferNull
    ensures CallbackRuns(d.ProcessCalls(obs, cb).calls) <==> obs.packetSize != 0
    ensures obs.packetSize != 0 ==>
      d.ProcessCalls(obs, cb).calls[2..] ==
        [UserCallback(cb, obs.capturedFrames, d.format.nChannels), ReleaseCaptureBuffer(obs.capturedFrames)]
  {
    var calls := d.ProcessCalls(obs, cb).calls;
    if obs.packetSize == 0 {
      assert calls == [GetNextPacketSize];
    } else {
      assert calls[2].UserCallback?;
    }
  }

  /** hasUnprocessedIo agrees with `process` on a running render device:
      it is true exactly when `process` would run the callback. */
  lemma UnprocessedIoMatchesProcess(d: AudioDevice, obs: Observed, cb: CallbackId)
    requires d.running && d.isRender && d.format.subFormat == IeeeFloat
    requires d.format.nChannels <= MaxNumChannels && !obs.renderBufferNull
    ensures d.HasUnprocessedIo(obs.padding) <==> CallbackRuns(d.ProcessCalls(obs, cb).calls)
  {
    if d.hasClient {
      RenderCallbackFrames(d, obs, cb);
    } else {
      assert d.ProcessCalls(obs, cb).calls == [];
    }
  }

  /** A start that succeeds and obtains the service for the device's
      direction leaves `process` a non-null service on every path that
      dereferences one. */
  lemma StartedDeviceHasServices(d: AudioDevice, sys: Backend, frames0: DWord, render0: bool, capture0: bool,
                                 stop0: Option<CallbackId>, trace0: seq<Call>,
                                 onStart: CallbackId, onStop: CallbackId, padding: DWord)
    requires d.StartedFrom(sys, frames0, render0, capture0, stop0, trace0, onStart, onStop, true)
    requires d.isRender ==> sys.plan.renderServiceOk
    requires !d.isRender ==> sys.plan.captureServiceOk
    ensures d.ServicesPresent(padding)
  {
  }

  /** `start` ignores the GetService results: a start can succeed while the
      service for the device's direction is null, and the running device's
      `process` then dereferences it. */
  lemma StartSucceedsWithoutService(d: AudioDevice, sys: Backend, frames0: DWord, render0: bool, capture0: bool,
                                    stop0: Option<CallbackId>, trace0: seq<Call>,
                                    onStart: CallbackId, onStop: CallbackId)
    requires d.StartedFrom(sys, frames0, render0, capture0, stop0, trace0, onStart, onStop, true)
    requires d.isRender && !sys.plan.renderServiceOk
    ensures d.running && !d.hasRenderClient
  {
  }

  // ---------------------------------------------------------------------
  // Moving a running device.
  // ---------------------------------------------------------------------

  /** As written: moving a running device and then destroying both the
      moved-from and the moved-to device runs the stop callback twice, the
      first time for the moved-from device, which owns no stream. */
  method MoveRunningAsWritten(sys: Backend, d: AudioDevice) returns (moved: AudioDevice)
    requires d.Valid() && d.running
    modifies d, sys`trace
    ensures var cb := old(d.stopCallback).value;
      sys.trace == old(sys.trace) + [StopCallback(cb)] +
        StopCalls(old(d.threadJoinable), old(d.hasClient), old(d.hasEvent), cb)
  {
    moved := new AudioDevice.MoveAsWritten(d);
    d.Destroy(sys);
    moved.Destroy(sys);
  }

  /** With the moved-from device marked stopped, the same sequence runs the
      stop callback once, for the device that owns the stream. */
  method MoveRunning(sys: Backend, d: AudioDevice) returns (moved: AudioDevice)
    requires d.Valid() && d.running
    modifies d, sys`trace
    ensures var cb := old(d.stopCallback).value;
      sys.trace == old(sys.trace) + StopCalls(old(d.threadJoinable), old(d.hasClient), old(d.hasEvent), cb)
  {
    moved := new AudioDevice.Move(d);
    d.Destroy(sys);
    moved.Destroy(sys);
  }

  // ---------------------------------------------------------------------
  // The channel-table overrun of `process` as written.
  // ---------------------------------------------------------------------

  /** As written, every float device with a client that gets a buffer for
      pending frames hands the callback a view over all nChannels channels;
      wider than the table, the view's constructor writes slots at and past
      MaxNumChannels. With the channel check, the same device is refused
      before any backend call. */
  lemma AsWrittenViewOverrunsTable(d: AudioDevice, obs: Observed, cb: CallbackId)
    requires d.format.subFormat == IeeeFloat && d.hasClient && d.format.nChannels > MaxNumChannels
    requires d.isRender ==> AvailableFrames(d.bufferFrameCount, obs.padding) != 0 && !obs.renderBufferNull
    requires !d.isRender ==> obs.packetSize != 0 && !obs.captureBufferNull
    ensures var r := d.ProcessCallsAsWritten(obs, cb);
      && r.status == Pass && |r.calls| == 4 && r.calls[2].UserCallback?
      && r.calls[2].channels == d.format.nChannels
      && exists i :: 0 <= i < r.calls[2].channels && ChannelTableWrites(r.calls[2].channels)[i] >= MaxNumChannels
    ensures d.ProcessCalls(obs, cb) == ProcessResult(Fail(TooManyChannels), [])
  {
    var n := d.format.nChannels;
    assert d.ProcessCallsAsWritten(obs, cb).calls[2].channels == n;
    assert ChannelTableWrites(n)[MaxNumChannels] >= MaxNumChannels;
  }

  /** The channel check changes nothing for a format the table can hold. */
  lemma CorrectionKeepsNarrowFormats(d: AudioDevice, obs: Observed, cb: CallbackId)
    requires d.format.nChannels <= MaxNumChannels
    ensures d.ProcessCalls(obs, cb) == d.ProcessCallsAsWritten(obs, cb)
  {
  }

  /** With the channel check, `process` on a device with a client refuses a
      float format wider than the table before any backend call, so no
      callback runs on a view that does not fit. */
  lemma CorrectedProcessRefusesWideFormat(d: AudioDevice, obs: Observed, cb: CallbackId)
    requires d.format.subFormat == IeeeFloat && d.hasClient && d.format.nChannels > MaxNumChannels
    ensures d.ProcessCalls(obs, cb) == ProcessResult(Fail(TooManyChannels), [])
    ensures !CallbackRuns(d.ProcessCalls(obs, cb).calls)
  {
  }
}
