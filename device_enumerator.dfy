/** cAudioDeviceEnumerator: the default device of a direction, the active
    endpoints of a direction, and the list of devices built from them. The
    platform's MMDevice enumerator is an input value saying what each of
    its calls returns. */
module Enumerator {
  import opened Common
  import opened Device

  /** What IMMDeviceCollection::Item returns for one index: whether it
      succeeded, and the device pointer it wrote (None for null). */
  datatype ItemResult = ItemResult(succeeded: bool, device: Option<Endpoint>)

  /** An IMMDeviceCollection: whether GetCount succeeds, and its items, one
      per index below the count. */
  datatype EndpointCollection = EndpointCollection(counted: bool, items: seq<ItemResult>)

  /** What the platform's device enumerator reports: whether it can be
      created, the active collection of each direction (None when
      EnumAudioEndpoints fails), and each direction's console default
      endpoint (None when GetDefaultAudioEndpoint fails). */
  datatype Platform = Platform(
    enumeratorCreated: bool,
    renderEndpoints: Option<EndpointCollection>,
    captureEndpoints: Option<EndpointCollection>,
    defaultRender: Option<Endpoint>,
    defaultCapture: Option<Endpoint>)

  /** The items getDevices keeps: those whose Item call succeeded with a
      non-null device, in index order. */
  function Kept(items: seq<ItemResult>): seq<Endpoint>
    decreases |items|
  {
    if items == [] then []
    else
      var last := items[|items| - 1];
      Kept(items[..|items| - 1]) + (if last.succeeded && last.device.Some? then [last.device.value] else [])
  }

  /** An endpoint is kept exactly when some item produced it successfully. */
  lemma {:induction false} KeptMembers(items: seq<ItemResult>)
    ensures |Kept(items)| <= |items|
    ensures forall ep :: ep in Kept(items) <==>
      exists i :: 0 <= i < |items| && items[i].succeeded && items[i].device == Some(ep)
    decreases |items|
  {
    if items != [] {
      var init := items[..|items| - 1];
      KeptMembers(init);
      forall ep ensures ep in Kept(items) <==>
        exists i :: 0 <= i < |items| && items[i].succeeded && items[i].device == Some(ep)
      {
        if exists i :: 0 <= i < |items| && items[i].succeeded && items[i].device == Some(ep) {
          var i :| 0 <= i < |items| && items[i].succeeded && items[i].device == Some(ep);
          if i < |init| {
            assert init[i] == items[i];
          }
        }
        if ep in Kept(init) {
          var i :| 0 <= i < |init| && init[i].succeeded && init[i].device == Some(ep);
          assert items[i] == init[i];
        }
      }
    }
  }

  /** Keeping commutes with concatenation, so the kept items of a collection
      appear in their index order. */
  lemma {:induction false} KeptAppend(a: seq<ItemResult>, b: seq<ItemResult>)
    ensures Kept(a + b) == Kept(a) + Kept(b)
    decreases |b|
  {
    if b == [] {
      assert a + b == a;
    } else {
      var init := b[..|b| - 1];
      KeptAppend(a, init);
      assert (a + b)[..|a + b| - 1] == a + init;
    }
  }

  function Collection(p: Platform, output: bool): Option<EndpointCollection> {
    if output then p.renderEndpoints else p.captureEndpoints
  }

  /** getDevices: nothing when the enumerator, the collection or the count
      fails; otherwise every item in index order whose Item call succeeded
      with a non-null device. */
  method GetDevices(p: Platform, output: bool) returns (devices: seq<Endpoint>)
    ensures !p.enumeratorCreated ==> devices == []
    ensures Collection(p, output).None? || !Collection(p, output).value.counted ==> devices == []
    ensures p.enumeratorCreated && Collection(p, output).Some? && Collection(p, output).value.counted ==>
      devices == Kept(Collection(p, output).value.items)
  {
    if !p.enumeratorCreated {
      return [];
    }
    var collection := Collection(p, output);
    if collection.None? {
      return [];
    }
    if !collection.value.counted {
      return [];
    }
    var items := collection.value.items;
    devices := [];
    for i := 0 to |items|
      invariant devices == Kept(items[..i])
    {
      assert items[..i + 1][..i] == items[..i];
      var item := items[i];
      if !item.succeeded {
        continue;
      }
      if item.device.Some? {
        devices := devices + [item.device.value];
      }
    }
    assert items[..|items|] == items;
  }

  /** The devices getDeviceList constructs, in endpoint order: the endpoints
      whose constructor does not throw. */
  function Opened(endpoints: seq<Endpoint>): seq<DeviceInfo>
    decreases |endpoints|
  {
    if endpoints == [] then []
    else
      var r := OpenEndpoint(Some(endpoints[|endpoints| - 1]));
      Opened(endpoints[..|endpoints| - 1]) + (if r.Ok? then [r.value] else [])
  }

  /** A device is listed exactly when some endpoint's constructor succeeded
      with it: a throwing constructor drops its endpoint silently. */
  lemma {:induction false} OpenedMembers(endpoints: seq<Endpoint>)
    ensures |Opened(endpoints)| <= |endpoints|
    ensures forall info :: info in Opened(endpoints) <==>
      exists i :: 0 <= i < |endpoints| && OpenEndpoint(Some(endpoints[i])) == Ok(info)
    decreases |endpoints|
  {
    if endpoints != [] {
      var init := endpoints[..|endpoints| - 1];
      OpenedMembers(init);
      forall info ensures info in Opened(endpoints) <==>
        exists i :: 0 <= i < |endpoints| && OpenEndpoint(Some(endpoints[i])) == Ok(info)
      {
        if exists i :: 0 <= i < |endpoints| && OpenEndpoint(Some(endpoints[i])) == Ok(info) {
          var i :| 0 <= i < |endpoints| && OpenEndpoint(Some(endpoints[i])) == Ok(info);
          if i < |init| {
            assert init[i] == endpoints[i];
          }
        }
        if info in Opened(init) {
          var i :| 0 <= i < |init| && OpenEndpoint(Some(init[i])) == Ok(info);
          assert endpoints[i] == init[i];
        }
      }
    }
  }

  /** Endpoints that all have an id and a name are all listed, including
      those whose Activate fails: those are listed without an audio client. */
  lemma {:induction false} NamedEndpointsAllListed(endpoints: seq<Endpoint>)
    requires forall i :: 0 <= i < |endpoints| ==>
      endpoints[i].id.GetOr("") != "" && DeviceName(endpoints[i].properties) != ""
    ensures |Opened(endpoints)| == |endpoints|
    ensures forall i :: 0 <= i < |endpoints| ==> Opened(endpoints)[i].hasClient == endpoints[i].activates
    decreases |endpoints|
  {
    if endpoints != [] {
      var init := endpoints[..|endpoints| - 1];
      NamedEndpointsAllListed(init);
      var listed := Opened(endpoints);
      forall i | 0 <= i < |endpoints| ensures listed[i].hasClient == endpoints[i].activates {
        if i < |init| {
          assert listed[i] == Opened(init)[i];
          assert endpoints[i] == init[i];
        }
      }
    }
  }

  /** std::forward_list order after push_front of each element in turn. */
  function Reverse<T>(s: seq<T>): (r: seq<T>)
    ensures |r| == |s|
    decreases |s|
  {
    if s == [] then [] else [s[|s| - 1]] + Reverse(s[..|s| - 1])
  }

  /** push_front reverses: element k of the list is element |s|-1-k of the input. */
  lemma {:induction false} ReverseIndex<T>(s: seq<T>)
    ensures forall k :: 0 <= k < |s| ==> Reverse(s)[k] == s[|s| - 1 - k]
    decreases |s|
  {
    if s != [] {
      var init := s[..|s| - 1];
      ReverseIndex(init);
      var r := Reverse(s);
      assert r == [s[|s| - 1]] + Reverse(init);
      forall k | 0 <= k < |s| ensures r[k] == s[|s| - 1 - k] {
        if k > 0 {
          assert r[k] == Reverse(init)[k - 1];
          assert Reverse(init)[k - 1] == init[|init| - 1 - (k - 1)];
        }
      }
    }
  }

  /** getDeviceList: every endpoint getDevices returns is handed to the
      device constructor; the devices it builds are pushed to the front of
      the list, and the endpoints it throws for are skipped. */
  method GetDeviceList(p: Platform, output: bool) returns (devices: seq<AudioDevice>)
    ensures var endpoints := if p.enumeratorCreated && Collection(p, output).Some? && Collection(p, output).value.counted
                             then Kept(Collection(p, output).value.items) else [];
      var listed := Reverse(Opened(endpoints));
      && |devices| == |listed|
      && (forall k :: 0 <= k < |devices| ==> fresh(devices[k]) && devices[k].OpenedFrom(listed[k], output))
      && (forall k :: 0 <= k < |devices| ==> devices[k].Valid())
      && (forall j, k :: 0 <= j < k < |devices| ==> devices[j] != devices[k])
  {
    var endpoints := GetDevices(p, output);
    devices := ConstructAll(endpoints, output);
  }

  /** getDeviceList's loop over the endpoints getDevices returned. */
  method ConstructAll(endpoints: seq<Endpoint>, output: bool) returns (devices: seq<AudioDevice>)
    ensures |devices| == |Reverse(Opened(endpoints))|
    ensures forall k :: 0 <= k < |devices| ==> fresh(devices[k]) && devices[k].OpenedFrom(Reverse(Opened(endpoints))[k], output)
    ensures forall k :: 0 <= k < |devices| ==> devices[k].Valid()
    ensures forall j, k :: 0 <= j < k < |devices| ==> devices[j] != devices[k]
  {
    devices := [];
    ghost var listed: seq<DeviceInfo> := [];
    for i := 0 to |endpoints|
      invariant listed == Reverse(Opened(endpoints[..i]))
      invariant |devices| == |listed|
      invariant forall k :: 0 <= k < |devices| ==> fresh(devices[k]) && devices[k].OpenedFrom(listed[k], output)
      invariant forall j, k :: 0 <= j < k < |devices| ==> devices[j] != devices[k]
    {
      PushFrontStep(endpoints, i);
      var info := OpenEndpoint(Some(endpoints[i]));
      if info.Ok? {
        var device := new AudioDevice.FromInfo(info.value, output);
        devices := [device] + devices;
        listed := [info.value] + listed;
      }
    }
    assert endpoints[..|endpoints|] == endpoints;
    forall k | 0 <= k < |devices| ensures devices[k].Valid() {
      assert devices[k].OpenedFrom(listed[k], output);
    }
  }

  /** One step of getDeviceList's loop: the next endpoint's device, if its
      constructor succeeds, goes to the front of the list. */
  lemma PushFrontStep(endpoints: seq<Endpoint>, i: nat)
    requires i < |endpoints|
    ensures var r := OpenEndpoint(Some(endpoints[i]));
      Reverse(Opened(endpoints[..i + 1])) ==
        (if r.Ok? then [r.value] else []) + Reverse(Opened(endpoints[..i]))
  {
    assert endpoints[..i + 1][..i] == endpoints[..i];
    var before := Opened(endpoints[..i]);
    var r := OpenEndpoint(Some(endpoints[i]));
    if r.Ok? {
      assert Opened(endpoints[..i + 1]) == before + [r.value];
      assert Reverse(before + [r.value]) == [r.value] + Reverse(before);
    } else {
      assert Opened(endpoints[..i + 1]) == before;
    }
  }

  /** What getDefaultDevice constructs: nothing when the enumerator or the
      default-endpoint lookup fails or the constructor throws. */
  function DefaultInfo(p: Platform, output: bool): (r: Option<DeviceInfo>)
    ensures r.Some? <==> (p.enumeratorCreated &&
      (if output then p.defaultRender else p.defaultCapture).Some? &&
      OpenEndpoint(if output then p.defaultRender else p.defaultCapture).Ok?)
    ensures r.Some? ==> r.value.id != "" && r.value.name != ""
  {
    if !p.enumeratorCreated then None
    else
      var endpoint := if output then p.defaultRender else p.defaultCapture;
      if endpoint.None? then None
      else
        match OpenEndpoint(endpoint)
        case Ok(info) => Some(info)
        case Err(_) => None
  }

  method GetDefaultDevice(p: Platform, output: bool) returns (device: Option<AudioDevice>)
    ensures device.Some? <==> DefaultInfo(p, output).Some?
    ensures device.Some? ==>
      fresh(device.value) && device.value.OpenedFrom(DefaultInfo(p, output).value, output) && device.value.Valid()
  {
    var info := DefaultInfo(p, output);
    if info.None? {
      return None;
    }
    var d := new AudioDevice.FromInfo(info.value, output);
    return Some(d);
  }
}
