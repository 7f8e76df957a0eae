/** cAudioDeviceMonitor and its WASAPINotificationClient: one notification
    client per device-list event kind, held in a three-slot array, and the
    per-notification decision of whether a client fires its callback. The
    device enumerator's endpoint-notification registry is modelled by the
    log of (un)registration calls made on it. */
module Monitor {
  import opened Common

  /** cAudioDeviceListEvent */
  datatype ListEvent = ListChanged | DefaultInputChanged | DefaultOutputChanged

  /** static_cast<int>(event): the slot of mCallbackMonitors an event uses. */
  function SlotOf(e: ListEvent): (i: nat)
    ensures i < 3
  {
    match e
    case ListChanged => 0
    case DefaultInputChanged => 1
    case DefaultOutputChanged => 2
  }

  /** Each event kind has a slot of its own. */
  lemma SlotOfInjective(e1: ListEvent, e2: ListEvent)
    ensures SlotOf(e1) == SlotOf(e2) <==> e1 == e2
  {
  }

  datatype DataFlow = Render | Capture | AllFlows
  datatype Role = Console | Multimedia | Communications

  /** The IMMNotificationClient callbacks the operating system delivers. */
  datatype Notification =
    | DefaultDeviceChanged(flow: DataFlow, role: Role)
    | DeviceAdded
    | DeviceRemoved
    | DeviceStateChanged(newState: DWord)
    | PropertyValueChanged

  /** Whether a client created for `event` runs its callback on `n`. */
  function Fires(event: ListEvent, n: Notification): (fire: bool)
    // default-device changes matter only for the console role
    ensures n.DefaultDeviceChanged? && n.role != Console ==> !fire
    ensures n == DefaultDeviceChanged(Render, Console) ==> (fire <==> event == DefaultOutputChanged)
    ensures n == DefaultDeviceChanged(Capture, Console) ==> (fire <==> event == DefaultInputChanged)
    // any other flow passes whatever the client's kind
    ensures n == DefaultDeviceChanged(AllFlows, Console) ==> fire
    // list changes reach exactly the list-changed client
    ensures n.DeviceAdded? || n.DeviceRemoved? || n.DeviceStateChanged? ==> (fire <==> event == ListChanged)
    ensures n.PropertyValueChanged? ==> !fire
  {
    match n
    case DefaultDeviceChanged(flow, role) =>
      if role != Console then false
      else if flow == Render then event == DefaultOutputChanged
      else if flow == Capture then event == DefaultInputChanged
      else true
    case DeviceAdded => event == ListChanged
    case DeviceRemoved => event == ListChanged
    case DeviceStateChanged(_) => event == ListChanged
    case PropertyValueChanged => false
  }

  /** Every notification except a console default change on all flows wakes
      at most one kind of client. */
  lemma AtMostOneKindFires(n: Notification, e1: ListEvent, e2: ListEvent)
    requires n != DefaultDeviceChanged(AllFlows, Console)
    requires Fires(e1, n) && Fires(e2, n)
    ensures e1 == e2
  {
  }

  /** A default-device client fires only on a console default change, never
      on a list change; a list client fires on a default change only when it
      names no single flow. */
  lemma KindsDoNotCross(n: Notification)
    ensures Fires(DefaultInputChanged, n) || Fires(DefaultOutputChanged, n) ==>
      n.DefaultDeviceChanged? && n.role == Console
    ensures Fires(ListChanged, n) && n.DefaultDeviceChanged? ==> n.flow == AllFlows
  {
  }

  /** A WASAPINotificationClient: its identity (the `this` it registers
      with), the event it was made for, and its callback. */
  datatype NotificationClient = NotificationClient(id: nat, event: ListEvent, callback: CallbackId)

  /** Calls on the device enumerator. */
  datatype EnumeratorCall =
    | Register(client: NotificationClient)
    | Unregister(client: NotificationClient)
    | ReleaseEnumerator

  /** The clients registered with the enumerator after a sequence of calls. */
  function Registered(log: seq<EnumeratorCall>): set<NotificationClient>
    decreases |log|
  {
    if log == [] then {}
    else
      var prior := Registered(log[..|log| - 1]);
      match log[|log| - 1]
      case Register(c) => prior + {c}
      case Unregister(c) => prior - {c}
      case ReleaseEnumerator => prior
  }

  lemma RegisteredAppend(log: seq<EnumeratorCall>, call: EnumeratorCall)
    ensures call.Register? ==> Registered(log + [call]) == Registered(log) + {call.client}
    ensures call.Unregister? ==> Registered(log + [call]) == Registered(log) - {call.client}
    ensures call.ReleaseEnumerator? ==> Registered(log + [call]) == Registered(log)
  {
    assert (log + [call])[..|log|] == log;
  }

  function SlotClient(slot: Option<NotificationClient>): set<NotificationClient> {
    if slot.Some? then {slot.value} else {}
  }

  /** The clients the three slots own. */
  function SlotClients(slots: seq<Option<NotificationClient>>): set<NotificationClient>
    requires |slots| == 3
  {
    SlotClient(slots[0]) + SlotClient(slots[1]) + SlotClient(slots[2])
  }

  /** The calls the destructor's loop makes: one unregistration per occupied
      slot, in slot order. */
  function UnregisterAll(slots: seq<Option<NotificationClient>>): (calls: seq<EnumeratorCall>)
    ensures |calls| <= |slots|
    ensures forall i :: 0 <= i < |calls| ==> calls[i].Unregister?
    decreases |slots|
  {
    if slots == [] then []
    else
      var last := slots[|slots| - 1];
      UnregisterAll(slots[..|slots| - 1]) + (if last.Some? then [Unregister(last.value)] else [])
  }

  /** UnregisterAll names exactly the clients the slots own. */
  lemma {:induction false} UnregisterAllNamesOccupants(slots: seq<Option<NotificationClient>>)
    ensures forall c :: Unregister(c) in UnregisterAll(slots) <==>
      exists i :: 0 <= i < |slots| && slots[i] == Some(c)
    decreases |slots|
  {
    if slots != [] {
      var init := slots[..|slots| - 1];
      UnregisterAllNamesOccupants(init);
      forall c ensures Unregister(c) in UnregisterAll(slots) <==> exists i :: 0 <= i < |slots| && slots[i] == Some(c) {
        if exists i :: 0 <= i < |slots| && slots[i] == Some(c) {
          var i :| 0 <= i < |slots| && slots[i] == Some(c);
          if i < |init| {
            assert init[i] == Some(c);
          }
        }
        if Unregister(c) in UnregisterAll(init) {
          var i :| 0 <= i < |init| && init[i] == Some(c);
          assert slots[i] == Some(c);
        }
      }
    }
  }

  class DeviceMonitor {
    /** mCallbackMonitors, indexed by SlotOf */
    const slots: array<Option<NotificationClient>>
    /** every call made on mEnumerator's registry */
    var log: seq<EnumeratorCall>
    /** the identity the next client gets */
    var nextId: nat

    /** Each slot holds a client made for its own event, with an identity
        already handed out, and the enumerator has registered exactly the
        clients the slots own. */
    ghost predicate Valid()
      reads this, slots
    {
      && slots.Length == 3
      && (forall i :: 0 <= i < 3 && slots[i].Some? ==> SlotOf(slots[i].value.event) == i && slots[i].value.id < nextId)
      && Registered(log) == SlotClients(slots[..])
    }

    /** The registered clients made for `e`. */
    ghost function ClientsFor(e: ListEvent): set<NotificationClient>
      reads this
    {
      set c | c in Registered(log) && c.event == e
    }

    /** The registered clients a notification wakes. */
    ghost function Woken(n: Notification): set<NotificationClient>
      reads this
    {
      set c | c in Registered(log) && Fires(c.event, n)
    }

    constructor ()
      ensures Valid() && log == [] && fresh(slots)
      ensures forall i :: 0 <= i < 3 ==> slots[i].None?
    {
      var table := new Option<NotificationClient>[3](_ => None);
      slots := table;
      log := [];
      nextId := 0;
      new;
      assert slots[..] == [None, None, None];
    }

    /** registerCallback(event, callback): the new client registers in its
        constructor, is stored in the event's slot, and only then does the
        client it replaces unregister. The other slots are untouched. */
    method RegisterCallback(event: ListEvent, callback: CallbackId)
      requires Valid()
      modifies this`log, this`nextId, slots
      ensures Valid()
      ensures slots[..] == old(slots[..])[SlotOf(event) := Some(NotificationClient(old(nextId), event, callback))]
      ensures log == old(log) + [Register(NotificationClient(old(nextId), event, callback))] +
        (if old(slots[SlotOf(event)]).Some? then [Unregister(old(slots[SlotOf(event)]).value)] else [])
      ensures ClientsFor(event) == {NotificationClient(old(nextId), event, callback)}
    {
      var client := NotificationClient(nextId, event, callback);
      nextId := nextId + 1;
      RegisteredAppend(log, Register(client));
      log := log + [Register(client)];
      var i := SlotOf(event);
      var previous := slots[i];
      slots[i] := Some(client);
      if previous.Some? {
        RegisteredAppend(log, Unregister(previous.value));
        log := log + [Unregister(previous.value)];
      }
      ClientsForIsSlot(this, event);
    }

    /** The nullptr overload: the event's client is destroyed, which
        unregisters it, and its slot is left empty. */
    method ClearCallback(event: ListEvent)
      requires Valid()
      modifies this`log, slots
      ensures Valid()
      ensures slots[..] == old(slots[..])[SlotOf(event) := None]
      ensures log == old(log) +
        (if old(slots[SlotOf(event)]).Some? then [Unregister(old(slots[SlotOf(event)]).value)] else [])
      ensures ClientsFor(event) == {}
    {
      ResetSlot(SlotOf(event));
      ClientsForIsSlot(this, event);
    }

    /** unique_ptr::reset() on one slot: the slot is emptied, and the client
        it held, if any, unregisters in its destructor. */
    method ResetSlot(i: nat)
      requires Valid() && i < 3
      modifies this`log, slots
      ensures Valid()
      ensures slots[..] == old(slots[..])[i := None]
      ensures log == old(log) + (if old(slots[i]).Some? then [Unregister(old(slots[i]).value)] else [])
    {
      var previous := slots[i];
      UnregisterStep(log, slots[..], i);
      slots[i] := None;
      if previous.Some? {
        log := log + [Unregister(previous.value)];
      }
    }

    /** The destructor: every slot is reset in order, unregistering its
        client, and then the enumerator is released. */
    method Destroy()
      requires Valid()
      modifies this`log, slots
      ensures forall i :: 0 <= i < 3 ==> slots[i].None?
      ensures log == old(log) + UnregisterAll(old(slots[..])) + [ReleaseEnumerator]
      ensures Registered(log) == {}
    {
      ghost var initial := slots[..];
      ghost var log0 := log;
      for i := 0 to 3
        invariant Valid()
        invariant forall j :: 0 <= j < i ==> slots[j].None?
        invariant forall j :: i <= j < 3 ==> slots[j] == initial[j]
        invariant log == log0 + UnregisterAll(initial[..i])
      {
        UnregisterAllStep(initial, i);
        ResetSlot(i);
      }
      assert initial[..3] == initial;
      assert slots[..] == [None, None, None];
      RegisteredAppend(log, ReleaseEnumerator);
      log := log + [ReleaseEnumerator];
    }
  }

  /** One step of the destructor's loop keeps the registry equal to what
      the slots own. */
  lemma UnregisterStep(log: seq<EnumeratorCall>, slots: seq<Option<NotificationClient>>, i: nat)
    requires |slots| == 3 && i < 3
    requires forall j :: 0 <= j < 3 && slots[j].Some? ==> SlotOf(slots[j].value.event) == j
    requires Registered(log) == SlotClients(slots)
    ensures Registered(log + if slots[i].Some? then [Unregister(slots[i].value)] else []) ==
      SlotClients(slots[i := None])
  {
    ClearSlot(slots, i);
    if slots[i].Some? {
      RegisteredAppend(log, Unregister(slots[i].value));
    } else {
      assert log + [] == log;
    }
  }

  lemma UnregisterAllStep(slots: seq<Option<NotificationClient>>, i: nat)
    requires i < |slots|
    ensures UnregisterAll(slots[..i + 1]) ==
      UnregisterAll(slots[..i]) + if slots[i].Some? then [Unregister(slots[i].value)] else []
  {
    assert slots[..i + 1][..i] == slots[..i];
  }

  /** Emptying one slot removes exactly its occupant from the owned
      clients: no other slot holds the same client. */
  lemma ClearSlot(slots: seq<Option<NotificationClient>>, i: nat)
    requires |slots| == 3 && i < 3
    requires forall j :: 0 <= j < 3 && slots[j].Some? ==> SlotOf(slots[j].value.event) == j
    ensures SlotClients(slots[i := None]) == SlotClients(slots) - SlotClient(slots[i])
  {
  }

  /** With the invariant, the registered clients for an event are exactly
      the occupant of its slot. */
  lemma ClientsForIsSlot(m: DeviceMonitor, e: ListEvent)
    requires m.Valid()
    ensures m.ClientsFor(e) == SlotClient(m.slots[SlotOf(e)])
  {
    assert m.slots[..][0] == m.slots[0] && m.slots[..][1] == m.slots[1] && m.slots[..][2] == m.slots[2];
  }

  /** A notification wakes exactly the occupants of the slots whose event
      it fires for. */
  lemma WokenAreFiringSlots(m: DeviceMonitor, n: Notification)
    requires m.Valid()
    ensures forall c :: c in m.Woken(n) <==> exists i :: 0 <= i < 3 && m.slots[i] == Some(c) && Fires(c.event, n)
  {
    assert m.slots[..][0] == m.slots[0] && m.slots[..][1] == m.slots[1] && m.slots[..][2] == m.slots[2];
  }

  /** A device being added, removed or changing state wakes the list-changed
      client and no other. */
  lemma ListChangeWakesListSlot(m: DeviceMonitor, n: Notification)
    requires m.Valid()
    requires n.DeviceAdded? || n.DeviceRemoved? || n.DeviceStateChanged?
    ensures m.Woken(n) == SlotClient(m.slots[SlotOf(ListChanged)])
  {
    assert m.slots[..][0] == m.slots[0] && m.slots[..][1] == m.slots[1] && m.slots[..][2] == m.slots[2];
  }

  /** setAudioDeviceListCallback: forwards to the monitor's registerCallback. */
  method SetAudioDeviceListCallback(m: DeviceMonitor, event: ListEvent, callback: CallbackId)
    requires m.Valid()
    modifies m`log, m`nextId, m.slots
    ensures m.Valid()
    ensures m.slots[..] == old(m.slots[..])[SlotOf(event) := Some(NotificationClient(old(m.nextId), event, callback))]
    ensures m.ClientsFor(event) == {NotificationClient(old(m.nextId), event, callback)}
  {
    m.RegisterCallback(event, callback);
  }
}
