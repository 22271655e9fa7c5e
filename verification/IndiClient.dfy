/** `PurePythonIndiClient`: the handlers that update the cached devices in place and fire callbacks. */
module IndiClient {
  import opened Options
  import opened Properties
  import opened Classifier
  import opened DeviceModel
  import opened KnownState

  /** `IDevice`: the client hands out references to it and updates it in place. */
  class Device {
    const name: string
    var properties: map<string, Property>
    var messages: seq<string>
    var roles: seq<Role>

    constructor (name: string)
      ensures this.name == name && Abs() == DeviceView(map[], [], [])
    {
      this.name, properties, messages, roles := name, map[], [], [];
    }

    function Abs(): DeviceView
      reads this
    {
      DeviceView(properties, messages, roles)
    }

    /** `device.properties[name] = prop` */
    method SetProperty(name: string, p: Property)
      modifies this
      ensures Abs() == old(Abs()).(properties := old(Abs()).properties[name := p])
    {
      properties := properties[name := p];
    }

    /** `addMessage` */
    method AddMessage(text: string)
      modifies this
      ensures Abs() == old(Abs()).(messages := old(Abs()).messages + [text])
    {
      messages := messages + [text];
    }

    method SetRoles(roles: seq<Role>)
      modifies this
      ensures Abs() == old(Abs()).(roles := roles)
    {
      this.roles := roles;
    }
  }

  /** `DeviceStateManager` */
  class StateManager {
    var state: Store

    constructor ()
      ensures state == map[]
    {
      state := map[];
    }

    method Update(p: Property)
      modifies this
      ensures state == StoreUpdate(old(state), p)
    {
      if p.device !in state {
        state := state[p.device := map[]];
      }
      state := state[p.device := state[p.device][p.name := Values(p)]];
    }
  }

  class Client {
    const known: KnownNames
    const manager: StateManager?
    var devices: map<string, Device>
    var events: seq<Event>

    /** No device object is cached under two names. */
    ghost predicate Valid()
      reads `devices, known
    {
      known.Valid() && forall d, e :: d in devices && e in devices && d != e ==> devices[d] != devices[e]
    }

    ghost function DeviceViews(): map<string, DeviceView>
      reads `devices, devices.Values
    {
      map d | d in devices :: devices[d].Abs()
    }

    ghost function Abs(): View
      reads this, known, manager, devices.Values
    {
      View(DeviceViews(), known.Abs(), if manager == null then None else Some(manager.state), events)
    }

    constructor (manager: StateManager?)
      ensures Valid() && fresh(known) && this.manager == manager
      ensures Abs() == View(map[], NOTHING_KNOWN, if manager == null then None else Some(manager.state), [])
    {
      known := new KnownNames();
      this.manager, devices, events := manager, map[], [];
    }

    /** The device part of `connectServer`. */
    method ConnectServer()
      requires Valid()
      modifies this
      ensures Valid() && Abs() == Reconnected(old(Abs()))
    {
      devices := map[];
      events := events + [OnConnecting];
    }

    /** When one cached device object changes, so does its view, and no other. */
    twostate lemma OneDeviceChanged(name: string)
      requires old(Valid()) && devices == old(devices) && name in devices
      requires forall d :: d in devices && devices[d] != devices[name] ==> devices[d].Abs() == old(devices[d].Abs())
      ensures DeviceViews() == old(DeviceViews())[name := devices[name].Abs()]
    {
    }

    /** Caches a new device object; the other devices stay as they are. */
    method InsertDevice(name: string)
      requires Valid()
      modifies `devices
      ensures Valid() && DeviceViews() == old(DeviceViews())[name := DeviceView(map[], [], [])]
      ensures fresh(devices.Values - old(devices.Values))
    {
      var device := new Device(name);
      devices := devices[name := device];
    }

    /** What `_handle_def_property` does for a new device. */
    method AdmitDevice(name: string)
      requires Valid()
      modifies `devices, `events, known
      ensures Valid() && DeviceViews() == old(DeviceViews())[name := DeviceView(map[], [], [])]
      ensures known.Abs() == DeviceModel.AddDevice(old(known.Abs()), name) && events == old(events) + [OnNewDevice(name)]
      ensures fresh(devices.Values - old(devices.Values))
    {
      InsertDevice(name);
      known.AddDevice(name);
      events := events + [OnNewDevice(name)];
    }

    method IntroduceDevice(m: IndiMessage)
      requires Valid()
      modifies `devices, `events, known
      ensures Valid() && Abs() == Introduce(old(Abs()), m)
      ensures fresh(devices.Values - old(devices.Values))
    {
      var change := known.GetDeviceChange(m);
      if change == Some(New) {
        if m.device !in devices {
          AdmitDevice(m.device);
        }
      }
    }

    method CacheProperty(p: Property)
      requires Valid()
      modifies devices.Values
      ensures Valid() && Abs() == Cache(old(Abs()), p)
    {
      if p.device in devices {
        devices[p.device].SetProperty(p.name, p);
        OneDeviceChanged(p.device);
        assert DeviceViews() == Cache(old(Abs()), p).devices;
      }
    }

    method UpdateStateManager(p: Property)
      requires Valid()
      modifies manager
      ensures Valid() && Abs() == Keep(old(Abs()), p)
    {
      if manager != null {
        manager.Update(p);
      }
    }

    /** Sets the roles of a cached device if they have changed. */
    method ReviseRoles(name: string) returns (changed: bool)
      requires Valid() && name in devices
      modifies devices[name]
      ensures var before := old(DeviceViews())[name];
              && Valid()
              && changed == (before.roles != Classify(before.properties.Keys))
              && DeviceViews() == old(DeviceViews())[name := before.(roles := Classify(before.properties.Keys))]
    {
      var device := devices[name];
      var roles := ClassifyDevice(device.properties.Keys);
      changed := roles != device.roles;
      if changed {
        device.SetRoles(roles);
      }
      OneDeviceChanged(name);
    }

    /** `newProperty`, as main wires it. */
    method FireNewProperty(p: Property)
      requires Valid()
      modifies `events, devices.Values
      ensures Valid() && Abs() == AnnounceRoles(Fire(old(Abs()), OnNewProperty(p)), p.device)
    {
      events := events + [OnNewProperty(p)];
      ghost var fired := Fire(old(Abs()), OnNewProperty(p));
      assert Abs() == fired;
      if p.device in devices {
        ghost var d := fired.devices[p.device];
        ghost var roles := Classify(d.properties.Keys);
        var changed := ReviseRoles(p.device);
        assert Abs() == fired.(devices := fired.devices[p.device := d.(roles := roles)]);
        if changed {
          assert DeviceViews()[p.device] == devices[p.device].Abs();
          events := events + [OnRoles(p.device, devices[p.device].roles)];
          assert Abs() == Fire(fired.(devices := fired.devices[p.device := d.(roles := roles)]), OnRoles(p.device, roles));
        } else {
          assert d.(roles := roles) == d && fired.devices[p.device := d] == fired.devices;
        }
      }
    }

    method AcceptNewProperty(p: Property)
      requires Valid()
      modifies `events, known, manager, devices.Values
      ensures Valid() && Abs() == AcceptNew(old(Abs()), p)
    {
      known.AddProperty(p.device, p.name);
      UpdateStateManager(p);
      FireNewProperty(p);
    }

    method AcceptUpdatedProperty(p: Property)
      requires Valid()
      modifies `events, manager
      ensures Valid() && Abs() == AcceptUpdate(old(Abs()), p)
    {
      UpdateStateManager(p);
      events := events + [OnUpdateProperty(p)];
    }

    method AcceptProperty(change: Option<Change>, p: Property)
      requires Valid()
      modifies `events, known, manager, devices.Values
      ensures Valid() && Abs() == Accept(old(Abs()), change, p)
    {
      if change == Some(New) {
        AcceptNewProperty(p);
      } else if change == Some(Updated) {
        AcceptUpdatedProperty(p);
      }
    }

    /** The second half of `_handle_def_property`. */
    method DefineProperty(m: IndiMessage, p: Property)
      requires Valid()
      modifies `events, known, manager, devices.Values
      ensures Valid() && Abs() == Define(old(Abs()), m, p)
    {
      var change := known.GetPropertyChange(m, true);
      ghost var before := Abs();
      assert change == PropertyChange(before.known, m, true);
      CacheProperty(p);
      assert Abs() == Cache(before, p);
      AcceptProperty(change, p);
    }

    /** `_handle_def_property` */
    method HandleDefProperty(m: IndiMessage)
      requires Valid() && m.message.Def?
      modifies `devices, `events, known, manager, devices.Values
      ensures Valid() && Abs() == HandleDef(old(Abs()), m)
      ensures fresh(devices.Values - old(devices.Values))
    {
      IntroduceDevice(m);
      var created := CreateProperty(m);
      if !created.Made? {
        return;
      }
      if |created.property.elements| == 0 {
        return;
      }
      DefineProperty(m, created.property);
    }

    method ReplaceProperty(p: Property)
      requires Valid()
      modifies `events, manager, devices.Values
      ensures Valid() && Abs() == AcceptUpdate(Cache(old(Abs()), p), p)
    {
      CacheProperty(p);
      AcceptUpdatedProperty(p);
    }

    /** The second half of `_handle_set_property`. */
    method UpdateIfKnown(m: IndiMessage, p: Property)
      requires Valid()
      modifies `events, manager, devices.Values
      ensures Valid()
      ensures Abs() == if PropertyChange(old(known.Abs()), m, false) == Some(Updated) then AcceptUpdate(Cache(old(Abs()), p), p) else old(Abs())
    {
      var change := known.GetPropertyChange(m, false);
      if change == Some(Updated) {
        ReplaceProperty(p);
      }
    }

    /** `_handle_set_property` */
    method HandleSetProperty(m: IndiMessage)
      requires Valid() && m.message.Set?
      modifies `events, manager, devices.Values
      ensures Valid() && Abs() == HandleSet(old(Abs()), m)
    {
      var created := CreateProperty(m);
      if !created.Made? {
        return;
      }
      if |created.property.elements| == 0 {
        return;
      }
      UpdateIfKnown(m, created.property);
    }

    /** The second half of `_handle_set_blob`. */
    method TakeBlob(p: Property)
      requires Valid()
      modifies `events, known, devices.Values
      ensures Valid() && Abs() == AcceptBlob(Cache(old(Abs()), p), p)
    {
      CacheProperty(p);
      AcceptBlobData(p);
    }

    /** `_handle_set_blob` */
    method HandleSetBlobVector(m: IndiMessage)
      requires Valid() && m.message.Set?
      modifies `events, known, devices.Values
      ensures Valid() && Abs() == HandleSetBlob(old(Abs()), m)
    {
      var created := CreateProperty(m);
      if !created.Made? {
        return;
      }
      var p := created.property;
      if |p.elements| == 0 {
        return;
      }
      TakeBlob(p);
    }

    method AcceptBlobData(p: Property)
      requires Valid()
      modifies `events, known
      ensures Valid() && Abs() == AcceptBlob(old(Abs()), p)
    {
      known.AddProperty(p.device, p.name);
      events := events + [OnNewBlob(p)];
    }

    /** `_handle_del_property`; the cached device keeps the property. */
    method HandleDelPropertyMessage(m: IndiMessage)
      requires Valid() && m.message == DelProperty
      modifies `events, known
      ensures Valid() && Abs() == HandleDelProperty(old(Abs()), m)
    {
      var change := known.GetPropertyChange(m, false);
      if change == Some(Deleted) {
        known.RemoveProperty(m.device, m.property);
        events := events + [OnRemoveProperty(m.device, m.property)];
      }
    }

    method DropDevice(name: string)
      requires Valid()
      modifies `devices
      ensures Valid() && DeviceViews() == old(DeviceViews()) - {name}
      ensures devices.Values <= old(devices.Values)
    {
      devices := devices - {name};
    }

    /** `_handle_del_device` */
    method HandleDelDeviceMessage(m: IndiMessage)
      requires Valid()
      modifies `devices, `events, known
      ensures Valid() && Abs() == HandleDelDevice(old(Abs()), m)
      ensures devices.Values <= old(devices.Values)
    {
      if m.device in devices {
        DropDevice(m.device);
        known.RemoveDevice(m.device);
        events := events + [OnRemoveDevice(m.device)];
        assert DeviceViews() == old(DeviceViews()) - {m.device};
      }
    }

    /** `_handle_message_event` */
    method HandleMessageEvent(m: IndiMessage)
      requires Valid()
      modifies `events, devices.Values
      ensures Valid() && Abs() == HandleNote(old(Abs()), m)
    {
      if m.device == "" {
        events := events + [OnUniversalMessage(m.text)];
        return;
      }
      if m.device in devices {
        devices[m.device].AddMessage(m.text);
        OneDeviceChanged(m.device);
        ghost var views := DeviceViews();
        assert views == HandleNote(old(Abs()), m).devices;
        events := events + [OnMessage(m.device, m.text)];
        assert DeviceViews() == views;
      }
    }

    /** `_handle_message` */
    method HandleMessage(m: IndiMessage)
      requires Valid()
      modifies `devices, `events, known, manager, devices.Values
      ensures Valid() && Abs() == Handle(old(Abs()), m)
    {
      match m.message
      case Note => HandleMessageEvent(m);
      case Def(_) => HandleDefProperty(m);
      case Set(kind) =>
        if kind == Blob {
          HandleSetBlobVector(m);
        } else {
          HandleSetProperty(m);
        }
      case DelProperty => HandleDelPropertyMessage(m);
      case DelDevice => HandleDelDeviceMessage(m);
      case NewBlob =>
    }

    /** The cache part of the `sendNew` commands: targets are set on the cached elements. */
    method SetTargets(device: string, name: string, values: map<string, string>)
      requires Valid()
      modifies devices.Values
      ensures Valid() && Abs() == Commanded(old(Abs()), device, name, values)
    {
      if device in devices {
        var d := devices[device];
        if name in d.properties {
          var p := TargetsSet(d.properties[name], values);
          d.SetProperty(name, p);
          OneDeviceChanged(device);
          assert DeviceViews() == Commanded(old(Abs()), device, name, values).devices;
        }
      }
    }
  }

  /** The loop over the commanded elements. */
  method TargetsSet(p: Property, values: map<string, string>) returns (r: Property)
    ensures r == WithTargets(p, values)
  {
    var elements := p.elements;
    var todo := values.Keys;
    while todo != {}
      invariant todo <= values.Keys && elements.Keys == p.elements.Keys
      invariant forall e :: e in elements ==>
                  elements[e] == if e in values && e !in todo then p.elements[e].(targetValue := Some(values[e])) else p.elements[e]
      decreases todo
    {
      var e :| e in todo;
      todo := todo - {e};
      if e in elements {
        elements := elements[e := elements[e].(targetValue := Some(values[e]))];
      }
    }
    r := p.(elements := elements);
    assert r.elements == WithTargets(p, values).elements;
  }
}
