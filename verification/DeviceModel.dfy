/**
 What one INDI message does to the engine's three views of the devices: the known names (KnownState),
 the cached devices, and the values of the state manager; and which callbacks it fires.
 */
module DeviceModel {
  import opened Options
  import opened Properties
  import opened Classifier

  // ---------- known names ----------

  datatype Known = Known(devices: set<string>, properties: map<string, set<string>>)

  const NOTHING_KNOWN := Known({}, map[])

  function PropertiesOf(k: Known, device: string): set<string> {
    if device in k.properties then k.properties[device] else {}
  }

  function AddDevice(k: Known, device: string): Known {
    Known(k.devices + {device}, k.properties[device := PropertiesOf(k, device)])
  }

  function AddProperty(k: Known, device: string, name: string): Known {
    var k' := if device in k.devices then k else AddDevice(k, device);
    k'.(properties := k'.properties[device := PropertiesOf(k', device) + {name}])
  }

  function RemoveProperty(k: Known, device: string, name: string): Known {
    if device in k.properties then k.(properties := k.properties[device := k.properties[device] - {name}]) else k
  }

  function RemoveDevice(k: Known, device: string): Known {
    Known(k.devices - {device}, k.properties - {device})
  }

  datatype Change = New | Updated | Deleted

  predicate IsNewDevice(k: Known, m: IndiMessage) {
    m.device != "" && m.device !in k.devices
  }

  function PropertyChange(k: Known, m: IndiMessage, isDef: bool): Option<Change> {
    if m.device == "" || m.property == "" then None
    else if m.message == DelProperty then if m.property in PropertiesOf(k, m.device) then Some(Deleted) else None
    else if isDef then Some(if m.property in PropertiesOf(k, m.device) then Updated else New)
    else if m.property in PropertiesOf(k, m.device) then Some(Updated)
    else None
  }

  // ---------- the state of the client ----------

  datatype DeviceView = DeviceView(properties: map<string, Property>, messages: seq<string>, roles: seq<Role>)

  type Store = map<string, map<string, map<string, string>>>

  /** Callbacks, role announcements, and the attempts to connect that empty the cache. */
  datatype Event =
    | OnNewDevice(device: string)
    | OnRemoveDevice(device: string)
    | OnNewProperty(property: Property)
    | OnUpdateProperty(property: Property)
    | OnNewBlob(property: Property)
    | OnRemoveProperty(device: string, name: string)
    | OnMessage(device: string, text: string)
    | OnUniversalMessage(text: string)
    | OnRoles(device: string, roles: seq<Role>)
    | OnConnecting

  datatype View = View(devices: map<string, DeviceView>, known: Known, store: Option<Store>, events: seq<Event>)

  function Fire(v: View, e: Event): View {
    v.(events := v.events + [e])
  }

  /** A device that a def message makes known. */
  function Introduce(v: View, m: IndiMessage): View {
    if IsNewDevice(v.known, m) && m.device !in v.devices then
      Fire(v.(devices := v.devices[m.device := DeviceView(map[], [], [])], known := AddDevice(v.known, m.device)), OnNewDevice(m.device))
    else v
  }

  function WithProperty(d: DeviceView, p: Property): DeviceView {
    d.(properties := d.properties[p.name := p])
  }

  /** The property goes into the cached device, if there is one. */
  function Cache(v: View, p: Property): View {
    if p.device in v.devices then v.(devices := v.devices[p.device := WithProperty(v.devices[p.device], p)]) else v
  }

  /** `DeviceStateManager.update` */
  function StoreUpdate(s: Store, p: Property): Store {
    s[p.device := (if p.device in s then s[p.device] else map[])[p.name := Values(p)]]
  }

  function Keep(v: View, p: Property): View {
    match v.store
    case None => v
    case Some(s) => v.(store := Some(StoreUpdate(s, p)))
  }

  /** The wiring of `newProperty` in main: classify the device and announce its roles if they have changed. */
  function AnnounceRoles(v: View, device: string): View {
    if device !in v.devices then v
    else
      var d := v.devices[device];
      var roles := Classify(d.properties.Keys);
      if roles == d.roles then v
      else Fire(v.(devices := v.devices[device := d.(roles := roles)]), OnRoles(device, roles))
  }

  /** A property that was not known: it becomes known, its values are kept, and it is announced. */
  function Registered(v: View, p: Property): View {
    Fire(Keep(v.(known := AddProperty(v.known, p.device, p.name)), p), OnNewProperty(p))
  }

  function AcceptNew(v: View, p: Property): View {
    AnnounceRoles(Registered(v, p), p.device)
  }

  /** A property that was known. */
  function AcceptUpdate(v: View, p: Property): View {
    Fire(Keep(v, p), OnUpdateProperty(p))
  }

  function Accept(v: View, change: Option<Change>, p: Property): View {
    match change
    case Some(New) => AcceptNew(v, p)
    case Some(Updated) => AcceptUpdate(v, p)
    case _ => v
  }

  /** The second half of a def message. */
  function Define(v: View, m: IndiMessage, p: Property): View {
    Accept(Cache(v, p), PropertyChange(v.known, m, true), p)
  }

  function HandleDef(v: View, m: IndiMessage): View
    requires m.message.Def?
  {
    var v1 := Introduce(v, m);
    match PropertyOf(m)
    case None => v1
    case Some(p) => Define(v1, m, p)
  }

  function HandleSet(v: View, m: IndiMessage): View
    requires m.message.Set?
  {
    match PropertyOf(m)
    case None => v
    case Some(p) =>
      if PropertyChange(v.known, m, false) == Some(Updated) then AcceptUpdate(Cache(v, p), p) else v
  }

  /** BLOB data makes its property known, but keeps no values. */
  function AcceptBlob(v: View, p: Property): View {
    Fire(v.(known := AddProperty(v.known, p.device, p.name)), OnNewBlob(p))
  }

  function HandleSetBlob(v: View, m: IndiMessage): View
    requires m.message.Set?
  {
    match PropertyOf(m)
    case None => v
    case Some(p) =>
      AcceptBlob(Cache(v, p), p)
  }

  function HandleDelProperty(v: View, m: IndiMessage): View {
    if PropertyChange(v.known, m, false) == Some(Deleted) then
      Fire(v.(known := RemoveProperty(v.known, m.device, m.property)), OnRemoveProperty(m.device, m.property))
    else v
  }

  function HandleDelDevice(v: View, m: IndiMessage): View {
    if m.device in v.devices then
      Fire(v.(devices := v.devices - {m.device}, known := RemoveDevice(v.known, m.device)), OnRemoveDevice(m.device))
    else v
  }

  function HandleNote(v: View, m: IndiMessage): View {
    if m.device == "" then Fire(v, OnUniversalMessage(m.text))
    else if m.device in v.devices then
      var d := v.devices[m.device];
      Fire(v.(devices := v.devices[m.device := d.(messages := d.messages + [m.text])]), OnMessage(m.device, m.text))
    else v
  }

  /** `_handle_message` */
  function Handle(v: View, m: IndiMessage): View {
    match m.message
    case Note => HandleNote(v, m)
    case Def(_) => HandleDef(v, m)
    case Set(Blob) => HandleSetBlob(v, m)
    case Set(_) => HandleSet(v, m)
    case DelProperty => HandleDelProperty(v, m)
    case DelDevice => HandleDelDevice(v, m)
    case NewBlob => v
  }

  /** The device part of `connectServer`. */
  function Reconnected(v: View): View {
    Fire(v.(devices := map[]), OnConnecting)
  }

  /** The targets that a command sets on the elements it names. */
  function WithTargets(p: Property, values: map<string, string>): Property {
    p.(elements := map e | e in p.elements ::
         if e in values then p.elements[e].(targetValue := Some(values[e])) else p.elements[e])
  }

  /** The cache part of `sendNewNumber`, `sendNewText` and `sendNewSwitch`. */
  function Commanded(v: View, device: string, name: string, values: map<string, string>): View {
    if device in v.devices && name in v.devices[device].properties then
      var d := v.devices[device];
      v.(devices := v.devices[device := d.(properties := d.properties[name := WithTargets(d.properties[name], values)])])
    else v
  }
}
