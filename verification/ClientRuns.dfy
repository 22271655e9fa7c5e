/** What holds of the engine's views of the devices after every sequence of messages, commands and reconnections. */
module ClientRuns {
  import opened Options
  import opened Properties
  import opened Classifier
  import opened DeviceModel

  datatype Input =
    | Received(m: IndiMessage)
    | Connects
    | Commands(device: string, name: string, values: map<string, string>)

  function Next(v: View, input: Input): View {
    match input
    case Received(m) => Handle(v, m)
    case Connects => Reconnected(v)
    case Commands(device, name, values) => Commanded(v, device, name, values)
  }

  const START := View(map[], NOTHING_KNOWN, Some(map[]), [])

  function Run(inputs: seq<Input>): View {
    if |inputs| == 0 then START else Next(Run(inputs[..|inputs| - 1]), inputs[|inputs| - 1])
  }

  // ---------- what the events alone tell ----------

  /** The properties that a listener to the callbacks considers known. */
  function KnownBy(events: seq<Event>): set<(string, string)> {
    if |events| == 0 then {}
    else
      var known := KnownBy(events[..|events| - 1]);
      match events[|events| - 1]
      case OnNewProperty(p) => known + {(p.device, p.name)}
      case OnNewBlob(p) => known + {(p.device, p.name)}
      case OnRemoveProperty(d, n) => known - {(d, n)}
      case OnRemoveDevice(d) => set x | x in known && x.0 != d
      case _ => known
  }

  /** The devices that a listener considers present. */
  function PresentBy(events: seq<Event>): set<string> {
    if |events| == 0 then {}
    else
      var present := PresentBy(events[..|events| - 1]);
      match events[|events| - 1]
      case OnNewDevice(d) => present + {d}
      case OnRemoveDevice(d) => present - {d}
      case _ => present
  }

  /** The roles last announced for a device, since it was announced itself. */
  function RolesBy(events: seq<Event>, device: string): seq<Role> {
    if |events| == 0 then []
    else
      match events[|events| - 1]
      case OnNewDevice(d) => if d == device then [] else RolesBy(events[..|events| - 1], device)
      case OnRoles(d, roles) => if d == device then roles else RolesBy(events[..|events| - 1], device)
      case _ => RolesBy(events[..|events| - 1], device)
  }

  /** The cache that a listener can rebuild: per device, the last property object it was given by each name. */
  function MirrorBy(events: seq<Event>): map<string, map<string, Property>> {
    if |events| == 0 then map[]
    else
      var mirror := MirrorBy(events[..|events| - 1]);
      match events[|events| - 1]
      case OnNewDevice(d) => mirror[d := map[]]
      case OnRemoveDevice(d) => mirror - {d}
      case OnNewProperty(p) => Mirrored(mirror, p)
      case OnUpdateProperty(p) => Mirrored(mirror, p)
      case OnNewBlob(p) => Mirrored(mirror, p)
      case OnConnecting => map[]
      case _ => mirror
  }

  function Mirrored(mirror: map<string, map<string, Property>>, p: Property): map<string, map<string, Property>> {
    if p.device in mirror then mirror[p.device := mirror[p.device][p.name := p]] else mirror
  }

  /** The properties whose last data was a BLOB. */
  function BlobBy(events: seq<Event>): set<(string, string)> {
    if |events| == 0 then {}
    else
      var blobs := BlobBy(events[..|events| - 1]);
      match events[|events| - 1]
      case OnNewBlob(p) => blobs + {(p.device, p.name)}
      case OnNewProperty(p) => blobs - {(p.device, p.name)}
      case OnUpdateProperty(p) => blobs - {(p.device, p.name)}
      case _ => blobs
  }

  /** The values of every property announced by newProperty or updateProperty, the last ones winning. */
  function StoreBy(events: seq<Event>): Store {
    if |events| == 0 then map[]
    else
      var store := StoreBy(events[..|events| - 1]);
      match events[|events| - 1]
      case OnNewProperty(p) => StoreUpdate(store, p)
      case OnUpdateProperty(p) => StoreUpdate(store, p)
      case _ => store
  }

  /** What may happen next, given what has happened. */
  predicate Allowed(events: seq<Event>, e: Event) {
    match e
    case OnNewDevice(d) => d !in PresentBy(events)
    case OnRemoveDevice(d) => d in PresentBy(events)
    case OnNewProperty(p) => (p.device, p.name) !in KnownBy(events)
    case OnUpdateProperty(p) => (p.device, p.name) in KnownBy(events)
    case OnRemoveProperty(d, n) => (d, n) in KnownBy(events)
    case OnRoles(d, roles) =>
      |RolesBy(events, d)| < |roles| <= 8 && forall r :: r in RolesBy(events, d) ==> r in roles
    case _ => true
  }

  /** Every event was allowed when it happened. */
  predicate Lawful(events: seq<Event>) {
    |events| > 0 ==> Lawful(events[..|events| - 1]) && Allowed(events[..|events| - 1], events[|events| - 1])
  }

  // ---------- the invariant ----------

  predicate KnownOk(k: Known) {
    k.devices == k.properties.Keys
  }

  /** A cached property is filed under its own names and has elements. */
  predicate DeviceOk(d: string, dev: DeviceView) {
    forall p :: p in dev.properties ==>
      dev.properties[p].device == d && dev.properties[p].name == p && dev.properties[p].elements.Keys != {}
  }

  /** Known names are the outermost view; a cached device has every known property, and no empty one. */
  ghost predicate Nested(v: View) {
    && KnownOk(v.known)
    && v.devices.Keys <= v.known.devices
    && (forall d :: d in v.devices ==>
          PropertiesOf(v.known, d) <= v.devices[d].properties.Keys && DeviceOk(d, v.devices[d]))
  }

  /** The events are lawful and tell exactly which properties are known. */
  ghost predicate Told(v: View) {
    && Lawful(v.events)
    && v.devices.Keys <= PresentBy(v.events) <= v.known.devices
    && (forall d, n :: (d, n) in KnownBy(v.events) <==> n in PropertiesOf(v.known, d))
  }

  /** A property without the targets commanded for it. */
  function Untargeted(p: Property): Property {
    p.(elements := map e | e in p.elements :: p.elements[e].(targetValue := None))
  }

  function Untargeteds(dev: DeviceView): map<string, Property> {
    map n | n in dev.properties :: Untargeted(dev.properties[n])
  }

  /** But for targets, the cache is what a listener to the events rebuilds. */
  ghost predicate MirrorsEvents(v: View) {
    v.devices.Keys == MirrorBy(v.events).Keys
    && forall d :: d in v.devices ==> Untargeteds(v.devices[d]) == MirrorBy(v.events)[d]
  }

  predicate Stored(s: Store, p: Property) {
    p.device in s && p.name in s[p.device] && s[p.device][p.name] == Values(p)
  }

  /** The state manager holds the values of every cached property whose last data was not a BLOB. */
  ghost predicate KeepsValues(v: View) {
    && v.store == Some(StoreBy(v.events))
    && (forall d, n :: d in v.devices && n in v.devices[d].properties && (d, n) !in BlobBy(v.events) ==>
          Stored(v.store.value, v.devices[d].properties[n]))
  }

  /** Roles that the device had already shown when it had fewer properties. */
  ghost predicate RolesOfSome(roles: seq<Role>, names: set<string>) {
    exists fewer :: fewer <= names && roles == Classify(fewer)
  }

  ghost predicate RolesOk(v: View) {
    forall d :: d in v.devices ==>
      v.devices[d].roles == RolesBy(v.events, d) && RolesOfSome(v.devices[d].roles, v.devices[d].properties.Keys)
  }

  ghost predicate Inv(v: View) {
    Nested(v) && Told(v) && MirrorsEvents(v) && KeepsValues(v) && RolesOk(v)
  }

  // ---------- elementary facts ----------

  /** A property fresh from the parser. */
  predicate Parsed(p: Property) {
    p.device != "" && p.name != "" && p.elements.Keys != {} && Untargeted(p) == p
  }

  lemma PropertyOfIsParsed(m: IndiMessage)
    requires (m.message.Def? || m.message.Set?) && PropertyOf(m).Some?
    ensures var p := PropertyOf(m).value; Parsed(p) && p.device == m.device && p.name == m.property
  {
    var p := PropertyOf(m).value;
    var e :| e in m.elements;
    assert e in p.elements;
    assert Untargeted(p).elements == p.elements;
  }

  /** A def message with a usable property introduces its device, then updates or registers the property. */
  lemma DefCases(v: View, m: IndiMessage)
    requires m.message.Def? && PropertyOf(m).Some?
    ensures var p := PropertyOf(m).value;
            var v1 := Introduce(v, m);
            && PropertiesOf(v1.known, p.device) == PropertiesOf(v.known, p.device)
            && HandleDef(v, m) == if p.name in PropertiesOf(v.known, p.device) then AcceptUpdate(Cache(v1, p), p) else AcceptNew(Cache(v1, p), p)
  {
    PropertyOfIsParsed(m);
  }

  lemma Fired(events: seq<Event>, e: Event)
    ensures (events + [e])[..|events|] == events && (events + [e])[|events|] == e
  {
  }

  // ---------- introducing a device ----------

  lemma IntroduceKeepsNested(v: View, m: IndiMessage)
    requires Nested(v)
    ensures Nested(Introduce(v, m))
  {
  }

  lemma IntroduceKeepsTold(v: View, m: IndiMessage)
    requires Told(v) && KnownOk(v.known)
    ensures Told(Introduce(v, m))
  {
    Fired(v.events, OnNewDevice(m.device));
  }

  lemma IntroduceKeepsMirror(v: View, m: IndiMessage)
    requires MirrorsEvents(v)
    ensures MirrorsEvents(Introduce(v, m))
  {
    Fired(v.events, OnNewDevice(m.device));
  }

  lemma IntroduceKeepsValues(v: View, m: IndiMessage)
    requires KeepsValues(v)
    ensures KeepsValues(Introduce(v, m))
  {
    Fired(v.events, OnNewDevice(m.device));
  }

  lemma IntroduceKeepsRoles(v: View, m: IndiMessage)
    requires RolesOk(v)
    ensures RolesOk(Introduce(v, m))
  {
    Fired(v.events, OnNewDevice(m.device));
    NothingYet();
    var v' := Introduce(v, m);
    forall d | d in v'.devices
      ensures v'.devices[d].roles == RolesBy(v'.events, d) && RolesOfSome(v'.devices[d].roles, v'.devices[d].properties.Keys)
    {
      if v' != v && d == m.device {
        assert v'.devices[d] == DeviceView(map[], [], []) && v'.devices[d].properties.Keys == {};
      } else {
        assert v'.devices[d] == v.devices[d];
      }
    }
  }

  lemma NothingYet()
    ensures RolesOfSome([], {})
  {
    ClassifyNothing();
  }

  // ---------- a property that becomes known ----------

  lemma AddingProperty(k: Known, d: string, n: string)
    requires KnownOk(k)
    ensures AddProperty(k, d, n).devices == k.devices + {d}
    ensures forall x :: PropertiesOf(AddProperty(k, d, n), x) == PropertiesOf(k, x) + if x == d then {n} else {}
  {
  }

  lemma RegisterKeepsNested(v: View, p: Property)
    requires Nested(v) && Parsed(p)
    ensures Nested(Registered(Cache(v, p), p))
  {
    AddingProperty(v.known, p.device, p.name);
    var v' := Registered(Cache(v, p), p);
    forall d | d in v'.devices
      ensures PropertiesOf(v'.known, d) <= v'.devices[d].properties.Keys && DeviceOk(d, v'.devices[d])
    {
      assert d != p.device ==> v'.devices[d] == v.devices[d];
    }
  }

  lemma RegisterKeepsTold(v: View, p: Property)
    requires Told(v) && KnownOk(v.known) && Parsed(p) && p.name !in PropertiesOf(v.known, p.device)
    ensures Told(Registered(Cache(v, p), p))
  {
    AddingProperty(v.known, p.device, p.name);
    Fired(v.events, OnNewProperty(p));
  }

  lemma RegisterKeepsMirror(v: View, p: Property)
    requires MirrorsEvents(v) && Parsed(p)
    ensures MirrorsEvents(Registered(Cache(v, p), p))
  {
    Fired(v.events, OnNewProperty(p));
    CacheMirrored(v, p);
  }

  lemma RegisterKeepsValues(v: View, p: Property)
    requires KeepsValues(v) && Nested(v) && Parsed(p)
    ensures KeepsValues(Registered(Cache(v, p), p))
  {
    Fired(v.events, OnNewProperty(p));
    CacheStored(v, p, OnNewProperty(p));
  }

  lemma RegisterKeepsRoles(v: View, p: Property)
    requires RolesOk(v)
    ensures RolesOk(Registered(Cache(v, p), p))
  {
  }

  /** Caching a parsed property does to the cache what its event does to the mirror. */
  lemma CacheMirrored(v: View, p: Property)
    requires MirrorsEvents(v) && Parsed(p)
    ensures var mirror := Mirrored(MirrorBy(v.events), p);
            var devices := Cache(v, p).devices;
            devices.Keys == mirror.Keys && forall d :: d in devices ==> Untargeteds(devices[d]) == mirror[d]
  {
    if p.device in v.devices {
      var dev := v.devices[p.device];
      assert Untargeteds(WithProperty(dev, p)) == Untargeteds(dev)[p.name := p];
    }
  }

  /** Keeping the values of a property that has just been cached. */
  lemma CacheStored(v: View, p: Property, e: Event)
    requires KeepsValues(v) && Nested(v) && (e == OnNewProperty(p) || e == OnUpdateProperty(p))
    ensures KeepsValues(Fire(Keep(Cache(v, p), p), e))
  {
    Fired(v.events, e);
    var v' := Fire(Keep(Cache(v, p), p), e);
    forall d, n | d in v'.devices && n in v'.devices[d].properties && (d, n) !in BlobBy(v'.events)
      ensures Stored(v'.store.value, v'.devices[d].properties[n])
    {
      if d == p.device && n == p.name {
      } else {
        var q := v.devices[d].properties[n];
        assert v'.devices[d].properties[n] == q && DeviceOk(d, v.devices[d]);
        assert q.device == d && q.name == n && Stored(v.store.value, q);
      }
    }
  }

  // ---------- announcing roles ----------

  lemma AnnounceKeepsNested(v: View, d: string)
    requires Nested(v)
    ensures Nested(AnnounceRoles(v, d))
  {
  }

  /** Each announcement of a device's roles lists strictly more of them, and at most eight. */
  lemma RolesGrow(v: View, d: string)
    requires RolesOk(v) && d in v.devices
    ensures var roles := Classify(v.devices[d].properties.Keys);
            roles != v.devices[d].roles ==> Allowed(v.events, OnRoles(d, roles))
  {
    var dev := v.devices[d];
    var fewer :| fewer <= dev.properties.Keys && dev.roles == Classify(fewer);
    ClassifyMonotone(fewer, dev.properties.Keys);
    ClassifyIsExact(dev.properties.Keys);
  }

  lemma AnnounceKeepsTold(v: View, d: string)
    requires Told(v) && RolesOk(v)
    ensures Told(AnnounceRoles(v, d))
  {
    if d in v.devices {
      RolesGrow(v, d);
      Fired(v.events, OnRoles(d, Classify(v.devices[d].properties.Keys)));
    }
  }

  lemma AnnounceKeepsMirror(v: View, d: string)
    requires MirrorsEvents(v)
    ensures MirrorsEvents(AnnounceRoles(v, d))
  {
    if d in v.devices {
      Fired(v.events, OnRoles(d, Classify(v.devices[d].properties.Keys)));
    }
  }

  lemma AnnounceKeepsValues(v: View, d: string)
    requires KeepsValues(v)
    ensures KeepsValues(AnnounceRoles(v, d))
  {
    if d in v.devices {
      Fired(v.events, OnRoles(d, Classify(v.devices[d].properties.Keys)));
    }
  }

  lemma AnnounceKeepsRoles(v: View, d: string)
    requires RolesOk(v)
    ensures RolesOk(AnnounceRoles(v, d))
  {
    if d in v.devices {
      var names := v.devices[d].properties.Keys;
      var roles := Classify(names);
      Fired(v.events, OnRoles(d, roles));
      assert RolesOfSome(roles, names);
      var v' := AnnounceRoles(v, d);
      forall x | x in v'.devices
        ensures v'.devices[x].roles == RolesBy(v'.events, x) && RolesOfSome(v'.devices[x].roles, v'.devices[x].properties.Keys)
      {
        if x != d {
          assert v'.devices[x] == v.devices[x];
        }
      }
    }
  }

  // ---------- an update of a known property ----------

  lemma UpdateKeepsNested(v: View, p: Property)
    requires Nested(v) && Parsed(p)
    ensures Nested(AcceptUpdate(Cache(v, p), p))
  {
  }

  lemma UpdateKeepsTold(v: View, p: Property)
    requires Told(v) && p.name in PropertiesOf(v.known, p.device)
    ensures Told(AcceptUpdate(Cache(v, p), p))
  {
    Fired(v.events, OnUpdateProperty(p));
  }

  lemma UpdateKeepsMirror(v: View, p: Property)
    requires MirrorsEvents(v) && Parsed(p)
    ensures MirrorsEvents(AcceptUpdate(Cache(v, p), p))
  {
    Fired(v.events, OnUpdateProperty(p));
    CacheMirrored(v, p);
  }

  lemma UpdateKeepsRoles(v: View, p: Property)
    requires RolesOk(v)
    ensures RolesOk(AcceptUpdate(Cache(v, p), p))
  {
  }

  // ---------- BLOB data ----------

  lemma BlobKeepsNested(v: View, p: Property)
    requires Nested(v) && Parsed(p)
    ensures Nested(AcceptBlob(Cache(v, p), p))
  {
  }

  lemma BlobKeepsTold(v: View, p: Property)
    requires Told(v) && KnownOk(v.known) && Parsed(p)
    ensures Told(AcceptBlob(Cache(v, p), p))
  {
    AddingProperty(v.known, p.device, p.name);
    Fired(v.events, OnNewBlob(p));
  }

  lemma BlobKeepsMirror(v: View, p: Property)
    requires MirrorsEvents(v) && Parsed(p)
    ensures MirrorsEvents(AcceptBlob(Cache(v, p), p))
  {
    Fired(v.events, OnNewBlob(p));
    CacheMirrored(v, p);
  }

  lemma BlobKeepsValues(v: View, p: Property)
    requires KeepsValues(v)
    ensures KeepsValues(AcceptBlob(Cache(v, p), p))
  {
    Fired(v.events, OnNewBlob(p));
  }

  lemma BlobKeepsRoles(v: View, p: Property)
    requires RolesOk(v)
    ensures RolesOk(AcceptBlob(Cache(v, p), p))
  {
  }

  // ---------- deletions ----------

  lemma DelPropertyKeeps(v: View, m: IndiMessage)
    requires Inv(v) && m.message == DelProperty
    ensures Inv(HandleDelProperty(v, m))
  {
    Fired(v.events, OnRemoveProperty(m.device, m.property));
  }

  lemma DelDeviceKeepsNestedAndTold(v: View, m: IndiMessage)
    requires Nested(v) && Told(v)
    ensures Nested(HandleDelDevice(v, m)) && Told(HandleDelDevice(v, m))
  {
    Fired(v.events, OnRemoveDevice(m.device));
  }

  lemma DelDeviceKeepsRest(v: View, m: IndiMessage)
    requires MirrorsEvents(v) && KeepsValues(v) && RolesOk(v)
    ensures var v' := HandleDelDevice(v, m); MirrorsEvents(v') && KeepsValues(v') && RolesOk(v')
  {
    Fired(v.events, OnRemoveDevice(m.device));
  }

  // ---------- messages, commands and reconnections ----------

  lemma NoteKeepsNested(v: View, m: IndiMessage)
    requires Nested(v)
    ensures Nested(HandleNote(v, m))
  {
  }

  lemma NoteKeepsTold(v: View, m: IndiMessage)
    requires Told(v)
    ensures Told(HandleNote(v, m))
  {
    Fired(v.events, OnUniversalMessage(m.text));
    Fired(v.events, OnMessage(m.device, m.text));
  }

  /** A message of text changes no property, role or name. */
  lemma NoteChangesNoProperty(v: View, m: IndiMessage)
    ensures var v' := HandleNote(v, m);
            && v'.known == v.known && v'.store == v.store && v'.devices.Keys == v.devices.Keys
            && forall d :: d in v.devices ==> v'.devices[d].properties == v.devices[d].properties
  {
  }

  lemma NoteTellsNothing(v: View, m: IndiMessage)
    ensures var events := HandleNote(v, m).events;
            MirrorBy(events) == MirrorBy(v.events) && BlobBy(events) == BlobBy(v.events) && StoreBy(events) == StoreBy(v.events)
  {
    Fired(v.events, OnUniversalMessage(m.text));
    Fired(v.events, OnMessage(m.device, m.text));
  }

  lemma NoteKeepsMirrorAndValues(v: View, m: IndiMessage)
    requires MirrorsEvents(v) && KeepsValues(v)
    ensures MirrorsEvents(HandleNote(v, m)) && KeepsValues(HandleNote(v, m))
  {
    NoteChangesNoProperty(v, m);
    NoteTellsNothing(v, m);
    var v' := HandleNote(v, m);
    forall d | d in v.devices
      ensures Untargeteds(v'.devices[d]) == Untargeteds(v.devices[d])
    {
      assert v'.devices[d].properties == v.devices[d].properties;
    }
  }

  lemma NoteKeepsRoles(v: View, m: IndiMessage)
    requires RolesOk(v)
    ensures RolesOk(HandleNote(v, m))
  {
    Fired(v.events, OnUniversalMessage(m.text));
    Fired(v.events, OnMessage(m.device, m.text));
  }

  lemma ReconnectKeeps(v: View)
    requires Inv(v)
    ensures Inv(Reconnected(v))
  {
    Fired(v.events, OnConnecting);
  }

  lemma TargetsChangeNothingElse(p: Property, values: map<string, string>)
    ensures var q := WithTargets(p, values);
            && q.device == p.device && q.name == p.name && q.elements.Keys == p.elements.Keys
            && Values(q) == Values(p) && Untargeted(q) == Untargeted(p)
  {
    assert Untargeted(WithTargets(p, values)).elements == Untargeted(p).elements;
  }

  lemma TargetsOfDevice(dev: DeviceView, name: string, values: map<string, string>)
    requires name in dev.properties
    ensures SameButTargets(dev, dev.(properties := dev.properties[name := WithTargets(dev.properties[name], values)]))
  {
    TargetsChangeNothingElse(dev.properties[name], values);
  }

  /** Setting targets changes no name, value or role, and nothing that a mirror shows. */
  lemma CommandChangesOnlyTargets(v: View, device: string, name: string, values: map<string, string>)
    ensures var v' := Commanded(v, device, name, values);
            && v'.known == v.known && v'.store == v.store && v'.events == v.events
            && v'.devices.Keys == v.devices.Keys
            && forall d :: d in v.devices ==> SameButTargets(v.devices[d], v'.devices[d])
  {
    var v' := Commanded(v, device, name, values);
    forall d | d in v.devices
      ensures SameButTargets(v.devices[d], v'.devices[d])
    {
      if d == device && name in v.devices[d].properties {
        TargetsOfDevice(v.devices[d], name, values);
      } else {
        assert v'.devices[d] == v.devices[d];
      }
    }
  }

  predicate SameButTargets(dev: DeviceView, dev': DeviceView) {
    && dev'.roles == dev.roles && dev'.properties.Keys == dev.properties.Keys && Untargeteds(dev') == Untargeteds(dev)
    && forall n :: n in dev.properties ==>
         var p, q := dev.properties[n], dev'.properties[n];
         q.device == p.device && q.name == p.name && q.elements.Keys == p.elements.Keys && Values(q) == Values(p)
  }

  lemma CommandKeeps(v: View, device: string, name: string, values: map<string, string>)
    requires Inv(v)
    ensures Inv(Commanded(v, device, name, values))
  {
    var v' := Commanded(v, device, name, values);
    CommandChangesOnlyTargets(v, device, name, values);
    forall d | d in v'.devices
      ensures DeviceOk(d, v'.devices[d]) && PropertiesOf(v'.known, d) <= v'.devices[d].properties.Keys
    {
      assert SameButTargets(v.devices[d], v'.devices[d]) && DeviceOk(d, v.devices[d]);
    }
    assert Nested(v') && Told(v') && MirrorsEvents(v') && RolesOk(v');
    forall d, n | d in v'.devices && n in v'.devices[d].properties && (d, n) !in BlobBy(v'.events)
      ensures Stored(v'.store.value, v'.devices[d].properties[n])
    {
      assert SameButTargets(v.devices[d], v'.devices[d]) && Stored(v.store.value, v.devices[d].properties[n]);
    }
  }

  // ---------- runs ----------

  lemma DefKeeps(v: View, m: IndiMessage)
    requires Inv(v) && m.message.Def?
    ensures Inv(HandleDef(v, m))
  {
    var v1 := Introduce(v, m);
    IntroduceKeepsNested(v, m);
    IntroduceKeepsTold(v, m);
    IntroduceKeepsMirror(v, m);
    IntroduceKeepsValues(v, m);
    IntroduceKeepsRoles(v, m);
    if PropertyOf(m).Some? {
      var p := PropertyOf(m).value;
      PropertyOfIsParsed(m);
      DefCases(v, m);
      if p.name in PropertiesOf(v.known, p.device) {
        UpdateKeeps(v1, p);
      } else {
        RegisterKeeps(v1, p);
      }
    }
  }

  lemma RegisterKeeps(v: View, p: Property)
    requires Inv(v) && Parsed(p) && p.name !in PropertiesOf(v.known, p.device)
    ensures Inv(AcceptNew(Cache(v, p), p))
  {
    RegisterKeepsNested(v, p);
    RegisterKeepsTold(v, p);
    RegisterKeepsMirror(v, p);
    RegisterKeepsValues(v, p);
    RegisterKeepsRoles(v, p);
    var v' := Registered(Cache(v, p), p);
    AnnounceKeepsNested(v', p.device);
    AnnounceKeepsTold(v', p.device);
    AnnounceKeepsMirror(v', p.device);
    AnnounceKeepsValues(v', p.device);
    AnnounceKeepsRoles(v', p.device);
  }

  lemma UpdateKeeps(v: View, p: Property)
    requires Inv(v) && Parsed(p) && p.name in PropertiesOf(v.known, p.device)
    ensures Inv(AcceptUpdate(Cache(v, p), p))
  {
    UpdateKeepsNested(v, p);
    UpdateKeepsTold(v, p);
    UpdateKeepsMirror(v, p);
    CacheStored(v, p, OnUpdateProperty(p));
    UpdateKeepsRoles(v, p);
  }

  lemma SetKeeps(v: View, m: IndiMessage)
    requires Inv(v) && m.message.Set?
    ensures Inv(HandleSet(v, m))
  {
    if PropertyOf(m).Some? {
      var p := PropertyOf(m).value;
      PropertyOfIsParsed(m);
      if p.name in PropertiesOf(v.known, p.device) {
        UpdateKeeps(v, p);
      }
    }
  }

  lemma SetBlobKeeps(v: View, m: IndiMessage)
    requires Inv(v) && m.message.Set?
    ensures Inv(HandleSetBlob(v, m))
  {
    if PropertyOf(m).Some? {
      var p := PropertyOf(m).value;
      PropertyOfIsParsed(m);
      BlobKeepsNested(v, p);
      BlobKeepsTold(v, p);
      BlobKeepsMirror(v, p);
      BlobKeepsValues(v, p);
      BlobKeepsRoles(v, p);
    }
  }

  lemma NextKeeps(v: View, input: Input)
    requires Inv(v)
    ensures Inv(Next(v, input))
  {
    match input
    case Connects => ReconnectKeeps(v);
    case Commands(device, name, values) => CommandKeeps(v, device, name, values);
    case Received(m) =>
      match m.message
      case Note =>
        NoteKeepsNested(v, m);
        NoteKeepsTold(v, m);
        NoteKeepsMirrorAndValues(v, m);
        NoteKeepsRoles(v, m);
      case Def(_) => DefKeeps(v, m);
      case Set(_) =>
        SetKeeps(v, m);
        SetBlobKeeps(v, m);
      case DelProperty => DelPropertyKeeps(v, m);
      case DelDevice =>
        DelDeviceKeepsNestedAndTold(v, m);
        DelDeviceKeepsRest(v, m);
      case NewBlob =>
  }

  lemma {:induction false} RunKeeps(inputs: seq<Input>)
    ensures Inv(Run(inputs))
  {
    if |inputs| == 0 {
    } else {
      RunKeeps(inputs[..|inputs| - 1]);
      NextKeeps(Run(inputs[..|inputs| - 1]), inputs[|inputs| - 1]);
    }
  }

  // ---------- the main results ----------

  /** In every reachable state the three views are nested. */
  lemma {:induction false} ViewsStayNested(inputs: seq<Input>)
    ensures Nested(Run(inputs))
  {
    RunKeeps(inputs);
  }

  lemma {:induction false} LawfulAt(events: seq<Event>, i: nat)
    requires Lawful(events) && i < |events|
    ensures Allowed(events[..i], events[i])
    decreases |events|
  {
    var front := events[..|events| - 1];
    if i == |front| {
    } else {
      LawfulAt(front, i);
      assert front[..i] == events[..i];
    }
  }

  /**
   The callbacks follow the protocol on every run: each one was allowed by those before it, and they
   tell exactly which properties are known.
   */
  lemma {:induction false} CallbacksFollowTheProtocol(inputs: seq<Input>, i: nat)
    requires i < |Run(inputs).events|
    ensures var events := Run(inputs).events;
            && Allowed(events[..i], events[i])
            && (forall d, n :: (d, n) in KnownBy(events) <==> n in PropertiesOf(Run(inputs).known, d))
  {
    RunKeeps(inputs);
    LawfulAt(Run(inputs).events, i);
  }

  /**
   The cache refines the history: but for commanded targets, it is on every run what a listener builds
   from the property objects handed to the callbacks.
   */
  lemma {:induction false} CacheMirrorsCallbacks(inputs: seq<Input>)
    ensures var v := Run(inputs);
            && v.devices.Keys == MirrorBy(v.events).Keys
            && forall d :: d in v.devices ==> Untargeteds(v.devices[d]) == MirrorBy(v.events)[d]
  {
    RunKeeps(inputs);
  }

  /** The state manager holds the values of every cached property whose last data was not a BLOB. */
  lemma {:induction false} StateManagerHoldsCachedValues(inputs: seq<Input>, d: string, n: string)
    requires d in Run(inputs).devices && n in Run(inputs).devices[d].properties
    requires (d, n) !in BlobBy(Run(inputs).events)
    ensures var v := Run(inputs);
            && v.store == Some(StoreBy(v.events))
            && d in v.store.value && n in v.store.value[d]
            && v.store.value[d][n] == Values(v.devices[d].properties[n])
  {
    RunKeeps(inputs);
    var v := Run(inputs);
    assert DeviceOk(d, v.devices[d]) && Stored(v.store.value, v.devices[d].properties[n]);
  }

  /** The events that one message adds. */
  function NewEvents(v: View, m: IndiMessage): seq<Event> {
    if |v.events| <= |Handle(v, m).events| then Handle(v, m).events[|v.events|..] else []
  }

  predicate IsPropertyEvent(e: Event) {
    e.OnNewProperty? || e.OnUpdateProperty? || e.OnNewBlob? || e.OnRemoveProperty?
  }

  function PropertyEvents(events: seq<Event>): seq<Event> {
    if |events| == 0 then []
    else PropertyEvents(events[..|events| - 1]) + if IsPropertyEvent(events[|events| - 1]) then [events[|events| - 1]] else []
  }

  /** The property callbacks that a message calls for, given whether its property is known. */
  function CalledFor(m: IndiMessage, known: bool): seq<Event> {
    match m.message
    case Def(_) =>
      if PropertyOf(m).None? then [] else if known then [OnUpdateProperty(PropertyOf(m).value)] else [OnNewProperty(PropertyOf(m).value)]
    case Set(Blob) => if PropertyOf(m).None? then [] else [OnNewBlob(PropertyOf(m).value)]
    case Set(_) => if PropertyOf(m).None? || !known then [] else [OnUpdateProperty(PropertyOf(m).value)]
    case DelProperty => if m.device == "" || m.property == "" || !known then [] else [OnRemoveProperty(m.device, m.property)]
    case _ => []
  }

  /**
   The property callbacks of every message, usable or not, in every reachable state: none but the one it
   calls for, with the property made from it; and whether the property is known is what the callbacks so
   far tell.
   */
  lemma {:induction false} AcceptedExactlyWhenKnown(inputs: seq<Input>, m: IndiMessage)
    ensures var v := Run(inputs);
            PropertyEvents(NewEvents(v, m)) == CalledFor(m, (m.device, m.property) in KnownBy(v.events))
  {
    RunKeeps(inputs);
    var v := Run(inputs);
    match m.message
    case Def(_) =>
      if PropertyOf(m).Some? {
        DefEvents(v, m);
      } else {
        var added := IntroducedEvents(v, m);
        NewEventsAre(v, m, added);
        NoPropertyEvents(added);
      }
    case Set(kind) =>
      if kind == Blob {
        BlobEvents(v, m);
      } else {
        SetEvents(v, m);
      }
    case _ => OtherEvents(v, m);
  }

  lemma {:induction false} NoPropertyEvents(events: seq<Event>)
    requires forall e :: e in events ==> !IsPropertyEvent(e)
    ensures PropertyEvents(events) == []
  {
    if |events| == 0 {
    } else {
      NoPropertyEvents(events[..|events| - 1]);
    }
  }

  lemma {:induction false} PropertyEventsAppend(a: seq<Event>, b: seq<Event>)
    ensures PropertyEvents(a + b) == PropertyEvents(a) + PropertyEvents(b)
    decreases |b|
  {
    if |b| == 0 {
      assert a + b == a;
    } else {
      assert (a + b)[..|a + b| - 1] == a + b[..|b| - 1];
      PropertyEventsAppend(a, b[..|b| - 1]);
    }
  }

  lemma OneEvent(e: Event)
    ensures PropertyEvents([e]) == if IsPropertyEvent(e) then [e] else []
  {
    assert [e][..0] == [];
  }

  lemma BlobEvents(v: View, m: IndiMessage)
    requires m.message == Set(Blob)
    ensures PropertyEvents(NewEvents(v, m)) == CalledFor(m, m.property in PropertiesOf(v.known, m.device))
  {
    if PropertyOf(m).Some? {
      var p := PropertyOf(m).value;
      NewEventsAre(v, m, [OnNewBlob(p)]);
      OneEvent(OnNewBlob(p));
    } else {
      NewEventsAre(v, m, []);
    }
  }

  lemma SetEvents(v: View, m: IndiMessage)
    requires m.message.Set? && m.message.kind != Blob
    ensures PropertyEvents(NewEvents(v, m)) == CalledFor(m, m.property in PropertiesOf(v.known, m.device))
  {
    if PropertyOf(m).Some? && m.property in PropertiesOf(v.known, m.device) {
      var p := PropertyOf(m).value;
      NewEventsAre(v, m, [OnUpdateProperty(p)]);
      OneEvent(OnUpdateProperty(p));
    } else {
      NewEventsAre(v, m, []);
    }
  }

  /** Deletions, messages of text, and what is ignored. */
  lemma OtherEvents(v: View, m: IndiMessage)
    requires !m.message.Def? && !m.message.Set?
    ensures PropertyEvents(NewEvents(v, m)) == CalledFor(m, m.property in PropertiesOf(v.known, m.device))
  {
    OneEvent(OnRemoveProperty(m.device, m.property));
    OneEvent(OnRemoveDevice(m.device));
    OneEvent(OnUniversalMessage(m.text));
    OneEvent(OnMessage(m.device, m.text));
  }

  /** A definition's property event comes after the device's and before the roles'. */
  lemma DefAdds(v: View, m: IndiMessage) returns (before: seq<Event>, e: Event, after: seq<Event>)
    requires m.message.Def? && PropertyOf(m).Some?
    ensures HandleDef(v, m).events == v.events + (before + [e] + after)
    ensures var p := PropertyOf(m).value;
            e == if m.property in PropertiesOf(v.known, m.device) then OnUpdateProperty(p) else OnNewProperty(p)
    ensures (forall x :: x in before ==> x.OnNewDevice?) && (forall x :: x in after ==> x.OnRoles?)
  {
    PropertyOfIsParsed(m);
    var p := PropertyOf(m).value;
    var v1 := Introduce(v, m);
    DefCases(v, m);
    before := IntroducedEvents(v, m);
    if m.property in PropertiesOf(v.known, m.device) {
      e, after := OnUpdateProperty(p), [];
    } else {
      e := OnNewProperty(p);
      after := RegisteredEvents(v1, p);
    }
    Regroup(v.events, before, [e], after);
  }

  lemma DefEvents(v: View, m: IndiMessage)
    requires m.message.Def? && PropertyOf(m).Some?
    ensures PropertyEvents(NewEvents(v, m)) == CalledFor(m, m.property in PropertiesOf(v.known, m.device))
  {
    var before, e, after := DefAdds(v, m);
    NewEventsAre(v, m, before + [e] + after);
    PropertyEventsAppend(before + [e], after);
    PropertyEventsAppend(before, [e]);
    NoPropertyEvents(before);
    NoPropertyEvents(after);
    OneEvent(e);
  }

  lemma NewEventsAre(v: View, m: IndiMessage, added: seq<Event>)
    requires Handle(v, m).events == v.events + added
    ensures NewEvents(v, m) == added
  {
  }

  lemma IntroducedEvents(v: View, m: IndiMessage) returns (added: seq<Event>)
    ensures Introduce(v, m).events == v.events + added
    ensures PropertiesOf(Introduce(v, m).known, m.device) == PropertiesOf(v.known, m.device)
    ensures forall e :: e in added ==> e.OnNewDevice?
  {
    added := if Introduce(v, m) == v then [] else [OnNewDevice(m.device)];
  }

  lemma Regroup<T>(a: seq<T>, b: seq<T>, c: seq<T>, d: seq<T>)
    ensures a + (b + c + d) == a + b + c + d
  {
  }

  lemma RegisteredEvents(v: View, p: Property) returns (added: seq<Event>)
    ensures AcceptNew(Cache(v, p), p).events == v.events + [OnNewProperty(p)] + added
    ensures forall e :: e in added ==> e.OnRoles?
  {
    var v2 := Registered(Cache(v, p), p);
    assert v2.events == v.events + [OnNewProperty(p)];
    if p.device !in v2.devices || Classify(v2.devices[p.device].properties.Keys) == v2.devices[p.device].roles {
      added := [];
    } else {
      added := [OnRoles(p.device, Classify(v2.devices[p.device].properties.Keys))];
    }
  }

  // ---------- the cache and the last accepted message ----------

  /** The property that an input brings for (d, n), if it is accepted: a set needs a known property. */
  function Brings(v: View, input: Input, d: string, n: string): Option<Property> {
    if !input.Received? then None
    else
      var m := input.m;
      if !(m.message.Def? || m.message.Set?) || m.device != d || m.property != n then None
      else if m.message.Set? && m.message.kind != Blob && n !in PropertiesOf(v.known, d) then None
      else PropertyOf(m)
  }

  /** A reconnection, and the deletion of the device, end what was known of its properties. */
  predicate Ends(input: Input, d: string) {
    input.Connects? || (input.Received? && input.m.message == DelDevice && input.m.device == d)
  }

  /** The property made from the last def, set or setBLOB message accepted for (d, n) since then. */
  function LastAccepted(inputs: seq<Input>, d: string, n: string): Option<Property> {
    if |inputs| == 0 then None
    else
      var before, input := inputs[..|inputs| - 1], inputs[|inputs| - 1];
      if Ends(input, d) then None
      else if Brings(Run(before), input, d, n).Some? then Brings(Run(before), input, d, n)
      else LastAccepted(before, d, n)
  }

  /** A cached property without its targets. */
  function CachedAs(v: View, d: string, n: string): Option<Property> {
    if d in v.devices && n in v.devices[d].properties then Some(Untargeted(v.devices[d].properties[n])) else None
  }

  /** What is cached, or would be were the device cached, is what was last accepted. */
  predicate HoldsLast(v: View, d: string, n: string, last: Option<Property>) {
    && (d in v.devices ==> CachedAs(v, d, n) == last)
    && (last.Some? ==> d in v.known.devices)
  }

  lemma CachingHolds(v: View, p: Property, d: string, n: string, last: Option<Property>)
    requires Parsed(p) && (d in v.devices ==> CachedAs(v, d, n) == last)
    ensures d in v.devices ==> CachedAs(Cache(v, p), d, n) == if p.device == d && p.name == n then Some(p) else last
  {
  }

  lemma IntroducingHolds(v: View, m: IndiMessage, d: string, n: string, last: Option<Property>)
    requires HoldsLast(v, d, n, last)
    ensures HoldsLast(Introduce(v, m), d, n, last)
  {
  }

  lemma AnnouncingCachesNothing(v: View, device: string, d: string, n: string)
    ensures var v' := AnnounceRoles(v, device);
            v'.known == v.known && v'.devices.Keys == v.devices.Keys && CachedAs(v', d, n) == CachedAs(v, d, n)
  {
  }

  /** What is held once `p` has been accepted. */
  function LastWith(p: Property, d: string, n: string, last: Option<Property>): Option<Property> {
    if p.device == d && p.name == n then Some(p) else last
  }

  lemma NewHolds(v: View, p: Property, d: string, n: string, last: Option<Property>)
    requires Parsed(p) && HoldsLast(v, d, n, last)
    ensures HoldsLast(AcceptNew(Cache(v, p), p), d, n, LastWith(p, d, n, last))
  {
    CachingHolds(v, p, d, n, last);
    AnnouncingCachesNothing(Registered(Cache(v, p), p), p.device, d, n);
  }

  lemma UpdateHolds(v: View, p: Property, d: string, n: string, last: Option<Property>)
    requires KnownOk(v.known) && Parsed(p) && HoldsLast(v, d, n, last) && p.name in PropertiesOf(v.known, p.device)
    ensures HoldsLast(AcceptUpdate(Cache(v, p), p), d, n, LastWith(p, d, n, last))
  {
    CachingHolds(v, p, d, n, last);
  }

  lemma BlobHolds(v: View, p: Property, d: string, n: string, last: Option<Property>)
    requires Parsed(p) && HoldsLast(v, d, n, last)
    ensures HoldsLast(AcceptBlob(Cache(v, p), p), d, n, LastWith(p, d, n, last))
  {
    CachingHolds(v, p, d, n, last);
  }

  lemma DefHolds(v: View, m: IndiMessage, d: string, n: string, last: Option<Property>)
    requires KnownOk(v.known) && m.message.Def? && HoldsLast(v, d, n, last)
    ensures var brought := Brings(v, Received(m), d, n);
            HoldsLast(HandleDef(v, m), d, n, if brought.Some? then brought else last)
  {
    var v1 := Introduce(v, m);
    IntroducingHolds(v, m, d, n, last);
    if PropertyOf(m).Some? {
      var p := PropertyOf(m).value;
      PropertyOfIsParsed(m);
      DefCases(v, m);
      if p.name in PropertiesOf(v.known, p.device) {
        UpdateHolds(v1, p, d, n, last);
      } else {
        NewHolds(v1, p, d, n, last);
      }
    }
  }

  lemma SetHolds(v: View, m: IndiMessage, d: string, n: string, last: Option<Property>)
    requires KnownOk(v.known) && m.message.Set? && HoldsLast(v, d, n, last)
    ensures var brought := Brings(v, Received(m), d, n);
            HoldsLast(Handle(v, m), d, n, if brought.Some? then brought else last)
  {
    if PropertyOf(m).Some? {
      var p := PropertyOf(m).value;
      PropertyOfIsParsed(m);
      if m.message.kind == Blob {
        BlobHolds(v, p, d, n, last);
      } else if p.name in PropertiesOf(v.known, p.device) {
        UpdateHolds(v, p, d, n, last);
      }
    }
  }

  lemma OtherMessageHolds(v: View, m: IndiMessage, d: string, n: string, last: Option<Property>)
    requires Nested(v) && !m.message.Def? && !m.message.Set? && HoldsLast(v, d, n, last)
    ensures HoldsLast(Handle(v, m), d, n, if Ends(Received(m), d) then None else last)
  {
  }

  lemma CommandHolds(v: View, device: string, name: string, values: map<string, string>, d: string, n: string, last: Option<Property>)
    requires HoldsLast(v, d, n, last)
    ensures HoldsLast(Commanded(v, device, name, values), d, n, last)
  {
    CommandChangesOnlyTargets(v, device, name, values);
    var v' := Commanded(v, device, name, values);
    if d in v.devices {
      assert SameButTargets(v.devices[d], v'.devices[d]);
      if n in v.devices[d].properties {
        assert Untargeteds(v.devices[d])[n] == Untargeteds(v'.devices[d])[n];
      }
    }
  }

  lemma {:induction false} RunHoldsLast(inputs: seq<Input>, d: string, n: string)
    ensures HoldsLast(Run(inputs), d, n, LastAccepted(inputs, d, n))
  {
    if |inputs| == 0 {
    } else {
      var before, input := inputs[..|inputs| - 1], inputs[|inputs| - 1];
      var v, last := Run(before), LastAccepted(before, d, n);
      RunHoldsLast(before, d, n);
      RunKeeps(before);
      match input
      case Connects =>
      case Commands(device, name, values) => CommandHolds(v, device, name, values, d, n, last);
      case Received(m) =>
        if m.message.Def? {
          DefHolds(v, m, d, n, last);
        } else if m.message.Set? {
          SetHolds(v, m, d, n, last);
        } else {
          OtherMessageHolds(v, m, d, n, last);
        }
    }
  }

  /**
   The cache refines the message history: on every run, a cached device has a property exactly if a
   message with it was accepted since the device appeared, and it is then, but for commanded targets, the
   one made from the last such message.
   */
  lemma {:induction false} CacheHoldsLastAccepted(inputs: seq<Input>, d: string, n: string)
    requires d in Run(inputs).devices
    ensures CachedAs(Run(inputs), d, n) == LastAccepted(inputs, d, n)
  {
    RunHoldsLast(inputs, d, n);
  }

  // ---------- role announcements are bounded ----------

  /** How often roles have been announced for a device since it was announced itself. */
  function Announcements(events: seq<Event>, device: string): nat {
    if |events| == 0 then 0
    else
      var n := Announcements(events[..|events| - 1], device);
      match events[|events| - 1]
      case OnNewDevice(d) => if d == device then 0 else n
      case OnRoles(d, _) => if d == device then n + 1 else n
      case _ => n
  }

  lemma {:induction false} AnnouncementsBounded(events: seq<Event>, device: string)
    requires Lawful(events)
    ensures Announcements(events, device) <= |RolesBy(events, device)| <= 8
  {
    if |events| == 0 {
    } else {
      AnnouncementsBounded(events[..|events| - 1], device);
    }
  }

  /** On every run, the roles of one device object are announced at most eight times. */
  lemma {:induction false} AtMostEightRoleAnnouncements(inputs: seq<Input>, device: string)
    ensures Announcements(Run(inputs).events, device) <= 8
  {
    RunKeeps(inputs);
    AnnouncementsBounded(Run(inputs).events, device);
  }

  // ---------- when the views agree, and when they part ----------

  predicate SameDevices(v: View) {
    v.devices.Keys == v.known.devices
  }

  /** The views of the device names part on a reconnection, and on BLOB data for an unknown device. */
  predicate PartsDevices(v: View, input: Input) {
    match input
    case Connects => v.devices.Keys != {}
    case Received(m) => m.message == Set(Blob) && PropertyOf(m).Some? && m.device !in v.known.devices
    case Commands(_, _, _) => false
  }

  lemma DefKeepsSameDevices(v: View, m: IndiMessage)
    requires SameDevices(v) && KnownOk(v.known) && m.message.Def?
    ensures SameDevices(HandleDef(v, m))
  {
    if PropertyOf(m).Some? {
      var p := PropertyOf(m).value;
      PropertyOfIsParsed(m);
      DefCases(v, m);
      var v1 := Introduce(v, m);
      assert SameDevices(v1) && p.device in v1.known.devices;
      AddingProperty(v1.known, p.device, p.name);
      assert SameDevices(Registered(Cache(v1, p), p));
    }
  }

  lemma BlobPartsDevices(v: View, m: IndiMessage)
    requires SameDevices(v) && m.message == Set(Blob)
    ensures SameDevices(HandleSetBlob(v, m)) <==> !(PropertyOf(m).Some? && m.device !in v.known.devices)
  {
  }

  lemma OthersKeepSameDevices(v: View, m: IndiMessage)
    requires SameDevices(v) && !m.message.Def? && m.message != Set(Blob)
    ensures SameDevices(Handle(v, m))
  {
  }

  /** The names of the cached devices go on agreeing with the known ones except in exactly these steps. */
  lemma DevicesPartExactlyThen(v: View, input: Input)
    requires KnownOk(v.known) && SameDevices(v)
    ensures SameDevices(Next(v, input)) <==> !PartsDevices(v, input)
  {
    match input
    case Connects =>
    case Commands(device, name, values) => CommandChangesOnlyTargets(v, device, name, values);
    case Received(m) =>
      if m.message.Def? {
        DefKeepsSameDevices(v, m);
      } else if m.message == Set(Blob) {
        BlobPartsDevices(v, m);
      } else {
        OthersKeepSameDevices(v, m);
      }
  }

  /** No input so far has made the views of the device names part. */
  predicate NeverPartsDevices(inputs: seq<Input>) {
    |inputs| > 0 ==>
      var before := inputs[..|inputs| - 1];
      NeverPartsDevices(before) && !PartsDevices(Run(before), inputs[|inputs| - 1])
  }

  /** After every input so far, the cached devices have been the known ones. */
  predicate DevicesAgreed(inputs: seq<Input>) {
    SameDevices(Run(inputs)) && (|inputs| > 0 ==> DevicesAgreed(inputs[..|inputs| - 1]))
  }

  /** The cached devices are the known ones all along a run exactly when it has no such step. */
  lemma {:induction false} CachedAreTheKnownDevices(inputs: seq<Input>)
    ensures DevicesAgreed(inputs) <==> NeverPartsDevices(inputs)
  {
    if |inputs| == 0 {
    } else {
      var before := inputs[..|inputs| - 1];
      CachedAreTheKnownDevices(before);
      RunKeeps(before);
      if SameDevices(Run(before)) {
        DevicesPartExactlyThen(Run(before), inputs[|inputs| - 1]);
      }
    }
  }

  // ---------- and the property names ----------

  predicate SameProperties(v: View) {
    SameDevices(v) && forall d :: d in v.devices ==> v.devices[d].properties.Keys == PropertiesOf(v.known, d)
  }

  /** The views of the property names part, besides, when a known property is deleted. */
  predicate PartsProperties(v: View, input: Input) {
    || PartsDevices(v, input)
    || (input.Received? && input.m.message == DelProperty && PropertyChange(v.known, input.m, false) == Some(Deleted))
  }

  lemma CachingKeepsSameProperties(v: View, p: Property)
    requires SameProperties(v) && KnownOk(v.known) && p.device in v.known.devices
    ensures SameProperties(Registered(Cache(v, p), p))
    ensures SameProperties(AcceptBlob(Cache(v, p), p))
    ensures p.name in PropertiesOf(v.known, p.device) ==> SameProperties(AcceptUpdate(Cache(v, p), p))
  {
  }

  lemma DefKeepsSameProperties(v: View, m: IndiMessage)
    requires SameProperties(v) && KnownOk(v.known) && m.message.Def?
    ensures SameProperties(HandleDef(v, m))
  {
    var v1 := Introduce(v, m);
    assert SameProperties(v1) && KnownOk(v1.known);
    if PropertyOf(m).Some? {
      var p := PropertyOf(m).value;
      PropertyOfIsParsed(m);
      DefCases(v, m);
      CachingKeepsSameProperties(v1, p);
      AnnounceKeepsSameProperties(Registered(Cache(v1, p), p), p.device);
    }
  }

  lemma AnnounceKeepsSameProperties(v: View, d: string)
    requires SameProperties(v)
    ensures SameProperties(AnnounceRoles(v, d))
  {
  }

  lemma SetKeepsSameProperties(v: View, m: IndiMessage)
    requires SameProperties(v) && KnownOk(v.known) && m.message.Set? && m.device in v.known.devices
    ensures SameProperties(HandleSet(v, m)) && SameProperties(HandleSetBlob(v, m))
  {
  }

  lemma DelPropertyPartsProperties(v: View, m: IndiMessage)
    requires SameProperties(v) && KnownOk(v.known) && m.message == DelProperty
    ensures SameProperties(HandleDelProperty(v, m)) <==> PropertyChange(v.known, m, false) != Some(Deleted)
  {
    if PropertyChange(v.known, m, false) == Some(Deleted) {
      assert m.property in PropertiesOf(v.known, m.device) && m.device in v.devices;
      var v' := HandleDelProperty(v, m);
      assert m.property !in PropertiesOf(v'.known, m.device) && m.property in v'.devices[m.device].properties;
    }
  }

  lemma OthersKeepSameProperties(v: View, m: IndiMessage)
    requires SameProperties(v) && (m.message == Note || m.message == DelDevice || m.message == NewBlob)
    ensures SameProperties(Handle(v, m))
  {
  }

  /** The names of the cached properties go on agreeing with the known ones except in exactly these steps. */
  lemma PropertiesPartExactlyThen(v: View, input: Input)
    requires KnownOk(v.known) && SameProperties(v)
    ensures SameProperties(Next(v, input)) <==> !PartsProperties(v, input)
  {
    DevicesPartExactlyThen(v, input);
    if !PartsDevices(v, input) {
      match input
      case Connects =>
      case Commands(device, name, values) => CommandChangesOnlyTargets(v, device, name, values);
      case Received(m) =>
        if m.message.Def? {
          DefKeepsSameProperties(v, m);
        } else if m.message.Set? {
          if m.device in v.known.devices {
            SetKeepsSameProperties(v, m);
          }
        } else if m.message == DelProperty {
          DelPropertyPartsProperties(v, m);
        } else {
          OthersKeepSameProperties(v, m);
        }
    }
  }

  predicate NeverPartsProperties(inputs: seq<Input>) {
    |inputs| > 0 ==>
      var before := inputs[..|inputs| - 1];
      NeverPartsProperties(before) && !PartsProperties(Run(before), inputs[|inputs| - 1])
  }

  predicate PropertiesAgreed(inputs: seq<Input>) {
    SameProperties(Run(inputs)) && (|inputs| > 0 ==> PropertiesAgreed(inputs[..|inputs| - 1]))
  }

  /** The same for the property names. */
  lemma {:induction false} CachedAreTheKnownProperties(inputs: seq<Input>)
    ensures PropertiesAgreed(inputs) <==> NeverPartsProperties(inputs)
  {
    if |inputs| == 0 {
    } else {
      var before := inputs[..|inputs| - 1];
      CachedAreTheKnownProperties(before);
      RunKeeps(before);
      if SameProperties(Run(before)) {
        PropertiesPartExactlyThen(Run(before), inputs[|inputs| - 1]);
      }
    }
  }

  // ---------- runs on which the views part ----------

  const DEFINITION := IndiMessage(
    Def(Blob), "CCD", "CCD1", None, None, None, None, "", "",
    map["CCD1" := ElementData("", "", "", Absent, Absent, Absent, NO_BLOB)], "")

  const IMAGE := DEFINITION.(message := Set(Blob))

  const DELETION := DEFINITION.(message := DelProperty, elements := map[])

  lemma RunOne(input: Input)
    ensures Run([input]) == Next(START, input)
  {
    assert [input][..0] == [];
  }

  lemma RunTwo(first: Input, second: Input)
    ensures Run([first, second]) == Next(Next(START, first), second)
  {
    assert [first, second][..1] == [first];
    RunOne(first);
  }

  lemma DefinitionIsUsable()
    ensures PropertyOf(DEFINITION).Some? && PropertyOf(IMAGE).Some?
  {
    assert "CCD1" in DEFINITION.elements && "CCD1" in IMAGE.elements;
  }

  /** After a reconnection, the device is known but no longer cached. */
  lemma ReconnectionParts()
    ensures var v := Run([Received(DEFINITION), Connects]); "CCD" in v.known.devices && "CCD" !in v.devices
  {
    RunTwo(Received(DEFINITION), Connects);
    assert "CCD" in Introduce(START, DEFINITION).known.devices;
    DefinitionIsUsable();
    DefCases(START, DEFINITION);
  }

  /** BLOB data makes its device known, but not cached. */
  lemma ImageParts()
    ensures var v := Run([Received(IMAGE)]); "CCD" in v.known.devices && "CCD" !in v.devices
  {
    RunOne(Received(IMAGE));
    DefinitionIsUsable();
  }

  /** After its deletion, the property is cached but no longer known. */
  lemma DeletionParts()
    ensures var v := Run([Received(DEFINITION), Received(DELETION)]);
            && "CCD" in v.devices && "CCD1" in v.devices["CCD"].properties
            && "CCD1" !in PropertiesOf(v.known, "CCD")
  {
    RunTwo(Received(DEFINITION), Received(DELETION));
    DefinitionIsUsable();
    DefCases(START, DEFINITION);
    var v1 := Introduce(START, DEFINITION);
    var p := PropertyOf(DEFINITION).value;
    assert "CCD" in v1.devices;
    assert "CCD1" in Cache(v1, p).devices["CCD"].properties;
    assert "CCD1" !in PropertiesOf(START.known, "CCD");
    assert "CCD1" in PropertiesOf(HandleDef(START, DEFINITION).known, "CCD");
  }
}
