/**
 What the client's views hold, told from the messages themselves: the texts of values, the commanded
 targets, the roles, the messages of text, and every callback.
 */
module ClientLaws {
  import opened Options
  import opened Properties
  import opened Classifier
  import opened DeviceModel
  import opened ClientRuns

  /** A def or set message that the handlers go on with. */
  predicate Usable(m: IndiMessage) {
    && (m.message.Def? || m.message.Set?)
    && m.device != "" && m.property != "" && m.elements.Keys != {}
    && (m.message.kind == Number ==>
          forall e :: e in m.elements ==>
            !m.elements[e].min.Malformed? && !m.elements[e].max.Malformed? && !m.elements[e].step.Malformed?)
  }

  lemma UsableIff(m: IndiMessage)
    requires m.message.Def? || m.message.Set?
    ensures Usable(m) <==> PropertyOf(m).Some?
  {
    if m.elements != map[] {
      var e :| e in m.elements;
    }
  }

  /** A usable message about (d, n) that is accepted: a set, but for a setBLOB, needs a known property. */
  predicate Accepts(v: View, input: Input, d: string, n: string) {
    input.Received? &&
    var m := input.m;
    && Usable(m) && m.device == d && m.property == n
    && (m.message.Set? && m.message.kind != Blob ==> n in PropertiesOf(v.known, d))
  }

  /** How the property of a message reads. */
  predicate Reads(p: Property, m: IndiMessage)
    requires m.message.Def? || m.message.Set?
  {
    && p.device == m.device && p.name == m.property && p.details.kind == m.message.kind
    && p.details.displayLabel == m.displayLabel && p.details.group == m.group && p.details.timestamp == m.timestamp
    && p.elements.Keys == m.elements.Keys
    && forall e :: e in m.elements ==>
         && p.elements[e].value == m.elements[e].value
         && p.elements[e].details.displayLabel == m.elements[e].displayLabel
         && p.elements[e].details.format == m.elements[e].format
  }

  lemma MadeReads(m: IndiMessage)
    requires (m.message.Def? || m.message.Set?) && PropertyOf(m).Some?
    ensures Reads(PropertyOf(m).value, m)
  {
  }

  // ---------- the cache ----------

  /** The last message accepted for (d, n) since the device appeared. */
  function LastMessage(inputs: seq<Input>, d: string, n: string): (r: Option<IndiMessage>)
    ensures r.Some? ==> Usable(r.value)
  {
    if |inputs| == 0 then None
    else
      var before, input := inputs[..|inputs| - 1], inputs[|inputs| - 1];
      if ClientRuns.Ends(input, d) then None
      else if Accepts(Run(before), input, d, n) then Some(input.m)
      else LastMessage(before, d, n)
  }

  lemma {:induction false} LastMessageIsAccepted(inputs: seq<Input>, d: string, n: string)
    ensures LastAccepted(inputs, d, n) ==
            if LastMessage(inputs, d, n).Some? then PropertyOf(LastMessage(inputs, d, n).value) else None
  {
    if |inputs| == 0 {
    } else {
      var input := inputs[|inputs| - 1];
      LastMessageIsAccepted(inputs[..|inputs| - 1], d, n);
      if input.Received? && (input.m.message.Def? || input.m.message.Set?) {
        UsableIff(input.m);
      }
    }
  }

  /** A cached property reads like the last message accepted for it, and there is one exactly if there is such a message. */
  lemma {:induction false} CacheReadsLikeLastMessage(inputs: seq<Input>, d: string, n: string)
    requires d in Run(inputs).devices
    ensures var cached := Run(inputs).devices[d].properties;
            var last := LastMessage(inputs, d, n);
            && (n in cached <==> last.Some?)
            && (last.Some? ==> Reads(cached[n], last.value))
  {
    LastMessageIsAccepted(inputs, d, n);
    CacheHoldsLastAccepted(inputs, d, n);
    var last := LastMessage(inputs, d, n);
    if last.Some? {
      UsableIff(last.value);
      MadeReads(last.value);
      var p := Run(inputs).devices[d].properties[n];
      assert Untargeted(p) == PropertyOf(last.value).value;
      UntargetedReads(p, last.value);
    }
  }

  lemma UntargetedReads(p: Property, m: IndiMessage)
    requires (m.message.Def? || m.message.Set?) && Reads(Untargeted(p), m)
    ensures Reads(p, m)
  {
    assert forall e :: e in p.elements ==> Untargeted(p).elements[e] == p.elements[e].(targetValue := None);
  }

  // ---------- the state manager ----------

  /** The last message accepted for (d, n) that was not a setBLOB; nothing makes the state manager forget. */
  function LastStored(inputs: seq<Input>, d: string, n: string): (r: Option<IndiMessage>)
    ensures r.Some? ==> Usable(r.value)
  {
    if |inputs| == 0 then None
    else
      var before, input := inputs[..|inputs| - 1], inputs[|inputs| - 1];
      if Accepts(Run(before), input, d, n) && input.m.message != Set(Blob) then Some(input.m) else LastStored(before, d, n)
  }

  /** The stored values of (d, n) are the value texts of the message. */
  predicate StoresTexts(s: Store, d: string, n: string, last: Option<IndiMessage>) {
    match last
    case None => !(d in s && n in s[d])
    case Some(m) =>
      && d in s && n in s[d] && s[d][n].Keys == m.elements.Keys
      && forall e :: e in m.elements ==> s[d][n][e] == m.elements[e].value
  }

  lemma UpdateStores(s: Store, m: IndiMessage, d: string, n: string, last: Option<IndiMessage>)
    requires (m.message.Def? || m.message.Set?) && PropertyOf(m).Some? && StoresTexts(s, d, n, last)
    ensures StoresTexts(StoreUpdate(s, PropertyOf(m).value), d, n, if m.device == d && m.property == n then Some(m) else last)
  {
    MadeReads(m);
  }

  lemma DefStores(v: View, m: IndiMessage)
    requires m.message.Def? && v.store.Some?
    ensures HandleDef(v, m).store == if PropertyOf(m).Some? then Some(StoreUpdate(v.store.value, PropertyOf(m).value)) else v.store
  {
    if PropertyOf(m).Some? {
      DefCases(v, m);
    }
  }

  lemma SetStores(v: View, m: IndiMessage)
    requires m.message.Set? && v.store.Some?
    ensures Handle(v, m).store ==
            if PropertyOf(m).Some? && m.message.kind != Blob && m.property in PropertiesOf(v.known, m.device)
            then Some(StoreUpdate(v.store.value, PropertyOf(m).value)) else v.store
  {
  }

  lemma OthersStoreNothing(v: View, m: IndiMessage)
    requires !m.message.Def? && !m.message.Set?
    ensures Handle(v, m).store == v.store
  {
  }

  /** On every run the state manager holds the value texts of the last message accepted that was not a setBLOB. */
  lemma {:induction false} StoreHoldsLastTexts(inputs: seq<Input>, d: string, n: string)
    ensures var v := Run(inputs); v.store.Some? && StoresTexts(v.store.value, d, n, LastStored(inputs, d, n))
  {
    if |inputs| == 0 {
    } else {
      var before, input := inputs[..|inputs| - 1], inputs[|inputs| - 1];
      var v, last := Run(before), LastStored(before, d, n);
      StoreHoldsLastTexts(before, d, n);
      match input
      case Connects =>
      case Commands(_, _, _) =>
      case Received(m) =>
        if m.message.Def? || m.message.Set? {
          UsableIff(m);
          if PropertyOf(m).Some? {
            UpdateStores(v.store.value, m, d, n, last);
          }
          if m.message.Def? {
            DefStores(v, m);
          } else {
            SetStores(v, m);
          }
        } else {
          OthersStoreNothing(v, m);
        }
    }
  }

  // ---------- commanded targets ----------

  /** The target last commanded for an element since its property was last received. */
  function LastTarget(inputs: seq<Input>, d: string, n: string, e: string): Option<string> {
    if |inputs| == 0 then None
    else
      var before, input := inputs[..|inputs| - 1], inputs[|inputs| - 1];
      if ClientRuns.Ends(input, d) || Accepts(Run(before), input, d, n) then None
      else if input.Commands? && input.device == d && input.name == n && e in input.values then Some(input.values[e])
      else LastTarget(before, d, n, e)
  }

  predicate TargetIs(v: View, d: string, n: string, e: string, target: Option<string>) {
    d in v.devices && n in v.devices[d].properties && e in v.devices[d].properties[n].elements ==>
      v.devices[d].properties[n].elements[e].targetValue == target
  }

  lemma CachingTargets(v: View, p: Property, d: string, n: string, e: string, target: Option<string>)
    requires Parsed(p) && TargetIs(v, d, n, e, target)
    ensures TargetIs(Cache(v, p), d, n, e, if p.device == d && p.name == n then None else target)
  {
    if p.device == d && p.name == n && e in p.elements {
      assert Untargeted(p).elements[e] == p.elements[e];
    }
  }

  lemma DefTargets(v: View, m: IndiMessage, d: string, n: string, e: string, target: Option<string>)
    requires m.message.Def? && TargetIs(v, d, n, e, target)
    ensures TargetIs(HandleDef(v, m), d, n, e, if Accepts(v, Received(m), d, n) then None else target)
  {
    var v1 := Introduce(v, m);
    UsableIff(m);
    assert TargetIs(v1, d, n, e, target);
    if PropertyOf(m).Some? {
      var p := PropertyOf(m).value;
      PropertyOfIsParsed(m);
      DefCases(v, m);
      CachingTargets(v1, p, d, n, e, target);
      AcceptingKeepsTargets(Cache(v1, p), p, d, n, e, if p.device == d && p.name == n then None else target);
    }
  }

  lemma AcceptingKeepsTargets(v: View, p: Property, d: string, n: string, e: string, target: Option<string>)
    requires TargetIs(v, d, n, e, target)
    ensures TargetIs(AcceptNew(v, p), d, n, e, target) && TargetIs(AcceptUpdate(v, p), d, n, e, target)
  {
    AnnouncingKeepsProperties(Registered(v, p), p.device, d);
  }

  lemma AnnouncingKeepsProperties(v: View, device: string, d: string)
    ensures var v' := AnnounceRoles(v, device);
            v'.devices.Keys == v.devices.Keys && (d in v.devices ==> v'.devices[d].properties == v.devices[d].properties)
  {
  }

  lemma SetTargetsReset(v: View, m: IndiMessage, d: string, n: string, e: string, target: Option<string>)
    requires m.message.Set? && TargetIs(v, d, n, e, target)
    ensures TargetIs(Handle(v, m), d, n, e, if Accepts(v, Received(m), d, n) then None else target)
  {
    UsableIff(m);
    if PropertyOf(m).Some? {
      PropertyOfIsParsed(m);
      CachingTargets(v, PropertyOf(m).value, d, n, e, target);
    }
  }

  lemma OtherTargets(v: View, m: IndiMessage, d: string, n: string, e: string, target: Option<string>)
    requires !m.message.Def? && !m.message.Set? && TargetIs(v, d, n, e, target)
    ensures TargetIs(Handle(v, m), d, n, e, if ClientRuns.Ends(Received(m), d) then None else target)
  {
  }

  lemma CommandTargets(v: View, device: string, name: string, values: map<string, string>, d: string, n: string, e: string, target: Option<string>)
    requires TargetIs(v, d, n, e, target)
    ensures TargetIs(Commanded(v, device, name, values), d, n, e,
                     if device == d && name == n && e in values then Some(values[e]) else target)
  {
  }

  /** On every run, the target of a cached element is the one last commanded since its property was last received. */
  lemma {:induction false} TargetsAreLastCommanded(inputs: seq<Input>, d: string, n: string, e: string)
    ensures TargetIs(Run(inputs), d, n, e, LastTarget(inputs, d, n, e))
  {
    if |inputs| == 0 {
    } else {
      var before, input := inputs[..|inputs| - 1], inputs[|inputs| - 1];
      var v, target := Run(before), LastTarget(before, d, n, e);
      TargetsAreLastCommanded(before, d, n, e);
      match input
      case Connects =>
      case Commands(device, name, values) => CommandTargets(v, device, name, values, d, n, e, target);
      case Received(m) =>
        if m.message.Def? {
          DefTargets(v, m, d, n, e, target);
        } else if m.message.Set? {
          SetTargetsReset(v, m, d, n, e, target);
        } else {
          OtherTargets(v, m, d, n, e, target);
        }
    }
  }

  // ---------- messages of text ----------

  /** The texts received for a device while it was cached, since it appeared. */
  function LastTexts(inputs: seq<Input>, d: string): seq<string> {
    if |inputs| == 0 then []
    else
      var before, input := inputs[..|inputs| - 1], inputs[|inputs| - 1];
      if ClientRuns.Ends(input, d) || d !in Run(before).devices then []
      else if input.Received? && input.m.message == Note && input.m.device == d && d != "" then LastTexts(before, d) + [input.m.text]
      else LastTexts(before, d)
  }

  predicate TextsAre(v: View, d: string, texts: seq<string>) {
    d in v.devices ==> v.devices[d].messages == texts
  }

  lemma CachingKeepsTexts(v: View, p: Property, d: string)
    ensures var v' := Cache(v, p);
            v'.devices.Keys == v.devices.Keys && (d in v.devices ==> v'.devices[d].messages == v.devices[d].messages)
  {
  }

  lemma AnnouncingKeepsTexts(v: View, device: string, d: string)
    ensures var v' := AnnounceRoles(v, device);
            v'.devices.Keys == v.devices.Keys && (d in v.devices ==> v'.devices[d].messages == v.devices[d].messages)
  {
  }

  lemma DefTexts(v: View, m: IndiMessage, d: string, texts: seq<string>)
    requires m.message.Def? && TextsAre(v, d, texts) && (d !in v.devices ==> texts == [])
    ensures TextsAre(HandleDef(v, m), d, texts)
  {
    var v1 := Introduce(v, m);
    assert TextsAre(v1, d, texts);
    if PropertyOf(m).Some? {
      var p := PropertyOf(m).value;
      DefCases(v, m);
      CachingKeepsTexts(v1, p, d);
      AnnouncingKeepsTexts(Registered(Cache(v1, p), p), p.device, d);
    }
  }

  lemma SetTexts(v: View, m: IndiMessage, d: string, texts: seq<string>)
    requires m.message.Set? && TextsAre(v, d, texts)
    ensures TextsAre(Handle(v, m), d, texts) && Handle(v, m).devices.Keys == v.devices.Keys
  {
    if PropertyOf(m).Some? {
      CachingKeepsTexts(v, PropertyOf(m).value, d);
    }
  }

  /** On every run, the messages of a cached device are the texts received for it since it appeared, in order. */
  lemma {:induction false} MessagesAreLastTexts(inputs: seq<Input>, d: string)
    ensures TextsAre(Run(inputs), d, LastTexts(inputs, d))
  {
    if |inputs| == 0 {
    } else {
      var before, input := inputs[..|inputs| - 1], inputs[|inputs| - 1];
      var v := Run(before);
      MessagesAreLastTexts(before, d);
      match input
      case Connects =>
      case Commands(device, name, values) => CommandKeepsTexts(v, device, name, values, d);
      case Received(m) =>
        if m.message.Def? {
          DefTexts(v, m, d, if d in v.devices then LastTexts(before, d) else []);
        } else if m.message.Set? {
          SetTexts(v, m, d, LastTexts(before, d));
        }
    }
  }

  lemma CommandKeepsTexts(v: View, device: string, name: string, values: map<string, string>, d: string)
    ensures var v' := Commanded(v, device, name, values);
            v'.devices.Keys == v.devices.Keys && (d in v.devices ==> v'.devices[d].messages == v.devices[d].messages)
  {
  }

  // ---------- roles ----------

  /** A def of a property of `d` that was not known. */
  predicate Defines(v: View, input: Input, d: string) {
    input.Received? && input.m.message.Def? && Usable(input.m) && input.m.device == d
    && input.m.property !in PropertiesOf(v.known, d)
  }

  /** The cached property names of a device when a property of it was last defined. */
  function LastDefined(inputs: seq<Input>, d: string): set<string> {
    if |inputs| == 0 then {}
    else
      var before, input := inputs[..|inputs| - 1], inputs[|inputs| - 1];
      if ClientRuns.Ends(input, d) then {}
      else if Defines(Run(before), input, d) then
        if d in Run(inputs).devices then Run(inputs).devices[d].properties.Keys else {}
      else LastDefined(before, d)
  }

  /** No device, no roles; and the roles of a cached one are those of the names. */
  predicate RolesAre(v: View, d: string, names: set<string>) {
    if d in v.devices then v.devices[d].roles == Classify(names) else d !in v.known.devices ==> names == {}
  }

  lemma CachingKeepsRoles(v: View, p: Property, d: string)
    ensures var v' := Cache(v, p);
            v'.devices.Keys == v.devices.Keys && (d in v.devices ==> v'.devices[d].roles == v.devices[d].roles)
  {
  }

  lemma AnnouncingSetsRoles(v: View, device: string, d: string)
    ensures var v' := AnnounceRoles(v, device);
            && v'.devices.Keys == v.devices.Keys && v'.known == v.known
            && (d in v.devices ==>
                  && v'.devices[d].properties == v.devices[d].properties
                  && v'.devices[d].roles == if d == device then Classify(v.devices[d].properties.Keys) else v.devices[d].roles)
  {
  }

  lemma IntroducingRoles(v: View, m: IndiMessage, d: string, names: set<string>)
    requires RolesAre(v, d, names)
    ensures RolesAre(Introduce(v, m), d, names)
  {
    ClassifyNothing();
  }

  lemma DefRoles(v: View, m: IndiMessage, d: string, names: set<string>)
    requires Nested(v) && m.message.Def? && RolesAre(v, d, names)
    ensures var v' := HandleDef(v, m);
            RolesAre(v', d, if !Defines(v, Received(m), d) then names else if d in v'.devices then v'.devices[d].properties.Keys else {})
  {
    var v1 := Introduce(v, m);
    UsableIff(m);
    IntroducingRoles(v, m, d, names);
    if PropertyOf(m).Some? {
      var p := PropertyOf(m).value;
      PropertyOfIsParsed(m);
      DefCases(v, m);
      CachingKeepsRoles(v1, p, d);
      if p.name in PropertiesOf(v.known, p.device) {
        assert HandleDef(v, m).known == v1.known;
      } else {
        RegisteringRoles(v1, p, d, names);
      }
    }
  }

  lemma RegisteringRoles(v: View, p: Property, d: string, names: set<string>)
    requires KnownOk(v.known) && RolesAre(v, d, names)
    ensures var v' := AcceptNew(Cache(v, p), p);
            RolesAre(v', d, if p.device != d then names else if d in v'.devices then v'.devices[d].properties.Keys else {})
  {
    CachingKeepsRoles(v, p, d);
    AddingProperty(v.known, p.device, p.name);
    AnnouncingSetsRoles(Registered(Cache(v, p), p), p.device, d);
  }

  /** A set caches its property, if anything, and makes nothing unknown. */
  lemma SetCachesOnly(v: View, m: IndiMessage)
    requires KnownOk(v.known) && m.message.Set?
    ensures var v' := Handle(v, m);
            && (v'.devices == v.devices || (PropertyOf(m).Some? && v'.devices == Cache(v, PropertyOf(m).value).devices))
            && v.known.devices <= v'.known.devices
  {
    if PropertyOf(m).Some? {
      AddingProperty(v.known, PropertyOf(m).value.device, PropertyOf(m).value.name);
    }
  }

  lemma SetRolesKept(v: View, m: IndiMessage, d: string, names: set<string>)
    requires Nested(v) && m.message.Set? && RolesAre(v, d, names)
    ensures RolesAre(Handle(v, m), d, names)
  {
    SetCachesOnly(v, m);
    if PropertyOf(m).Some? {
      CachingKeepsRoles(v, PropertyOf(m).value, d);
    }
  }

  lemma OtherRoles(v: View, m: IndiMessage, d: string, names: set<string>)
    requires Nested(v) && !m.message.Def? && !m.message.Set? && RolesAre(v, d, names)
    ensures RolesAre(Handle(v, m), d, if ClientRuns.Ends(Received(m), d) then {} else names)
  {
  }

  lemma {:induction false} RunRoles(inputs: seq<Input>, d: string)
    ensures RolesAre(Run(inputs), d, LastDefined(inputs, d))
  {
    if |inputs| == 0 {
    } else {
      var before, input := inputs[..|inputs| - 1], inputs[|inputs| - 1];
      var v, names := Run(before), LastDefined(before, d);
      RunRoles(before, d);
      RunKeeps(before);
      match input
      case Connects =>
      case Commands(device, name, values) => CommandChangesOnlyTargets(v, device, name, values);
      case Received(m) =>
        if m.message.Def? {
          DefRoles(v, m, d, names);
        } else if m.message.Set? {
          SetRolesKept(v, m, d, names);
        } else {
          OtherRoles(v, m, d, names);
        }
    }
  }

  /**
   On every run, the roles of a cached device, and the roles last announced for it, are those that its
   property names had when one of them was last defined: no announcement is late, and none is missing.
   */
  lemma {:induction false} RolesAreCurrent(inputs: seq<Input>, d: string)
    requires d in Run(inputs).devices
    ensures var v := Run(inputs);
            v.devices[d].roles == RolesBy(v.events, d) == Classify(LastDefined(inputs, d))
  {
    RunRoles(inputs, d);
    RunKeeps(inputs);
    assert RolesOk(Run(inputs));
  }

  // ---------- every callback ----------

  /** The cached names of a device once a property of it has been cached. */
  function NamesWith(v: View, d: string, n: string): set<string> {
    (if d in v.devices then v.devices[d].properties.Keys else {}) + {n}
  }

  /** A device that is announced by a def: named, and not known. */
  predicate Appears(v: View, m: IndiMessage) {
    m.message.Def? && m.device != "" && m.device !in v.known.devices
  }

  /** The roles that are announced after a def: when the device is cached, its roles have changed, and the property is new. */
  function RolesCalledFor(v: View, m: IndiMessage): seq<Event> {
    var roles := Classify(NamesWith(v, m.device, m.property));
    var before := if m.device in v.devices then RolesBy(v.events, m.device) else [];
    if Defines(v, Received(m), m.device) && (m.device in v.devices || Appears(v, m)) && roles != before then [OnRoles(m.device, roles)]
    else []
  }

  /** Everything a message calls for. */
  function AllCalledFor(v: View, m: IndiMessage): seq<Event> {
    var known := (m.device, m.property) in KnownBy(v.events);
    match m.message
    case Note =>
      if m.device == "" then [OnUniversalMessage(m.text)]
      else if m.device in v.devices then [OnMessage(m.device, m.text)]
      else []
    case Def(_) => (if Appears(v, m) then [OnNewDevice(m.device)] else []) + CalledFor(m, known) + RolesCalledFor(v, m)
    case DelDevice => if m.device in v.devices then [OnRemoveDevice(m.device)] else []
    case _ => CalledFor(m, known)
  }

  lemma PlainFires(v: View, m: IndiMessage)
    requires Told(v) && !m.message.Def?
    ensures Handle(v, m).events == v.events + AllCalledFor(v, m)
  {
    assert (m.device, m.property) in KnownBy(v.events) <==> m.property in PropertiesOf(v.known, m.device);
    if m.message.Set? {
      UsableIff(m);
      if PropertyOf(m).Some? {
        PropertyOfIsParsed(m);
      }
    }
  }

  lemma AppearingFires(v: View, m: IndiMessage)
    requires Nested(v) && m.message.Def?
    ensures Introduce(v, m).events == v.events + if Appears(v, m) then [OnNewDevice(m.device)] else []
    ensures m.device in Introduce(v, m).devices <==> m.device in v.devices || Appears(v, m)
    ensures m.device in Introduce(v, m).devices ==>
              Introduce(v, m).devices[m.device] == if m.device in v.devices then v.devices[m.device] else DeviceView(map[], [], [])
  {
  }

  /** A property that is defined in a view where its device has been introduced. */
  lemma DefiningFires(v1: View, p: Property, roles: seq<Role>)
    requires p.device in v1.devices ==> roles == v1.devices[p.device].roles
    ensures var now := Classify(NamesWith(v1, p.device, p.name));
            AcceptNew(Cache(v1, p), p).events ==
            v1.events + [OnNewProperty(p)] + if p.device in v1.devices && now != roles then [OnRoles(p.device, now)] else []
  {
    var v2 := Registered(Cache(v1, p), p);
    if p.device in v1.devices {
      assert v2.devices[p.device].properties.Keys == NamesWith(v1, p.device, p.name);
      assert v2.devices[p.device].roles == v1.devices[p.device].roles;
    }
  }

  lemma UpdatingDefFires(v: View, m: IndiMessage)
    requires m.message.Def? && PropertyOf(m).Some? && m.property in PropertiesOf(v.known, m.device)
    ensures HandleDef(v, m).events == Introduce(v, m).events + [OnUpdateProperty(PropertyOf(m).value)]
    ensures RolesCalledFor(v, m) == []
  {
    PropertyOfIsParsed(m);
    DefCases(v, m);
  }

  lemma NewDefFires(v: View, m: IndiMessage)
    requires Nested(v) && RolesOk(v) && m.message.Def? && PropertyOf(m).Some? && m.property !in PropertiesOf(v.known, m.device)
    ensures HandleDef(v, m).events == Introduce(v, m).events + [OnNewProperty(PropertyOf(m).value)] + RolesCalledFor(v, m)
  {
    var v1, p := Introduce(v, m), PropertyOf(m).value;
    PropertyOfIsParsed(m);
    UsableIff(m);
    DefCases(v, m);
    AppearingFires(v, m);
    DefiningFires(v1, p, if m.device in v.devices then RolesBy(v.events, m.device) else []);
    assert NamesWith(v1, p.device, p.name) == NamesWith(v, p.device, p.name);
  }

  lemma DefFires(v: View, m: IndiMessage)
    requires Nested(v) && Told(v) && RolesOk(v) && m.message.Def?
    ensures Handle(v, m).events == v.events + AllCalledFor(v, m)
  {
    var appears := if Appears(v, m) then [OnNewDevice(m.device)] else [];
    assert (m.device, m.property) in KnownBy(v.events) <==> m.property in PropertiesOf(v.known, m.device);
    AppearingFires(v, m);
    if PropertyOf(m).None? {
      UsableIff(m);
    } else if m.property in PropertiesOf(v.known, m.device) {
      UpdatingDefFires(v, m);
      Regroup(v.events, appears, [OnUpdateProperty(PropertyOf(m).value)], []);
    } else {
      NewDefFires(v, m);
      Regroup(v.events, appears, [OnNewProperty(PropertyOf(m).value)], RolesCalledFor(v, m));
    }
  }

  /**
   The callbacks of every message in every reachable state, and their order: the device's first, then the
   property's, then the roles'; and nothing else.
   */
  lemma {:induction false} FiresExactly(inputs: seq<Input>, m: IndiMessage)
    ensures Handle(Run(inputs), m).events == Run(inputs).events + AllCalledFor(Run(inputs), m)
  {
    RunKeeps(inputs);
    if m.message.Def? {
      DefFires(Run(inputs), m);
    } else {
      PlainFires(Run(inputs), m);
    }
  }
}
