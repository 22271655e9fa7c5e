/** INDI messages as the XML parser hands them over, and the properties made from them. */
module Properties {
  import opened Options

  datatype Kind = Number | Text | Switch | Light | Blob
  datatype State = Idle | Ok | Busy | Alert | UnknownState
  datatype Perm = ReadOnly | WriteOnly | ReadWrite
  datatype Rule = OneOfMany | AtMostOne | AnyOfMany | UnknownRule

  /** The limits of a number element, each the text of a number. */
  datatype Limits = Limits(min: Option<string>, max: Option<string>, step: Option<string>)

  const NO_LIMITS := Limits(None, None, None)

  datatype BlobInfo = BlobInfo(blobFormat: string, size: int)

  const NO_BLOB := BlobInfo("", 0)

  /** What an element carries besides its value. */
  datatype ElementDetails = ElementDetails(state: State, kind: Kind, displayLabel: string, format: string, limits: Limits, blob: BlobInfo)

  /** An element; targetValue is the last value commanded for it, if any. */
  datatype Element = Element(value: string, details: ElementDetails, targetValue: Option<string>)

  /** What a property carries besides its elements. */
  datatype Details = Details(
    kind: Kind, state: State, perm: Perm, timestamp: Option<string>, displayLabel: string, group: string, rule: Rule)

  datatype Property = Property(device: string, name: string, details: Details, elements: map<string, Element>)

  /** A limit as sent: left empty, a number, or something that `float` rejects. */
  datatype LimitData = Absent | Numeric(text: string) | Malformed

  /** Element data of a message; what its kind of message does not have is empty. */
  datatype ElementData = ElementData(
    value: string, displayLabel: string, format: string, min: LimitData, max: LimitData, step: LimitData, blob: BlobInfo)

  datatype MessageType = Def(kind: Kind) | Set(kind: Kind) | Note | DelProperty | DelDevice | NewBlob

  /** Attributes that a kind of message does not read are None. */
  datatype IndiMessage = IndiMessage(
    message: MessageType, device: string, property: string, timestamp: Option<string>,
    state: Option<string>, perm: Option<string>, rule: Option<string>, displayLabel: string, group: string,
    elements: map<string, ElementData>, text: string)

  // ---------- `_parse_enum`, with the default for what is missing or unknown ----------

  function ParseState(text: Option<string>): State {
    match text
    case Some("Ok") => Ok
    case Some("Busy") => Busy
    case Some("Alert") => Alert
    case Some("Unknown") => UnknownState
    case _ => Idle
  }

  function ParsePerm(text: Option<string>): Perm {
    match text
    case Some("ro") => ReadOnly
    case Some("wo") => WriteOnly
    case _ => ReadWrite
  }

  function ParseRule(text: Option<string>): Rule {
    match text
    case Some("OneOfMany") => OneOfMany
    case Some("AtMostOne") => AtMostOne
    case Some("AnyOfMany") => AnyOfMany
    case _ => UnknownRule
  }

  /** The kind of property a message is about. */
  function KindOf(m: IndiMessage): Kind
    requires m.message.Def? || m.message.Set?
  {
    m.message.kind
  }

  function Limit(data: LimitData): Option<string> {
    if data.Numeric? then Some(data.text) else None
  }

  predicate BadLimits(data: ElementData) {
    data.min.Malformed? || data.max.Malformed? || data.step.Malformed?
  }

  /** Only number elements have limits, and only BLOB elements a BLOB format and size. */
  function MakeElement(m: IndiMessage, data: ElementData): Element
    requires m.message.Def? || m.message.Set?
  {
    var limits := if KindOf(m) == Number then Limits(Limit(data.min), Limit(data.max), Limit(data.step)) else NO_LIMITS;
    var blob := if KindOf(m) == Blob then data.blob else NO_BLOB;
    Element(data.value, ElementDetails(ParseState(m.state), KindOf(m), data.displayLabel, data.format, limits, blob), None)
  }

  function MakeDetails(m: IndiMessage): Details
    requires m.message.Def? || m.message.Set?
  {
    Details(KindOf(m), ParseState(m.state), ParsePerm(m.perm), m.timestamp, m.displayLabel, m.group, ParseRule(m.rule))
  }

  /** A number element whose limits are not numbers makes the parser raise. */
  predicate Raises(m: IndiMessage)
    requires m.message.Def? || m.message.Set?
  {
    KindOf(m) == Number && exists e :: e in m.elements && BadLimits(m.elements[e])
  }

  /**
   The property of a def or set message, if the handler goes on with it: both names are there, no
   element raises, and there is at least one element (an empty property counts as false).
   */
  function PropertyOf(m: IndiMessage): Option<Property>
    requires m.message.Def? || m.message.Set?
  {
    if m.device == "" || m.property == "" || Raises(m) || m.elements == map[] then None
    else Some(Property(m.device, m.property, MakeDetails(m), map e | e in m.elements :: MakeElement(m, m.elements[e])))
  }

  /** `_extract_value`: the element values. */
  function Values(p: Property): map<string, string> {
    map e | e in p.elements :: p.elements[e].value
  }

  /** The outcome of `create_property_from_message`. */
  datatype Created = Nothing | Raised | Made(property: Property)

  /** The loop of `create_property_from_message`. */
  method CreateElements(m: IndiMessage) returns (raised: bool, elements: map<string, Element>)
    requires m.message.Def? || m.message.Set?
    ensures raised <==> Raises(m)
    ensures !raised ==> elements.Keys == m.elements.Keys && forall e :: e in m.elements ==> elements[e] == MakeElement(m, m.elements[e])
  {
    elements := map[];
    var todo := m.elements.Keys;
    while todo != {}
      invariant todo <= m.elements.Keys && elements.Keys == m.elements.Keys - todo
      invariant forall e :: e in elements ==> elements[e] == MakeElement(m, m.elements[e])
      invariant KindOf(m) == Number ==> forall e :: e in elements ==> !BadLimits(m.elements[e])
      decreases todo
    {
      var e :| e in todo;
      todo := todo - {e};
      if KindOf(m) == Number && BadLimits(m.elements[e]) {
        return true, elements;
      }
      elements := elements[e := MakeElement(m, m.elements[e])];
    }
    return false, elements;
  }

  /** `create_property_from_message`; callers drop what is not made and what has no elements. */
  method CreateProperty(m: IndiMessage) returns (r: Created)
    requires m.message.Def? || m.message.Set?
    ensures r.Nothing? <==> m.device == "" || m.property == ""
    ensures r.Raised? <==> !r.Nothing? && m.message.kind == Number && exists e :: e in m.elements && BadLimits(m.elements[e])
    ensures r.Made? ==>
              && r.property.device == m.device && r.property.name == m.property
              && r.property.details.kind == m.message.kind && r.property.details.timestamp == m.timestamp
              && r.property.details.displayLabel == m.displayLabel && r.property.details.group == m.group
              && r.property.elements.Keys == m.elements.Keys
    ensures r.Made? ==> forall e :: e in m.elements ==> ReadsElement(r.property, r.property.elements[e], m, m.elements[e])
    ensures PropertyOf(m) == if r.Made? && |r.property.elements| > 0 then Some(r.property) else None
  {
    if m.device == "" || m.property == "" {
      return Nothing;
    }
    var raised, elements := CreateElements(m);
    if raised {
      return Raised;
    }
    NoElements(m, elements);
    assert elements == map e | e in m.elements :: MakeElement(m, m.elements[e]);
    r := Made(Property(m.device, m.property, MakeDetails(m), elements));
  }

  /** An element as it reads in the message. */
  predicate ReadsElement(p: Property, made: Element, m: IndiMessage, data: ElementData)
    requires m.message.Def? || m.message.Set?
  {
    && made.value == data.value && made.details.displayLabel == data.displayLabel && made.details.format == data.format
    && made.details.kind == m.message.kind && made.details.state == p.details.state && made.targetValue == None
  }

  lemma NoElements(m: IndiMessage, elements: map<string, Element>)
    requires elements.Keys == m.elements.Keys
    ensures |elements| == 0 <==> m.elements == map[]
  {
    assert |elements| == |elements.Keys|;
  }

  // ---------- announcing a property ----------

  function StateText(s: State): string {
    match s
    case Idle => "Idle"
    case Ok => "Ok"
    case Busy => "Busy"
    case Alert => "Alert"
    case UnknownState => "Unknown"
  }

  function PermText(p: Perm): string {
    match p
    case ReadOnly => "ro"
    case WriteOnly => "wo"
    case ReadWrite => "rw"
  }

  function RuleText(r: Rule): string {
    match r
    case OneOfMany => "OneOfMany"
    case AtMostOne => "AtMostOne"
    case AnyOfMany => "AnyOfMany"
    case UnknownRule => "Unknown"
  }

  function LimitText(limit: Option<string>): LimitData {
    if limit.Some? then Numeric(limit.value) else Absent
  }

  function DataOf(e: Element): ElementData {
    var d := e.details;
    ElementData(e.value, d.displayLabel, d.format, LimitText(d.limits.min), LimitText(d.limits.max), LimitText(d.limits.step), d.blob)
  }

  /** The message with which a driver announces a property, by a def or a set. */
  function MessageFor(p: Property, isDef: bool): IndiMessage {
    var d := p.details;
    IndiMessage(if isDef then Def(d.kind) else Set(d.kind), p.device, p.name, d.timestamp,
                Some(StateText(d.state)), Some(PermText(d.perm)), Some(RuleText(d.rule)), d.displayLabel, d.group,
                map e | e in p.elements :: DataOf(p.elements[e]), "")
  }

  /** A property as a driver has it: named, with elements of its own kind and state, and nothing commanded. */
  predicate Announceable(p: Property) {
    && p.device != "" && p.name != "" && p.elements.Keys != {}
    && forall e :: e in p.elements ==> AnnounceableElement(p.details, p.elements[e])
  }

  predicate AnnounceableElement(d: Details, e: Element) {
    && e.details.kind == d.kind && e.details.state == d.state && e.targetValue == None
    && (d.kind != Number ==> e.details.limits == NO_LIMITS)
    && (d.kind != Blob ==> e.details.blob == NO_BLOB)
  }

  /** Each text of the protocol is read as what it stands for, and any other, or none, as the default. */
  lemma TextsAreRead()
    ensures forall s: State :: ParseState(Some(StateText(s))) == s
    ensures forall p: Perm :: ParsePerm(Some(PermText(p))) == p
    ensures forall r: Rule :: ParseRule(Some(RuleText(r))) == r
  {
  }

  lemma OtherTextsAreDefaults(text: Option<string>)
    ensures (forall s: State :: text != Some(StateText(s))) ==> ParseState(text) == Idle
    ensures (forall p: Perm :: text != Some(PermText(p))) ==> ParsePerm(text) == ReadWrite
    ensures (forall r: Rule :: text != Some(RuleText(r))) ==> ParseRule(text) == UnknownRule
  {
    assert StateText(Ok) == "Ok" && StateText(Busy) == "Busy" && StateText(Alert) == "Alert" && StateText(UnknownState) == "Unknown";
    assert PermText(ReadOnly) == "ro" && PermText(WriteOnly) == "wo";
    assert RuleText(OneOfMany) == "OneOfMany" && RuleText(AtMostOne) == "AtMostOne" && RuleText(AnyOfMany) == "AnyOfMany";
  }

  lemma ElementRoundTrip(m: IndiMessage, p: Property, e: string)
    requires Announceable(p) && e in p.elements && (m == MessageFor(p, true) || m == MessageFor(p, false))
    ensures MakeElement(m, m.elements[e]) == p.elements[e]
  {
    TextsAreRead();
    assert AnnounceableElement(p.details, p.elements[e]);
  }

  lemma DetailsRoundTrip(p: Property, isDef: bool)
    requires Announceable(p)
    ensures var m := MessageFor(p, isDef); MakeDetails(m) == p.details && !Raises(m) && m.elements != map[]
  {
    TextsAreRead();
    assert MessageFor(p, isDef).elements.Keys == p.elements.Keys;
  }

  /** Round trip: what is announced is what is made of the announcement. */
  lemma AnnouncementRoundTrip(p: Property, isDef: bool)
    requires Announceable(p)
    ensures PropertyOf(MessageFor(p, isDef)) == Some(p)
  {
    var m := MessageFor(p, isDef);
    DetailsRoundTrip(p, isDef);
    assert m.elements.Keys == p.elements.Keys;
    forall e | e in p.elements
      ensures MakeElement(m, m.elements[e]) == p.elements[e]
    {
      ElementRoundTrip(m, p, e);
    }
    assert (map e | e in m.elements :: MakeElement(m, m.elements[e])) == p.elements;
  }
}
