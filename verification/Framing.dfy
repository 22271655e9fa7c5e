/**
 Printing elements and splitting them back. The grammar follows XML 1.0: attribute values (section
 2.3), character data (2.4), comments (2.5), processing instructions (2.6) and tags (3.1), except that
 values may hold any byte but their own quote.
 */
module Framing {
  import opened Bytes
  import opened XmlStream
  import opened Splitter

  const EQUALS: byte := 61

  datatype Attribute = Attribute(space: seq<byte>, name: seq<byte>, quote: byte, value: seq<byte>)

  datatype Node =
    | Chars(text: seq<byte>)
    | Remark(text: seq<byte>)
    | Instruction(text: seq<byte>)
    | Empty(name: seq<byte>, attributes: seq<Attribute>, space: seq<byte>)
    | Element(name: seq<byte>, attributes: seq<Attribute>, space: seq<byte>, children: seq<Node>, closeSpace: seq<byte>)

  // ---------- well-formedness ----------

  predicate IsBlank(bytes: seq<byte>) {
    forall b :: b in bytes ==> b in {SPACE, TAB, NEWLINE, RETURN}
  }

  predicate IsName(bytes: seq<byte>) {
    |bytes| > 0 && forall b :: b in bytes ==> !IsSpace(b) && !IsQuote(b) && b !in {LT, GT, SLASH, BANG, QUERY, EQUALS}
  }

  predicate WellFormedAttribute(a: Attribute) {
    IsBlank(a.space) && IsName(a.name) && IsQuote(a.quote) && a.quote !in a.value
  }

  predicate WellFormedNode(node: Node) {
    match node
    case Chars(text) => LT !in text
    case Remark(text) => forall i :: 0 <= i < |text| ==> !StartsAt(text, i, COMMENT_CLOSE)
    case Instruction(text) => forall i :: 0 <= i < |text| ==> !StartsAt(text, i, PI_CLOSE)
    case Empty(name, attributes, space) =>
      IsName(name) && IsBlank(space) && forall a :: a in attributes ==> WellFormedAttribute(a)
    case Element(name, attributes, space, children, closeSpace) =>
      && IsName(name) && IsBlank(space) && IsBlank(closeSpace)
      && (forall a :: a in attributes ==> WellFormedAttribute(a))
      && (forall c :: c in children ==> WellFormedNode(c))
  }

  /** A document element: what INDI sends at top level. */
  predicate IsElement(node: Node) {
    (node.Empty? || node.Element?) && WellFormedNode(node)
  }

  // ---------- printing ----------

  function PrintAttribute(a: Attribute): seq<byte> {
    a.space + a.name + [EQUALS] + [a.quote] + a.value + [a.quote]
  }

  function PrintAttributes(attributes: seq<Attribute>): seq<byte> {
    if |attributes| == 0 then [] else PrintAttribute(attributes[0]) + PrintAttributes(attributes[1..])
  }

  /** A tag up to its last bytes: '<', name, attributes, blanks. */
  function PrintHead(name: seq<byte>, attributes: seq<Attribute>, space: seq<byte>): seq<byte> {
    [LT] + name + PrintAttributes(attributes) + space
  }

  function PrintClose(name: seq<byte>, space: seq<byte>): seq<byte> {
    [LT] + [SLASH] + (name + space) + [GT]
  }

  function Print(node: Node): seq<byte> {
    match node
    case Chars(text) => text
    case Remark(text) => [LT] + [BANG] + [DASH] + [DASH] + text + [DASH] + [DASH] + [GT]
    case Instruction(text) => [LT] + [QUERY] + text + [QUERY] + [GT]
    case Empty(name, attributes, space) => PrintHead(name, attributes, space) + [SLASH] + [GT]
    case Element(name, attributes, space, children, closeSpace) =>
      PrintHead(name, attributes, space) + [GT] + PrintAll(children) + PrintClose(name, closeSpace)
  }

  function PrintAll(nodes: seq<Node>): seq<byte> {
    if |nodes| == 0 then [] else Print(nodes[0]) + PrintAll(nodes[1..])
  }

  // ---------- runs of the automaton inside one message ----------

  /** Reading `bytes` in `mode` at `depth` completes no message and leads to `mode'` at `depth'`. */
  ghost predicate Leads(mode: Mode, depth: int, bytes: seq<byte>, mode': Mode, depth': int)
    decreases |bytes|
  {
    if |bytes| == 0 then mode == mode' && depth == depth'
    else
      match Advance(mode, depth, bytes[0])
      case Complete => false
      case Goto(m, d) => Leads(m, d, bytes[1..], mode', depth')
  }

  lemma {:induction false} LeadsThrough(mode: Mode, depth: int, a: seq<byte>, mid: Mode, midDepth: int, b: seq<byte>, end: Mode, endDepth: int)
    requires Leads(mode, depth, a, mid, midDepth) && Leads(mid, midDepth, b, end, endDepth)
    ensures Leads(mode, depth, a + b, end, endDepth)
    decreases |a|
  {
    if |a| == 0 {
      assert a + b == b;
    } else {
      assert (a + b)[1..] == a[1..] + b;
      var next := Advance(mode, depth, a[0]);
      LeadsThrough(next.mode, next.depth, a[1..], mid, midDepth, b, end, endDepth);
    }
  }

  /** A run that leads on, then one byte. */
  lemma LeadsByte(mode: Mode, depth: int, a: seq<byte>, mid: Mode, midDepth: int, b: byte)
    requires Leads(mode, depth, a, mid, midDepth) && Advance(mid, midDepth, b).Goto?
    ensures var next := Advance(mid, midDepth, b); Leads(mode, depth, a + [b], next.mode, next.depth)
  {
    var next := Advance(mid, midDepth, b);
    assert Leads(mid, midDepth, [b], next.mode, next.depth);
    LeadsThrough(mode, depth, a, mid, midDepth, [b], next.mode, next.depth);
  }

  lemma {:induction false} LeadsIsFeed(mode: Mode, depth: int, pending: seq<byte>, bytes: seq<byte>, mode': Mode, depth': int)
    requires Leads(mode, depth, bytes, mode', depth')
    ensures Feed(Inside(mode, depth, pending), bytes) == Fed(Inside(mode', depth', pending + bytes), [])
    decreases |bytes|
  {
    var s := Inside(mode, depth, pending);
    if |bytes| == 0 {
      assert pending + bytes == pending;
    } else {
      var b, rest := bytes[0], bytes[1..];
      var next := Advance(mode, depth, b);
      LeadsIsFeed(next.mode, next.depth, pending + [b], rest, mode', depth');
      FeedOne(s, [], b);
      FeedAppend(s, [b], rest);
      assert [] + [b] == [b] && [b] + rest == bytes && pending + [b] + rest == pending + bytes;
    }
  }

  /** Bytes that a mode passes over. */
  lemma {:induction false} Stays(mode: Mode, depth: int, bytes: seq<byte>)
    requires forall b :: b in bytes ==> Advance(mode, depth, b) == Goto(mode, depth)
    ensures Leads(mode, depth, bytes, mode, depth)
    decreases |bytes|
  {
    if |bytes| == 0 {
    } else {
      Stays(mode, depth, bytes[1..]);
    }
  }

  // ---------- tags ----------

  lemma AttributeLeads(a: Attribute, depth: int)
    requires WellFormedAttribute(a)
    ensures Leads(Tag(false), depth, PrintAttribute(a), Tag(false), depth)
  {
    var t := Tag(false);
    Stays(t, depth, a.space + a.name);
    LeadsByte(t, depth, a.space + a.name, t, depth, EQUALS);
    LeadsByte(t, depth, a.space + a.name + [EQUALS], t, depth, a.quote);
    var inside := TagQuoted(a.quote);
    Stays(inside, depth, a.value);
    LeadsThrough(t, depth, a.space + a.name + [EQUALS] + [a.quote], inside, depth, a.value, inside, depth);
    LeadsByte(t, depth, a.space + a.name + [EQUALS] + [a.quote] + a.value, inside, depth, a.quote);
  }

  lemma {:induction false} AttributesLead(attributes: seq<Attribute>, depth: int)
    requires forall a :: a in attributes ==> WellFormedAttribute(a)
    ensures Leads(Tag(false), depth, PrintAttributes(attributes), Tag(false), depth)
  {
    if |attributes| == 0 {
    } else {
      AttributeLeads(attributes[0], depth);
      AttributesLead(attributes[1..], depth);
      LeadsThrough(Tag(false), depth, PrintAttribute(attributes[0]), Tag(false), depth, PrintAttributes(attributes[1..]), Tag(false), depth);
    }
  }

  lemma HeadLeads(name: seq<byte>, attributes: seq<Attribute>, space: seq<byte>, depth: int)
    requires IsName(name) && IsBlank(space) && forall a :: a in attributes ==> WellFormedAttribute(a)
    ensures Leads(Text, depth, PrintHead(name, attributes, space), Tag(false), depth)
  {
    var t := Tag(false);
    assert Leads(Text, depth, [LT], Lt, depth);
    assert name[0] in name;
    LeadsByte(Text, depth, [LT], Lt, depth, name[0]);
    Stays(t, depth, name[1..]);
    LeadsThrough(Text, depth, [LT] + [name[0]], t, depth, name[1..], t, depth);
    assert [LT] + [name[0]] + name[1..] == [LT] + name;
    AttributesLead(attributes, depth);
    LeadsThrough(Text, depth, [LT] + name, t, depth, PrintAttributes(attributes), t, depth);
    Stays(t, depth, space);
    LeadsThrough(Text, depth, [LT] + name + PrintAttributes(attributes), t, depth, space, t, depth);
  }

  /** A closing tag up to its '>'. */
  lemma CloseLeads(name: seq<byte>, space: seq<byte>, depth: int)
    requires IsName(name) && IsBlank(space)
    ensures Leads(Text, depth, [LT] + [SLASH] + (name + space), Close, depth)
  {
    assert Leads(Text, depth, [LT], Lt, depth);
    LeadsByte(Text, depth, [LT], Lt, depth, SLASH);
    Stays(Close, depth, name + space);
    LeadsThrough(Text, depth, [LT] + [SLASH], Close, depth, name + space, Close, depth);
  }

  // ---------- comments and instructions ----------

  /** Where a comment's text has got to, and what may not follow. */
  lemma {:induction false} RemarkLeads(text: seq<byte>, depth: int)
    requires forall i :: 0 <= i < |text| ==> !StartsAt(text, i, COMMENT_CLOSE)
    ensures exists k: nat :: Leads(Comment(0), depth, text, Comment(k), depth)
                             && k == TrailingDashes(text)
    decreases |text|
  {
    if |text| == 0 {
      assert Leads(Comment(0), depth, text, Comment(0), depth);
    } else {
      var front, b := text[..|text| - 1], text[|text| - 1];
      forall i | 0 <= i < |front|
        ensures !StartsAt(front, i, COMMENT_CLOSE)
      {
        StartsAtThree(front, i, COMMENT_CLOSE);
        StartsAtThree(text, i, COMMENT_CLOSE);
      }
      RemarkLeads(front, depth);
      if |text| >= 3 {
        StartsAtThree(text, |text| - 3, COMMENT_CLOSE);
      }
      LeadsByte(Comment(0), depth, front, Comment(TrailingDashes(front)), depth, b);
      assert front + [b] == text;
    }
  }

  function TrailingDashes(text: seq<byte>): nat {
    var n := |text|;
    if n == 0 || text[n - 1] != DASH then 0 else if n == 1 || text[n - 2] != DASH then 1 else 2
  }

  lemma {:induction false} InstructionLeads(text: seq<byte>, depth: int)
    requires forall i :: 0 <= i < |text| ==> !StartsAt(text, i, PI_CLOSE)
    ensures Leads(Pi(false), depth, text, Pi(|text| > 0 && text[|text| - 1] == QUERY), depth)
    decreases |text|
  {
    if |text| == 0 {
    } else {
      var front, b := text[..|text| - 1], text[|text| - 1];
      forall i | 0 <= i < |front|
        ensures !StartsAt(front, i, PI_CLOSE)
      {
        StartsAtTwo(front, i, PI_CLOSE);
        StartsAtTwo(text, i, PI_CLOSE);
      }
      InstructionLeads(front, depth);
      if |text| >= 2 {
        StartsAtTwo(text, |text| - 2, PI_CLOSE);
      }
      LeadsByte(Pi(false), depth, front, Pi(|front| > 0 && front[|front| - 1] == QUERY), depth, b);
      assert front + [b] == text;
    }
  }

  lemma PrintedRemarkLeads(text: seq<byte>, depth: int)
    requires WellFormedNode(Remark(text))
    ensures Leads(Text, depth, Print(Remark(text)), Text, depth)
  {
    var open := [LT] + [BANG] + [DASH] + [DASH];
    assert Leads(Text, depth, [LT], Lt, depth);
    LeadsByte(Text, depth, [LT], Lt, depth, BANG);
    LeadsByte(Text, depth, [LT] + [BANG], Bang, depth, DASH);
    LeadsByte(Text, depth, [LT] + [BANG] + [DASH], BangDash, depth, DASH);
    RemarkLeads(text, depth);
    var k := TrailingDashes(text);
    LeadsThrough(Text, depth, open, Comment(0), depth, text, Comment(k), depth);
    LeadsByte(Text, depth, open + text, Comment(k), depth, DASH);
    var k' := if k == 0 then 1 else 2;
    LeadsByte(Text, depth, open + text + [DASH], Comment(k'), depth, DASH);
    LeadsByte(Text, depth, open + text + [DASH] + [DASH], Comment(2), depth, GT);
  }

  lemma PrintedInstructionLeads(text: seq<byte>, depth: int)
    requires WellFormedNode(Instruction(text))
    ensures Leads(Text, depth, Print(Instruction(text)), Text, depth)
  {
    assert Leads(Text, depth, [LT], Lt, depth);
    LeadsByte(Text, depth, [LT], Lt, depth, QUERY);
    InstructionLeads(text, depth);
    var q := Pi(|text| > 0 && text[|text| - 1] == QUERY);
    LeadsThrough(Text, depth, [LT] + [QUERY], Pi(false), depth, text, q, depth);
    LeadsByte(Text, depth, [LT] + [QUERY] + text, q, depth, QUERY);
    LeadsByte(Text, depth, [LT] + [QUERY] + text + [QUERY], Pi(true), depth, GT);
  }

  // ---------- trees ----------

  /** Inside an element, a printed node leads back to where it began. */
  lemma {:induction false} NodeLeads(node: Node, depth: int)
    requires WellFormedNode(node) && depth >= 1
    ensures Leads(Text, depth, Print(node), Text, depth)
    decreases node
  {
    match node
    case Chars(text) => Stays(Text, depth, text);
    case Remark(text) => PrintedRemarkLeads(text, depth);
    case Instruction(text) => PrintedInstructionLeads(text, depth);
    case Empty(name, attributes, space) =>
      var head := PrintHead(name, attributes, space);
      HeadLeads(name, attributes, space, depth);
      LeadsByte(Text, depth, head, Tag(false), depth, SLASH);
      LeadsByte(Text, depth, head + [SLASH], Tag(true), depth, GT);
    case Element(name, attributes, space, children, closeSpace) =>
      BodyLeads(node, depth);
      LeadsByte(Text, depth, PrintBody(node), Close, depth + 1, GT);
      assert PrintBody(node) + [GT] == Print(node);
  }

  /** An element up to its last '>'. */
  function PrintBody(node: Node): seq<byte>
    requires node.Element?
  {
    PrintHead(node.name, node.attributes, node.space) + [GT] + PrintAll(node.children) + ([LT] + [SLASH] + (node.name + node.closeSpace))
  }

  lemma {:induction false} BodyLeads(node: Node, depth: int)
    requires node.Element? && WellFormedNode(node) && depth >= 0
    ensures Leads(Text, depth, PrintBody(node), Close, depth + 1)
    decreases node, 0
  {
    var head := PrintHead(node.name, node.attributes, node.space);
    HeadLeads(node.name, node.attributes, node.space, depth);
    LeadsByte(Text, depth, head, Tag(false), depth, GT);
    NodesLead(node.children, depth + 1);
    LeadsThrough(Text, depth, head + [GT], Text, depth + 1, PrintAll(node.children), Text, depth + 1);
    CloseLeads(node.name, node.closeSpace, depth + 1);
    LeadsThrough(Text, depth, head + [GT] + PrintAll(node.children), Text, depth + 1,
                 [LT] + [SLASH] + (node.name + node.closeSpace), Close, depth + 1);
  }

  lemma {:induction false} NodesLead(nodes: seq<Node>, depth: int)
    requires (forall c :: c in nodes ==> WellFormedNode(c)) && depth >= 1
    ensures Leads(Text, depth, PrintAll(nodes), Text, depth)
    decreases nodes
  {
    if |nodes| == 0 {
    } else {
      NodeLeads(nodes[0], depth);
      NodesLead(nodes[1..], depth);
      LeadsThrough(Text, depth, Print(nodes[0]), Text, depth, PrintAll(nodes[1..]), Text, depth);
    }
  }

  /** A run that begins with '<' in character data at depth 0 is the beginning of a message. */
  lemma MessageBegins(bytes: seq<byte>, mode: Mode, depth: int)
    requires |bytes| > 0 && bytes[0] == LT && Leads(Text, 0, bytes, mode, depth)
    ensures Feed(Idle, bytes) == Fed(Inside(mode, depth, bytes), [])
  {
    var rest := bytes[1..];
    LeadsIsFeed(Lt, 0, [LT], rest, mode, depth);
    FeedOne(Idle, [], LT);
    FeedAppend(Idle, [LT], rest);
    assert [] + [LT] == [LT] && [LT] + rest == bytes;
  }

  lemma EmptyIsMessage(node: Node)
    requires node.Empty? && WellFormedNode(node)
    ensures Feed(Idle, Print(node)) == Fed(Idle, [Print(node)])
  {
    var head := PrintHead(node.name, node.attributes, node.space);
    var body := head + [SLASH];
    HeadLeads(node.name, node.attributes, node.space, 0);
    LeadsByte(Text, 0, head, Tag(false), 0, SLASH);
    assert body[0] == head[0] == LT;
    MessageBegins(body, Tag(true), 0);
    FeedOne(Idle, body, GT);
  }

  lemma NestedIsMessage(node: Node)
    requires node.Element? && WellFormedNode(node)
    ensures Feed(Idle, Print(node)) == Fed(Idle, [Print(node)])
  {
    var body := PrintBody(node);
    BodyLeads(node, 0);
    BodyBegins(node);
    MessageBegins(body, Close, 1);
    FeedOne(Idle, body, GT);
  }

  lemma BodyBegins(node: Node)
    requires node.Element?
    ensures |PrintBody(node)| > 0 && PrintBody(node)[0] == LT && PrintBody(node) + [GT] == Print(node)
  {
  }

  /** A printed element, fed between messages, is one message: itself. */
  lemma ElementIsMessage(node: Node)
    requires IsElement(node)
    ensures Feed(Idle, Print(node)) == Fed(Idle, [Print(node)])
  {
    if node.Empty? {
      EmptyIsMessage(node);
    } else {
      NestedIsMessage(node);
    }
  }

  // ---------- streams of elements ----------

  /** An element with what is sent before it. */
  datatype Item = Item(separator: seq<byte>, element: Node)

  predicate WellFormedItem(item: Item) {
    LT !in item.separator && IsElement(item.element)
  }

  function PrintItem(item: Item): seq<byte> {
    item.separator + Print(item.element)
  }

  function PrintItems(items: seq<Item>): seq<byte> {
    if |items| == 0 then [] else PrintItems(items[..|items| - 1]) + PrintItem(items[|items| - 1])
  }

  function Printed(items: seq<Item>): seq<Message> {
    seq(|items|, i requires 0 <= i < |items| => Print(items[i].element))
  }

  lemma {:induction false} SeparatorIsSkipped(bytes: seq<byte>)
    requires LT !in bytes
    ensures Feed(Idle, bytes) == Fed(Idle, [])
  {
    if |bytes| == 0 {
    } else {
      SeparatorIsSkipped(bytes[..|bytes| - 1]);
    }
  }

  lemma ItemIsMessage(item: Item)
    requires WellFormedItem(item)
    ensures Feed(Idle, PrintItem(item)) == Fed(Idle, [Print(item.element)])
  {
    SeparatorIsSkipped(item.separator);
    ElementIsMessage(item.element);
    FeedAppend(Idle, item.separator, Print(item.element));
  }

  lemma PrintedLast(items: seq<Item>)
    requires |items| > 0
    ensures Printed(items) == Printed(items[..|items| - 1]) + [Print(items[|items| - 1].element)]
  {
  }

  lemma {:induction false} ItemsAreMessages(items: seq<Item>)
    requires forall item :: item in items ==> WellFormedItem(item)
    ensures Feed(Idle, PrintItems(items)) == Fed(Idle, Printed(items))
  {
    if |items| == 0 {
    } else {
      var front, last := items[..|items| - 1], items[|items| - 1];
      ItemsAreMessages(front);
      ItemIsMessage(last);
      FeedAppend(Idle, PrintItems(front), PrintItem(last));
      PrintedLast(items);
    }
  }

  /** Framing round trip: splitting printed elements gives back exactly those, and leaves nothing. */
  lemma FramingRoundTrip(items: seq<Item>, tail: seq<byte>)
    requires (forall item :: item in items ==> WellFormedItem(item)) && LT !in tail
    ensures Messages(PrintItems(items) + tail) == Printed(items)
    ensures Remainder(PrintItems(items) + tail) == []
  {
    ItemsAreMessages(items);
    SeparatorIsSkipped(tail);
    FeedAppend(Idle, PrintItems(items), tail);
  }

  // ---------- emission is exact in time ----------

  lemma PartsOfOne<T>(a: seq<T>, b: seq<T>, x: T)
    requires a + b == [x]
    ensures a == [] || a == [x]
  {
  }

  lemma MessageNotLonger(bytes: seq<byte>, m: Message)
    requires m in Messages(bytes)
    ensures |m| <= |bytes|
  {
    MessagesAreSlices(bytes);
  }

  lemma ElementPrefixIsSilent(node: Node, part: seq<byte>)
    requires IsElement(node) && part < Print(node)
    ensures Messages(part) == []
  {
    var message := Print(node);
    var rest := message[|part|..];
    assert part + rest == message;
    FeedAppend(Idle, part, rest);
    ElementIsMessage(node);
    PartsOfOne(Messages(part), Feed(Feed(Idle, part).state, rest).messages, message);
    if Messages(part) == [message] {
      MessageNotLonger(part, message);
    }
  }

  /** No proper prefix of a printed element, with or without its separator, completes a message. */
  lemma ProperPrefixIsSilent(item: Item, prefix: seq<byte>)
    requires WellFormedItem(item) && prefix < PrintItem(item)
    ensures Messages(prefix) == []
  {
    var n := |item.separator|;
    if |prefix| <= n {
      assert prefix == item.separator[..|prefix|];
      SeparatorIsSkipped(prefix);
    } else {
      var part := prefix[n..];
      assert item.separator + part == prefix;
      assert part == Print(item.element)[..|part|];
      SeparatorIsSkipped(item.separator);
      ElementPrefixIsSilent(item.element, part);
      FeedAppend(Idle, item.separator, part);
    }
  }

  lemma {:induction false} PrintItemsPrefix(items: seq<Item>, k: nat)
    requires k <= |items|
    ensures PrintItems(items[..k]) <= PrintItems(items)
    decreases |items|
  {
    if k == |items| {
      assert items[..k] == items;
    } else {
      var front := items[..|items| - 1];
      PrintItemsPrefix(front, k);
      assert front[..k] == items[..k];
    }
  }

  /** A cut inside the item after the first `k`. */
  lemma CutInside(items: seq<Item>, length: nat, k: nat)
    requires k < |items| && |PrintItems(items[..k])| <= length < |PrintItems(items[..k + 1])|
    ensures var n := |PrintItems(items[..k])|;
            && length <= |PrintItems(items)| && length - n < |PrintItem(items[k])|
            && PrintItems(items)[..length] == PrintItems(items[..k]) + PrintItem(items[k])[..length - n]
  {
    PrintItemsPrefix(items, k + 1);
    assert items[..k + 1][..k] == items[..k];
  }

  /**
   Emission is exact in time: when the first `length` bytes have arrived, the messages queued are the
   elements whose last byte is among them, however the bytes were cut into chunks.
   */
  lemma EmissionIsExact(items: seq<Item>, length: nat, k: nat)
    requires forall item :: item in items ==> WellFormedItem(item)
    requires k <= |items| && |PrintItems(items[..k])| <= length <= |PrintItems(items)|
    requires k < |items| ==> length < |PrintItems(items[..k + 1])|
    ensures Messages(PrintItems(items)[..length]) == Printed(items[..k])
  {
    var done := PrintItems(items[..k]);
    ItemsAreMessages(items[..k]);
    if k == |items| {
      assert items[..k] == items && PrintItems(items)[..length] == done;
    } else {
      CutInside(items, length, k);
      var part := PrintItem(items[k])[..length - |done|];
      ProperPrefixIsSilent(items[k], part);
      FeedAppend(Idle, done, part);
    }
  }

  /** The same for the queue of a reader that has received the chunks one by one. */
  lemma ChunkedEmissionIsExact(items: seq<Item>, chunks: seq<seq<byte>>, k: nat)
    requires forall item :: item in items ==> WellFormedItem(item)
    requires Concat(chunks) <= PrintItems(items)
    requires k <= |items| && |PrintItems(items[..k])| <= |Concat(chunks)|
    requires k < |items| ==> |Concat(chunks)| < |PrintItems(items[..k + 1])|
    ensures Threaded(chunks).0 == Printed(items[..k])
  {
    ChunkingInvariance(chunks);
    assert PrintItems(items)[..|Concat(chunks)|] == Concat(chunks);
    EmissionIsExact(items, |Concat(chunks)|, k);
  }
}
