/** What a text command says: its markup, its quoted attribute values, and the text of its elements. */
module CommandText {
  import opened Bytes
  import opened Framing
  import opened Escaping

  /** A reader of quoted strings: what it has read outside them, with their quotes, and the strings themselves. */
  datatype Reading = Reading(quoted: bool, current: seq<byte>, outside: seq<byte>, strings: seq<seq<byte>>)

  const NOTHING_READ := Reading(false, [], [], [])

  function ReadByte(r: Reading, b: byte): Reading {
    if b == QUOT && r.quoted then Reading(false, [], r.outside + [b], r.strings + [r.current])
    else if b == QUOT then Reading(true, [], r.outside + [b], r.strings)
    else if r.quoted then r.(current := r.current + [b])
    else r.(outside := r.outside + [b])
  }

  function Read(r: Reading, bytes: seq<byte>): Reading {
    if |bytes| == 0 then r else ReadByte(Read(r, bytes[..|bytes| - 1]), bytes[|bytes| - 1])
  }

  /** After having read more outside quotes, and more strings. */
  function Plus(r: Reading, outside: seq<byte>, strings: seq<seq<byte>>): Reading {
    r.(outside := r.outside + outside, strings := r.strings + strings)
  }

  lemma {:induction false} ReadAppend(r: Reading, a: seq<byte>, b: seq<byte>)
    ensures Read(r, a + b) == Read(Read(r, a), b)
    decreases |b|
  {
    if |b| == 0 {
      assert a + b == a;
    } else {
      assert (a + b)[..|a + b| - 1] == a + b[..|b| - 1];
      ReadAppend(r, a, b[..|b| - 1]);
    }
  }

  lemma {:induction false} ReadPlain(r: Reading, bytes: seq<byte>)
    requires !r.quoted && QUOT !in bytes
    ensures Read(r, bytes) == Plus(r, bytes, [])
  {
    if |bytes| == 0 {
    } else {
      var front, b := bytes[..|bytes| - 1], bytes[|bytes| - 1];
      ReadPlain(r, front);
      assert r.outside + front + [b] == r.outside + bytes;
    }
  }

  lemma {:induction false} ReadInside(r: Reading, bytes: seq<byte>)
    requires r.quoted && QUOT !in bytes
    ensures Read(r, bytes) == r.(current := r.current + bytes)
  {
    if |bytes| == 0 {
      assert r.current + bytes == r.current;
    } else {
      var front, b := bytes[..|bytes| - 1], bytes[|bytes| - 1];
      ReadInside(r, front);
      assert r.current + front + [b] == r.current + bytes;
    }
  }

  lemma ReadOne(r: Reading, b: byte)
    ensures Read(r, [b]) == ReadByte(r, b)
  {
    assert [b][..0] == [];
  }

  lemma PlusPlus(r: Reading, a: seq<byte>, s: seq<seq<byte>>, b: seq<byte>, t: seq<seq<byte>>)
    ensures Plus(Plus(r, a, s), b, t) == Plus(r, a + b, s + t)
  {
    assert r.outside + a + b == r.outside + (a + b) && r.strings + s + t == r.strings + (s + t);
  }

  lemma ReadString(r: Reading, value: seq<byte>)
    requires !r.quoted && r.current == [] && QUOT !in value
    ensures Read(r, [QUOT] + value + [QUOT]) == Plus(r, [QUOT, QUOT], [value])
  {
    ReadOne(r, QUOT);
    ReadAppend(r, [QUOT], value);
    var r1 := Read(r, [QUOT]);
    ReadInside(r1, value);
    ReadAppend(r, [QUOT] + value, [QUOT]);
    ReadOne(Read(r1, value), QUOT);
    assert [] + value == value;
    assert r.outside + [QUOT] + [QUOT] == r.outside + [QUOT, QUOT];
  }

  /** A quoted string between two pieces of markup. */
  lemma ReadQuoted(r: Reading, before: seq<byte>, value: seq<byte>, after: seq<byte>)
    requires !r.quoted && r.current == [] && QUOT !in before && QUOT !in value && QUOT !in after
    ensures Read(r, before + ([QUOT] + value + [QUOT]) + after) == Plus(r, before + [QUOT, QUOT] + after, [value])
  {
    var middle := [QUOT] + value + [QUOT];
    ReadPlain(r, before);
    ReadString(Plus(r, before, []), value);
    ReadAppend(r, before, middle);
    PlusPlus(r, before, [], [QUOT, QUOT], [value]);
    ReadPlain(Plus(r, before + [QUOT, QUOT], [] + [value]), after);
    ReadAppend(r, before + middle, after);
    PlusPlus(r, before + [QUOT, QUOT], [] + [value], after, []);
    assert [] + [value] + [] == [value];
  }

  // ---------- the texts, as they are sent ----------

  const HEAD_MARKUP: seq<byte> := Ascii("<newTextVector device=") + [QUOT, QUOT] + Ascii(" name=") + [QUOT, QUOT] + Ascii(">")

  const LINE_MARKUP: seq<byte> := Ascii("<oneText name=")

  const END_MARKUP: seq<byte> := Ascii("</newTextVector>")

  function Names(elements: seq<TextElement>): seq<seq<byte>> {
    if |elements| == 0 then [] else [elements[0].name] + Names(elements[1..])
  }

  /** The element lines with their names taken out. */
  function NamelessLines(elements: seq<TextElement>): seq<byte> {
    if |elements| == 0 then []
    else Ascii("\n  <oneText name=") + [QUOT, QUOT] + (Ascii(">") + EscapeXml(elements[0].value) + Ascii("</oneText>")) + NamelessLines(elements[1..])
  }

  lemma HeadTexts()
    ensures Ascii("<newTextVector device=\"") == Ascii("<newTextVector device=") + [QUOT]
    ensures Ascii("\" name=\"") == [QUOT] + Ascii(" name=") + [QUOT]
    ensures Ascii("\">") == [QUOT] + Ascii(">")
    ensures QUOT !in Ascii("<newTextVector device=") && QUOT !in Ascii(" name=") && QUOT !in Ascii(">")
  {
  }

  lemma LineTexts()
    ensures Ascii("<oneText name=\"") == Ascii("<oneText name=") + [QUOT]
    ensures Ascii("\n  ") + Ascii("<oneText name=") == Ascii("\n  <oneText name=")
    ensures Ascii("\">") == [QUOT] + Ascii(">")
    ensures QUOT !in Ascii("<oneText name=") && QUOT !in Ascii("\n  <oneText name=") && QUOT !in Ascii(">")
    ensures QUOT !in Ascii("</oneText>") && QUOT !in Ascii("\n") && QUOT !in Ascii("</newTextVector>")
  {
  }

  lemma RegroupHead<T>(a: seq<T>, q: seq<T>, d: seq<T>, n: seq<T>, p: seq<T>, g: seq<T>)
    ensures (a + q) + d + (q + n + q) + p + (q + g) == (a + (q + d + q) + n) + (q + p + q) + g
  {
  }

  lemma HeadIs(device: seq<byte>, property: seq<byte>)
    ensures CommandHead(device, property)
            == (Ascii("<newTextVector device=") + ([QUOT] + device + [QUOT]) + Ascii(" name=")) + ([QUOT] + property + [QUOT]) + Ascii(">")
  {
    HeadTexts();
    RegroupHead(Ascii("<newTextVector device="), [QUOT], device, Ascii(" name="), property, Ascii(">"));
  }

  /** A quoted string and what follows it. */
  lemma ReadStringAndPlain(r: Reading, value: seq<byte>, after: seq<byte>)
    requires !r.quoted && r.current == [] && QUOT !in value && QUOT !in after
    ensures Read(r, ([QUOT] + value + [QUOT]) + after) == Plus(r, [QUOT, QUOT] + after, [value])
  {
    var middle := [QUOT] + value + [QUOT];
    ReadString(r, value);
    ReadPlain(Plus(r, [QUOT, QUOT], [value]), after);
    ReadAppend(r, middle, after);
    PlusPlus(r, [QUOT, QUOT], [value], after, []);
    assert [value] + [] == [value];
  }

  /** Two quoted strings, with markup before, between and after them. */
  lemma ReadTwo(r: Reading, a: seq<byte>, d: seq<byte>, n: seq<byte>, p: seq<byte>, g: seq<byte>)
    requires !r.quoted && r.current == [] && QUOT !in a && QUOT !in d && QUOT !in n && QUOT !in p && QUOT !in g
    ensures Read(r, (a + ([QUOT] + d + [QUOT]) + n) + (([QUOT] + p + [QUOT]) + g))
            == Plus(r, (a + [QUOT, QUOT] + n) + ([QUOT, QUOT] + g), [d] + [p])
  {
    ReadQuoted(r, a, d, n);
    ReadStringAndPlain(Plus(r, a + [QUOT, QUOT] + n, [d]), p, g);
    ReadAppend(r, a + ([QUOT] + d + [QUOT]) + n, ([QUOT] + p + [QUOT]) + g);
    PlusPlus(r, a + [QUOT, QUOT] + n, [d], [QUOT, QUOT] + g, [p]);
  }

  lemma PlusNothing(outside: seq<byte>, strings: seq<seq<byte>>)
    ensures Plus(NOTHING_READ, outside, strings) == Reading(false, [], outside, strings)
  {
    assert [] + outside == outside && [] + strings == strings;
  }

  lemma Regroup<T>(a: seq<T>, b: seq<T>, c: seq<T>)
    ensures a + b + c == a + (b + c)
  {
  }

  lemma ReadHead(device: seq<byte>, property: seq<byte>)
    requires QUOT !in device && QUOT !in property
    ensures Read(NOTHING_READ, CommandHead(device, property))
            == Reading(false, [], HEAD_MARKUP, [device, property])
  {
    HeadTexts();
    HeadIs(device, property);
    var a, n, g := Ascii("<newTextVector device="), Ascii(" name="), Ascii(">");
    ReadTwo(NOTHING_READ, a, device, n, property, g);
    PlusNothing((a + [QUOT, QUOT] + n) + ([QUOT, QUOT] + g), [device] + [property]);
    Regroup(a + ([QUOT] + device + [QUOT]) + n, [QUOT] + property + [QUOT], g);
    Regroup(a + [QUOT, QUOT] + n, [QUOT, QUOT], g);
  }

  lemma RegroupLine<T>(i: seq<T>, a: seq<T>, q: seq<T>, n: seq<T>, g: seq<T>, v: seq<T>, c: seq<T>)
    ensures i + ((a + q) + n + (q + g) + v + c) == (i + a) + (q + n + q) + (g + v + c)
  {
  }

  lemma LineIs(indent: seq<byte>, e: TextElement)
    ensures indent + TextLine(e)
            == (indent + Ascii("<oneText name=")) + ([QUOT] + e.name + [QUOT]) + (Ascii(">") + EscapeXml(e.value) + Ascii("</oneText>"))
  {
    LineTexts();
    RegroupLine(indent, Ascii("<oneText name="), [QUOT], e.name, Ascii(">"), EscapeXml(e.value), Ascii("</oneText>"));
  }

  lemma LineHasNoQuotes(indent: seq<byte>, e: TextElement)
    requires QUOT !in indent
    ensures QUOT !in indent + Ascii("<oneText name=")
    ensures QUOT !in Ascii(">") + EscapeXml(e.value) + Ascii("</oneText>")
  {
    LineTexts();
    EscapedIsPlain(e.value);
  }

  lemma ReadLine(r: Reading, indent: seq<byte>, e: TextElement)
    requires !r.quoted && r.current == [] && QUOT !in e.name && QUOT !in indent
    ensures Read(r, indent + TextLine(e))
            == Plus(r, (indent + Ascii("<oneText name=")) + [QUOT, QUOT] + (Ascii(">") + EscapeXml(e.value) + Ascii("</oneText>")), [e.name])
  {
    LineIs(indent, e);
    LineHasNoQuotes(indent, e);
    ReadQuoted(r, indent + Ascii("<oneText name="), e.name, Ascii(">") + EscapeXml(e.value) + Ascii("</oneText>"));
  }

  lemma LinesIs(elements: seq<TextElement>)
    requires |elements| > 0
    ensures TextLines(elements) == (Ascii("\n  ") + TextLine(elements[0])) + TextLines(elements[1..])
    ensures Ascii("\n  ") + Ascii("<oneText name=") == Ascii("\n  <oneText name=")
  {
    LineTexts();
  }

  lemma {:induction false} ReadLines(r: Reading, elements: seq<TextElement>)
    requires !r.quoted && r.current == [] && forall e :: e in elements ==> QUOT !in e.name
    ensures Read(r, TextLines(elements)) == Plus(r, NamelessLines(elements), Names(elements))
    decreases |elements|
  {
    if |elements| == 0 {
      assert Plus(r, [], []) == r;
    } else {
      var indent, e, rest := Ascii("\n  "), elements[0], elements[1..];
      var line := (indent + Ascii("<oneText name=")) + [QUOT, QUOT] + (Ascii(">") + EscapeXml(e.value) + Ascii("</oneText>"));
      LinesIs(elements);
      LineTexts();
      ReadLine(r, indent, e);
      ReadLines(Plus(r, line, [e.name]), rest);
      ReadAppend(r, indent + TextLine(e), TextLines(rest));
      PlusPlus(r, line, [e.name], NamelessLines(rest), Names(rest));
    }
  }

  lemma CommandIs(device: seq<byte>, property: seq<byte>, elements: seq<TextElement>)
    ensures NewTextCommand(device, property, elements)
            == CommandHead(device, property) + TextLines(elements) + (Ascii("\n") + END_MARKUP)
  {
  }

  lemma RegroupTail<T>(a: seq<T>, b: seq<T>, c: seq<T>, d: seq<T>)
    ensures a + b + (c + d) == a + b + c + d
  {
  }

  /**
   A command for a whole property says, in its quoted strings, the device, the property and the elements,
   in that order; and outside them, one escaped value an element in the markup of a newTextVector.
   */
  lemma NewTextSays(device: seq<byte>, property: seq<byte>, elements: seq<TextElement>)
    requires QUOT !in device && QUOT !in property && forall e :: e in elements ==> QUOT !in e.name
    ensures var r := Read(NOTHING_READ, NewTextCommand(device, property, elements));
            && r.strings == [device, property] + Names(elements)
            && r.outside == HEAD_MARKUP
                            + NamelessLines(elements) + Ascii("\n") + END_MARKUP
  {
    var head, lines, end := CommandHead(device, property), TextLines(elements), Ascii("\n") + END_MARKUP;
    ReadHead(device, property);
    ReadAppend(NOTHING_READ, head, lines);
    ReadLines(Read(NOTHING_READ, head), elements);
    LineTexts();
    ReadAppend(NOTHING_READ, head + lines, end);
    ReadPlain(Read(NOTHING_READ, head + lines), end);
    CommandIs(device, property, elements);
    RegroupTail(HEAD_MARKUP, NamelessLines(elements), Ascii("\n"), END_MARKUP);
  }

  /** The same for the command for one element. */
  lemma NewTextForOneSays(device: seq<byte>, property: seq<byte>, e: TextElement)
    requires QUOT !in device && QUOT !in property && QUOT !in e.name
    ensures var r := Read(NOTHING_READ, NewTextCommandForOne(device, property, e));
            && r.strings == [device, property, e.name]
            && r.outside == HEAD_MARKUP
                            + (LINE_MARKUP + [QUOT, QUOT] + (Ascii(">") + EscapeXml(e.value) + Ascii("</oneText>")))
                            + END_MARKUP
  {
    var head, line, end := CommandHead(device, property), TextLine(e), END_MARKUP;
    ReadHead(device, property);
    assert [] + line == line && [] + Ascii("<oneText name=") == Ascii("<oneText name=");
    ReadAppend(NOTHING_READ, head, line);
    ReadLine(Read(NOTHING_READ, head), [], e);
    LineTexts();
    ReadAppend(NOTHING_READ, head + line, end);
    ReadPlain(Read(NOTHING_READ, head + line), end);
    assert [device, property] + [e.name] + [] == [device, property, e.name];
  }

  /** The entities are those of section 4.6 of XML 1.0. */
  lemma EntityTexts()
    ensures EscapeXml(Ascii("&")) == Ascii("&amp;") && EscapeXml(Ascii("<")) == Ascii("&lt;") && EscapeXml(Ascii(">")) == Ascii("&gt;")
    ensures EscapeXml(Ascii("\"")) == Ascii("&quot;") && EscapeXml(Ascii("'")) == Ascii("&apos;")
  {
    EscapeByte(AMP);
    EscapeByte(LT);
    EscapeByte(GT);
    EscapeByte(QUOT);
    EscapeByte(APOS);
    assert Ascii("&") == [AMP] && Ascii("<") == [LT] && Ascii(">") == [GT] && Ascii("\"") == [QUOT] && Ascii("'") == [APOS];
    assert AMP_ENTITY == Ascii("&amp;") && LT_ENTITY == Ascii("&lt;") && GT_ENTITY == Ascii("&gt;");
    assert QUOT_ENTITY == Ascii("&quot;") && APOS_ENTITY == Ascii("&apos;");
  }
}
