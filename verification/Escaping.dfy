/**
 `_escape_xml` and the text command that `sendNewText` builds from it. Text is taken as its UTF-8
 bytes: every character replaced is ASCII, and no other character's encoding contains an ASCII byte.
 */
module Escaping {
  import opened Bytes
  import opened XmlStream
  import opened Framing

  const AMP: byte := 38

  const AMP_ENTITY: seq<byte> := [AMP, 97, 109, 112, 59]
  const LT_ENTITY: seq<byte> := [AMP, 108, 116, 59]
  const GT_ENTITY: seq<byte> := [AMP, 103, 116, 59]
  const QUOT_ENTITY: seq<byte> := [AMP, 113, 117, 111, 116, 59]
  const APOS_ENTITY: seq<byte> := [AMP, 97, 112, 111, 115, 59]

  /** `s.replace(old, new)` for a single byte `old`. */
  function Replace(s: seq<byte>, old': byte, new': seq<byte>): seq<byte> {
    if |s| == 0 then [] else (if s[0] == old' then new' else [s[0]]) + Replace(s[1..], old', new')
  }

  /** `_escape_xml`: five global replacements, one after the other. */
  function EscapeXml(s: seq<byte>): seq<byte> {
    var s1 := Replace(s, AMP, AMP_ENTITY);
    var s2 := Replace(s1, LT, LT_ENTITY);
    var s3 := Replace(s2, GT, GT_ENTITY);
    var s4 := Replace(s3, QUOT, QUOT_ENTITY);
    Replace(s4, APOS, APOS_ENTITY)
  }

  /** What one byte becomes. */
  function Entity(b: byte): seq<byte> {
    if b == AMP then AMP_ENTITY
    else if b == LT then LT_ENTITY
    else if b == GT then GT_ENTITY
    else if b == QUOT then QUOT_ENTITY
    else if b == APOS then APOS_ENTITY
    else [b]
  }

  /** One pass over the text. */
  function EscapeOnce(s: seq<byte>): seq<byte> {
    if |s| == 0 then [] else Entity(s[0]) + EscapeOnce(s[1..])
  }

  lemma {:induction false} ReplaceAppend(a: seq<byte>, b: seq<byte>, old': byte, new': seq<byte>)
    ensures Replace(a + b, old', new') == Replace(a, old', new') + Replace(b, old', new')
  {
    if |a| == 0 {
      assert a + b == b;
    } else {
      assert (a + b)[1..] == a[1..] + b;
      ReplaceAppend(a[1..], b, old', new');
    }
  }

  lemma {:induction false} ReplaceAbsent(s: seq<byte>, old': byte, new': seq<byte>)
    requires old' !in s
    ensures Replace(s, old', new') == s
  {
    if |s| == 0 {
    } else {
      ReplaceAbsent(s[1..], old', new');
    }
  }

  lemma EscapeAppend(a: seq<byte>, b: seq<byte>)
    ensures EscapeXml(a + b) == EscapeXml(a) + EscapeXml(b)
  {
    var a1, b1 := Replace(a, AMP, AMP_ENTITY), Replace(b, AMP, AMP_ENTITY);
    var a2, b2 := Replace(a1, LT, LT_ENTITY), Replace(b1, LT, LT_ENTITY);
    var a3, b3 := Replace(a2, GT, GT_ENTITY), Replace(b2, GT, GT_ENTITY);
    var a4, b4 := Replace(a3, QUOT, QUOT_ENTITY), Replace(b3, QUOT, QUOT_ENTITY);
    ReplaceAppend(a, b, AMP, AMP_ENTITY);
    ReplaceAppend(a1, b1, LT, LT_ENTITY);
    ReplaceAppend(a2, b2, GT, GT_ENTITY);
    ReplaceAppend(a3, b3, QUOT, QUOT_ENTITY);
    ReplaceAppend(a4, b4, APOS, APOS_ENTITY);
  }

  /** No later replacement touches what an earlier one has written. */
  lemma EscapeByte(b: byte)
    ensures EscapeXml([b]) == Entity(b)
  {
    assert forall x: byte, n: seq<byte> :: Replace([b], x, n) == if b == x then n else [b];
    if b == AMP {
      ReplaceAbsent(AMP_ENTITY, LT, LT_ENTITY);
      ReplaceAbsent(AMP_ENTITY, GT, GT_ENTITY);
      ReplaceAbsent(AMP_ENTITY, QUOT, QUOT_ENTITY);
      ReplaceAbsent(AMP_ENTITY, APOS, APOS_ENTITY);
    } else if b == LT {
      ReplaceAbsent(LT_ENTITY, GT, GT_ENTITY);
      ReplaceAbsent(LT_ENTITY, QUOT, QUOT_ENTITY);
      ReplaceAbsent(LT_ENTITY, APOS, APOS_ENTITY);
    } else if b == GT {
      ReplaceAbsent(GT_ENTITY, QUOT, QUOT_ENTITY);
      ReplaceAbsent(GT_ENTITY, APOS, APOS_ENTITY);
    } else if b == QUOT {
      ReplaceAbsent(QUOT_ENTITY, APOS, APOS_ENTITY);
    }
  }

  /** The five replacements are one pass of a byte-wise map. */
  lemma {:induction false} EscapeIsOnePass(s: seq<byte>)
    ensures EscapeXml(s) == EscapeOnce(s)
  {
    if |s| == 0 {
    } else {
      EscapeByte(s[0]);
      EscapeIsOnePass(s[1..]);
      EscapeAppend([s[0]], s[1..]);
      assert [s[0]] + s[1..] == s;
    }
  }

  /** What a parser makes of character data: the predefined entities of section 4.6 of XML 1.0. */
  function Decode(s: seq<byte>): seq<byte>
    decreases |s|
  {
    if |s| == 0 then []
    else if AMP_ENTITY <= s then [AMP] + Decode(s[5..])
    else if LT_ENTITY <= s then [LT] + Decode(s[4..])
    else if GT_ENTITY <= s then [GT] + Decode(s[4..])
    else if QUOT_ENTITY <= s then [QUOT] + Decode(s[6..])
    else if APOS_ENTITY <= s then [APOS] + Decode(s[6..])
    else [s[0]] + Decode(s[1..])
  }

  lemma NotThisEntity(e: seq<byte>, s: seq<byte>, k: nat)
    requires k < |e| && k < |s| && e[k] != s[k]
    ensures !(e <= s)
  {
  }

  lemma DecodePlain(b: byte, rest: seq<byte>)
    requires b != AMP
    ensures Decode([b] + rest) == [b] + Decode(rest)
  {
    var s := [b] + rest;
    NotThisEntity(AMP_ENTITY, s, 0);
    NotThisEntity(LT_ENTITY, s, 0);
    NotThisEntity(GT_ENTITY, s, 0);
    NotThisEntity(QUOT_ENTITY, s, 0);
    NotThisEntity(APOS_ENTITY, s, 0);
    assert s[1..] == rest;
  }

  lemma DecodeEntity(b: byte, rest: seq<byte>)
    ensures Decode(Entity(b) + rest) == [b] + Decode(rest)
  {
    var s := Entity(b) + rest;
    if Entity(b) == [b] {
      DecodePlain(b, rest);
    } else {
      assert s[|Entity(b)|..] == rest && Entity(b) <= s;
      assert s[1] == Entity(b)[1] && s[2] == Entity(b)[2];
      if b != AMP {
        NotThisEntity(AMP_ENTITY, s, if b == APOS then 2 else 1);
        if b != LT {
          NotThisEntity(LT_ENTITY, s, 1);
          if b != GT {
            NotThisEntity(GT_ENTITY, s, 1);
            if b != QUOT {
              NotThisEntity(QUOT_ENTITY, s, 1);
            }
          }
        }
      }
    }
  }

  /** Decoding undoes escaping. */
  lemma {:induction false} DecodeEscape(s: seq<byte>)
    ensures Decode(EscapeXml(s)) == s
  {
    EscapeIsOnePass(s);
    if |s| == 0 {
    } else {
      EscapeIsOnePass(s[1..]);
      DecodeEscape(s[1..]);
      DecodeEntity(s[0], EscapeOnce(s[1..]));
    }
  }

  lemma EntityIsPlain(b: byte)
    ensures forall x :: x in Entity(b) ==> x !in {LT, GT, QUOT, APOS}
  {
  }

  /** Escaped text holds no markup and no quotes. */
  lemma {:induction false} EscapedIsPlain(s: seq<byte>)
    ensures forall b :: b in EscapeXml(s) ==> b !in {LT, GT, QUOT, APOS}
  {
    EscapeIsOnePass(s);
    if |s| == 0 {
    } else {
      EscapeIsOnePass(s[1..]);
      EscapedIsPlain(s[1..]);
      EntityIsPlain(s[0]);
    }
  }

  // ---------- the command ----------

  function Code(c: char): byte
    requires c as int < 128
  {
    c as int
  }

  /** The bytes of an ASCII literal. */
  function Ascii(s: string): seq<byte>
    requires forall i :: 0 <= i < |s| ==> s[i] as int < 128
  {
    seq(|s|, i requires 0 <= i < |s| => Code(s[i]))
  }

  const VECTOR := Ascii("newTextVector")
  const ONE := Ascii("oneText")
  const DEVICE := Ascii("device")
  const NAME := Ascii("name")

  /** One text element of a command: its name and its new value. */
  datatype TextElement = TextElement(name: seq<byte>, value: seq<byte>)

  /** `<oneText name="...">...</oneText>` */
  function TextLine(e: TextElement): seq<byte> {
    Ascii("<oneText name=\"") + e.name + Ascii("\">") + EscapeXml(e.value) + Ascii("</oneText>")
  }

  /** The element lines of a command, each after the newline that joins it on. */
  function TextLines(elements: seq<TextElement>): seq<byte> {
    if |elements| == 0 then [] else Ascii("\n  ") + TextLine(elements[0]) + TextLines(elements[1..])
  }

  /** The opening tag of a command. */
  function CommandHead(device: seq<byte>, property: seq<byte>): seq<byte> {
    Ascii("<newTextVector device=\"") + device + Ascii("\" name=\"") + property + Ascii("\">")
  }

  /** What `sendNewText(prop)` sends for a whole property. */
  function NewTextCommand(device: seq<byte>, property: seq<byte>, elements: seq<TextElement>): seq<byte> {
    CommandHead(device, property) + (TextLines(elements) + Ascii("\n")) + Ascii("</newTextVector>")
  }

  /** What `sendNewText(device, property, element, text)` sends for one element. */
  function NewTextCommandForOne(device: seq<byte>, property: seq<byte>, e: TextElement): seq<byte> {
    CommandHead(device, property) + TextLine(e) + Ascii("</newTextVector>")
  }

  // ---------- the command as a tree ----------

  function Quoted(name: seq<byte>, value: seq<byte>): Attribute {
    Attribute([SPACE], name, QUOT, value)
  }

  function TextNode(e: TextElement): Node {
    Element(ONE, [Quoted(NAME, e.name)], [], [Chars(EscapeXml(e.value))], [])
  }

  function TextNodes(elements: seq<TextElement>): seq<Node> {
    if |elements| == 0 then [Chars([NEWLINE])]
    else [Chars([NEWLINE, SPACE, SPACE]), TextNode(elements[0])] + TextNodes(elements[1..])
  }

  function Vector(device: seq<byte>, property: seq<byte>, children: seq<Node>): Node {
    Element(VECTOR, [Quoted(DEVICE, device), Quoted(NAME, property)], [], children, [])
  }

  /** The literals of the command in terms of its tags and attribute names. */
  lemma LineLiterals()
    ensures Ascii("<oneText name=\"") == [LT] + ONE + ([SPACE] + NAME + [EQUALS] + [QUOT])
    ensures Ascii("\">") == [QUOT] + [GT]
    ensures Ascii("</oneText>") == [LT] + [SLASH] + ONE + [GT]
    ensures Ascii("\n") == [NEWLINE] && Ascii("\n  ") == [NEWLINE, SPACE, SPACE]
  {
  }

  lemma HeadLiterals()
    ensures Ascii("<newTextVector device=\"") == [LT] + VECTOR + ([SPACE] + DEVICE + [EQUALS] + [QUOT])
    ensures Ascii("\" name=\"") == [QUOT] + ([SPACE] + NAME + [EQUALS] + [QUOT])
    ensures Ascii("</newTextVector>") == [LT] + [SLASH] + VECTOR + [GT]
  {
  }

  lemma RegroupOne<T>(p: seq<T>, k: seq<T>, v: seq<T>, q: seq<T>, g: seq<T>)
    ensures p + (k + v + q) + g == (p + k) + v + (q + g)
  {
  }

  lemma RegroupTwo<T>(p: seq<T>, k: seq<T>, v: seq<T>, q: seq<T>, k': seq<T>, v': seq<T>, q': seq<T>, g: seq<T>)
    ensures p + ((k + v + q) + (k' + v' + q')) + g == (p + k) + v + (q + k') + v' + (q' + g)
  {
  }

  lemma PrintClosing(name: seq<byte>)
    ensures PrintClose(name, []) == [LT] + [SLASH] + name + [GT]
  {
  }

  lemma PrintTextNode(e: TextElement)
    ensures Print(TextNode(e)) == TextLine(e)
  {
    var a, key := Quoted(NAME, e.name), [SPACE] + NAME + [EQUALS] + [QUOT];
    LineLiterals();
    PrintClosing(ONE);
    RegroupOne([LT] + ONE, key, e.name, [QUOT], [GT]);
    PrintSingletons(a, Chars(EscapeXml(e.value)));
    assert PrintHead(ONE, [a], []) == [LT] + ONE + (key + e.name + [QUOT]);
  }

  lemma PrintSingletons(a: Attribute, node: Node)
    ensures PrintAttributes([a]) == PrintAttribute(a) && PrintAll([node]) == Print(node)
  {
  }

  lemma PrintVector(device: seq<byte>, property: seq<byte>, children: seq<Node>)
    ensures Print(Vector(device, property, children))
            == CommandHead(device, property) + PrintAll(children) + Ascii("</newTextVector>")
  {
    var d, p := Quoted(DEVICE, device), Quoted(NAME, property);
    var k, k' := [SPACE] + DEVICE + [EQUALS] + [QUOT], [SPACE] + NAME + [EQUALS] + [QUOT];
    LineLiterals();
    HeadLiterals();
    PrintClosing(VECTOR);
    RegroupTwo([LT] + VECTOR, k, device, [QUOT], k', property, [QUOT], [GT]);
    PrintSingletons(p, Chars([]));
    assert [d, p][1..] == [p];
    assert PrintHead(VECTOR, [d, p], []) == [LT] + VECTOR + ((k + device + [QUOT]) + (k' + property + [QUOT]));
  }

  lemma PrintTwoMore(a: Node, b: Node, rest: seq<Node>)
    ensures PrintAll([a, b] + rest) == Print(a) + (Print(b) + PrintAll(rest))
  {
  }

  lemma {:induction false} PrintTextNodes(elements: seq<TextElement>)
    ensures PrintAll(TextNodes(elements)) == TextLines(elements) + Ascii("\n")
  {
    LineLiterals();
    if |elements| == 0 {
      PrintSingletons(Quoted(NAME, []), Chars([NEWLINE]));
    } else {
      var indent, line := [NEWLINE, SPACE, SPACE], TextLine(elements[0]);
      PrintTextNodes(elements[1..]);
      PrintTextNode(elements[0]);
      PrintTwoMore(Chars(indent), TextNode(elements[0]), TextNodes(elements[1..]));
      RegroupFour(indent, line, TextLines(elements[1..]), [NEWLINE]);
    }
  }

  lemma RegroupFour<T>(a: seq<T>, b: seq<T>, c: seq<T>, d: seq<T>)
    ensures a + (b + (c + d)) == a + b + c + d
  {
  }

  lemma KeysAreNames()
    ensures IsName(VECTOR) && IsName(ONE) && IsName(DEVICE) && IsName(NAME)
  {
  }

  lemma {:induction false} TextNodesWellFormed(elements: seq<TextElement>)
    requires forall e :: e in elements ==> QUOT !in e.name
    ensures forall node :: node in TextNodes(elements) ==> WellFormedNode(node)
  {
    KeysAreNames();
    if |elements| == 0 {
    } else {
      TextNodesWellFormed(elements[1..]);
      EscapedIsPlain(elements[0].value);
    }
  }

  /**
   Whatever the text values, a text command whose names hold no double quote is framed as exactly one
   message, itself.
   */
  lemma NewTextIsOneMessage(device: seq<byte>, property: seq<byte>, elements: seq<TextElement>)
    requires QUOT !in device && QUOT !in property && forall e :: e in elements ==> QUOT !in e.name
    ensures Messages(NewTextCommand(device, property, elements)) == [NewTextCommand(device, property, elements)]
    ensures Remainder(NewTextCommand(device, property, elements)) == []
  {
    var nodes := TextNodes(elements);
    TextNodesWellFormed(elements);
    PrintTextNodes(elements);
    PrintVector(device, property, nodes);
    KeysAreNames();
    ElementIsMessage(Vector(device, property, nodes));
  }

  lemma NewTextForOneIsOneMessage(device: seq<byte>, property: seq<byte>, e: TextElement)
    requires QUOT !in device && QUOT !in property && QUOT !in e.name
    ensures Messages(NewTextCommandForOne(device, property, e)) == [NewTextCommandForOne(device, property, e)]
    ensures Remainder(NewTextCommandForOne(device, property, e)) == []
  {
    var node := TextNode(e);
    EscapedIsPlain(e.value);
    KeysAreNames();
    PrintTextNode(e);
    PrintSingletons(Quoted(NAME, []), node);
    PrintVector(device, property, [node]);
    assert WellFormedNode(node);
    ElementIsMessage(Vector(device, property, [node]));
  }
}
