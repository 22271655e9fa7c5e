/**
 The splitter of `transport.py`: it searches for whole tags, comments and processing instructions,
 and rescans an unfinished element from its '<' each time more bytes arrive. Each method is proved
 against the byte-at-a-time automaton of `XmlStream`.
 */
module Scanners {
  import opened Bytes
  import opened XmlStream

  // ---------- quoted strings ----------

  datatype Quoting = Unquoted | Quoted(quote: byte)

  /** Whether position `i` is inside a quoted string that opens at or after `from`. */
  function QuotingAt(buf: seq<byte>, from: nat, i: nat): (q: Quoting)
    requires i <= |buf|
    ensures q.Quoted? ==> IsQuote(q.quote)
  {
    if i <= from then Unquoted
    else
      var b := buf[i - 1];
      match QuotingAt(buf, from, i - 1)
      case Unquoted => if IsQuote(b) then Quoted(b) else Unquoted
      case Quoted(quote) => if b == quote then Unquoted else Quoted(quote)
  }

  /** `buf[i]` is a '>' outside the quoted strings that open at or after `from`. */
  predicate UnquotedGt(buf: seq<byte>, from: nat, i: int) {
    from <= i < |buf| && buf[i] == GT && QuotingAt(buf, from, i) == Unquoted
  }

  predicate NoGtBefore(buf: seq<byte>, from: nat, end: nat) {
    forall i :: from <= i < end ==> !UnquotedGt(buf, from, i)
  }

  /** `_find_gt`: the next '>' that is not inside a quoted string, or -1. */
  method FindGt(buf: seq<byte>, from: nat) returns (gt: int)
    ensures gt == -1 ==> NoGtBefore(buf, from, |buf|)
    ensures gt != -1 ==> gt >= 0 && UnquotedGt(buf, from, gt) && NoGtBefore(buf, from, gt)
  {
    var n := |buf|;
    var pos := from;
    while pos < n
      invariant from <= pos
      invariant pos <= n ==> QuotingAt(buf, from, pos) == Unquoted
      invariant NoGtBefore(buf, from, pos)
    {
      var c := buf[pos];
      if c == QUOT {
        pos := pos + 1;
        while pos < n && buf[pos] != QUOT
          invariant from <= pos <= n && QuotingAt(buf, from, pos) == Quoted(QUOT) && NoGtBefore(buf, from, pos)
        {
          pos := pos + 1;
        }
        if pos >= n {
          return -1;
        }
      } else if c == APOS {
        pos := pos + 1;
        while pos < n && buf[pos] != APOS
          invariant from <= pos <= n && QuotingAt(buf, from, pos) == Quoted(APOS) && NoGtBefore(buf, from, pos)
        {
          pos := pos + 1;
        }
        if pos >= n {
          return -1;
        }
      } else if c == GT {
        return pos;
      }
      pos := pos + 1;
    }
    return -1;
  }

  /** `_find_tag_gt`: as FindGt, and whether the tag closes itself. */
  method FindTagGt(buf: seq<byte>, from: nat) returns (gt: int, selfClosing: bool)
    ensures gt == -1 ==> NoGtBefore(buf, from, |buf|) && !selfClosing
    ensures gt != -1 ==> gt >= 0 && UnquotedGt(buf, from, gt) && NoGtBefore(buf, from, gt)
    ensures gt != -1 ==> (selfClosing <==> gt > from && buf[gt - 1] == SLASH)
  {
    var n := |buf|;
    var pos := from;
    while pos < n
      invariant from <= pos
      invariant pos <= n ==> QuotingAt(buf, from, pos) == Unquoted
      invariant NoGtBefore(buf, from, pos)
      invariant from < pos < n && buf[pos - 1] == SLASH ==> buf[pos] != GT
    {
      var c := buf[pos];
      if c == QUOT {
        pos := pos + 1;
        while pos < n && buf[pos] != QUOT
          invariant from <= pos <= n && QuotingAt(buf, from, pos) == Quoted(QUOT) && NoGtBefore(buf, from, pos)
        {
          pos := pos + 1;
        }
        if pos >= n {
          return -1, false;
        }
      } else if c == APOS {
        pos := pos + 1;
        while pos < n && buf[pos] != APOS
          invariant from <= pos <= n && QuotingAt(buf, from, pos) == Quoted(APOS) && NoGtBefore(buf, from, pos)
        {
          pos := pos + 1;
        }
        if pos >= n {
          return -1, false;
        }
      } else if c == SLASH && pos + 1 < n && buf[pos + 1] == GT {
        return pos + 1, true;
      } else if c == GT {
        return pos, false;
      }
      pos := pos + 1;
    }
    return -1, false;
  }

  // ---------- what the automaton does over a whole tag, comment or instruction ----------

  /** The automaton inside the element that begins at some position, before or after its end. */
  datatype Scan = Going(mode: Mode, depth: int) | Over

  /** What the automaton makes of `buf[start..pos]`, starting in character data at depth 0. */
  function ScanTo(buf: seq<byte>, start: nat, pos: nat): Scan
    requires pos <= |buf|
  {
    if pos <= start then Going(Text, 0)
    else
      match ScanTo(buf, start, pos - 1)
      case Over => Over
      case Going(mode, depth) =>
        match Advance(mode, depth, buf[pos - 1])
        case Goto(m, d) => Going(m, d)
        case Complete => Over
  }

  /** The automaton is in `mode` at `pos`, with nothing completed since `start`. */
  predicate InMode(buf: seq<byte>, start: nat, pos: nat, mode: Mode, depth: int) {
    start <= pos <= |buf| && ScanTo(buf, start, pos) == Going(mode, depth)
  }

  /** As InMode, between tags. */
  predicate At(buf: seq<byte>, start: nat, pos: nat, depth: int) {
    InMode(buf, start, pos, Text, depth)
  }

  /** The element that begins at `start` ends just before `end`. */
  predicate Ends(buf: seq<byte>, start: nat, end: nat) {
    start < end <= |buf| && ScanTo(buf, start, end - 1).Going? && ScanTo(buf, start, end).Over?
  }

  /** The buffer stops before the element that begins at `start` does. */
  predicate Unfinished(buf: seq<byte>, start: nat) {
    start < |buf| && ScanTo(buf, start, |buf|).Going?
  }

  lemma ModeStep(buf: seq<byte>, start: nat, pos: nat, mode: Mode, depth: int)
    requires InMode(buf, start, pos, mode, depth) && pos < |buf|
    ensures match Advance(mode, depth, buf[pos])
            case Goto(m, d) => InMode(buf, start, pos + 1, m, d)
            case Complete => Ends(buf, start, pos + 1)
  {
  }

  /** The mode of a closing tag, given the quoting so far. */
  function CloseMode(q: Quoting): Mode {
    if q == Unquoted then Close else CloseQuoted(q.quote)
  }

  lemma {:induction false} CloseTagPrefix(buf: seq<byte>, start: nat, from: nat, i: nat, depth: int)
    requires InMode(buf, start, from, Close, depth)
    requires from <= i <= |buf| && NoGtBefore(buf, from, i)
    ensures InMode(buf, start, i, CloseMode(QuotingAt(buf, from, i)), depth)
  {
    if i == from {
    } else {
      CloseTagPrefix(buf, start, from, i - 1, depth);
      ModeStep(buf, start, i - 1, CloseMode(QuotingAt(buf, from, i - 1)), depth);
      assert !UnquotedGt(buf, from, i - 1);
    }
  }

  lemma CloseTag(buf: seq<byte>, start: nat, pos: nat, depth: int, gt: int)
    requires At(buf, start, pos, depth) && StartsAt(buf, pos, CLOSE_OPEN)
    requires gt == -1 ==> NoGtBefore(buf, pos + 2, |buf|)
    requires gt != -1 ==> gt >= 0 && UnquotedGt(buf, pos + 2, gt) && NoGtBefore(buf, pos + 2, gt)
    ensures gt == -1 ==> Unfinished(buf, start)
    ensures gt != -1 && depth == 1 ==> Ends(buf, start, gt + 1)
    ensures gt != -1 && depth != 1 ==> At(buf, start, gt + 1, depth - 1)
  {
    StartsAtTwo(buf, pos, CLOSE_OPEN);
    ModeStep(buf, start, pos, Text, depth);
    ModeStep(buf, start, pos + 1, Lt, depth);
    var end: nat := if gt == -1 then |buf| else gt;
    CloseTagPrefix(buf, start, pos + 2, end, depth);
    if gt != -1 {
      ModeStep(buf, start, gt, Close, depth);
    }
  }

  /** What an opening tag looks like after the '<' at `lt`: not a comment, an instruction or a closing tag. */
  predicate OpensTag(buf: seq<byte>, lt: nat) {
    lt < |buf| && buf[lt] == LT && !StartsAt(buf, lt, COMMENT_OPEN) && !StartsAt(buf, lt, PI_OPEN) && !StartsAt(buf, lt, CLOSE_OPEN)
  }

  /** The mode at `i` of an opening tag whose '<' is at `lt`, when its '>' is not before `i`. */
  function OpenMode(buf: seq<byte>, lt: nat, i: nat): Mode
    requires lt < i <= |buf|
  {
    if i == lt + 1 then Lt
    else if i == lt + 2 && buf[lt + 1] == BANG then Bang
    else if i == lt + 3 && buf[lt + 1] == BANG && buf[lt + 2] == DASH then BangDash
    else match QuotingAt(buf, lt + 1, i)
         case Unquoted => Tag(buf[i - 1] == SLASH)
         case Quoted(quote) => TagQuoted(quote)
  }

  lemma {:induction false} OpenTagPrefix(buf: seq<byte>, start: nat, lt: nat, i: nat, depth: int)
    requires OpensTag(buf, lt) && InMode(buf, start, lt + 1, Lt, depth)
    requires lt < i <= |buf| && NoGtBefore(buf, lt + 1, i)
    ensures InMode(buf, start, i, OpenMode(buf, lt, i), depth)
  {
    if i == lt + 1 {
    } else {
      OpenTagPrefix(buf, start, lt, i - 1, depth);
      ModeStep(buf, start, i - 1, OpenMode(buf, lt, i - 1), depth);
      assert !UnquotedGt(buf, lt + 1, i - 1);
      OpensTagBytes(buf, lt);
      EarlyQuoting(buf, lt);
    }
  }

  lemma OpensTagBytes(buf: seq<byte>, lt: nat)
    requires OpensTag(buf, lt)
    ensures lt + 1 < |buf| ==> buf[lt + 1] != QUERY && buf[lt + 1] != SLASH
    ensures lt + 3 < |buf| ==> !(buf[lt + 1] == BANG && buf[lt + 2] == DASH && buf[lt + 3] == DASH)
  {
  }

  /** The first bytes of a tag that might still become a comment open no quoted string. */
  lemma EarlyQuoting(buf: seq<byte>, lt: nat)
    ensures lt + 1 <= |buf| ==> QuotingAt(buf, lt + 1, lt + 1) == Unquoted
    ensures lt + 1 < |buf| && buf[lt + 1] == BANG ==> QuotingAt(buf, lt + 1, lt + 2) == Unquoted
    ensures lt + 2 < |buf| && buf[lt + 1] == BANG && buf[lt + 2] == DASH ==> QuotingAt(buf, lt + 1, lt + 3) == Unquoted
  {
  }

  lemma OpenTag(buf: seq<byte>, start: nat, pos: nat, depth: int, gt: int, selfClosing: bool)
    requires At(buf, start, pos, depth) && OpensTag(buf, pos)
    requires gt == -1 ==> NoGtBefore(buf, pos + 1, |buf|)
    requires gt != -1 ==> gt >= 0 && UnquotedGt(buf, pos + 1, gt) && NoGtBefore(buf, pos + 1, gt)
    requires gt != -1 ==> (selfClosing <==> gt > pos + 1 && buf[gt - 1] == SLASH)
    ensures gt == -1 ==> Unfinished(buf, start)
    ensures gt != -1 && selfClosing && depth == 0 ==> Ends(buf, start, gt + 1)
    ensures gt != -1 && selfClosing && depth != 0 ==> At(buf, start, gt + 1, depth)
    ensures gt != -1 && !selfClosing ==> At(buf, start, gt + 1, depth + 1)
  {
    ModeStep(buf, start, pos, Text, depth);
    var end: nat := if gt == -1 then |buf| else gt;
    OpenTagPrefix(buf, start, pos, end, depth);
    if gt != -1 {
      ModeStep(buf, start, gt, OpenMode(buf, pos, gt), depth);
    }
  }

  /** The mode at `i` of a comment whose text begins at `from`, when its end is not before `i`. */
  function CommentMode(buf: seq<byte>, from: nat, i: nat): Mode
    requires from <= i <= |buf|
  {
    if i == from || buf[i - 1] != DASH then Comment(0)
    else if i == from + 1 || buf[i - 2] != DASH then Comment(1)
    else Comment(2)
  }

  lemma {:induction false} CommentPrefix(buf: seq<byte>, start: nat, from: nat, i: nat, depth: int)
    requires InMode(buf, start, from, Comment(0), depth)
    requires from <= i <= |buf| && forall j: nat :: from <= j && j + 3 <= i ==> !StartsAt(buf, j, COMMENT_CLOSE)
    ensures InMode(buf, start, i, CommentMode(buf, from, i), depth)
  {
    if i == from {
    } else {
      CommentPrefix(buf, start, from, i - 1, depth);
      ModeStep(buf, start, i - 1, CommentMode(buf, from, i - 1), depth);
      if i >= from + 3 {
        StartsAtThree(buf, i - 3, COMMENT_CLOSE);
      }
    }
  }

  lemma CommentSkip(buf: seq<byte>, start: nat, pos: nat, depth: int, end: int)
    requires At(buf, start, pos, depth) && StartsAt(buf, pos, COMMENT_OPEN)
    requires end == Find(buf, COMMENT_CLOSE, pos + 4)
    ensures end == -1 ==> Unfinished(buf, start)
    ensures end != -1 ==> At(buf, start, end + 3, depth)
  {
    StartsAtFour(buf, pos, COMMENT_OPEN);
    ModeStep(buf, start, pos, Text, depth);
    ModeStep(buf, start, pos + 1, Lt, depth);
    ModeStep(buf, start, pos + 2, Bang, depth);
    ModeStep(buf, start, pos + 3, BangDash, depth);
    if end == -1 {
      CommentPrefix(buf, start, pos + 4, |buf|, depth);
    } else {
      StartsAtThree(buf, end, COMMENT_CLOSE);
      CommentPrefix(buf, start, pos + 4, end + 2, depth);
      ModeStep(buf, start, end + 2, Comment(2), depth);
    }
  }

  lemma {:induction false} PiPrefix(buf: seq<byte>, start: nat, from: nat, i: nat, depth: int)
    requires InMode(buf, start, from, Pi(false), depth)
    requires from <= i <= |buf| && forall j: nat :: from <= j && j + 2 <= i ==> !StartsAt(buf, j, PI_CLOSE)
    ensures InMode(buf, start, i, Pi(i > from && buf[i - 1] == QUERY), depth)
  {
    if i == from {
    } else {
      PiPrefix(buf, start, from, i - 1, depth);
      ModeStep(buf, start, i - 1, Pi(i - 1 > from && buf[i - 2] == QUERY), depth);
      if i >= from + 2 {
        StartsAtTwo(buf, i - 2, PI_CLOSE);
      }
    }
  }

  lemma PiSkip(buf: seq<byte>, start: nat, pos: nat, depth: int, end: int)
    requires At(buf, start, pos, depth) && StartsAt(buf, pos, PI_OPEN)
    requires end == Find(buf, PI_CLOSE, pos + 2)
    ensures end == -1 ==> Unfinished(buf, start)
    ensures end != -1 ==> At(buf, start, end + 2, depth)
  {
    StartsAtTwo(buf, pos, PI_OPEN);
    ModeStep(buf, start, pos, Text, depth);
    ModeStep(buf, start, pos + 1, Lt, depth);
    if end == -1 {
      PiPrefix(buf, start, pos + 2, |buf|, depth);
    } else {
      StartsAtTwo(buf, end, PI_CLOSE);
      PiPrefix(buf, start, pos + 2, end + 1, depth);
      ModeStep(buf, start, end + 1, Pi(true), depth);
    }
  }

  // ---------- one element ----------

  /**
   The first loop of `_find_element_end`: derives the depth again up to `scanFrom`, or finds the end.
   An unfinished comment or instruction sends it to the end of the buffer; an unfinished tag stops it.
   */
  method Rescan(buf: seq<byte>, start: nat, scanFrom: int) returns (p: nat, depth: int, complete: bool)
    requires start < |buf| && buf[start] == LT
    ensures complete ==> Ends(buf, start, p)
    ensures !complete ==> start <= p <= |buf| && (At(buf, start, p, depth) || (p == |buf| && Unfinished(buf, start)))
  {
    var n := |buf|;
    depth, p := 0, start;
    while p < scanFrom && p < n
      invariant start <= p <= n
      invariant At(buf, start, p, depth) || (p == n && Unfinished(buf, start))
      decreases n - p
    {
      if buf[p] != LT {
        ModeStep(buf, start, p, Text, depth);
        p := p + 1;
        continue;
      }
      if StartsAt(buf, p, COMMENT_OPEN) {
        var e := Find(buf, COMMENT_CLOSE, p + 4);
        CommentSkip(buf, start, p, depth, e);
        p := if e != -1 then e + 3 else n;
        continue;
      }
      if StartsAt(buf, p, PI_OPEN) {
        var e := Find(buf, PI_CLOSE, p + 2);
        PiSkip(buf, start, p, depth, e);
        p := if e != -1 then e + 2 else n;
        continue;
      }
      if StartsAt(buf, p, CLOSE_OPEN) {
        var gt := FindGt(buf, p + 2);
        CloseTag(buf, start, p, depth, gt);
        if gt == -1 {
          break;
        }
        depth := depth - 1;
        p := gt + 1;
        if depth == 0 {
          return p, depth, true;
        }
        continue;
      }
      var gt, selfClosing := FindTagGt(buf, p + 1);
      OpenTag(buf, start, p, depth, gt, selfClosing);
      if gt == -1 {
        break;
      }
      if selfClosing {
        if depth == 0 {
          return gt + 1, depth, true;
        }
      } else {
        depth := depth + 1;
      }
      p := gt + 1;
    }
    complete := false;
  }

  /**
   `_find_element_end`, for any `scanFrom`: the end of the element at `start` if the buffer holds it,
   and otherwise how far the scan got.
   */
  method FindElementEnd(buf: seq<byte>, start: nat, scanFrom: int) returns (end: nat, complete: bool)
    requires start < |buf| && buf[start] == LT
    ensures complete ==> Ends(buf, start, end)
    ensures !complete ==> Unfinished(buf, start) && start <= end <= |buf|
  {
    var n := |buf|;
    var depth := 0;
    var pos := start;
    if scanFrom > start + 1 {
      pos, depth, complete := Rescan(buf, start, scanFrom);
      if complete {
        return pos, true;
      }
    }
    while pos < n
      invariant start <= pos <= n
      invariant At(buf, start, pos, depth) || (pos == n && Unfinished(buf, start))
    {
      if buf[pos] != LT {
        ModeStep(buf, start, pos, Text, depth);
        pos := pos + 1;
        continue;
      }
      if StartsAt(buf, pos, COMMENT_OPEN) {
        var e := Find(buf, COMMENT_CLOSE, pos + 4);
        CommentSkip(buf, start, pos, depth, e);
        if e == -1 {
          return pos, false;
        }
        pos := e + 3;
        continue;
      }
      if StartsAt(buf, pos, PI_OPEN) {
        var e := Find(buf, PI_CLOSE, pos + 2);
        PiSkip(buf, start, pos, depth, e);
        if e == -1 {
          return pos, false;
        }
        pos := e + 2;
        continue;
      }
      if StartsAt(buf, pos, CLOSE_OPEN) {
        var gt := FindGt(buf, pos + 2);
        CloseTag(buf, start, pos, depth, gt);
        if gt == -1 {
          return pos, false;
        }
        depth := depth - 1;
        pos := gt + 1;
        if depth == 0 {
          return pos, true;
        }
        continue;
      }
      var gt, selfClosing := FindTagGt(buf, pos + 1);
      OpenTag(buf, start, pos, depth, gt, selfClosing);
      if gt == -1 {
        return pos, false;
      }
      if selfClosing {
        if depth == 0 {
          return gt + 1, true;
        }
        pos := gt + 1;
      } else {
        depth := depth + 1;
        pos := gt + 1;
      }
    }
    return pos, false;
  }
}
