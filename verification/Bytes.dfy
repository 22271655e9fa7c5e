/** Bytes, the ASCII codes the XML splitter looks at, and Python's `bytes.find` and `bytes.strip`. */
module Bytes {

  type byte = b: int | 0 <= b < 256

  const TAB: byte := 9
  const NEWLINE: byte := 10
  const RETURN: byte := 13
  const SPACE: byte := 32
  const BANG: byte := 33
  const QUOT: byte := 34
  const APOS: byte := 39
  const DASH: byte := 45
  const SLASH: byte := 47
  const LT: byte := 60
  const GT: byte := 62
  const QUERY: byte := 63

  const COMMENT_OPEN: seq<byte> := [LT, BANG, DASH, DASH]
  const COMMENT_CLOSE: seq<byte> := [DASH, DASH, GT]
  const PI_OPEN: seq<byte> := [LT, QUERY]
  const PI_CLOSE: seq<byte> := [QUERY, GT]
  const CLOSE_OPEN: seq<byte> := [LT, SLASH]

  predicate IsQuote(b: byte) {
    b == QUOT || b == APOS
  }

  /** The bytes that `bytes.strip()` removes at both ends. */
  predicate IsSpace(b: byte) {
    b == SPACE || 9 <= b <= 13
  }

  /** `buf[pos:pos + len(pattern)] == pattern`, with Python's clipping of slices. */
  predicate StartsAt(buf: seq<byte>, pos: nat, pattern: seq<byte>) {
    pos + |pattern| <= |buf| && forall k :: 0 <= k < |pattern| ==> buf[pos + k] == pattern[k]
  }

  /** `buf.find(pattern, from)`: the least index not before `from` where the pattern starts, or -1. */
  function Find(buf: seq<byte>, pattern: seq<byte>, from: nat): (r: int)
    ensures r == -1 || (from <= r && StartsAt(buf, r, pattern))
    ensures forall i: nat :: from <= i && (r == -1 || i < r) ==> !StartsAt(buf, i, pattern)
    decreases |buf| - from
  {
    if from + |pattern| > |buf| then -1
    else if StartsAt(buf, from, pattern) then from
    else Find(buf, pattern, from + 1)
  }

  /** `buf.strip()`. */
  function Strip(buf: seq<byte>): seq<byte> {
    if |buf| > 0 && IsSpace(buf[0]) then Strip(buf[1..])
    else if |buf| > 0 && IsSpace(buf[|buf| - 1]) then Strip(buf[..|buf| - 1])
    else buf
  }

  lemma StartsAtTwo(buf: seq<byte>, pos: nat, pattern: seq<byte>)
    requires |pattern| == 2
    ensures StartsAt(buf, pos, pattern) <==> pos + 2 <= |buf| && buf[pos] == pattern[0] && buf[pos + 1] == pattern[1]
  {
  }

  lemma StartsAtThree(buf: seq<byte>, pos: nat, pattern: seq<byte>)
    requires |pattern| == 3
    ensures StartsAt(buf, pos, pattern) <==>
            pos + 3 <= |buf| && buf[pos] == pattern[0] && buf[pos + 1] == pattern[1] && buf[pos + 2] == pattern[2]
  {
  }

  lemma StartsAtFour(buf: seq<byte>, pos: nat, pattern: seq<byte>)
    requires |pattern| == 4
    ensures StartsAt(buf, pos, pattern) <==>
            pos + 4 <= |buf| && buf[pos] == pattern[0] && buf[pos + 1] == pattern[1]
            && buf[pos + 2] == pattern[2] && buf[pos + 3] == pattern[3]
  {
  }

  function Concat<T>(parts: seq<seq<T>>): seq<T> {
    if |parts| == 0 then [] else Concat(parts[..|parts| - 1]) + parts[|parts| - 1]
  }
}
