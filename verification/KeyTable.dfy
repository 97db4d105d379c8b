/** What a terminal sends for each key, and that the parser reads it back. */
module KeyTable {
  import opened Bytes
  import opened KeyParser

  /** What one press sends: a byte, or `ESC [`, parameters and a last byte. */
  datatype Press = One(b: byte) | Sequence(params: Chunk, last: byte)

  function BytesOf(press: Press): Chunk {
    match press
    case One(b) => [b]
    case Sequence(params, last) => [0x1b, 0x5b] + params + [last]
  }

  /** Digits and semicolons are parameters, and nothing else. */
  predicate ParameterByte(b: byte) {
    b == 0x3b || b in {0x30, 0x31, 0x32, 0x33, 0x34, 0x35, 0x36, 0x37, 0x38, 0x39}
  }

  predicate WellFormed(press: Press) {
    press.Sequence? ==> (forall b :: b in press.params ==> ParameterByte(b)) && !ParameterByte(press.last)
  }

  /** The key a byte stands for. */
  predicate ByteGives(b: byte, key: Key) {
    && (key == Escape <==> b == 0x1b)
    && (key == Backspace <==> b == 0x7f || b == 0x08)
    && (key == Enter <==> b == 0x0a || b == 0x0d)
    && (b !in {0x1b, 0x7f, 0x08, 0x0a, 0x0d} ==> key == Char(b))
  }

  /** The key a sequence stands for: cursor keys by their last byte, the others by number; any other is none. */
  predicate SequenceGives(params: Chunk, last: byte, keys: seq<Key>) {
    var numbered := last == 0x7e;
    && (keys == [Up] <==> last == 0x41)
    && (keys == [Down] <==> last == 0x42)
    && (keys == [Home] <==> last == 0x48 || (numbered && (params == [0x31] || params == [0x37])))
    && (keys == [End] <==> last == 0x46 || (numbered && (params == [0x34] || params == [0x38])))
    && (keys == [PgUp] <==> numbered && params == [0x35])
    && (keys == [PgDn] <==> numbered && params == [0x36])
    && (keys == [] || keys in {[Up], [Down], [Home], [End], [PgUp], [PgDn]})
  }

  predicate Gives(press: Press, keys: seq<Key>) {
    match press
    case One(b) => |keys| == 1 && ByteGives(b, keys[0])
    case Sequence(params, last) => SequenceGives(params, last, keys)
  }

  function Sent(presses: seq<Press>): Chunk
    decreases presses
  {
    if presses == [] then [] else BytesOf(presses[0]) + Sent(presses[1..])
  }

  function Flat(keys: seq<seq<Key>>): seq<Key>
    decreases keys
  {
    if keys == [] then [] else keys[0] + Flat(keys[1..])
  }

  /** No lone ESC is followed by a lone bracket, which no terminal could tell from a sequence. */
  ghost predicate Tellable(presses: seq<Press>) {
    forall k :: 0 < k < |presses| ==> !(presses[k - 1] == One(0x1b) && presses[k] == One(0x5b))
  }

  lemma {:induction false} ParamsFeed(accum: Chunk, params: Chunk, rest: Chunk)
    requires forall b :: b in params ==> ParameterByte(b)
    ensures Feed(Csi(accum), params + rest) == Feed(Csi(accum + params), rest)
    decreases params
  {
    if params == [] {
      assert params + rest == rest && accum + params == accum;
    } else {
      hide Feed;
      var b, more := params[0], params[1..];
      assert (params + rest)[0] == b && (params + rest)[1..] == more + rest;
      FeedFirst(Csi(accum), params + rest);
      ParamsFeed(accum + [b], more, rest);
      assert Step(Csi(accum), b) == Parsed(Csi(accum + [b]), []) by { assert b in params; }
      var p := Feed(Csi(accum + [b]), more + rest);
      assert [] + p.keys == p.keys && accum + [b] + more == accum + params;
    }
  }

  lemma SequenceReads(params: Chunk, last: byte, rest: Chunk, keys: seq<Key>)
    requires WellFormed(Sequence(params, last)) && SequenceGives(params, last, keys)
    ensures
      var p := Read(Normal, rest);
      Read(Normal, BytesOf(Sequence(params, last)) + rest) == Parsed(p.state, keys + p.keys)
  {
    assert BytesOf(Sequence(params, last)) + rest == [ESC, BRACKET] + (params + ([last] + rest));
    hide Feed, SequenceGives, WellFormed;
    SequenceOpens(params + ([last] + rest));
    SequenceFeeds(params, last, rest, keys);
    KeysThen(keys, Feed(Normal, rest));
  }

  lemma KeysThen(keys: seq<Key>, q: Parsed)
    ensures keys + q.keys + [Escape] == keys + (q.keys + [Escape])
  {
  }

  lemma SequenceOpens(y: Chunk)
    ensures Feed(Normal, [ESC, BRACKET] + y) == Feed(Csi([]), y)
  {
    var x := [ESC, BRACKET] + y;
    assert x[1..] == [BRACKET] + y && x[1..][1..] == y;
    hide Feed;
    FeedFirst(Normal, x);
    FeedFirst(Pressed, x[1..]);
    var p := Feed(Csi([]), y);
    assert [] + p.keys == p.keys;
  }

  lemma SequenceFeeds(params: Chunk, last: byte, rest: Chunk, keys: seq<Key>)
    requires WellFormed(Sequence(params, last)) && SequenceGives(params, last, keys)
    ensures
      var q := Feed(Normal, rest);
      Feed(Csi([]), params + ([last] + rest)) == Parsed(q.state, keys + q.keys)
  {
    FinalGives(params, last, keys);
    hide Feed, Final, SequenceGives;
    ParamsFeed([], params, [last] + rest);
    assert [] + params == params && ([last] + rest)[1..] == rest;
    FeedFirst(Csi(params), [last] + rest);
  }

  lemma FinalGives(params: Chunk, last: byte, keys: seq<Key>)
    requires SequenceGives(params, last, keys)
    ensures Final(params, last) == keys
  {
  }

  lemma ByteFeeds(b: byte, rest: Chunk, key: Key)
    requires ByteGives(b, key) && (b == ESC ==> rest == [] || rest[0] != BRACKET)
    ensures Read(Normal, [b] + rest) == Parsed(Read(Normal, rest).state, [key] + Read(Normal, rest).keys)
  {
    var x := [b] + rest;
    assert x[1..] == rest;
    hide Feed;
    FeedFirst(Normal, x);
    EmptyFeed();
    var p := Feed(Normal, rest);
    if b == ESC {
      if rest != [] {
        PressedFeeds(rest);
      }
    }
    assert [key] + p.keys + [Escape] == [key] + (p.keys + [Escape]);
  }

  /**
   Whatever keys are pressed in whatever order, what the terminal sends for them reads back as
   those keys, as long as a lone ESC is not followed by a lone bracket.
   */
  lemma {:induction false} PressesReadBack(presses: seq<Press>, keys: seq<seq<Key>>)
    requires |keys| == |presses| && Tellable(presses)
    requires forall k :: 0 <= k < |presses| ==> WellFormed(presses[k]) && Gives(presses[k], keys[k])
    ensures Read(Normal, Sent(presses)) == Parsed(Normal, Flat(keys))
    decreases presses
  {
    if presses == [] {
      EmptyFeed();
    } else {
      hide Feed, Gives, WellFormed;
      PressesReadBack(presses[1..], keys[1..]);
      PressReads(presses, keys[0]);
    }
  }

  lemma PressReads(presses: seq<Press>, keys: seq<Key>)
    requires presses != [] && Tellable(presses) && WellFormed(presses[0]) && Gives(presses[0], keys)
    ensures
      var rest := Read(Normal, Sent(presses[1..]));
      Read(Normal, Sent(presses)) == Parsed(rest.state, keys + rest.keys)
  {
    hide Read;
    var rest := Sent(presses[1..]);
    match presses[0]
    case One(b) =>
      FirstSent(presses[1..]);
      ByteFeeds(b, rest, keys[0]);
      assert keys == [keys[0]];
    case Sequence(params, last) => SequenceReads(params, last, rest, keys);
  }

  lemma FirstSent(presses: seq<Press>)
    ensures presses != [] ==> Sent(presses) != [] && (Sent(presses)[0] == BRACKET <==> presses[0] == One(BRACKET))
    ensures presses == [] ==> Sent(presses) == []
  {
  }
}
