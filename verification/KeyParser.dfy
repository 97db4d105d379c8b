/** Bytes typed inside a tile, parsed into keys; a CSI sequence may span several reads. */
module KeyParser {
  import opened Bytes

  const ESC: byte := 0x1b
  const BRACKET: byte := 0x5b

  datatype Key =
    | Up | Down | Home | End | PgUp | PgDn
    | Escape | Enter | Backspace
    | Char(code: byte)

  /** `Pressed`: an ESC was read and the next byte decides. `Csi`: inside `ESC [`, with its parameters. */
  datatype State = Normal | Pressed | Csi(accum: Chunk)

  datatype Parsed = Parsed(state: State, keys: seq<Key>)

  function Plain(b: byte): Key {
    if b == 0x7f || b == 0x08 then Backspace
    else if b == 0x0a || b == 0x0d then Enter
    else Char(b)
  }

  predicate Parameter(b: byte) {
    0x30 <= b <= 0x39 || b == 0x3b
  }

  /** `ESC [ accum ~` */
  function Tilde(accum: Chunk): seq<Key> {
    if accum == [0x31] || accum == [0x37] then [Home]
    else if accum == [0x34] || accum == [0x38] then [End]
    else if accum == [0x35] then [PgUp]
    else if accum == [0x36] then [PgDn]
    else []
  }

  function Final(accum: Chunk, b: byte): seq<Key> {
    if b == 0x41 then [Up]
    else if b == 0x42 then [Down]
    else if b == 0x48 then [Home]
    else if b == 0x46 then [End]
    else if b == 0x7e then Tilde(accum)
    else []
  }

  function Step(state: State, b: byte): Parsed {
    match state
    case Normal => if b == ESC then Parsed(Pressed, []) else Parsed(Normal, [Plain(b)])
    case Pressed =>
      if b == BRACKET then Parsed(Csi([]), [])
      else if b == ESC then Parsed(Pressed, [Escape])
      else Parsed(Normal, [Escape, Plain(b)])
    case Csi(accum) =>
      if Parameter(b) then Parsed(Csi(accum + [b]), []) else Parsed(Normal, Final(accum, b))
  }

  /** All bytes of one read, before its end is looked at. */
  function Feed(state: State, bytes: Chunk): Parsed
    decreases bytes
  {
    if bytes == [] then Parsed(state, [])
    else
      var first := Step(state, bytes[0]);
      var rest := Feed(first.state, bytes[1..]);
      Parsed(rest.state, first.keys + rest.keys)
  }

  /** One read: a lone ESC at its end is an Escape press. */
  function Read(state: State, bytes: Chunk): Parsed {
    var p := Feed(state, bytes);
    if p.state == Pressed then Parsed(Normal, p.keys + [Escape]) else p
  }

  lemma {:induction false} FeedConcat(state: State, a: Chunk, b: Chunk)
    ensures
      var p := Feed(state, a);
      var q := Feed(p.state, b);
      Feed(state, a + b) == Parsed(q.state, p.keys + q.keys)
    decreases a
  {
    hide Step;
    if a == [] {
      assert a + b == b;
    } else {
      assert (a + b)[0] == a[0] && (a + b)[1..] == a[1..] + b;
      FeedConcat(Step(state, a[0]).state, a[1..], b);
    }
  }

  /** Reading on after a pending ESC that no bracket follows is an Escape and then the rest. */
  lemma PressedFeeds(b: Chunk)
    requires b != [] && b[0] != BRACKET
    ensures Feed(Pressed, b) == Parsed(Feed(Normal, b).state, [Escape] + Feed(Normal, b).keys)
  {
    if b[0] != ESC {
      assert [Escape, Plain(b[0])] + Feed(Normal, b[1..]).keys == [Escape] + ([Plain(b[0])] + Feed(Normal, b[1..]).keys);
    }
  }

  lemma FinalShort(accum: Chunk, b: byte)
    ensures |Final(accum, b)| <= 1
  {
  }

  /** Keys already out, then `x` read as plain bytes, never look like `x` read inside a sequence. */
  lemma {:induction false} SequenceDiffers(out: seq<Key>, accum: Chunk, x: Chunk)
    requires |out| >= 2 && out[0] == Escape
    ensures out + Read(Normal, x).keys != Read(Csi(accum), x).keys
    decreases x
  {
    if x != [] {
      var b, y := x[0], x[1..];
      assert x == [b] + y;
      if Parameter(b) {
        SequenceDiffers(out + [Plain(b)], accum + [b], y);
        ParameterReads(out, accum, b, y);
      } else if b == ESC {
        EscDiffers(out, accum, y);
      } else {
        FinalShort(accum, b);
        hide Final, Plain;
        assert |Read(Normal, x).keys| == 1 + |Read(Normal, y).keys|;
        assert |Read(Csi(accum), x).keys| <= 1 + |Read(Normal, y).keys|;
      }
    }
  }

  lemma ParameterReads(out: seq<Key>, accum: Chunk, b: byte, y: Chunk)
    requires Parameter(b)
    ensures out + Read(Normal, [b] + y).keys == (out + [Plain(b)]) + Read(Normal, y).keys
    ensures Read(Csi(accum), [b] + y).keys == Read(Csi(accum + [b]), y).keys
  {
    var x := [b] + y;
    assert x[1..] == y;
    hide Plain;
    var p := Feed(Normal, y);
    assert out + ([Plain(b)] + p.keys) == (out + [Plain(b)]) + p.keys;
    assert out + ([Plain(b)] + p.keys + [Escape]) == (out + [Plain(b)]) + (p.keys + [Escape]);
  }

  /** An ESC ends the sequence for one reading and starts one for the other. */
  lemma EscDiffers(out: seq<Key>, accum: Chunk, y: Chunk)
    requires |out| >= 2 && out[0] == Escape
    ensures out + Read(Normal, [ESC] + y).keys != Read(Csi(accum), [ESC] + y).keys
  {
    var x := [ESC] + y;
    assert x[1..] == y;
    assert Read(Csi(accum), x).keys == Read(Normal, y).keys;
    assert Read(Normal, x).keys == Read(Pressed, y).keys;
    if y != [] {
      if y[0] == BRACKET {
        assert Read(Normal, y).keys[0] == Char(BRACKET);
      } else {
        PressedFeeds(y);
      }
    }
  }

  /** Parsing `a` and then `b` is parsing them as one. */
  ghost predicate SplitsAt(state: State, a: Chunk, b: Chunk) {
    var p := Read(state, a);
    var q := Read(p.state, b);
    Read(state, a + b) == Parsed(q.state, p.keys + q.keys)
  }

  /**
   Where a read may end. Cutting the input after `a` changes nothing if and only if it does not
   separate an ESC from the `[` that follows it.
   */
  lemma SplitIff(state: State, a: Chunk, b: Chunk)
    ensures SplitsAt(state, a, b) <==> !(Feed(state, a).state == Pressed && b != [] && b[0] == BRACKET)
  {
    hide Feed;
    FeedConcat(state, a, b);
    var p := Feed(state, a);
    if p.state == Pressed {
      if b == [] {
        EmptyFeed();
        assert p.keys + [] == p.keys && p.keys + [Escape] + [] == p.keys + [Escape];
      } else if b[0] != BRACKET {
        PressedFeeds(b);
        Reassociate(p.keys, Feed(Normal, b));
      } else {
        BracketFeeds(b);
        CutSequence(p.keys, b);
      }
    } else {
      var q := Feed(p.state, b);
      assert p.keys + q.keys + [Escape] == p.keys + (q.keys + [Escape]);
    }
  }

  lemma EmptyFeed()
    ensures forall state :: Feed(state, []) == Parsed(state, [])
  {
  }

  lemma BracketFeeds(b: Chunk)
    requires b != [] && b[0] == BRACKET
    ensures Feed(Pressed, b) == Feed(Csi([]), b[1..])
  {
    hide Feed;
    var rest := Feed(Csi([]), b[1..]);
    assert Feed(Pressed, b) == Parsed(rest.state, [] + rest.keys) by { FeedFirst(Pressed, b); }
  }

  lemma FeedFirst(state: State, b: Chunk)
    requires b != []
    ensures var first := Step(state, b[0]);
      var rest := Feed(first.state, b[1..]);
      Feed(state, b) == Parsed(rest.state, first.keys + rest.keys)
  {
    hide Step;
  }

  lemma Grouped(a: seq<Key>, b: seq<Key>, c: seq<Key>)
    ensures a + (b + c) == (a + b) + c
  {
  }

  lemma Reassociate(keys: seq<Key>, q: Parsed)
    ensures keys + ([Escape] + q.keys) == (keys + [Escape]) + q.keys
    ensures keys + ([Escape] + q.keys) + [Escape] == (keys + [Escape]) + (q.keys + [Escape])
  {
  }

  lemma CutSequence(before: seq<Key>, b: Chunk)
    requires b != [] && b[0] == BRACKET
    ensures before + [Escape] + Read(Normal, b).keys != before + Read(Csi([]), b[1..]).keys
  {
    hide Feed;
    SequenceDiffers([Escape, Char(BRACKET)], [], b[1..]);
    var rest := Feed(Normal, b[1..]);
    FeedFirst(Normal, b);
    assert [Escape] + ([Char(BRACKET)] + rest.keys) == [Escape, Char(BRACKET)] + rest.keys;
    assert [Escape] + ([Char(BRACKET)] + rest.keys + [Escape]) == [Escape, Char(BRACKET)] + (rest.keys + [Escape]);
    var inside, apart := Read(Csi([]), b[1..]).keys, Read(Normal, b).keys;
    assert [Escape] + apart != inside;
    assert (before + [Escape] + apart)[|before|..] == [Escape] + apart;
    assert (before + inside)[|before|..] == inside;
  }

  /** Between reads no ESC is pending, and a read gives no more keys than bytes. */
  lemma {:induction false} KeysBounded(state: State, bytes: Chunk)
    ensures Read(state, bytes).state != Pressed
    ensures |Read(state, bytes).keys| <= |bytes| + if state == Pressed then 1 else 0
    decreases bytes
  {
    if bytes != [] {
      KeysBounded(Step(state, bytes[0]).state, bytes[1..]);
    }
  }

  class ScopeKeyParser {
    var state: State

    constructor ()
      ensures state == Normal
    {
      state := Normal;
    }

    method Parse(bytes: Chunk) returns (out: seq<Key>)
      modifies this
      ensures Read(old(state), bytes) == Parsed(state, out)
    {
      hide Feed, Final, Plain, Parameter;
      EmptyFeed();
      out := [];
      assert bytes[0..] == bytes;
      for i := 0 to |bytes|
        invariant
          var rest := Feed(state, bytes[i..]);
          Feed(old(state), bytes) == Parsed(rest.state, out + rest.keys)
      {
        var b := bytes[i];
        assert bytes[i..][1..] == bytes[i + 1..];
        ghost var before, sofar := state, out;
        FeedFirst(before, bytes[i..]);
        match state {
          case Normal =>
            if b == ESC {
              state := Pressed;
            } else {
              out := out + [Plain(b)];
            }
          case Pressed =>
            if b == BRACKET {
              state := Csi([]);
            } else if b == ESC {
              out := out + [Escape];
            } else {
              state := Normal;
              out := out + [Escape, Plain(b)];
            }
          case Csi(accum) =>
            if Parameter(b) {
              state := Csi(accum + [b]);
            } else {
              state := Normal;
              out := out + Final(accum, b);
            }
        }
        assert out == sofar + Step(before, b).keys;
        Grouped(sofar, Step(before, b).keys, Feed(state, bytes[i + 1..]).keys);
      }
      assert bytes[|bytes|..] == [];
      if state == Pressed {
        out := out + [Escape];
        state := Normal;
      }
    }
  }
}
