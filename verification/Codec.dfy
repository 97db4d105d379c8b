/**
 Length-prefixed framing: `[u32 big-endian length][body]`, written to and read from a byte
 stream that may be cut anywhere. The serializer itself is abstract.
 */
module Codec {
  import opened Wrappers
  import opened Bytes

  const MAX_FRAME_SIZE: nat := 16 * 1024 * 1024
  const U32_LIMIT: nat := 0x1_0000_0000
  const PEEK: nat := 32

  /** `ser` may refuse a value; `de` may refuse bytes. */
  datatype Serializer<!E> = Serializer(ser: E -> Option<Chunk>, de: Chunk -> Option<E>)

  /** What was serialized reads back as the same value. */
  ghost predicate Faithful<E(!new)>(z: Serializer<E>) {
    forall e: E :: z.ser(e).Some? ==> z.de(z.ser(e).value) == Some(e)
  }

  datatype ReadError = Eof | TooLarge(len: nat) | Malformed

  datatype ReadResult<E> = Ok(value: E) | Err(error: ReadError)

  // ---- the length prefix ---------------------------------------------------------

  function U32(n: nat): (r: Chunk)
    requires n < U32_LIMIT
    ensures |r| == 4
  {
    [(n / 0x100_0000) as byte, (n / 0x1_0000 % 256) as byte, (n / 0x100 % 256) as byte, (n % 256) as byte]
  }

  function FromU32(b: Chunk): (n: nat)
    requires |b| == 4
    ensures n < U32_LIMIT
  {
    b[0] as nat * 0x100_0000 + b[1] as nat * 0x1_0000 + b[2] as nat * 0x100 + b[3] as nat
  }

  /** The prefix is the length in base 256, most significant byte first, and reads back as the length. */
  lemma U32Inverse(n: nat)
    requires n < U32_LIMIT
    ensures
      var b := U32(n);
      n == ((b[0] as nat * 256 + b[1] as nat) * 256 + b[2] as nat) * 256 + b[3] as nat
    ensures FromU32(U32(n)) == n
  {
    assert n / 0x1_0000 == n / 0x100_0000 * 256 + n / 0x1_0000 % 256;
    assert n / 0x100 == n / 0x1_0000 * 256 + n / 0x100 % 256;
    assert n == n / 0x100 * 256 + n % 256;
  }

  // ---- what a stream decodes to ----------------------------------------------------

  function Frame(body: Chunk): Chunk
    requires |body| < U32_LIMIT
  {
    U32(|body|) + body
  }

  function Drop(bytes: Chunk, n: nat): Chunk {
    if n <= |bytes| then bytes[n..] else []
  }

  /** One read: the result, and what is left of the stream. */
  function DecodeOne<E>(z: Serializer<E>, bytes: Chunk): (r: (ReadResult<E>, Chunk))
    ensures r.0.Ok? ==> |r.1| < |bytes|
  {
    if |bytes| < 4 then (Err(Eof), [])
    else
      var len := FromU32(bytes[..4]);
      if len > MAX_FRAME_SIZE then (Err(TooLarge(len)), Drop(bytes[4..], PEEK))
      else if |bytes| - 4 < len then (Err(Eof), [])
      else
        var value := z.de(bytes[4..4 + len]);
        (if value.Some? then Ok(value.value) else Err(Malformed), bytes[4 + len..])
  }

  datatype Decoded<E> = Decoded(values: seq<E>, error: ReadError, rest: Chunk)

  /** Reading until the first error. */
  function Decode<E>(z: Serializer<E>, bytes: Chunk): Decoded<E>
    decreases |bytes|
  {
    var (first, rest) := DecodeOne(z, bytes);
    match first
    case Err(error) => Decoded([], error, rest)
    case Ok(value) =>
      var more := Decode(z, rest);
      more.(values := [value] + more.values)
  }

  /** The value serializes to a body whose length fits the prefix: writing it succeeds. */
  predicate Writable<E>(z: Serializer<E>, e: E) {
    z.ser(e).Some? && |z.ser(e).value| < U32_LIMIT
  }

  function Encode<E>(z: Serializer<E>, es: seq<E>): Chunk
    requires forall e :: e in es ==> Writable(z, e)
  {
    if es == [] then []
    else
      assert Writable(z, es[0]);
      Frame(z.ser(es[0]).value) + Encode(z, es[1..])
  }

  predicate Fits<E>(z: Serializer<E>, e: E) {
    z.ser(e).Some? && |z.ser(e).value| <= 16_777_216
  }

  /**
   A written frame reads back as its value with the rest of the stream untouched if and only if
   its body is no longer than the reader's maximum, which the writer does not check.
   */
  lemma FrameReadsBack<E(!new)>(z: Serializer<E>, e: E, rest: Chunk)
    requires Faithful(z) && Writable(z, e)
    ensures DecodeOne(z, Frame(z.ser(e).value) + rest) == (Ok(e), rest) <==> Fits(z, e)
  {
    var body := z.ser(e).value;
    var bytes := Frame(body) + rest;
    U32Inverse(|body|);
    assert bytes[..4] == U32(|body|);
    assert bytes[4..] == body + rest;
    if Fits(z, e) {
      assert bytes[4..4 + |body|] == body && bytes[4 + |body|..] == rest;
    }
  }

  /**
   A frame longer than the maximum is refused under its length, with 32 bytes of what follows the
   prefix taken off the stream; one whose body means nothing costs that frame and no more of the
   stream; and of one that is cut short nothing is left.
   */
  lemma FrameErrors<E(!new)>(z: Serializer<E>, body: Chunk, rest: Chunk)
    requires |body| < U32_LIMIT
    ensures |body| > 16_777_216 ==> DecodeOne(z, Frame(body) + rest) == (Err(TooLarge(|body|)), (body + rest)[32..])
    ensures |body| <= 16_777_216 && z.de(body).None? ==> DecodeOne(z, Frame(body) + rest) == (Err(Malformed), rest)
    ensures forall p :: p < Frame(body) && (|p| < 4 || |body| <= 16_777_216) ==> DecodeOne(z, p) == (Err(Eof), [])
  {
    var bytes := Frame(body) + rest;
    U32Inverse(|body|);
    assert bytes[..4] == U32(|body|);
    assert bytes[4..] == body + rest;
    if |body| <= 16_777_216 {
      assert bytes[4..4 + |body|] == body && bytes[4 + |body|..] == rest;
    }
    forall p | p < Frame(body) && (|p| < 4 || |body| <= 16_777_216) ensures DecodeOne(z, p) == (Err(Eof), []) {
      if |p| >= 4 {
        assert p[..4] == Frame(body)[..4] == U32(|body|);
      }
    }
  }

  /** Everything written is read back, in order, and nothing is left over. */
  lemma {:induction false} StreamRoundTrip<E(!new)>(z: Serializer<E>, es: seq<E>)
    requires Faithful(z) && forall e :: e in es ==> Writable(z, e) && Fits(z, e)
    ensures Decode(z, Encode(z, es)) == Decoded(es, Eof, [])
  {
    if es != [] {
      hide DecodeOne, Frame, Fits;
      FrameReadsBack(z, es[0], Encode(z, es[1..]));
      StreamRoundTrip(z, es[1..]);
    }
  }

  /** A stream cut short inside its first frame yields nothing. */
  lemma CutFrame<E(!new)>(z: Serializer<E>, e: E, p: Chunk, rest: Chunk)
    requires Writable(z, e) && Fits(z, e)
    requires p <= Frame(z.ser(e).value) + rest && |p| < |Frame(z.ser(e).value)|
    ensures DecodeOne(z, p) == (Err(Eof), [])
  {
    var body := z.ser(e).value;
    U32Inverse(|body|);
    if |p| >= 4 {
      assert p[..4] == (Frame(body) + rest)[..4] == U32(|body|);
    }
  }

  lemma NothingDecodes<E>(z: Serializer<E>)
    ensures DecodeOne(z, []) == (Err(Eof), [])
  {
  }

  /**
   A stream cut anywhere decodes to exactly the values whose frames it holds whole, and then
   reports the end of the stream.
   */
  lemma {:induction false} PrefixDecodes<E(!new)>(z: Serializer<E>, es: seq<E>, p: Chunk) returns (k: nat)
    requires Faithful(z) && forall e :: e in es ==> Writable(z, e) && Fits(z, e)
    requires p <= Encode(z, es)
    ensures k <= |es| && Decode(z, p) == Decoded(es[..k], Eof, [])
    ensures |Encode(z, es[..k])| <= |p|
    ensures k < |es| ==> |p| < |Encode(z, es[..k + 1])|
  {
    hide DecodeOne, Frame, Fits;
    if es == [] {
      k := 0;
      NothingDecodes(z);
    } else {
      assert Writable(z, es[0]);
      var frame, rest := Frame(z.ser(es[0]).value), Encode(z, es[1..]);
      assert es[..1][1..] == [];
      if |p| < |frame| {
        k := 0;
        CutFrame(z, es[0], p, rest);
      } else {
        var q := p[|frame|..];
        assert p == frame + q;
        assert q <= rest by {
          assert (frame + rest)[|frame|..] == rest;
        }
        FrameReadsBack(z, es[0], q);
        k := PrefixDecodes(z, es[1..], q);
        assert es[..k + 1][1..] == es[1..][..k];
        assert [es[0]] + es[1..][..k] == es[..k + 1];
        if k + 1 < |es| {
          assert es[..k + 2][1..] == es[1..][..k + 1];
        }
        k := k + 1;
      }
    }
  }

  // ---- the stream ends -------------------------------------------------------------

  datatype WriteError = Unserializable | BodyTooLong

  class Writer {
    var sent: Chunk

    constructor ()
      ensures sent == []
    {
      sent := [];
    }

    /** Append one frame; on an error nothing is written. */
    method WriteEnvelope<E>(z: Serializer<E>, e: E) returns (error: Option<WriteError>)
      modifies this
      ensures error.None? <==> Writable(z, e)
      ensures error.None? ==> sent == old(sent) + Frame(z.ser(e).value)
      ensures error.Some? ==> sent == old(sent)
      ensures error == Some(Unserializable) <==> z.ser(e).None?
    {
      var body := z.ser(e);
      if body.None? {
        return Some(Unserializable);
      }
      if |body.value| >= U32_LIMIT {
        return Some(BodyTooLong);
      }
      sent := sent + U32(|body.value|);
      sent := sent + body.value;
      return None;
    }
  }

  lemma FlattenFirst(first: Chunk, rest: seq<Chunk>)
    ensures Flatten([first] + rest) == first + Flatten(rest)
  {
    FlattenConcat([first], rest);
    FlattenOne(first);
  }

  lemma NothingLeft()
    ensures Flatten([]) == []
  {
  }

  lemma CutFirst(got: Chunk, first: Chunk, want: nat, rest: Chunk)
    requires want <= |first|
    ensures got + (first + rest) == (got + first[..want]) + (first[want..] + rest)
  {
    assert first == first[..want] + first[want..];
  }

  /** One read, case by case. */
  lemma DecodeCases<E>(z: Serializer<E>, bytes: Chunk)
    ensures |bytes| < 4 ==> DecodeOne(z, bytes) == (Err(Eof), [])
    ensures |bytes| >= 4 ==>
      var len, rest := FromU32(bytes[..4]), bytes[4..];
      && (len > MAX_FRAME_SIZE ==> DecodeOne(z, bytes) == (Err(TooLarge(len)), Drop(rest, PEEK)))
      && (len <= MAX_FRAME_SIZE && |rest| < len ==> DecodeOne(z, bytes) == (Err(Eof), []))
      && (len <= MAX_FRAME_SIZE && len <= |rest| ==>
            var value := z.de(rest[..len]);
            DecodeOne(z, bytes) == (if value.Some? then Ok(value.value) else Err(Malformed), rest[len..]))
  {
    if |bytes| >= 4 {
      var len := FromU32(bytes[..4]);
      hide FromU32;
      if len <= |bytes| - 4 {
        assert bytes[4..][..len] == bytes[4..4 + len] && bytes[4..][len..] == bytes[4 + len..];
      }
    }
  }

  /** Decoding takes one read and goes on with what is left. */
  lemma DecodeNext<E>(z: Serializer<E>, bytes: Chunk, values: seq<E>)
    ensures
      var (first, rest) := DecodeOne(z, bytes);
      var all := Decode(z, bytes);
      match first
      case Err(error) => all.(values := values + all.values) == Decoded(values, error, rest)
      case Ok(value) =>
        |rest| < |bytes|
        && all.(values := values + all.values)
           == Decode(z, rest).(values := (values + [value]) + Decode(z, rest).values)
  {
    hide DecodeOne;
    var (first, rest) := DecodeOne(z, bytes);
    if first.Ok? {
      var more := Decode(z, rest).values;
      assert values + ([first.value] + more) == (values + [first.value]) + more;
    }
  }

  class Reader {
    /** What is still to arrive, cut as the transport cut it. */
    var chunks: seq<Chunk>

    constructor (chunks: seq<Chunk>)
      ensures this.chunks == chunks
    {
      this.chunks := chunks;
    }

    ghost function Rest(): Chunk
      reads this
    {
      Flatten(chunks)
    }

    /** Fill a buffer of `n` bytes from as many chunks as it takes; at the end of the stream all is consumed. */
    method ReadExact(n: nat) returns (buf: Option<Chunk>)
      modifies this
      ensures buf.Some? <==> n <= |old(Rest())|
      ensures buf.Some? ==> buf.value == old(Rest())[..n] && Rest() == old(Rest())[n..]
      ensures buf.None? ==> Rest() == []
    {
      var got: Chunk := [];
      hide Flatten;
      while |got| < n && chunks != []
        invariant |got| <= n && got + Rest() == old(Rest())
        decreases |chunks|, n - |got|
      {
        var first := chunks[0];
        FlattenFirst(first, chunks[1..]);
        assert chunks == [first] + chunks[1..];
        var want := n - |got|;
        if |first| <= want {
          assert got + (first + Flatten(chunks[1..])) == got + first + Flatten(chunks[1..]);
          got := got + first;
          chunks := chunks[1..];
        } else {
          FlattenFirst(first[want..], chunks[1..]);
          CutFirst(got, first, want, Flatten(chunks[1..]));
          got := got + first[..want];
          chunks := [first[want..]] + chunks[1..];
        }
      }
      if chunks == [] {
        NothingLeft();
      }
      return if |got| == n then Some(got) else None;
    }

    /** One read of the stream, however it was cut. */
    method ReadEnvelope<E>(z: Serializer<E>) returns (r: ReadResult<E>)
      modifies this
      ensures (r, Rest()) == DecodeOne(z, old(Rest()))
    {
      ghost var bytes := Rest();
      DecodeCases(z, bytes);
      hide DecodeOne, FromU32, Reader.Rest;
      var lenBuf := ReadExact(4);
      if lenBuf.None? {
        return Err(Eof);
      }
      var len := FromU32(lenBuf.value);
      if len > MAX_FRAME_SIZE {
        var peek := ReadExact(PEEK);
        return Err(TooLarge(len));
      }
      var raw := ReadExact(len);
      if raw.None? {
        return Err(Eof);
      }
      var value := z.de(raw.value);
      return if value.Some? then Ok(value.value) else Err(Malformed);
    }

    /** The parser task: read envelopes until the stream fails. */
    method ReadAll<E>(z: Serializer<E>) returns (values: seq<E>, error: ReadError)
      modifies this
      ensures Decoded(values, error, Rest()) == Decode(z, old(Rest()))
    {
      values := [];
      while true
        invariant var more := Decode(z, Rest()); Decode(z, old(Rest())) == more.(values := values + more.values)
        decreases |Rest()|
      {
        ghost var bytes := Rest();
        DecodeNext(z, bytes, values);
        hide DecodeOne, Decode, Reader.Rest;
        var r := ReadEnvelope(z);
        match r
        case Err(e) => return values, e;
        case Ok(value) => values := values + [value];
      }
    }
  }
}
