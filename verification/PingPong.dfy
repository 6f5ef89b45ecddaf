/** The messages of the system channel. The width and the bytes of a packed 64-bit integer are
    the business of a library; it is taken to be any packing that lives up to Lawful. */
module PingPong {
  import opened Wrappers
  import opened Decimal
  import opened Octets

  const PING: bv8 := 0
  const PONG: bv8 := 1
  const PING_MIN: nat := 2
  const PING_MAX: nat := 9
  const PONG_MIN: nat := 3
  const PONG_MAX: nat := 17

  datatype Packing = Packing(write: nat -> seq<bv8>, read: (seq<bv8>, nat) -> Option<nat>)

  /** A number takes one to eight bytes, reading that many bytes gives it back, and reading more
      bytes than there are fails. */
  ghost predicate Lawful(p: Packing) {
    && (forall n: nat {:trigger p.write(n)} :: n < WORD ==> 1 <= |p.write(n)| <= 8)
    && (forall n: nat, rest: seq<bv8> {:trigger p.write(n) + rest} :: n < WORD ==>
          p.read(p.write(n) + rest, |p.write(n)|) == Some(n))
    && (forall data: seq<bv8>, bytes: nat {:trigger p.read(data, bytes)} :: |data| < bytes ==>
          p.read(data, bytes).None?)
  }

  // ----- A packing that is lawful ------------------------------------------------------

  const LittleEndian: Packing :=
    Packing(BytesOf, (data: seq<bv8>, k: nat) => if |data| < k then None else Some(NumberOf(data[..k])))

  lemma LittleEndianLawful()
    ensures Lawful(LittleEndian)
  {
    forall n: nat | n < WORD ensures 1 <= |LittleEndian.write(n)| <= 8 {
      assert Power256(8) == WORD by { assert Power256(4) == 0x1_0000_0000; }
      BytesFit(n, 8);
    }
    forall n: nat, rest: seq<bv8> | n < WORD
      ensures LittleEndian.read(LittleEndian.write(n) + rest, |LittleEndian.write(n)|) == Some(n)
    {
      NumberOfBytes(n);
      assert (BytesOf(n) + rest)[..|BytesOf(n)|] == BytesOf(n);
    }
  }

  // ----- Messages ----------------------------------------------------------------------

  /** The opcode in the upper two bits, then a width less one, three bits each. */
  function Header(opcode: bv8, sequenceBytes: nat, timeBytes: nat): bv8
    requires 1 <= sequenceBytes <= 8 && 1 <= timeBytes <= 8
  {
    (opcode << 6) | ((((sequenceBytes - 1) as bv8) & 0x07) << 3) | (((timeBytes - 1) as bv8) & 0x07)
  }

  function Opcode(header: bv8): bv8 {
    header >> 6
  }

  function SequenceBytes(header: bv8): nat {
    ((header >> 3) & 0x07) as nat + 1
  }

  function TimeBytes(header: bv8): nat {
    (header & 0x07) as nat + 1
  }

  /** The ping leaves the lower three bits clear. */
  function Ping(p: Packing, sequence: nat): seq<bv8>
    requires Lawful(p) && sequence < WORD
  {
    [Header(PING, |p.write(sequence)|, 1)] + p.write(sequence)
  }

  function Pong(p: Packing, sequence: nat, time: nat): seq<bv8>
    requires Lawful(p) && sequence < WORD && time < WORD
  {
    [Header(PONG, |p.write(sequence)|, |p.write(time)|)] + p.write(sequence) + p.write(time)
  }

  /** Writes bytes into a payload at its position. */
  method Write(data: array<bv8>, position: nat, bytes: seq<bv8>) returns (after: nat)
    requires position + |bytes| <= data.Length
    modifies data
    ensures after == position + |bytes|
    ensures data[..after] == old(data[..position]) + bytes
  {
    forall i | 0 <= i < |bytes| { data[position + i] := bytes[i]; }
    after := position + |bytes|;
    assert data[..position] == old(data[..position]) && data[position..after] == bytes;
    assert data[..after] == data[..position] + data[position..after];
  }

  /** The payload of a ping is built in a buffer of nine bytes. */
  method SendPing(p: Packing, sequence: nat) returns (sent: seq<bv8>)
    requires Lawful(p) && sequence < WORD
    ensures sent == Ping(p, sequence)
  {
    var bytes := p.write(sequence);
    var data := new bv8[PING_MAX];
    var n := Write(data, 0, [Header(PING, |bytes|, 1)]);
    n := Write(data, n, bytes);
    sent := data[..n];
  }

  /** That of a pong is built in a buffer of seventeen. */
  method SendPong(p: Packing, sequence: nat, time: nat) returns (sent: seq<bv8>)
    requires Lawful(p) && sequence < WORD && time < WORD
    ensures sent == Pong(p, sequence, time)
  {
    var bytes, times := p.write(sequence), p.write(time);
    var data := new bv8[PONG_MAX];
    var n := Write(data, 0, [Header(PONG, |bytes|, |times|)]);
    n := Write(data, n, bytes);
    n := Write(data, n, times);
    sent := data[..n];
  }

  datatype Reaction = Ignored | Answer(sequence: nat) | Measure(sequence: nat)

  function ProcessPing(p: Packing, message: seq<bv8>): Reaction
    requires message != []
  {
    if |message| < PING_MIN || |message| > PING_MAX then Ignored
    else
      match p.read(message[1..], SequenceBytes(message[0]))
      case None => Ignored
      case Some(sequence) => Answer(sequence)
  }

  function ProcessPong(p: Packing, message: seq<bv8>): Reaction
    requires message != []
  {
    if |message| < PONG_MIN || |message| > PONG_MAX then Ignored
    else
      match p.read(message[1..], SequenceBytes(message[0]))
      case None => Ignored
      case Some(sequence) => Measure(sequence)
  }

  /** A ping is answered with a pong of its sequence; a pong is measured against its sequence. */
  function Process(p: Packing, message: seq<bv8>): Reaction {
    if message == [] then Ignored
    else if Opcode(message[0]) == PING then ProcessPing(p, message)
    else if Opcode(message[0]) == PONG then ProcessPong(p, message)
    else Ignored
  }

  lemma HeaderBits(opcode: bv8, a: bv8, b: bv8)
    requires opcode < 4 && a < 8 && b < 8
    ensures ((opcode << 6) | ((a & 0x07) << 3) | (b & 0x07)) >> 6 == opcode
    ensures ((((opcode << 6) | ((a & 0x07) << 3) | (b & 0x07)) >> 3) & 0x07) == a
    ensures ((opcode << 6) | ((a & 0x07) << 3) | (b & 0x07)) & 0x07 == b
  {
  }

  lemma HeaderFields(opcode: bv8, sequenceBytes: nat, timeBytes: nat)
    requires opcode < 4 && 1 <= sequenceBytes <= 8 && 1 <= timeBytes <= 8
    ensures Opcode(Header(opcode, sequenceBytes, timeBytes)) == opcode
    ensures SequenceBytes(Header(opcode, sequenceBytes, timeBytes)) == sequenceBytes
    ensures TimeBytes(Header(opcode, sequenceBytes, timeBytes)) == timeBytes
  {
    var a, b := (sequenceBytes - 1) as bv8, (timeBytes - 1) as bv8;
    assert a as nat == sequenceBytes - 1 && b as nat == timeBytes - 1;
    HeaderBits(opcode, a, b);
  }

  /** A ping is its header, with the lower three bits clear, and its sequence. */
  lemma PingReads(p: Packing, sequence: nat)
    requires Lawful(p) && sequence < WORD
    ensures
      var m := Ping(p, sequence);
      && Opcode(m[0]) == PING && m[0] & 0x07 == 0 && |m| == 1 + SequenceBytes(m[0])
      && p.read(m[1..], SequenceBytes(m[0])) == Some(sequence)
  {
    var s, m := p.write(sequence), Ping(p, sequence);
    HeaderFields(PING, |s|, 1);
    assert m[1..] == s + [];
    LowBits(m[0]);
  }

  lemma LowBits(header: bv8)
    ensures TimeBytes(header) == 1 <==> header & 0x07 == 0
  {
  }

  /** A pong is its header, its sequence and its time, each in as many bytes as the header says. */
  lemma PongReads(p: Packing, sequence: nat, time: nat)
    requires Lawful(p) && sequence < WORD && time < WORD
    ensures
      var m := Pong(p, sequence, time);
      && Opcode(m[0]) == PONG && |m| == 1 + SequenceBytes(m[0]) + TimeBytes(m[0])
      && p.read(m[1..], SequenceBytes(m[0])) == Some(sequence)
      && p.read(m[1 + SequenceBytes(m[0])..], TimeBytes(m[0])) == Some(time)
  {
    var s, t, m := p.write(sequence), p.write(time), Pong(p, sequence, time);
    HeaderFields(PONG, |s|, |t|);
    assert m[1..] == s + t;
    assert m[1 + |s|..] == t + [];
  }

  /** Every ping passes the gates and is answered with its own sequence; that answer, at
      whatever time, passes the gates and brings the sequence back. */
  lemma PingComesBack(p: Packing, sequence: nat, time: nat)
    requires Lawful(p) && sequence < WORD && time < WORD
    ensures PING_MIN <= |Ping(p, sequence)| <= PING_MAX && PONG_MIN <= |Pong(p, sequence, time)| <= PONG_MAX
    ensures Process(p, Ping(p, sequence)) == Answer(sequence)
    ensures Process(p, Pong(p, sequence, time)) == Measure(sequence)
  {
    var s, t := p.write(sequence), p.write(time);
    HeaderFields(PING, |s|, 1);
    HeaderFields(PONG, |s|, |t|);
    assert s == s + [];
    assert Ping(p, sequence)[1..] == s + [];
    assert Pong(p, sequence, time)[1..] == s + t;
  }

  /** A message is answered if and only if its header says ping, its length is that of a ping,
      and it holds all bytes of its sequence; it is measured by the same conditions for a pong. */
  lemma ProcessedShape(p: Packing, message: seq<bv8>, sequence: nat)
    requires Lawful(p)
    ensures Process(p, message) == Answer(sequence)
            <==> PING_MIN <= |message| <= PING_MAX && Opcode(message[0]) == PING
                 && 1 + SequenceBytes(message[0]) <= |message|
                 && p.read(message[1..], SequenceBytes(message[0])) == Some(sequence)
    ensures Process(p, message) == Measure(sequence)
            <==> PONG_MIN <= |message| <= PONG_MAX && Opcode(message[0]) == PONG
                 && 1 + SequenceBytes(message[0]) <= |message|
                 && p.read(message[1..], SequenceBytes(message[0])) == Some(sequence)
  {
  }
}
