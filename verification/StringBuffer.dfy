/** The growable buffer that frames are built in. */
module StringBuffers {
  import opened Wrappers
  import opened Decimal
  import Frames

  const INITIAL_CAPACITY: nat := 1024
  const MAX_CAPACITY: nat := 256 * 1024

  /** 1024 times a power of two, up to the maximum. */
  predicate IsCapacity(n: nat) {
    n == INITIAL_CAPACITY || (n % 2 == 0 && INITIAL_CAPACITY < n <= MAX_CAPACITY && IsCapacity(n / 2))
  }

  lemma {:induction false} CapacityRange(n: nat)
    requires IsCapacity(n)
    ensures INITIAL_CAPACITY <= n <= MAX_CAPACITY
    ensures n < MAX_CAPACITY ==> 2 * n <= MAX_CAPACITY && IsCapacity(2 * n)
  {
    assert 2 * n / 2 == n;
    if n != INITIAL_CAPACITY {
      CapacityRange(n / 2);
      PowersOnly(n);
    }
  }

  /** The capacities, one by one. */
  lemma PowersOnly(n: nat)
    requires IsCapacity(n)
    ensures n == 1024 || n == 2048 || n == 4096 || n == 8192 || n == 16384 || n == 32768 || n == 65536
            || n == 131072 || n == 262144
  {
    assert IsCapacity(n / 2) || n == 1024;
  }

  /** What an append does: it succeeds, it is refused, or it writes past the end. */
  datatype Append = Done | Refused | Overrun

  /** Growing doubles the capacity once, however much is needed. */
  function Grow(capacity: nat, needed: nat, memory: bool): Append {
    if needed < capacity then Done
    else if needed >= MAX_CAPACITY || !memory then Refused
    else if needed <= 2 * capacity then Done
    else Overrun
  }

  /** The capacity after that. */
  function Grown(capacity: nat, needed: nat, memory: bool): nat {
    if needed < capacity || Grow(capacity, needed, memory).Refused? then capacity else 2 * capacity
  }

  /** A buffer while appends are made to it: one that is refused is forgotten, and one that
      writes past the end is the last. */
  datatype Filling = Filling(capacity: nat, bytes: seq<char>, refused: bool, overrun: bool)

  function Appended(f: Filling, value: seq<char>, memory: bool): Filling {
    if f.overrun || value == [] then f
    else
      var needed := |f.bytes| + |value|;
      var f' := f.(capacity := Grown(f.capacity, needed, memory));
      match Grow(f.capacity, needed, memory)
      case Done => f'.(bytes := f.bytes + value)
      case Refused => f'.(refused := true)
      case Overrun => f'.(overrun := true)
  }

  function AppendedAll(f: Filling, values: seq<seq<char>>, memory: bool): Filling {
    if values == [] then f
    else Appended(AppendedAll(f, values[..|values| - 1], memory), values[|values| - 1], memory)
  }

  function Joined(values: seq<seq<char>>): seq<char> {
    if values == [] then [] else Joined(values[..|values| - 1]) + values[|values| - 1]
  }

  /** Without an overrun, everything is in the buffer if and only if nothing was refused. */
  lemma {:induction false} WholeUnlessRefused(f: Filling, values: seq<seq<char>>, memory: bool)
    requires !f.refused && !AppendedAll(f, values, memory).overrun
    ensures
      var f' := AppendedAll(f, values, memory);
      && |f'.bytes| <= |f.bytes + Joined(values)|
      && (!f'.refused ==> f'.bytes == f.bytes + Joined(values))
      && (f'.refused ==> |f'.bytes| < |f.bytes + Joined(values)|)
  {
    if values != [] { WholeUnlessRefused(f, values[..|values| - 1], memory); }
  }

  class StringBuffer {
    var data: array<char>
    var position: nat

    ghost predicate Valid()
      reads this
    {
      IsCapacity(data.Length) && position <= data.Length
    }

    ghost function Contents(): seq<char>
      reads this, data
      requires Valid()
    {
      data[..position]
    }

    constructor ()
      ensures Valid() && fresh(data) && Contents() == [] && data.Length == INITIAL_CAPACITY
    {
      data := new char[INITIAL_CAPACITY];
      position := 0;
    }

    /** A buffer taken from the pool again is empty and keeps its capacity. */
    method Init()
      requires Valid()
      modifies this`position
      ensures Valid() && Contents() == []
    {
      position := 0;
    }

    method EnsureCapacity(needed: nat, memory: bool) returns (ok: bool)
      requires Valid()
      modifies this`data
      ensures Valid() && Contents() == old(Contents())
      ensures ok <==> Grow(old(data.Length), needed, memory) != Refused
      ensures data == old(data) || fresh(data)
      ensures data.Length == if needed < old(data.Length) || !ok then old(data.Length) else 2 * old(data.Length)
      ensures !ok || needed < old(data.Length) ==> data == old(data)
    {
      if needed < data.Length { return true; }
      if needed >= MAX_CAPACITY || !memory { return false; }
      CapacityRange(data.Length);
      var capacity := 2 * data.Length;
      if capacity > MAX_CAPACITY { capacity := MAX_CAPACITY; }
      var buffer := new char[capacity];
      forall i | 0 <= i < position { buffer[i] := data[i]; }
      assert buffer[..position] == data[..position];
      data := buffer;
      return true;
    }

    /** append_str and append_bin: an empty value is accepted as it is. */
    method AppendBin(value: seq<char>, memory: bool) returns (r: Append)
      requires Valid()
      modifies this, data
      ensures Valid()
      ensures r == if value == [] then Done else Grow(old(data.Length), old(position) + |value|, memory)
      ensures Contents() == if r.Done? then old(Contents()) + value else old(Contents())
      ensures data == old(data) || fresh(data)
      ensures data.Length == if value == [] then old(data.Length)
                             else Grown(old(data.Length), old(position) + |value|, memory)
    {
      if value == [] { return Done; }
      var ok := EnsureCapacity(position + |value|, memory);
      if !ok { return Refused; }
      if position + |value| > data.Length { return Overrun; }
      forall i | 0 <= i < |value| { data[position + i] := value[i]; }
      position := position + |value|;
      assert data[..position] == old(Contents()) + value;
      return Done;
    }

    method AppendChr(value: char, memory: bool) returns (r: Append)
      requires Valid()
      modifies this, data
      ensures Valid() && !r.Overrun?
      ensures r == Grow(old(data.Length), old(position) + 1, memory)
      ensures Contents() == if r.Done? then old(Contents()) + [value] else old(Contents())
      ensures data == old(data) || fresh(data)
      ensures data.Length == Grown(old(data.Length), old(position) + 1, memory)
    {
      CapacityRange(data.Length);
      r := AppendBin([value], memory);
    }

    method AppendU64(value: nat, memory: bool) returns (r: Append)
      requires Valid() && value < WORD
      modifies this, data
      ensures Valid() && !r.Overrun?
      ensures r == Grow(old(data.Length), old(position) + |Print(value)|, memory)
      ensures Contents() == if r.Done? then old(Contents()) + Print(value) else old(Contents())
      ensures data == old(data) || fresh(data)
      ensures data.Length == Grown(old(data.Length), old(position) + |Print(value)|, memory)
    {
      WordLength(value);
      PrintDigits(value);
      CapacityRange(data.Length);
      r := AppendBin(Print(value), memory);
    }

    method AppendI64(value: int, memory: bool) returns (r: Append)
      requires Valid() && -(WORD / 2) <= value < WORD / 2
      modifies this, data
      ensures Valid() && !r.Overrun?
      ensures r == Grow(old(data.Length), old(position) + |PrintSigned(value)|, memory)
      ensures Contents() == if r.Done? then old(Contents()) + PrintSigned(value) else old(Contents())
      ensures data == old(data) || fresh(data)
      ensures data.Length == Grown(old(data.Length), old(position) + |PrintSigned(value)|, memory)
    {
      WordLength(value);
      SignedBack(value);
      CapacityRange(data.Length);
      r := AppendBin(PrintSigned(value), memory);
    }

    /** The bytes with a NUL behind them, and their number. */
    method ToString(memory: bool) returns (ok: bool, length: nat)
      requires Valid()
      modifies this, data
      ensures Valid() && (ok <==> Grow(old(data.Length), old(position) + 1, memory).Done?)
      ensures ok ==> length == old(position) && Contents() == old(Contents()) + [Frames.NUL]
      ensures !ok ==> Contents() == old(Contents())
    {
      var r := AppendChr(Frames.NUL, memory);
      ok, length := r.Done?, 0;
      if ok { length := position - 1; }
    }

    /** The number of bytes is added to what the caller passes. */
    method ToBinary(before: nat) returns (bytes: seq<char>, size: nat)
      requires Valid()
      ensures bytes == Contents() && size == before + |bytes|
    {
      bytes, size := data[..position], before + position;
    }

    /** A value goes the way of the model of the buffer. */
    method Append(value: seq<char>, memory: bool, ghost f: Filling) returns (r: Append)
      requires Valid() && !f.overrun && f.capacity == data.Length && f.bytes == Contents()
      modifies this, data
      ensures Valid() && (data == old(data) || fresh(data))
      ensures
        var f' := Appended(f, value, memory);
        && f'.capacity == data.Length && f'.bytes == Contents() && (f'.overrun <==> r.Overrun?)
        && (f'.refused <==> f.refused || r.Refused?)
    {
      r := AppendBin(value, memory);
    }

    /** Makes the appends one after the other; their results are not looked at. */
    method AppendEach(values: seq<seq<char>>, memory: bool) returns (r: Append)
      requires Valid()
      modifies this, data
      ensures Valid() && (data == old(data) || fresh(data))
      ensures
        var f := AppendedAll(Filling(old(data.Length), old(Contents()), false, false), values, memory);
        && f.capacity == data.Length && f.bytes == Contents() && (f.overrun <==> r.Overrun?)
        && (!f.overrun ==> (f.refused <==> r.Refused?))
    {
      ghost var f0 := Filling(data.Length, Contents(), false, false);
      ghost var f := f0;
      var i, refused := 0, false;
      while i < |values|
        invariant 0 <= i <= |values| && Valid() && (data == old(data) || fresh(data))
        invariant f == AppendedAll(f0, values[..i], memory)
        invariant f.capacity == data.Length && f.bytes == Contents() && !f.overrun && f.refused == refused
      {
        r := Append(values[i], memory, f);
        assert values[..i + 1][..i] == values[..i];
        f := Appended(f, values[i], memory);
        if r.Overrun? {
          OverrunLasts(f0, values, i + 1, memory);
          return;
        }
        refused, i := refused || r.Refused?, i + 1;
      }
      assert values[..i] == values;
      r := if refused then Refused else Done;
    }

    /** Builds a frame and returns what is sent: the whole frame if and only if every append was
        made, and otherwise what is left of it. */
    method BuildFrame(opcode: string, first: seq<char>, second: seq<char>, memory: bool)
      returns (bytes: seq<char>, r: Append)
      requires Valid()
      modifies this, data
      ensures Valid() && (data == old(data) || fresh(data))
      ensures
        var f := Framing(old(data.Length), opcode, first, second, memory);
        && (r.Overrun? <==> f.overrun)
        && (!r.Overrun? ==> bytes == f.bytes && (r.Done? <==> bytes == Frames.Frame(opcode, first, second)))
        && (r.Refused? ==> |bytes| < |Frames.Frame(opcode, first, second)|)
        && (!r.Overrun? ==> (r.Refused? <==> f.refused))
    {
      Init();
      var size;
      r := AppendEach(Pieces(opcode, first, second), memory);
      bytes, size := ToBinary(0);
      if !r.Overrun? {
        WholeUnlessRefused(Filling(old(data.Length), [], false, false), Pieces(opcode, first, second), memory);
        PiecesJoin(opcode, first, second);
      }
    }
  }

  function Pieces(opcode: string, first: seq<char>, second: seq<char>): seq<seq<char>> {
    [opcode, [Frames.SEPARATOR], first, [Frames.SEPARATOR], second]
  }

  lemma PiecesJoin(opcode: string, first: seq<char>, second: seq<char>)
    ensures [] + Joined(Pieces(opcode, first, second)) == Frames.Frame(opcode, first, second)
  {
    var pieces := Pieces(opcode, first, second);
    var separator := [Frames.SEPARATOR];
    assert pieces[..4] == [opcode, separator, first, separator] && pieces[..4][..3] == [opcode, separator, first];
    assert pieces[..3] == [opcode, separator, first] && pieces[..3][..2] == [opcode, separator];
    assert pieces[..2] == [opcode, separator] && pieces[..2][..1] == [opcode] && pieces[..1][..0] == [];
    assert Joined([opcode]) == opcode;
    assert Joined([opcode, separator]) == opcode + separator;
    assert Joined([opcode, separator, first]) == opcode + separator + first;
    assert Joined([opcode, separator, first, separator]) == opcode + separator + first + separator;
  }

  /** What becomes of a frame in a buffer of this capacity. */
  function Framing(capacity: nat, opcode: string, first: seq<char>, second: seq<char>, memory: bool): Filling {
    AppendedAll(Filling(capacity, [], false, false), Pieces(opcode, first, second), memory)
  }

  lemma {:induction false} OverrunLasts(f: Filling, values: seq<seq<char>>, i: nat, memory: bool)
    requires i <= |values| && AppendedAll(f, values[..i], memory).overrun
    ensures AppendedAll(f, values, memory) == AppendedAll(f, values[..i], memory)
    decreases |values| - i
  {
    if i == |values| {
      assert values[..i] == values;
    } else {
      assert values[..i + 1][..i] == values[..i];
      OverrunLasts(f, values, i + 1, memory);
    }
  }

  lemma FramingIs(capacity: nat, opcode: string, first: seq<char>, second: seq<char>, memory: bool)
    ensures
      var separator, f := [Frames.SEPARATOR], Filling(capacity, [], false, false);
      Framing(capacity, opcode, first, second, memory)
      == Appended(Appended(Appended(Appended(Appended(f, opcode, memory), separator, memory), first, memory),
                           separator, memory), second, memory)
  {
    var pieces, f := Pieces(opcode, first, second), Filling(capacity, [], false, false);
    assert pieces[..4][..3] == pieces[..3] && pieces[..3][..2] == pieces[..2] && pieces[..2][..1] == pieces[..1];
    assert AppendedAll(f, pieces[..1][..0], memory) == f;
    assert AppendedAll(f, pieces[..1], memory) == Appended(f, opcode, memory);
    assert AppendedAll(f, pieces[..2], memory) == Appended(Appended(f, opcode, memory), [Frames.SEPARATOR], memory);
    assert AppendedAll(f, pieces[..3], memory) == Appended(AppendedAll(f, pieces[..2], memory), first, memory);
    assert AppendedAll(f, pieces[..4], memory) == Appended(AppendedAll(f, pieces[..3], memory), pieces[3], memory);
    assert pieces[..|pieces| - 1] == pieces[..4];
  }

  /** The capacity once the head and the separator behind it are in the buffer. */
  function HeadCapacity(capacity: nat, head: nat): nat {
    var capacity' := if head < capacity then capacity else 2 * capacity;
    if head + 1 < capacity' then capacity' else 2 * capacity'
  }

  /** With memory to be had, neither the head nor the whole needs more than twice the capacity it
      finds, nor as much as the maximum; without, the whole needs less than the capacity. */
  predicate FrameFits(capacity: nat, opcode: string, first: seq<char>, second: seq<char>, memory: bool) {
    var head := |opcode| + 1 + |first|;
    var whole := head + 1 + |second|;
    if memory then
      && head <= 2 * capacity && head + 1 < MAX_CAPACITY
      && (second == [] || (whole < MAX_CAPACITY && whole <= 2 * HeadCapacity(capacity, head)))
    else whole < capacity
  }

  predicate Unharmed(f: Filling) {
    !f.overrun && !f.refused
  }

  /** One append that is made, or is not. */
  lemma AppendFits(f: Filling, value: seq<char>, memory: bool)
    requires Unharmed(f) && IsCapacity(f.capacity)
    ensures
      var f', needed := Appended(f, value, memory), |f.bytes| + |value|;
      && (Unharmed(f') <==> value == [] || needed < f.capacity
                            || (memory && needed < MAX_CAPACITY && needed <= 2 * f.capacity))
      && (Unharmed(f') ==>
            && |f'.bytes| == needed && IsCapacity(f'.capacity)
            && f'.capacity == if value == [] || needed < f.capacity then f.capacity else 2 * f.capacity)
  {
    CapacityRange(f.capacity);
  }

  lemma FrameSentWhole(capacity: nat, opcode: string, first: seq<char>, second: seq<char>, memory: bool)
    requires IsCapacity(capacity) && 0 < |opcode| && |opcode| + 1 < INITIAL_CAPACITY
    ensures Unharmed(Framing(capacity, opcode, first, second, memory))
            <==> FrameFits(capacity, opcode, first, second, memory)
  {
    FramingIs(capacity, opcode, first, second, memory);
    CapacityRange(capacity);
    var f0, separator := Filling(capacity, [], false, false), [Frames.SEPARATOR];
    AppendFits(f0, opcode, memory);
    var f1 := Appended(f0, opcode, memory);
    AppendFits(f1, separator, memory);
    RestFits(Appended(f1, separator, memory), opcode, first, second, memory);
  }

  /** What comes behind the opcode and its separator. */
  lemma RestFits(f: Filling, opcode: string, first: seq<char>, second: seq<char>, memory: bool)
    requires Unharmed(f) && IsCapacity(f.capacity) && |f.bytes| == |opcode| + 1 < INITIAL_CAPACITY
    ensures
      var separator := [Frames.SEPARATOR];
      Unharmed(Appended(Appended(Appended(f, first, memory), separator, memory), second, memory))
      <==> FrameFits(f.capacity, opcode, first, second, memory)
  {
    CapacityRange(f.capacity);
    AppendFits(f, first, memory);
    var f1 := Appended(f, first, memory);
    if Unharmed(f1) {
      CapacityRange(f1.capacity);
      TailFits(f1, second, memory);
    } else {
      StaysFailed(f1, [Frames.SEPARATOR], memory);
      StaysFailed(Appended(f1, [Frames.SEPARATOR], memory), second, memory);
    }
  }

  /** What comes behind the first field. */
  lemma TailFits(f: Filling, second: seq<char>, memory: bool)
    requires Unharmed(f) && IsCapacity(f.capacity) && f.bytes != []
    ensures
      var head, capacity' := |f.bytes|, if |f.bytes| + 1 < f.capacity then f.capacity else 2 * f.capacity;
      Unharmed(Appended(Appended(f, [Frames.SEPARATOR], memory), second, memory))
      <==> && (head + 1 < f.capacity || (memory && head + 1 < MAX_CAPACITY && head + 1 <= 2 * f.capacity))
           && (second == [] || head + 1 + |second| < capacity'
               || (memory && head + 1 + |second| < MAX_CAPACITY && head + 1 + |second| <= 2 * capacity'))
  {
    var f1 := Appended(f, [Frames.SEPARATOR], memory);
    AppendFits(f, [Frames.SEPARATOR], memory);
    StaysFailed(f1, second, memory);
    if Unharmed(f1) { AppendFits(f1, second, memory); }
  }

  lemma StaysFailed(f: Filling, value: seq<char>, memory: bool)
    ensures !Unharmed(f) ==> !Unharmed(Appended(f, value, memory))
  {
  }

  // ----- Sending -----------------------------------------------------------------------

  /** What is sent as a description, with a NUL behind it, is read as that description if and
      only if it was sent whole and its fields can be told apart. */
  method SendDescription(buffer: StringBuffer, kind: seq<char>, sdp: seq<char>, memory: bool)
    returns (bytes: seq<char>, r: Append)
    requires buffer.Valid()
    modifies buffer, buffer.data
    ensures buffer.Valid()
    ensures r.Done? <==> FrameFits(old(buffer.data.Length), Frames.DESCRIPTION, kind, sdp, memory)
    ensures !r.Overrun? ==>
              (Frames.Dispatch(true, bytes + [Frames.NUL]) == Frames.Description(kind, sdp)
               <==> r.Done? && Frames.Sendable(kind, sdp))
  {
    FrameSentWhole(buffer.data.Length, Frames.DESCRIPTION, kind, sdp, memory);
    bytes, r := buffer.BuildFrame(Frames.DESCRIPTION, kind, sdp, memory);
    Frames.DescriptionRoundTrip(kind, sdp);
    Frames.ReadsNoMore(bytes + [Frames.NUL]);
  }

  method SendCandidate(buffer: StringBuffer, mid: seq<char>, cand: seq<char>, memory: bool)
    returns (bytes: seq<char>, r: Append)
    requires buffer.Valid()
    modifies buffer, buffer.data
    ensures buffer.Valid()
    ensures r.Done? <==> FrameFits(old(buffer.data.Length), Frames.CANDIDATE, mid, cand, memory)
    ensures !r.Overrun? ==>
              (Frames.Dispatch(true, bytes + [Frames.NUL]) == Frames.Candidate(mid, cand)
               <==> r.Done? && Frames.Sendable(mid, cand))
  {
    FrameSentWhole(buffer.data.Length, Frames.CANDIDATE, mid, cand, memory);
    bytes, r := buffer.BuildFrame(Frames.CANDIDATE, mid, cand, memory);
    Frames.CandidateRoundTrip(mid, cand);
    Frames.ReadsNoMore(bytes + [Frames.NUL]);
  }

  const AUTH_OK: string := "AUTH|OK"

  /** The answer to a client that authenticated fits any buffer, and its two fields come apart again;
      Decimal reads the numbers off them. */
  method SendAuthSuccess(buffer: StringBuffer, client: int, time: nat, memory: bool) returns (bytes: seq<char>)
    requires buffer.Valid() && -(WORD / 2) <= client < WORD / 2 && time < WORD
    modifies buffer, buffer.data
    ensures buffer.Valid() && AUTH_OK <= bytes
    ensures Frames.Split(bytes + [Frames.NUL], |AUTH_OK| + 1) == Frames.Two(PrintSigned(client), Print(time))
  {
    buffer.Init();
    CapacityRange(buffer.data.Length);
    var r := buffer.AppendBin(AUTH_OK, memory);
    assert buffer.Contents() == AUTH_OK;
    AppendNumber(buffer, client, memory);
    AppendTime(buffer, time, memory);
    var size;
    bytes, size := buffer.ToBinary(0);
    AuthSuccessReads(client, time);
    assert bytes == Frames.Frame(AUTH_OK, PrintSigned(client), Print(time));
  }

  /** A separator and a signed number fit as long as little is in the buffer. */
  method AppendNumber(buffer: StringBuffer, n: int, memory: bool)
    requires buffer.Valid() && -(WORD / 2) <= n < WORD / 2 && buffer.position < 100
    modifies buffer, buffer.data
    ensures buffer.Valid() && (buffer.data == old(buffer.data) || fresh(buffer.data))
    ensures buffer.position <= old(buffer.position) + 21
    ensures buffer.Contents() == old(buffer.Contents()) + [Frames.SEPARATOR] + PrintSigned(n)
  {
    CapacityRange(buffer.data.Length);
    WordLength(n);
    var r := buffer.AppendChr(Frames.SEPARATOR, memory);
    r := buffer.AppendI64(n, memory);
  }

  method AppendTime(buffer: StringBuffer, n: nat, memory: bool)
    requires buffer.Valid() && n < WORD && buffer.position < 100
    modifies buffer, buffer.data
    ensures buffer.Valid() && (buffer.data == old(buffer.data) || fresh(buffer.data))
    ensures buffer.Contents() == old(buffer.Contents()) + [Frames.SEPARATOR] + Print(n)
  {
    CapacityRange(buffer.data.Length);
    WordLength(n);
    var r := buffer.AppendChr(Frames.SEPARATOR, memory);
    r := buffer.AppendU64(n, memory);
  }

  lemma AuthSuccessReads(client: int, time: nat)
    ensures
      var text := Frames.Frame(AUTH_OK, PrintSigned(client), Print(time));
      && AUTH_OK <= text
      && Frames.Split(text + [Frames.NUL], |AUTH_OK| + 1) == Frames.Two(PrintSigned(client), Print(time))
  {
    NumbersSendable(client, time);
    Frames.SplitFrame(AUTH_OK, PrintSigned(client), Print(time));
  }

  lemma NumbersSendable(n: int, m: nat)
    ensures Frames.Sendable(PrintSigned(n), Print(m))
  {
    PrintDigits(m);
    PrintDigits(if n < 0 then -n else n);
  }

  // ----- Receiving ---------------------------------------------------------------------

  /** What is passed on of a frame: its two fields, the first one NULL or empty if it could not be
      copied; or nothing. */
  datatype Delivery =
    | Delivered(first: Option<seq<char>>, second: seq<char>)
    | Dropped
    | OutOfBounds

  /** The first field goes through a string buffer; neither of the two results is looked at.
      Whether there is memory is asked up to twice. */
  function Delivers(capacity: nat, first: seq<char>, second: seq<char>, memory: bool, memory': bool): Delivery {
    var f := Appended(Filling(capacity, [], false, false), first, memory);
    if f.overrun then OutOfBounds
    else if Grow(f.capacity, |f.bytes| + 1, memory').Done? then Delivered(Some(f.bytes), second)
    else Delivered(None, second)
  }

  /** What the session makes of a frame of an authenticated client, as far as it is a description
      or a candidate. */
  function Handled(capacity: nat, raw: seq<char>, memory: bool, memory': bool): Delivery {
    match Frames.Dispatch(true, raw)
    case Description(kind, sdp) => Delivers(capacity, kind, sdp, memory, memory')
    case Candidate(mid, cand) => Delivers(capacity, mid, cand, memory, memory')
    case Overread => OutOfBounds
    case _ => Dropped
  }

  method ReceiveFields(buffer: StringBuffer, first: seq<char>, second: seq<char>, memory: bool, memory': bool)
    returns (r: Delivery)
    requires buffer.Valid()
    modifies buffer, buffer.data
    ensures buffer.Valid() && r == Delivers(old(buffer.data.Length), first, second, memory, memory')
  {
    buffer.Init();
    var copied := buffer.Append(first, memory, Filling(buffer.data.Length, [], false, false));
    if copied.Overrun? { return OutOfBounds; }
    var ok, length := buffer.ToString(memory');
    if !ok { return Delivered(None, second); }
    var bytes, size := buffer.ToBinary(0);
    return Delivered(Some(bytes[..length]), second);
  }

  method ReceiveFrame(buffer: StringBuffer, raw: seq<char>, memory: bool, memory': bool) returns (r: Delivery)
    requires buffer.Valid()
    modifies buffer, buffer.data
    ensures buffer.Valid() && r == Handled(old(buffer.data.Length), raw, memory, memory')
  {
    match Frames.Dispatch(true, raw)
    case Description(kind, sdp) => r := ReceiveFields(buffer, kind, sdp, memory, memory');
    case Candidate(mid, cand) => r := ReceiveFields(buffer, mid, cand, memory, memory');
    case Overread => r := OutOfBounds;
    case _ => r := Dropped;
  }

  /** The copy of a first field of this length comes out whole. */
  predicate FieldFits(capacity: nat, length: nat, memory: bool, memory': bool) {
    || length == 0
    || (length < capacity && (length + 1 < capacity || (memory' && length + 1 < MAX_CAPACITY)))
    || (capacity <= length <= 2 * capacity && memory && length + 1 < MAX_CAPACITY
        && (memory' || length + 1 < 2 * capacity))
  }

  /** When the first field arrives whole, empty, as NULL, or overruns the buffer. */
  lemma FieldCopied(capacity: nat, first: seq<char>, second: seq<char>, memory: bool, memory': bool)
    requires IsCapacity(capacity)
    ensures
      var r, n := Delivers(capacity, first, second, memory, memory'), |first|;
      && (r == Delivered(Some(first), second) <==> FieldFits(capacity, n, memory, memory'))
      && (r.OutOfBounds? <==> Overruns(capacity, n, memory))
      && (first != [] ==> (r == Delivered(Some([]), second) <==> n >= capacity && (!memory || n >= MAX_CAPACITY)))
      && (r == Delivered(None, second)
          <==> !FieldFits(capacity, n, memory, memory')
               && (n < capacity || (memory && n < MAX_CAPACITY && n <= 2 * capacity)))
  {
    CapacityRange(capacity);
    PowersOnly(capacity);
    assert [] + first == first;
  }

  /** The first field is longer than a doubled buffer, and was let through. */
  predicate Overruns(capacity: nat, length: nat, memory: bool) {
    memory && 2 * capacity < length < MAX_CAPACITY
  }

  /** Of all frames of an authenticated client: what is passed on has the second field of the frame,
      READY and frames of no kind are not passed on, and the rest is out of bounds. */
  lemma FramePassedOn(capacity: nat, raw: seq<char>, memory: bool, memory': bool)
    requires IsCapacity(capacity)
    ensures
      var a, r := Frames.Dispatch(true, raw), Handled(capacity, raw, memory, memory');
      && (r.Dropped? <==> a.Ready? || a.Ignore?)
      && (r.OutOfBounds? <==>
            || a.Overread? || (a.Description? && Overruns(capacity, |a.kind|, memory))
            || (a.Candidate? && Overruns(capacity, |a.mid|, memory)))
      && (r.Delivered? && a.Description? ==> r.second == a.sdp)
      && (r.Delivered? && a.Candidate? ==> r.second == a.cand)
  {
    match Frames.Dispatch(true, raw)
    case Description(kind, sdp) => FieldCopied(capacity, kind, sdp, memory, memory');
    case Candidate(mid, cand) => FieldCopied(capacity, mid, cand, memory, memory');
    case _ =>
  }

  /** A frame of two fields comes back, through the parser and the string buffer, as these fields
      if and only if they can be told apart and the first one fits. */
  lemma ComesBack(opcode: string, first: seq<char>, second: seq<char>, capacity: nat, memory: bool, memory': bool)
    requires IsCapacity(capacity) && (opcode == Frames.DESCRIPTION || opcode == Frames.CANDIDATE)
    ensures Handled(capacity, Frames.Frame(opcode, first, second) + [Frames.NUL], memory, memory')
            == Delivered(Some(first), second)
            <==> Frames.Sendable(first, second) && FieldFits(capacity, |first|, memory, memory')
  {
    var raw := Frames.Frame(opcode, first, second) + [Frames.NUL];
    Frames.DescriptionRoundTrip(first, second);
    Frames.CandidateRoundTrip(first, second);
    Frames.FrameDispatches(opcode, first, second);
    match Frames.Dispatch(true, raw)
    case Description(kind, sdp) => FieldCopied(capacity, kind, sdp, memory, memory');
    case Candidate(mid, cand) => FieldCopied(capacity, mid, cand, memory, memory');
    case _ =>
  }

  /** An append no longer than the capacity never writes past the end. */
  lemma ShortAppends(capacity: nat, position: nat, length: nat, memory: bool)
    requires position <= capacity && length <= capacity
    ensures !Grow(capacity, position + length, memory).Overrun?
  {
  }
}
