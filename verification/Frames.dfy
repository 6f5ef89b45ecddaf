/** The text frames of the WebSocket. A frame is the bytes of rtc_buffer_data: a text message
    ends with its terminating NUL, a binary one need not. Reading past its end is Overread. */
module Frames {
  const SEPARATOR: char := '|'
  const NUL: char := '\0'
  const AUTH: string := "AUTH"
  const DESCRIPTION: string := "DESC"
  const CANDIDATE: string := "CAND"
  const READY: string := "READY"

  datatype Action =
    | Auth(token: seq<char>)
    | Description(kind: seq<char>, sdp: seq<char>)
    | Candidate(mid: seq<char>, cand: seq<char>)
    | Ready
    | Ignore
    | Overread

  datatype Scan = At(i: nat) | Missing | Past

  /** strchr from a position: the first target before the first NUL. */
  function Find(raw: seq<char>, from: nat, target: char): Scan
    decreases |raw| - from
  {
    if from >= |raw| then Past
    else if raw[from] == target then At(from)
    else if raw[from] == NUL then Missing
    else Find(raw, from + 1, target)
  }

  datatype Comparison = Same | Different | Beyond

  /** opcode_cmp: memcmp over the whole opcode. It may read all of these bytes of the frame,
      whether or not an earlier one differs (section 7.24.4.1 of ISO/IEC 9899:2011), and nothing
      has looked at the length. */
  function Compare(raw: seq<char>, opcode: string): Comparison {
    if |raw| < |opcode| then Beyond else if opcode <= raw then Same else Different
  }

  datatype Fields = Two(first: seq<char>, second: seq<char>) | None | PastEnd

  /** The field before the first separator, and the rest up to the NUL. */
  function Split(raw: seq<char>, from: nat): (f: Fields) {
    match Find(raw, from, SEPARATOR)
    case Past => PastEnd
    case Missing => None
    case At(p) =>
      match Find(raw, p + 1, NUL)
      case At(q) =>
        FindFinds(raw, from, SEPARATOR);
        FindFinds(raw, p + 1, NUL);
        Two(raw[from..p], raw[p + 1..q])
      case _ => PastEnd
  }

  /** The payload starts after the opcode and one ignored byte; an empty description is ignored
      before it is read. */
  function DispatchAuthenticated(raw: seq<char>): Action {
    match Compare(raw, DESCRIPTION)
    case Beyond => Overread
    case Same =>
      if |raw| - 1 == |DESCRIPTION| + 1 then Ignore
      else (
        match Split(raw, |DESCRIPTION| + 1)
        case Two(kind, sdp) => Description(kind, sdp)
        case None => Ignore
        case PastEnd => Overread)
    case Different =>
      match Compare(raw, CANDIDATE)
      case Beyond => Overread
      case Same => (
        match Split(raw, |CANDIDATE| + 1)
        case Two(mid, cand) => Candidate(mid, cand)
        case None => Ignore
        case PastEnd => Overread)
      case Different =>
        match Compare(raw, READY)
        case Beyond => Overread
        case Same => Action.Ready
        case Different => Ignore
  }

  /** The length leaves out the last byte, and wraps around for an empty frame. */
  function Dispatch(authenticated: bool, raw: seq<char>): (a: Action)
    ensures a.Auth? ==> !authenticated
    ensures a.Ready? || a.Description? || a.Candidate? ==> authenticated
  {
    if authenticated then DispatchAuthenticated(raw)
    else if raw != [] && |raw| - 1 <= |AUTH| + 1 then Ignore
    else
      match Compare(raw, AUTH)
      case Beyond => Overread
      case Different => Ignore
      case Same => Auth(raw[|AUTH| + 1..|raw| - 1])
  }

  // ----- What the scans mean -----------------------------------------------------------

  lemma {:induction false} FindFinds(raw: seq<char>, from: nat, target: char)
    decreases |raw| - from
    ensures Find(raw, from, target).At? ==>
              var p := Find(raw, from, target).i;
              && from <= p < |raw| && raw[p] == target
              && forall j :: from <= j < p ==> raw[j] != target && raw[j] != NUL
    ensures Find(raw, from, target).Missing? ==>
              exists q | from <= q < |raw| ::
                raw[q] == NUL && forall j :: from <= j <= q ==> raw[j] != target
    ensures Find(raw, from, target).Past? ==> forall j :: from <= j < |raw| ==> raw[j] != target && raw[j] != NUL
  {
    if from < |raw| && raw[from] != target && raw[from] != NUL { FindFinds(raw, from + 1, target); }
  }

  lemma {:induction false} FindReaches(raw: seq<char>, from: nat, target: char, p: nat)
    requires from <= p < |raw| && raw[p] == target
    requires forall j :: from <= j < p ==> raw[j] != target && raw[j] != NUL
    ensures Find(raw, from, target) == At(p)
    decreases p - from
  {
    if from < p { FindReaches(raw, from + 1, target, p); }
  }

  // ----- Round trips -------------------------------------------------------------------

  /** The frame of a description or a candidate. */
  function Frame(opcode: string, first: seq<char>, second: seq<char>): seq<char> {
    opcode + [SEPARATOR] + first + [SEPARATOR] + second
  }

  predicate Sendable(first: seq<char>, second: seq<char>) {
    SEPARATOR !in first && NUL !in first && NUL !in second
  }

  /** Where the fields of a frame are. */
  lemma FrameFields(opcode: string, first: seq<char>, second: seq<char>)
    ensures
      var raw, from, p := Frame(opcode, first, second) + [NUL], |opcode| + 1, |opcode| + 1 + |first|;
      && |raw| == p + |second| + 2 && raw[from..p] == first && raw[p] == SEPARATOR
      && raw[p + 1..|raw| - 1] == second && raw[|raw| - 1] == NUL
      && (forall j :: from <= j < p ==> raw[j] == first[j - from])
      && (forall j :: p + 1 <= j < |raw| - 1 ==> raw[j] == second[j - p - 1])
  {
  }

  lemma SendableSplits(opcode: string, first: seq<char>, second: seq<char>)
    requires Sendable(first, second)
    ensures Split(Frame(opcode, first, second) + [NUL], |opcode| + 1) == Two(first, second)
  {
    var raw, from := Frame(opcode, first, second) + [NUL], |opcode| + 1;
    FrameFields(opcode, first, second);
    FindReaches(raw, from, SEPARATOR, from + |first|);
    FindReaches(raw, from + |first| + 1, NUL, |raw| - 1);
  }

  lemma SplitFrame(opcode: string, first: seq<char>, second: seq<char>)
    ensures Split(Frame(opcode, first, second) + [NUL], |opcode| + 1) == Two(first, second)
            <==> Sendable(first, second)
  {
    if Sendable(first, second) {
      SendableSplits(opcode, first, second);
    } else if Split(Frame(opcode, first, second) + [NUL], |opcode| + 1) == Two(first, second) {
      SplitsClean(Frame(opcode, first, second) + [NUL], |opcode| + 1);
    }
  }

  /** What a split returns has no separator in its first field and no NUL. */
  lemma SplitsClean(raw: seq<char>, from: nat)
    ensures Split(raw, from).Two? ==> Sendable(Split(raw, from).first, Split(raw, from).second)
  {
    FindFinds(raw, from, SEPARATOR);
    if Find(raw, from, SEPARATOR).At? { FindFinds(raw, Find(raw, from, SEPARATOR).i + 1, NUL); }
  }

  lemma SplitShifts(raw: seq<char>, opcode: string, first: seq<char>, second: seq<char>)
    requires raw == Frame(opcode, first, second) + [NUL]
    ensures opcode <= raw && |raw| == |opcode| + |first| + |second| + 3
  {
  }

  /** A description sent is read back exactly when its fields hold no NUL and the first one no
      separator. */
  lemma DescriptionRoundTrip(kind: seq<char>, sdp: seq<char>)
    ensures Dispatch(true, Frame(DESCRIPTION, kind, sdp) + [NUL]) == Description(kind, sdp) <==> Sendable(kind, sdp)
  {
    var raw := Frame(DESCRIPTION, kind, sdp) + [NUL];
    SplitShifts(raw, DESCRIPTION, kind, sdp);
    SplitFrame(DESCRIPTION, kind, sdp);
  }

  lemma CandidateRoundTrip(mid: seq<char>, cand: seq<char>)
    ensures Dispatch(true, Frame(CANDIDATE, mid, cand) + [NUL]) == Candidate(mid, cand) <==> Sendable(mid, cand)
  {
    var raw := Frame(CANDIDATE, mid, cand) + [NUL];
    SplitShifts(raw, CANDIDATE, mid, cand);
    assert raw[0] == 'C';
    SplitFrame(CANDIDATE, mid, cand);
  }

  /** The fields that are read, with their separator, are no longer than the frame. */
  lemma ReadsNoMore(raw: seq<char>)
    ensures
      var a := Dispatch(true, raw);
      && (a.Description? ==> |Frame(DESCRIPTION, a.kind, a.sdp)| < |raw|)
      && (a.Candidate? ==> |Frame(CANDIDATE, a.mid, a.cand)| < |raw|)
  {
    var from := |DESCRIPTION| + 1;
    FindFinds(raw, from, SEPARATOR);
    if Find(raw, from, SEPARATOR).At? { FindFinds(raw, Find(raw, from, SEPARATOR).i + 1, NUL); }
  }

  /** A frame of two fields is read as one of its kind, if at all, and an empty first field as
      an empty one. */
  lemma FrameDispatches(opcode: string, first: seq<char>, second: seq<char>)
    requires opcode == DESCRIPTION || opcode == CANDIDATE
    ensures
      var a := Dispatch(true, Frame(opcode, first, second) + [NUL]);
      && (a.Description? ==> opcode == DESCRIPTION && (first == [] ==> a.kind == []))
      && (a.Candidate? ==> opcode == CANDIDATE && (first == [] ==> a.mid == []))
  {
    var raw, from := Frame(opcode, first, second) + [NUL], |opcode| + 1;
    assert raw[0] == opcode[0] && opcode <= raw;
    FrameFields(opcode, first, second);
    if first == [] { assert Find(raw, from, SEPARATOR) == At(from); }
  }

  /** READY is accepted with anything behind it. */
  lemma ReadyExactly(raw: seq<char>)
    ensures Dispatch(true, raw).Ready? <==> READY <= raw
  {
    if READY <= raw { assert raw[0] == 'R'; }
  }

  /** The token of an AUTH frame is what follows the separator, up to the last byte. */
  lemma AuthRoundTrip(token: seq<char>)
    ensures Dispatch(false, AUTH + [SEPARATOR] + token + [NUL]) == if token == [] then Ignore else Auth(token)
  {
    var raw := AUTH + [SEPARATOR] + token + [NUL];
    assert AUTH <= raw;
    assert raw[|AUTH| + 1..|raw| - 1] == token;
  }

  // ----- Every frame -------------------------------------------------------------------

  /** What an unauthenticated peer can bring about: an AUTH frame with a token that is not empty is
      an authentication with that token, and every other frame is ignored, but for the empty one. */
  lemma Unauthenticated(raw: seq<char>)
    ensures Dispatch(false, raw).Auth? <==> |raw| > |AUTH| + 2 && AUTH <= raw
    ensures Dispatch(false, raw).Auth? ==> Dispatch(false, raw).token == raw[|AUTH| + 1..|raw| - 1]
    ensures !Dispatch(false, raw).Auth? && raw != [] ==> Dispatch(false, raw).Ignore?
  {
  }

  /** The frame after its opcode and one more byte starts with these fields, the first up to a
      separator and the second up to a NUL. */
  predicate HasFields(raw: seq<char>, opcode: string, first: seq<char>, second: seq<char>) {
    && opcode <= raw && |raw| > |opcode|
    && first + [SEPARATOR] + second + [NUL] <= raw[|opcode| + 1..]
    && Sendable(first, second)
  }

  lemma SplitsExactly(raw: seq<char>, from: nat, first: seq<char>, second: seq<char>)
    requires from <= |raw|
    ensures Split(raw, from) == Two(first, second)
            <==> first + [SEPARATOR] + second + [NUL] <= raw[from..] && Sendable(first, second)
  {
    if first + [SEPARATOR] + second + [NUL] <= raw[from..] && Sendable(first, second) {
      FieldsSplit(raw, from, first, second);
    } else if Split(raw, from) == Two(first, second) {
      SplitsClean(raw, from);
      SplitsInto(raw, from);
    }
  }

  lemma FieldsSplit(raw: seq<char>, from: nat, first: seq<char>, second: seq<char>)
    requires from <= |raw| && first + [SEPARATOR] + second + [NUL] <= raw[from..] && Sendable(first, second)
    ensures Split(raw, from) == Two(first, second)
  {
    var p := from + |first|;
    FieldsAt(raw, from, first, second);
    assert forall j :: from <= j < p ==> raw[j] == raw[from..p][j - from];
    assert forall j :: p + 1 <= j < p + 1 + |second| ==> raw[j] == raw[p + 1..p + 1 + |second|][j - p - 1];
    FindReaches(raw, from, SEPARATOR, p);
    FindReaches(raw, p + 1, NUL, p + 1 + |second|);
  }

  lemma FieldsAt(raw: seq<char>, from: nat, first: seq<char>, second: seq<char>)
    requires from <= |raw| && first + [SEPARATOR] + second + [NUL] <= raw[from..]
    ensures
      var p := from + |first|;
      && p + 1 + |second| < |raw| && raw[from..p] == first && raw[p] == SEPARATOR
      && raw[p + 1..p + 1 + |second|] == second && raw[p + 1 + |second|] == NUL
  {
    var text, p := first + [SEPARATOR] + second + [NUL], from + |first|;
    assert raw[from..][..|text|] == text;
    assert raw[from..p] == text[..|first|] && raw[p] == text[|first|];
    assert raw[p + 1..p + 1 + |second|] == text[|first| + 1..|first| + 1 + |second|];
    assert raw[p + 1 + |second|] == text[|text| - 1];
  }

  lemma SplitsInto(raw: seq<char>, from: nat)
    requires from <= |raw| && Split(raw, from).Two?
    ensures
      var f := Split(raw, from);
      f.first + [SEPARATOR] + f.second + [NUL] <= raw[from..]
  {
    FindFinds(raw, from, SEPARATOR);
    var p := Find(raw, from, SEPARATOR).i;
    FindFinds(raw, p + 1, NUL);
    var q := Find(raw, p + 1, NUL).i;
    assert raw[from..][..q + 1 - from] == raw[from..p] + [raw[p]] + raw[p + 1..q] + [raw[q]];
  }

  /** What an authenticated peer can bring about, for every frame: a description or a candidate
      with exactly the fields it holds, READY, or nothing. */
  lemma AuthenticatedFields(raw: seq<char>, first: seq<char>, second: seq<char>)
    ensures Dispatch(true, raw) == Description(first, second)
            <==> HasFields(raw, DESCRIPTION, first, second) && |raw| != |DESCRIPTION| + 2
    ensures Dispatch(true, raw) == Candidate(first, second) <==> HasFields(raw, CANDIDATE, first, second)
    ensures Dispatch(true, raw) == Action.Ready <==> READY <= raw
  {
    if |raw| > |DESCRIPTION| { SplitsExactly(raw, |DESCRIPTION| + 1, first, second); }
    assert DESCRIPTION <= raw ==> raw[0] == 'D';
    assert CANDIDATE <= raw ==> raw[0] == 'C';
    ReadyExactly(raw);
  }

  // ----- Reading past the end ----------------------------------------------------------

  /** A description or a candidate is read past its end if there is no NUL behind its first five
      bytes, unless it is taken for an empty one. */
  predicate Endless(raw: seq<char>) {
    |raw| < |DESCRIPTION| + 1 || NUL !in raw[|DESCRIPTION| + 1..]
  }

  lemma EndlessSplits(raw: seq<char>)
    ensures Split(raw, |DESCRIPTION| + 1).PastEnd? <==> Endless(raw)
  {
    var from := |DESCRIPTION| + 1;
    FindFinds(raw, from, SEPARATOR);
    match Find(raw, from, SEPARATOR)
    case Past =>
      assert forall j :: from <= j < |raw| ==> raw[j] != NUL;
    case Missing =>
      var q :| from <= q < |raw| && raw[q] == NUL;
      assert raw[from..][q - from] == NUL;
    case At(p) =>
      FindFinds(raw, p + 1, NUL);
      if Endless(raw) {
        assert forall j :: from <= j < |raw| ==> raw[from..][j - from] == raw[j];
      } else {
        var i :| 0 <= i < |raw[from..]| && raw[from..][i] == NUL;
        assert raw[from + i] == NUL;
      }
  }

  /** Of all frames of an authenticated peer, those that are read past their end: the ones too
      short for a comparison, and the descriptions and candidates without a NUL to end them. */
  lemma FrameOverread(raw: seq<char>)
    ensures Dispatch(true, raw).Overread?
            <==> |raw| < |DESCRIPTION|
                 || (if DESCRIPTION <= raw then |raw| != |DESCRIPTION| + 2 && Endless(raw)
                     else if CANDIDATE <= raw then Endless(raw)
                     else |raw| < |READY|)
  {
    EndlessSplits(raw);
  }

  /** Of the text frames, those shorter than four characters, a bare DESC and a bare CAND of an
      authenticated peer. */
  lemma TextOverread(authenticated: bool, text: seq<char>)
    ensures Dispatch(authenticated, text + [NUL]).Overread?
            <==> authenticated && (|text| < |DESCRIPTION| || text == DESCRIPTION || text == CANDIDATE)
  {
    var raw := text + [NUL];
    FrameOverread(raw);
    assert raw[|raw| - 1] == NUL && text == raw[..|raw| - 1];
    if |raw| > |DESCRIPTION| + 1 {
      assert raw[|DESCRIPTION| + 1..][|raw| - |DESCRIPTION| - 2] == NUL;
    } else if |raw| == |DESCRIPTION| + 1 {
      assert DESCRIPTION <= raw ==> text == DESCRIPTION;
      assert CANDIDATE <= raw ==> text == CANDIDATE;
      assert raw[|DESCRIPTION| + 1..] == [];
    } else {
      assert !(DESCRIPTION <= raw) && !(CANDIDATE <= raw);
    }
  }

  /** Before authentication, only the empty frame does. */
  lemma UnauthenticatedOverread(raw: seq<char>)
    ensures Dispatch(false, raw).Overread? <==> raw == []
  {
  }
}
