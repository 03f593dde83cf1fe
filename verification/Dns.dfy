/** The resolver's wire format: building an A query and reading the addresses of a response. */
module Dns {
  import opened Bytes
  import opened Common
  import opened Text

  /** What one part of a name may become: its length has to fit a byte. */
  type Label = l: seq<Byte> | |l| < 256

  const QTYPE_A: U16 := 1
  const QCLASS_IN: U16 := 1

  datatype DnsError = TruncatedHeader | IdMismatch | ServerError(rcode: int) | TruncatedName | TruncatedRecord | BadLabel

  // ---- Building a query ---------------------------------------------------------------

  function StripDots(name: string): string
    decreases |name|
  {
    if name != "" && name[|name| - 1] == '.' then StripDots(name[..|name| - 1]) else name
  }

  /** The encoder bounds each piece between full stops of any script, not the whole part;
      what does not fit a length byte is an error. */
  function Encoded(idna: string -> Option<seq<Byte>>, parts: seq<string>): Result<seq<Label>, DnsError> {
    if parts == [] then Ok([]) else
      match (idna(parts[0]), Encoded(idna, parts[1..]))
      case (Some(first), Ok(labels)) => if |first| < 256 then Ok([first] + labels) else Err(BadLabel)
      case (_, _) => Err(BadLabel)
  }

  function LabelBytes(labels: seq<Label>): seq<Byte> {
    if labels == [] then [] else [|labels[0]|] + labels[0] + LabelBytes(labels[1..])
  }

  function QueryOf(labels: seq<Label>, txid: U16): seq<Byte> {
    Pack(txid) + Pack(0x0100) + Pack(1) + Pack(0) + Pack(0) + Pack(0)
      + LabelBytes(labels) + [0] + Pack(QTYPE_A) + Pack(QCLASS_IN)
  }

  function BuildQuery(idna: string -> Option<seq<Byte>>, name: string, txid: U16): Result<seq<Byte>, DnsError> {
    match Encoded(idna, Split(StripDots(name), '.'))
    case Ok(labels) => Ok(QueryOf(labels, txid))
    case Err(e) => Err(e)
  }

  // ---- Reading a response ----------------------------------------------------------------

  /** Just past the name at `offset`; a pointer is stepped over, never followed. */
  function SkipName(data: seq<Byte>, offset: nat): Result<nat, DnsError>
    decreases |data| - offset
  {
    if offset >= |data| then Err(TruncatedName)
    else if data[offset] == 0 then Ok(offset + 1)
    else if data[offset] >= 0xC0 then Ok(offset + 2)
    else SkipName(data, offset + 1 + data[offset])
  }

  method SkipNameFrom(data: seq<Byte>, start: nat) returns (r: Result<nat, DnsError>)
    ensures r == SkipName(data, start)
  {
    var offset := start;
    while offset < |data|
      invariant SkipName(data, start) == SkipName(data, offset)
      decreases |data| - offset
    {
      var length := data[offset];
      if length == 0 {
        return Ok(offset + 1);
      }
      if length >= 0xC0 {
        return Ok(offset + 2);
      }
      offset := offset + 1 + length;
    }
    r := Err(TruncatedName);
  }

  /** Past `count` questions. */
  function SkipQuestions(data: seq<Byte>, offset: nat, count: nat): Result<nat, DnsError>
    decreases count
  {
    if count == 0 then Ok(offset) else
      match SkipName(data, offset)
      case Ok(next) => SkipQuestions(data, next + 4, count - 1)
      case Err(e) => Err(e)
  }

  datatype Answer = Answer(address: Option<seq<Byte>>, next: nat)

  /** One record: its address if it is an A record of four bytes, and where it ends. */
  function ReadAnswer(data: seq<Byte>, offset: nat): Result<Answer, DnsError> {
    match SkipName(data, offset)
    case Err(e) => Err(e)
    case Ok(at) =>
      if at + 10 > |data| then Err(TruncatedRecord) else
        var size := Unpack(data, at + 8);
        if Unpack(data, at) == QTYPE_A && size == 4 then
          if at + 14 > |data| then Err(TruncatedRecord)
          else Ok(Answer(Some(data[at + 10..at + 14]), at + 14))
        else Ok(Answer(None, at + 10 + size))
  }

  function ReadAnswers(data: seq<Byte>, offset: nat, count: nat): Result<seq<seq<Byte>>, DnsError>
    decreases count
  {
    if count == 0 then Ok([]) else
      match ReadAnswer(data, offset)
      case Err(e) => Err(e)
      case Ok(answer) => Prefixed(answer, ReadAnswers(data, answer.next, count - 1))
  }

  function Prefixed(answer: Answer, rest: Result<seq<seq<Byte>>, DnsError>): Result<seq<seq<Byte>>, DnsError> {
    match rest
    case Ok(addresses) => Ok(AddressOf(answer.address) + addresses)
    case Err(e) => Err(e)
  }

  function AddressOf(address: Option<seq<Byte>>): seq<seq<Byte>> {
    match address
    case Some(a) => [a]
    case None => []
  }

  function ParseAnswers(data: seq<Byte>, txid: U16): Result<seq<seq<Byte>>, DnsError> {
    if |data| < 12 then Err(TruncatedHeader)
    else if Unpack(data, 0) != txid then Err(IdMismatch)
    else if data[3] % 16 != 0 then Err(ServerError(data[3] % 16))
    else
      match SkipQuestions(data, 12, Unpack(data, 4))
      case Err(e) => Err(e)
      case Ok(offset) => ReadAnswers(data, offset, Unpack(data, 6))
  }

  function After(done: seq<seq<Byte>>, rest: Result<seq<seq<Byte>>, DnsError>): Result<seq<seq<Byte>>, DnsError> {
    match rest
    case Ok(addresses) => Ok(done + addresses)
    case Err(e) => Err(e)
  }

  method ReadResponse(data: seq<Byte>, txid: U16) returns (r: Result<seq<seq<Byte>>, DnsError>)
    ensures r == ParseAnswers(data, txid)
  {
    if |data| < 12 {
      return Err(TruncatedHeader);
    }
    if Unpack(data, 0) != txid {
      return Err(IdMismatch);
    }
    var rcode := Unpack(data, 2) % 16;
    if rcode != 0 {
      return Err(ServerError(rcode));
    }
    var offset: nat := 12;
    var questions, answers: nat := Unpack(data, 4), Unpack(data, 6);
    for i := 0 to questions
      invariant SkipQuestions(data, 12, questions) == SkipQuestions(data, offset, questions - i)
    {
      var next := SkipNameFrom(data, offset);
      if next.Err? {
        return Err(next.error);
      }
      offset := next.value + 4;
    }
    r := CollectAnswers(data, offset, answers);
  }

  method TakeAnswer(data: seq<Byte>, offset: nat) returns (r: Result<Answer, DnsError>)
    ensures r == ReadAnswer(data, offset)
  {
    var name := SkipNameFrom(data, offset);
    if name.Err? {
      return Err(name.error);
    }
    var at := name.value;
    if at + 10 > |data| {
      return Err(TruncatedRecord);
    }
    var size := Unpack(data, at + 8);
    var address: Option<seq<Byte>> := None;
    if Unpack(data, at) == QTYPE_A && size == 4 {
      if at + 14 > |data| {
        return Err(TruncatedRecord);
      }
      address := Some(data[at + 10..at + 14]);
    }
    r := Ok(Answer(address, at + 10 + size));
  }

  method CollectAnswers(data: seq<Byte>, start: nat, count: nat) returns (r: Result<seq<seq<Byte>>, DnsError>)
    ensures r == ReadAnswers(data, start, count)
  {
    var offset: nat, addresses: seq<seq<Byte>> := start, [];
    AfterNothing(ReadAnswers(data, start, count));
    for i := 0 to count
      invariant ReadAnswers(data, start, count) == After(addresses, ReadAnswers(data, offset, count - i))
    {
      var answer := TakeAnswer(data, offset);
      if answer.Err? {
        return Err(answer.error);
      }
      AfterPrefixed(addresses, answer.value, ReadAnswers(data, answer.value.next, count - i - 1));
      addresses := addresses + AddressOf(answer.value.address);
      offset := answer.value.next;
    }
    assert addresses + [] == addresses;
    r := Ok(addresses);
  }

  lemma {:induction false} AfterNothing(rest: Result<seq<seq<Byte>>, DnsError>)
    ensures After([], rest) == rest
  {
    if rest.Ok? {
      assert [] + rest.value == rest.value;
    }
  }

  lemma {:induction false} AfterPrefixed(done: seq<seq<Byte>>, answer: Answer, rest: Result<seq<seq<Byte>>, DnsError>)
    ensures After(done, Prefixed(answer, rest)) == After(done + AddressOf(answer.address), rest)
  {
    if rest.Ok? {
      assert done + (AddressOf(answer.address) + rest.value) == done + AddressOf(answer.address) + rest.value;
    }
  }

  // ---- What a server sends -----------------------------------------------------------------

  /** Labels ended by zero or by a compression pointer (sections 3.1 and 4.1.4 of RFC 1035). */
  datatype Name = Name(labels: seq<seq<Byte>>, pointer: Option<U16>)

  datatype Question = Question(name: Name, qtype: U16, qclass: U16)

  datatype Record = Record(name: Name, rtype: U16, rclass: U16, ttlHigh: U16, ttlLow: U16, rdata: seq<Byte>)

  /** `rest` stands for the authority and additional sections. */
  datatype Response = Response(id: U16, flags: U16, questions: seq<Question>, answers: seq<Record>,
                               counts: seq<Byte>, rest: seq<Byte>)

  predicate WellFormedName(n: Name) {
    && (forall i :: 0 <= i < |n.labels| ==> 1 <= |n.labels[i]| < 64)
    && (n.pointer.Some? ==> n.pointer.value >= 0xC000)
  }

  predicate WellFormedQuestions(qs: seq<Question>) { forall i :: 0 <= i < |qs| ==> WellFormedName(qs[i].name) }

  predicate WellFormedRecord(r: Record) { WellFormedName(r.name) && |r.rdata| < 65536 }

  predicate WellFormedRecords(rs: seq<Record>) { forall i :: 0 <= i < |rs| ==> WellFormedRecord(rs[i]) }

  predicate WellFormed(r: Response) {
    && |r.questions| < 65536 && |r.answers| < 65536 && |r.counts| == 4
    && WellFormedQuestions(r.questions) && WellFormedRecords(r.answers)
  }

  function NameBytes(n: Name): seq<Byte>
    requires WellFormedName(n)
    decreases |n.labels|
  {
    if n.labels == [] then (if n.pointer.Some? then Pack(n.pointer.value) else [0])
    else [|n.labels[0]|] + n.labels[0] + NameBytes(Name(n.labels[1..], n.pointer))
  }

  function QuestionBytes(qs: seq<Question>): seq<Byte>
    requires WellFormedQuestions(qs)
  {
    if qs == [] then [] else
      NameBytes(qs[0].name) + (Pack(qs[0].qtype) + Pack(qs[0].qclass)) + QuestionBytes(qs[1..])
  }

  function Fixed(r: Record): seq<Byte>
    requires |r.rdata| < 65536
  {
    Pack(r.rtype) + Pack(r.rclass) + Pack(r.ttlHigh) + Pack(r.ttlLow) + Pack(|r.rdata|)
  }

  function RecordBytes(rs: seq<Record>): seq<Byte>
    requires WellFormedRecords(rs)
  {
    if rs == [] then [] else NameBytes(rs[0].name) + (Fixed(rs[0]) + rs[0].rdata) + RecordBytes(rs[1..])
  }

  function ResponseBytes(r: Response): seq<Byte>
    requires WellFormed(r)
  {
    Pack(r.id) + Pack(r.flags) + Pack(|r.questions|) + Pack(|r.answers|) + r.counts
      + QuestionBytes(r.questions) + RecordBytes(r.answers) + r.rest
  }

  /** The data of the type-A records that carry four bytes, in order (section 3.2.2 of RFC 1035). */
  function Addresses(rs: seq<Record>): seq<seq<Byte>> {
    if rs == [] then []
    else (if rs[0].rtype == 1 && |rs[0].rdata| == 4 then [rs[0].rdata] else []) + Addresses(rs[1..])
  }

  // ---- Reading it back ------------------------------------------------------------------------

  /** A well-formed name is skipped to its very end. */
  lemma {:induction false} SkipsName(data: seq<Byte>, offset: nat, n: Name)
    requires WellFormedName(n) && At(data, offset, NameBytes(n))
    ensures SkipName(data, offset) == Ok(offset + |NameBytes(n)|)
    decreases |n.labels|
  {
    var part := data[offset..offset + |NameBytes(n)|];
    assert part[0] == data[offset];
    if n.labels != [] {
      var rest := Name(n.labels[1..], n.pointer);
      AtSplit(data, offset, [|n.labels[0]|] + n.labels[0], NameBytes(rest));
      SkipsName(data, offset + 1 + |n.labels[0]|, rest);
    }
  }

  lemma {:induction false} SkipsQuestion(data: seq<Byte>, offset: nat, q: Question, rest: seq<Byte>)
    requires WellFormedName(q.name) && At(data, offset, NameBytes(q.name) + (Pack(q.qtype) + Pack(q.qclass)) + rest)
    ensures SkipName(data, offset) == Ok(offset + |NameBytes(q.name)|)
    ensures At(data, offset + |NameBytes(q.name)| + 4, rest)
  {
    var head, fixed := NameBytes(q.name), Pack(q.qtype) + Pack(q.qclass);
    AtSplit(data, offset, head + fixed, rest);
    AtSplit(data, offset, head, fixed);
    SkipsName(data, offset, q.name);
  }

  lemma {:induction false} SkipsMore(data: seq<Byte>, offset: nat, at: nat, count: nat)
    requires count > 0 && SkipName(data, offset) == Ok(at)
    ensures SkipQuestions(data, offset, count) == SkipQuestions(data, at + 4, count - 1)
  {
  }

  lemma {:induction false} SkipsQuestions(data: seq<Byte>, offset: nat, qs: seq<Question>)
    requires WellFormedQuestions(qs)
    requires At(data, offset, QuestionBytes(qs))
    ensures SkipQuestions(data, offset, |qs|) == Ok(offset + |QuestionBytes(qs)|)
    decreases |qs|
  {
    if qs != [] {
      var next := offset + |NameBytes(qs[0].name)| + 4;
      SkipsQuestion(data, offset, qs[0], QuestionBytes(qs[1..]));
      SkipsQuestions(data, next, qs[1..]);
      SkipsMore(data, offset, next - 4, |qs|);
    }
  }

  lemma {:induction false} ReadsRecord(data: seq<Byte>, offset: nat, r: Record)
    requires WellFormedRecord(r) && At(data, offset, NameBytes(r.name) + (Fixed(r) + r.rdata))
    ensures ReadAnswer(data, offset) ==
      Ok(Answer(if r.rtype == 1 && |r.rdata| == 4 then Some(r.rdata) else None,
                offset + |NameBytes(r.name)| + 10 + |r.rdata|))
  {
    var at := offset + |NameBytes(r.name)|;
    AtSplit(data, offset, NameBytes(r.name), Fixed(r) + r.rdata);
    SkipsName(data, offset, r.name);
    AtSplit(data, at, Fixed(r), r.rdata);
    FixedReads(data, at, r);
  }

  lemma {:induction false} FixedReads(data: seq<Byte>, at: nat, r: Record)
    requires |r.rdata| < 65536 && At(data, at, Fixed(r))
    ensures |Fixed(r)| == 10 && Unpack(data, at) == r.rtype && Unpack(data, at + 8) == |r.rdata|
  {
    var three := Pack(r.rclass) + Pack(r.ttlHigh) + Pack(r.ttlLow);
    assert Fixed(r) == Pack(r.rtype) + (three + Pack(|r.rdata|));
    AtSplit(data, at, Pack(r.rtype), three + Pack(|r.rdata|));
    AtSplit(data, at + 2, three, Pack(|r.rdata|));
    PackUnpack(data, at, r.rtype);
    PackUnpack(data, at + 8, |r.rdata|);
  }

  lemma {:induction false} ReadsMore(data: seq<Byte>, offset: nat, count: nat)
    requires count > 0 && ReadAnswer(data, offset).Ok?
    ensures var answer := ReadAnswer(data, offset).value;
      ReadAnswers(data, offset, count) == Prefixed(answer, ReadAnswers(data, answer.next, count - 1))
  {
  }

  lemma {:induction false} ReadsRecords(data: seq<Byte>, offset: nat, rs: seq<Record>)
    requires WellFormedRecords(rs) && At(data, offset, RecordBytes(rs))
    ensures ReadAnswers(data, offset, |rs|) == Ok(Addresses(rs))
    decreases |rs|
  {
    if rs != [] {
      var head := NameBytes(rs[0].name) + (Fixed(rs[0]) + rs[0].rdata);
      AtSplit(data, offset, head, RecordBytes(rs[1..]));
      ReadsRecord(data, offset, rs[0]);
      ReadsRecords(data, offset + |head|, rs[1..]);
      ReadsMore(data, offset, |rs|);
    }
  }

  function HeaderOf(r: Response): (h: seq<Byte>)
    requires WellFormed(r)
    ensures |h| == 12
  {
    Pack(r.id) + Pack(r.flags) + Pack(|r.questions|) + Pack(|r.answers|) + r.counts
  }

  /** Where the sections of a response lie. */
  lemma {:induction false} Layout(data: seq<Byte>, header: seq<Byte>, questions: seq<Byte>, records: seq<Byte>, rest: seq<Byte>)
    requires data == header + questions + records + rest
    ensures At(data, 0, header) && At(data, |header|, questions) && At(data, |header| + |questions|, records)
  {
    assert data == header + (questions + (records + rest));
    assert At(data, 0, data);
    AtSplit(data, 0, header, questions + (records + rest));
    AtSplit(data, |header|, questions, records + rest);
    AtSplit(data, |header| + |questions|, records, rest);
  }

  lemma {:induction false} ReadsSections(data: seq<Byte>, r: Response, at: nat)
    requires WellFormed(r) && |data| >= 12 && Unpack(data, 0) == r.id && data[3] % 16 == 0
    requires Unpack(data, 4) == |r.questions| && Unpack(data, 6) == |r.answers|
    requires At(data, 12, QuestionBytes(r.questions)) && at == 12 + |QuestionBytes(r.questions)|
    requires At(data, at, RecordBytes(r.answers))
    ensures ParseAnswers(data, r.id) == Ok(Addresses(r.answers))
  {
    SkipsQuestions(data, 12, r.questions);
    ReadsRecords(data, at, r.answers);
  }

  /** A response with a zero result code is read as exactly its type-A four-byte
      records, in order, whatever else it holds; any other code is an error. */
  lemma {:induction false} ReadsResponse(r: Response)
    requires WellFormed(r)
    ensures ParseAnswers(ResponseBytes(r), r.id) ==
      if r.flags % 16 == 0 then Ok(Addresses(r.answers)) else Err(ServerError(r.flags % 16))
  {
    var data, questions, records := ResponseBytes(r), QuestionBytes(r.questions), RecordBytes(r.answers);
    var header := HeaderOf(r);
    Layout(data, header, questions, records, r.rest);
    HeaderReads(data, r, header);
    if r.flags % 16 == 0 {
      ReadsSections(data, r, 12 + |questions|);
    }
  }

  lemma {:induction false} HeaderReads(data: seq<Byte>, r: Response, header: seq<Byte>)
    requires WellFormed(r) && At(data, 0, header)
    requires header == Pack(r.id) + Pack(r.flags) + Pack(|r.questions|) + Pack(|r.answers|) + r.counts
    ensures |header| == 12
    ensures Unpack(data, 0) == r.id && data[3] % 16 == r.flags % 16
    ensures Unpack(data, 4) == |r.questions| && Unpack(data, 6) == |r.answers|
  {
    assert data[0..12] == header;
    assert forall i :: 0 <= i < 12 ==> data[i] == data[0..12][i];
  }

  // ---- Any bytes at all, and built queries ---------------------------------------------------------

  /** On any bytes a name that is skipped ends past its start, and past no more than
      two bytes of the data. */
  lemma {:induction false} SkipAdvances(data: seq<Byte>, offset: nat)
    ensures SkipName(data, offset).Ok? ==> offset < SkipName(data, offset).value <= |data| + 1
    decreases |data| - offset
  {
    if offset < |data| && 0 < data[offset] < 0xC0 {
      SkipAdvances(data, offset + 1 + data[offset]);
    }
  }

  /** What is too short for a header, or answers another query, is refused. */
  lemma {:induction false} StrangersRefused(data: seq<Byte>, txid: U16)
    ensures |data| < 12 ==> ParseAnswers(data, txid) == Err(TruncatedHeader)
    ensures |data| >= 12 && Unpack(data, 0) != txid ==> ParseAnswers(data, txid) == Err(IdMismatch)
  {
  }

  // ---- Packets cut short ----------------------------------------------------------------------------

  /** Nothing, or what the whole packet gives. */
  predicate SameOrErr<T(==)>(part: Result<T, DnsError>, whole: Result<T, DnsError>) { part.Err? || part == whole }

  lemma {:induction false} CutName(data: seq<Byte>, n: nat, offset: nat)
    requires n <= |data|
    ensures SameOrErr(SkipName(data[..n], offset), SkipName(data, offset))
    decreases |data| - offset
  {
    if offset < n && 0 < data[offset] < 0xC0 {
      CutName(data, n, offset + 1 + data[offset]);
    }
  }

  lemma {:induction false} CutQuestions(data: seq<Byte>, n: nat, offset: nat, count: nat)
    requires n <= |data|
    ensures SameOrErr(SkipQuestions(data[..n], offset, count), SkipQuestions(data, offset, count))
    decreases count
  {
    if count != 0 {
      CutName(data, n, offset);
      if SkipName(data[..n], offset).Ok? {
        CutQuestions(data, n, SkipName(data, offset).value + 4, count - 1);
      }
    }
  }

  lemma {:induction false} CutUnpack(data: seq<Byte>, n: nat, at: nat)
    requires at + 2 <= n <= |data|
    ensures Unpack(data[..n], at) == Unpack(data, at)
  {
  }

  /** A record cut before the end of its fixed part, or of the address it holds, is refused. */
  lemma {:induction false} CutAnswer(data: seq<Byte>, n: nat, offset: nat)
    requires n <= |data|
    ensures SameOrErr(ReadAnswer(data[..n], offset), ReadAnswer(data, offset))
    ensures ReadAnswer(data, offset).Ok? && ReadAnswer(data, offset).value.address.Some? && n < ReadAnswer(data, offset).value.next
      ==> ReadAnswer(data[..n], offset).Err?
    ensures SkipName(data, offset).Ok? && n < SkipName(data, offset).value + 10 ==> ReadAnswer(data[..n], offset).Err?
  {
    CutName(data, n, offset);
    if SkipName(data[..n], offset).Ok? && SkipName(data, offset).value + 10 <= n {
      var at := SkipName(data, offset).value;
      CutUnpack(data, n, at);
      CutUnpack(data, n, at + 8);
      if at + 14 <= n {
        assert data[..n][at + 10..at + 14] == data[at + 10..at + 14];
      }
    }
  }

  lemma {:induction false} CutAnswers(data: seq<Byte>, n: nat, offset: nat, count: nat)
    requires n <= |data|
    ensures SameOrErr(ReadAnswers(data[..n], offset, count), ReadAnswers(data, offset, count))
    decreases count
  {
    if count != 0 {
      CutAnswer(data, n, offset);
      if ReadAnswer(data[..n], offset).Ok? {
        CutAnswers(data, n, ReadAnswer(data, offset).value.next, count - 1);
      }
    }
  }

  /** A packet cut anywhere gives an error or exactly what the whole packet gives. */
  lemma {:induction false} CutReadsSame(data: seq<Byte>, n: nat, txid: U16)
    requires n <= |data|
    ensures SameOrErr(ParseAnswers(data[..n], txid), ParseAnswers(data, txid))
  {
    if n >= 12 {
      CutUnpack(data, n, 0);
      CutUnpack(data, n, 4);
      CutUnpack(data, n, 6);
      CutQuestions(data, n, 12, Unpack(data, 4));
      if SkipQuestions(data[..n], 12, Unpack(data, 4)).Ok? {
        CutAnswers(data, n, SkipQuestions(data, 12, Unpack(data, 4)).value, Unpack(data, 6));
      }
    }
  }

  // ---- What a built query asks -----------------------------------------------------------------------

  lemma {:induction false} WireName(labels: seq<Label>)
    requires forall i :: 0 <= i < |labels| ==> 1 <= |labels[i]| <= 63
    ensures NameBytes(Name(labels, None)) == LabelBytes(labels) + [0]
    decreases |labels|
  {
    if labels != [] {
      WireName(labels[1..]);
    }
  }

  /** One question for the address of the named host (sections 4.1.2, 3.2.2 and 3.2.4 of RFC 1035). */
  function AddressQuestion(labels: seq<Label>): Question { Question(Name(labels, None), 1, 1) }

  lemma {:induction false} QuestionWire(labels: seq<Label>)
    requires forall i :: 0 <= i < |labels| ==> 1 <= |labels[i]| <= 63
    ensures QuestionBytes([AddressQuestion(labels)]) == LabelBytes(labels) + [0] + (Pack(1) + Pack(1))
  {
    WireName(labels);
    assert [AddressQuestion(labels)][1..] == [];
  }

  /** A built query: its id, recursion desired, one question and nothing else. */
  lemma {:induction false} QueryHeader(labels: seq<Label>, txid: U16)
    ensures var data := QueryOf(labels, txid);
      && |data| >= 16
      && Unpack(data, 0) == txid && Unpack(data, 2) == 0x0100
      && Unpack(data, 4) == 1 && Unpack(data, 6) == 0 && Unpack(data, 8) == 0 && Unpack(data, 10) == 0
      && data[2..12] == [1, 0, 0, 1, 0, 0, 0, 0, 0, 0]
  {
    var data := QueryOf(labels, txid);
    var rest := LabelBytes(labels) + [0] + Pack(QTYPE_A) + Pack(QCLASS_IN);
    var counts := Pack(1) + Pack(0) + Pack(0) + Pack(0);
    assert data == Pack(txid) + Pack(0x0100) + counts + rest;
    assert data[..12] == Pack(txid) + Pack(0x0100) + counts;
    assert forall i :: 0 <= i < 12 ==> data[i] == data[..12][i];
  }

  lemma {:induction false} QueryQuestion(labels: seq<Label>, txid: U16)
    requires forall i :: 0 <= i < |labels| ==> 1 <= |labels[i]| <= 63
    ensures var data := QueryOf(labels, txid);
      |data| >= 16 && data[12..] == QuestionBytes([AddressQuestion(labels)]) && data[|data| - 4..] == [0, 1, 0, 1]
  {
    var header := Pack(txid) + Pack(0x0100) + Pack(1) + Pack(0) + Pack(0) + Pack(0);
    QuestionWire(labels);
    assert QueryOf(labels, txid) == header + (LabelBytes(labels) + [0] + (Pack(QTYPE_A) + Pack(QCLASS_IN)));
  }

  /** Trailing dots are not part of the name, all other characters are. */
  lemma {:induction false} StripsDots(name: string)
    ensures StripDots(name) <= name && (StripDots(name) != "" ==> StripDots(name)[|StripDots(name)| - 1] != '.')
    ensures forall i :: |StripDots(name)| <= i < |name| ==> name[i] == '.'
    decreases |name|
  {
    if name != "" && name[|name| - 1] == '.' {
      StripsDots(name[..|name| - 1]);
    }
  }

  /** A query built for a name asks one question: for the address of the host whose labels
      are the encoded parts between the dots, in order. */
  lemma {:induction false} QueryAsks(idna: string -> Option<seq<Byte>>, name: string, txid: U16, labels: seq<Label>)
    requires BuildQuery(idna, name, txid).Ok?
    requires var parts := Split(StripDots(name), '.');
      |labels| == |parts| && forall i :: 0 <= i < |parts| ==> idna(parts[i]) == Some(labels[i])
    ensures var data := BuildQuery(idna, name, txid).value;
      && |data| >= 16 && Unpack(data, 0) == txid && Unpack(data, 2) == 0x0100
      && Unpack(data, 4) == 1 && Unpack(data, 6) == 0 && Unpack(data, 8) == 0 && Unpack(data, 10) == 0
      && ((forall i :: 0 <= i < |labels| ==> 1 <= |labels[i]| <= 63) ==> data[12..] == QuestionBytes([AddressQuestion(labels)]))
  {
    var parts := Split(StripDots(name), '.');
    EncodedParts(idna, parts);
    assert forall i :: 0 <= i < |parts| ==> Encoded(idna, parts).value[i] == labels[i];
    assert Encoded(idna, parts).value == labels;
    QueryHeader(labels, txid);
    if forall i :: 0 <= i < |labels| ==> 1 <= |labels[i]| <= 63 {
      QueryQuestion(labels, txid);
    }
  }

  // ---- Where the name of a built query ends ------------------------------------------------------------

  /** A length byte that `SkipName` takes for the length of a label. */
  predicate Plain(l: Label) { 1 <= |l| < 0xC0 }

  ghost predicate AllPlain(labels: seq<Label>) { forall i :: 0 <= i < |labels| ==> Plain(labels[i]) }

  /** In a built query the name is skipped to exactly four bytes before the end if and
      only if every label of the name has 1 to 191 bytes. */
  lemma {:induction false} SkipOverQuery(labels: seq<Label>, txid: U16)
    ensures SkipName(QueryOf(labels, txid), 12) == Ok(|QueryOf(labels, txid)| - 4) <==> AllPlain(labels)
  {
    var data := QueryOf(labels, txid);
    var header := Pack(txid) + Pack(0x0100) + Pack(1) + Pack(0) + Pack(0) + Pack(0);
    var tail := Pack(QTYPE_A) + Pack(QCLASS_IN);
    assert data == header + (LabelBytes(labels) + [0]) + tail;
    assert At(data, 0, data);
    AtSplit(data, 0, header + (LabelBytes(labels) + [0]), tail);
    AtSplit(data, 0, header, LabelBytes(labels) + [0]);
    SkipsLabels(data, 12, labels);
  }

  lemma {:induction false} EncodedParts(idna: string -> Option<seq<Byte>>, parts: seq<string>)
    requires Encoded(idna, parts).Ok?
    ensures |Encoded(idna, parts).value| == |parts|
    ensures forall i :: 0 <= i < |parts| ==> idna(parts[i]) == Some(Encoded(idna, parts).value[i])
    decreases |parts|
  {
    if parts != [] {
      EncodedParts(idna, parts[1..]);
    }
  }

  /** A part of a name the query can carry: not empty, and not encoded to a length that
      reads as a pointer. */
  ghost predicate Carried(idna: string -> Option<seq<Byte>>, part: string) {
    part != "" && idna(part).Some? && |idna(part).value| < 0xC0
  }

  ghost predicate AllCarried(idna: string -> Option<seq<Byte>>, parts: seq<string>) {
    forall i :: 0 <= i < |parts| ==> Carried(idna, parts[i])
  }

  lemma {:induction false} CarriedArePlain(idna: string -> Option<seq<Byte>>, parts: seq<string>, labels: seq<Label>)
    requires forall s :: idna(s).Some? ==> (idna(s).value == [] <==> s == "")
    requires |labels| == |parts| && forall i :: 0 <= i < |parts| ==> idna(parts[i]) == Some(labels[i])
    ensures AllPlain(labels) <==> AllCarried(idna, parts)
  {
    forall i | 0 <= i < |parts| ensures Plain(labels[i]) <==> Carried(idna, parts[i]) {
      assert idna(parts[i]) == Some(labels[i]);
    }
  }

  /** Whenever a query is built for a name, its name is skipped to four bytes before the
      end if and only if no part between the dots is empty or encoded to 192 bytes or more. */
  lemma {:induction false} SkipOverBuiltQuery(idna: string -> Option<seq<Byte>>, name: string, txid: U16)
    requires forall s :: idna(s).Some? ==> (idna(s).value == [] <==> s == "")
    requires BuildQuery(idna, name, txid).Ok?
    ensures var query := BuildQuery(idna, name, txid).value;
      SkipName(query, 12) == Ok(|query| - 4) <==> AllCarried(idna, Split(StripDots(name), '.'))
  {
    var parts := Split(StripDots(name), '.');
    var labels := Encoded(idna, parts).value;
    EncodedParts(idna, parts);
    CarriedArePlain(idna, parts, labels);
    SkipOverQuery(labels, txid);
  }

  /** A name whose first part encodes to nothing, or to 192 bytes or more, is taken to
      end, or to be a pointer, right at its start. */
  lemma {:induction false} FirstPartDecides(labels: seq<Label>, txid: U16)
    requires labels != [] && !Plain(labels[0])
    ensures SkipName(QueryOf(labels, txid), 12) == Ok(if labels[0] == [] then 13 else 14)
    ensures SkipName(QueryOf(labels, txid), 12) != Ok(|QueryOf(labels, txid)| - 4)
  {
    var header := Pack(txid) + Pack(0x0100) + Pack(1) + Pack(0) + Pack(0) + Pack(0);
    assert QueryOf(labels, txid)[|header|] == LabelBytes(labels)[0] == |labels[0]|;
    SkipOverQuery(labels, txid);
  }

  lemma {:induction false} EncodedFirst(idna: string -> Option<seq<Byte>>, part: string, rest: seq<string>)
    requires idna(part).Some? && |idna(part).value| < 256 && Encoded(idna, rest).Ok?
    ensures Encoded(idna, [part] + rest) == Ok([idna(part).value] + Encoded(idna, rest).value)
  {
    assert ([part] + rest)[1..] == rest;
  }

  lemma {:induction false} UndottedEnd(name: string)
    requires name != "" && name[|name| - 1] != '.'
    ensures StripDots(name) == name
  {
  }

  /** A name that begins with a dot: the query is built, and its name ends at once. */
  lemma {:induction false} EmptyPartEndsName(idna: string -> Option<seq<Byte>>, part: string, txid: U16)
    requires part != "" && Free(part, '.')
    requires idna("") == Some([]) && idna(part).Some? && |idna(part).value| < 256
    ensures BuildQuery(idna, "." + part, txid).Ok?
    ensures var query := BuildQuery(idna, "." + part, txid).value; SkipName(query, 12) == Ok(13) != Ok(|query| - 4)
  {
    UndottedEnd("." + part);
    SplitFree(part, '.');
    assert ("." + part)[1..] == part;
    assert Split("." + part, '.') == [""] + ([part] + []);
    EncodedFirst(idna, part, []);
    EncodedFirst(idna, "", [part] + []);
    FirstPartDecides([[]] + ([idna(part).value] + []), txid);
  }

  /** A part that encodes to 192 bytes or more: the query is built, and its name reads as a pointer. */
  lemma {:induction false} LongPartIsPointer(idna: string -> Option<seq<Byte>>, part: string, txid: U16)
    requires part != "" && Free(part, '.') && idna(part).Some? && 0xC0 <= |idna(part).value| < 256
    ensures BuildQuery(idna, part, txid).Ok?
    ensures var query := BuildQuery(idna, part, txid).value; SkipName(query, 12) == Ok(14) != Ok(|query| - 4)
  {
    UndottedEnd(part);
    SplitFree(part, '.');
    assert Split(part, '.') == [part] + [];
    EncodedFirst(idna, part, []);
    FirstPartDecides([idna(part).value] + [], txid);
  }

  lemma {:induction false} SkipsLabels(data: seq<Byte>, offset: nat, labels: seq<Label>)
    requires At(data, offset, LabelBytes(labels) + [0])
    ensures SkipName(data, offset).Ok?
    ensures var end := offset + |LabelBytes(labels)| + 1;
      && SkipName(data, offset).value <= end
      && (SkipName(data, offset).value == end <==> AllPlain(labels))
    decreases |labels|
  {
    var part := data[offset..offset + |LabelBytes(labels) + [0]|];
    assert part[0] == data[offset];
    if labels != [] {
      var head := [|labels[0]|] + labels[0];
      assert LabelBytes(labels) + [0] == head + (LabelBytes(labels[1..]) + [0]);
      AtSplit(data, offset, head, LabelBytes(labels[1..]) + [0]);
      if Plain(labels[0]) {
        SkipsLabels(data, offset + |head|, labels[1..]);
      }
    }
  }
}
