/** Messages of the IP Flow Information Export protocol (sections 3 and 7 of RFC 7011), as an
    exporter writes them and as a collector that knows nothing but the templates it has been sent
    reads them. The collector takes options templates without scope fields, which section 3.4.2.2 rules
    out; a strict one refuses them. */
module Ipfix {
  import opened Bytes
  import opened Wrappers

  /* What a message holds */

  const VARIABLE := 0xFFFF

  // An element of a template: its number, its length in bytes (or VARIABLE), and its owner.
  datatype Element =
    | Standard(id: nat, length: nat)
    | Enterprise(id: nat, length: nat, owner: nat)

  type Value = seq<Byte>
  type Record = seq<Value>
  type Templates = map<nat, seq<Element>>

  datatype Set =
    | Template(link: nat, elements: seq<Element>)
    | OptionsTemplate(link: nat, scope: nat, elements: seq<Element>)
    | Data(link: nat, records: seq<Record>)

  function Lengths(elements: seq<Element>): (r: seq<nat>)
    ensures |r| == |elements|
  {
    if elements == [] then [] else [elements[0].length] + Lengths(elements[1..])
  }

  function After(templates: Templates, s: Set): Templates {
    if s.Data? then templates else templates[s.link := s.elements]
  }

  function AfterAll(templates: Templates, sets: seq<Set>): Templates
    decreases |sets|
  {
    if sets == [] then templates else AfterAll(After(templates, sets[0]), sets[1..])
  }

  /* Writing */

  function Pad(n: nat): (r: nat)
    ensures r < 4 && (n + r) % 4 == 0
  {
    (n + 3) / 4 * 4 - n
  }

  function Zeros(n: nat): (r: seq<Byte>)
    ensures |r| == n
  {
    seq(n, i => 0)
  }

  predicate Fits(length: nat, value: Value) {
    if length == VARIABLE then |value| <= 254 else |value| == length
  }

  predicate RecordFits(lengths: seq<nat>, record: Record) {
    |lengths| == |record| && forall i | 0 <= i < |lengths| :: Fits(lengths[i], record[i])
  }

  function WriteValue(length: nat, value: Value): seq<Byte>
    requires Fits(length, value)
  {
    if length == VARIABLE then [|value|] + value else value
  }

  function WriteRecord(lengths: seq<nat>, record: Record): seq<Byte>
    requires RecordFits(lengths, record)
  {
    if lengths == [] then []
    else WriteValue(lengths[0], record[0]) + WriteRecord(lengths[1..], record[1..])
  }

  function WriteRecords(lengths: seq<nat>, records: seq<Record>): seq<Byte>
    requires forall r <- records :: RecordFits(lengths, r)
  {
    if records == [] then [] else WriteRecord(lengths, records[0]) + WriteRecords(lengths, records[1..])
  }

  function WriteElement(e: Element): seq<Byte> {
    match e
    case Standard(id, length) => U16(id) + U16(length)
    case Enterprise(id, length, owner) => U16(0x8000 + id) + U16(length) + U32(owner)
  }

  function WriteElements(elements: seq<Element>): seq<Byte> {
    if elements == [] then [] else WriteElement(elements[0]) + WriteElements(elements[1..])
  }

  function SetId(s: Set): nat {
    match s
    case Template(_, _) => 2
    case OptionsTemplate(_, _, _) => 3
    case Data(link, _) => link
  }

  predicate ElementFits(e: Element) {
    e.id < 0x8000 && e.length < 0x1_0000 && (e.Enterprise? ==> e.owner < 0x1_0000_0000)
  }

  // A set that can be written, given the templates in force.
  ghost predicate SetFits(templates: Templates, s: Set) {
    && s.link < 0x1_0000
    && match s
       case Data(link, records) =>
         link >= 0x100 && link in templates
         && Least(Lengths(templates[link])) >= 4 && (forall r <- records :: RecordFits(Lengths(templates[link]), r))
       case _ =>
         && |s.elements| < 0x1_0000 && (forall e <- s.elements :: ElementFits(e))
         && (s.OptionsTemplate? ==> s.scope < 0x1_0000)
  }

  function Content(templates: Templates, s: Set): seq<Byte>
    requires SetFits(templates, s)
  {
    match s
    case Template(link, elements) => U16(link) + U16(|elements|) + WriteElements(elements)
    case OptionsTemplate(link, scope, elements) =>
      U16(link) + U16(|elements|) + U16(scope) + WriteElements(elements)
    case Data(link, records) => WriteRecords(Lengths(templates[link]), records)
  }

  // A set with its header, padded to a whole number of words; the length covers the padding.
  function WithHeader(id: nat, content: seq<Byte>): (r: seq<Byte>)
    ensures |r| == 4 + |content| + Pad(|content|) && |r| % 4 == 0
  {
    U16(id) + U16(4 + |content| + Pad(|content|)) + content + Zeros(Pad(|content|))
  }

  function WriteSet(templates: Templates, s: Set): seq<Byte>
    requires SetFits(templates, s)
  {
    WithHeader(SetId(s), Content(templates, s))
  }

  ghost predicate AllFit(templates: Templates, sets: seq<Set>)
    decreases |sets|
  {
    sets == [] || (SetFits(templates, sets[0]) && |WriteSet(templates, sets[0])| < 0x1_0000
                   && AllFit(After(templates, sets[0]), sets[1..]))
  }

  function WriteSets(templates: Templates, sets: seq<Set>): seq<Byte>
    requires AllFit(templates, sets)
    decreases |sets|
  {
    if sets == [] then []
    else WriteSet(templates, sets[0]) + WriteSets(After(templates, sets[0]), sets[1..])
  }

  datatype Header = Header(time: int, sequence: nat, observation: nat)

  function WriteMessage(header: Header, body: seq<Byte>): (r: seq<Byte>)
    ensures |r| == 16 + |body|
  {
    U16(10) + U16(16 + |body|) + U32(header.time) + U32(header.sequence) + U32(header.observation) + body
  }

  /* Reading */

  // The fewest bytes a record can take.
  function Least(lengths: seq<nat>): nat {
    if lengths == [] then 0
    else (if lengths[0] == VARIABLE then 1 else lengths[0]) + Least(lengths[1..])
  }

  function ReadValue(length: nat, bytes: seq<Byte>): (r: Option<(Value, seq<Byte>)>)
    ensures r.Some? ==> |r.value.1| + (if length == VARIABLE then 1 else length) <= |bytes|
  {
    if length != VARIABLE then
      if |bytes| < length then None else Some((bytes[..length], bytes[length..]))
    else if bytes == [] then None
    else if bytes[0] < 0xFF then
      var n := 1 + bytes[0];
      if |bytes| < n then None else Some((bytes[1..n], bytes[n..]))
    else if |bytes| < 3 then None
    else
      var n := 3 + Bytes.Value(bytes[1..3]);
      if |bytes| < n then None else Some((bytes[3..n], bytes[n..]))
  }

  function ReadRecord(lengths: seq<nat>, bytes: seq<Byte>): (r: Option<(Record, seq<Byte>)>)
    ensures r.Some? ==> |r.value.1| + Least(lengths) <= |bytes|
  {
    if lengths == [] then Some(([], bytes))
    else match ReadValue(lengths[0], bytes)
         case None => None
         case Some((value, rest)) =>
           match ReadRecord(lengths[1..], rest)
           case None => None
           case Some((record, rest)) => Some(([value] + record, rest))
  }

  // Records until fewer bytes are left than any record takes: those are padding.
  function ReadRecords(lengths: seq<nat>, bytes: seq<Byte>): Option<seq<Record>>
    decreases |bytes|
  {
    if Least(lengths) == 0 then None
    else if |bytes| < Least(lengths) then Some([])
    else match ReadRecord(lengths, bytes)
         case None => None
         case Some((record, rest)) =>
           match ReadRecords(lengths, rest)
           case None => None
           case Some(records) => Some([record] + records)
  }

  function ReadElement(bytes: seq<Byte>): Option<(Element, seq<Byte>)> {
    if |bytes| < 4 then None
    else
      var id, length := Bytes.Value(bytes[..2]), Bytes.Value(bytes[2..4]);
      if id < 0x8000 then Some((Standard(id, length), bytes[4..]))
      else if |bytes| < 8 then None
      else Some((Enterprise(id - 0x8000, length, Bytes.Value(bytes[4..8])), bytes[8..]))
  }

  function ReadElements(count: nat, bytes: seq<Byte>): (r: Option<(seq<Element>, seq<Byte>)>) {
    if count == 0 then Some(([], bytes))
    else match ReadElement(bytes)
         case None => None
         case Some((e, rest)) =>
           match ReadElements(count - 1, rest)
           case None => None
           case Some((elements, rest)) => Some(([e] + elements, rest))
  }

  // One template, and less than a word of padding.
  function ReadTemplate(bytes: seq<Byte>, header: nat): (r: Option<(nat, seq<Element>)>)
    requires header >= 4
    ensures r.Some? ==> header <= |bytes|
  {
    if |bytes| < header then None
    else match ReadElements(Bytes.Value(bytes[2..4]), bytes[header..])
         case None => None
         case Some((elements, rest)) =>
           if |rest| < 4 then Some((Bytes.Value(bytes[..2]), elements)) else None
  }

  function ReadContent(templates: Templates, id: nat, content: seq<Byte>): Option<Set> {
    if id == 2 then
      match ReadTemplate(content, 4)
      case None => None
      case Some((link, elements)) => Some(Template(link, elements))
    else if id == 3 then
      match ReadTemplate(content, 6)
      case None => None
      case Some((link, elements)) => Some(OptionsTemplate(link, Bytes.Value(content[4..6]), elements))
    else if id < 0x100 || id !in templates then None
    else match ReadRecords(Lengths(templates[id]), content)
         case None => None
         case Some(records) => Some(Data(id, records))
  }

  function ReadSets(templates: Templates, bytes: seq<Byte>): Option<seq<Set>>
    decreases |bytes|
  {
    if bytes == [] then Some([])
    else if |bytes| < 4 then None
    else
      var length := Bytes.Value(bytes[2..4]);
      if length < 4 || |bytes| < length then None
      else match ReadContent(templates, Bytes.Value(bytes[..2]), bytes[4..length])
           case None => None
           case Some(s) =>
             match ReadSets(After(templates, s), bytes[length..])
             case None => None
             case Some(sets) => Some([s] + sets)
  }

  // A message must be of version 10 and exactly as long as it says.
  function ReadMessage(templates: Templates, bytes: seq<Byte>): Option<(Header, seq<Set>)> {
    if |bytes| < 16 || Bytes.Value(bytes[..2]) != 10 || Bytes.Value(bytes[2..4]) != |bytes| then None
    else
      var header := Header(Bytes.Value(bytes[4..8]), Bytes.Value(bytes[8..12]), Bytes.Value(bytes[12..16]));
      match ReadSets(templates, bytes[16..])
      case None => None
      case Some(sets) => Some((header, sets))
  }

  // Some of the fields of an options template are its scope.
  predicate Conforms(s: Set) {
    s.OptionsTemplate? ==> 0 < s.scope <= |s.elements|
  }

  // What a collector reads that takes the standard at its word.
  function ReadStrictly(templates: Templates, bytes: seq<Byte>): Option<(Header, seq<Set>)> {
    match ReadMessage(templates, bytes)
    case None => None
    case Some((header, sets)) => if forall s <- sets :: Conforms(s) then Some((header, sets)) else None
  }

  /* Reading undoes writing */

  lemma ValueIsRead(length: nat, value: Value, rest: seq<Byte>)
    requires Fits(length, value)
    ensures ReadValue(length, WriteValue(length, value) + rest) == Some((value, rest))
  {
    var bytes := WriteValue(length, value) + rest;
    if length == VARIABLE {
      assert bytes[1..1 + |value|] == value && bytes[1 + |value|..] == rest;
    } else {
      assert bytes[..length] == value && bytes[length..] == rest;
    }
  }

  lemma {:induction false} RecordIsRead(lengths: seq<nat>, record: Record, rest: seq<Byte>)
    requires RecordFits(lengths, record)
    ensures ReadRecord(lengths, WriteRecord(lengths, record) + rest) == Some((record, rest))
  {
    hide ReadValue, WriteValue, Fits;
    if lengths == [] {
      assert WriteRecord(lengths, record) + rest == rest;
    } else {
      var tail := WriteRecord(lengths[1..], record[1..]);
      RecordIsRead(lengths[1..], record[1..], rest);
      ValueIsRead(lengths[0], record[0], tail + rest);
      assert WriteRecord(lengths, record) + rest == WriteValue(lengths[0], record[0]) + (tail + rest);
      assert [record[0]] + record[1..] == record;
    }
  }

  lemma {:induction false} RecordIsLong(lengths: seq<nat>, record: Record)
    requires RecordFits(lengths, record)
    ensures |WriteRecord(lengths, record)| >= Least(lengths)
  {
    if lengths != [] {
      RecordIsLong(lengths[1..], record[1..]);
    }
  }

  lemma ReadFirstRecord(lengths: seq<nat>, bytes: seq<Byte>, record: Record, rest: seq<Byte>, records: seq<Record>)
    requires 0 < Least(lengths) <= |bytes| && ReadRecord(lengths, bytes) == Some((record, rest))
    requires ReadRecords(lengths, rest) == Some(records)
    ensures ReadRecords(lengths, bytes) == Some([record] + records)
  {
    hide ReadRecord, Least;
  }

  lemma {:induction false} RecordsAreRead(lengths: seq<nat>, records: seq<Record>, padding: seq<Byte>)
    requires forall r <- records :: RecordFits(lengths, r)
    requires |padding| < Least(lengths)
    ensures ReadRecords(lengths, WriteRecords(lengths, records) + padding) == Some(records)
  {
    hide ReadRecord, WriteRecord, RecordFits, Least;
    if records == [] {
      assert WriteRecords(lengths, records) + padding == padding;
    } else {
      var tail := WriteRecords(lengths, records[1..]);
      RecordsAreRead(lengths, records[1..], padding);
      RecordIsRead(lengths, records[0], tail + padding);
      RecordIsLong(lengths, records[0]);
      assert WriteRecords(lengths, records) + padding == WriteRecord(lengths, records[0]) + (tail + padding);
      ReadFirstRecord(lengths, WriteRecords(lengths, records) + padding, records[0], tail + padding, records[1..]);
      assert [records[0]] + records[1..] == records;
    }
  }

  lemma Parts(a: seq<Byte>, b: seq<Byte>, c: seq<Byte>)
    ensures (a + b + c)[..|a|] == a
    ensures (a + b + c)[|a|..|a| + |b|] == b
    ensures (a + b + c)[|a| + |b|..] == c
  {
  }

  lemma ElementIsRead(e: Element, rest: seq<Byte>)
    requires ElementFits(e)
    ensures ReadElement(WriteElement(e) + rest) == Some((e, rest))
  {
    hide U16, U32, Bytes.Value;
    ValueOfU16(e.length);
    match e {
      case Standard(id, length) =>
        ValueOfU16(id);
        Parts(U16(id), U16(length), rest);
      case Enterprise(id, length, owner) =>
        ValueOfU16(0x8000 + id);
        ValueOfU32(owner);
        Parts(U16(0x8000 + id), U16(length), U32(owner) + rest);
        Parts(U16(0x8000 + id) + U16(length), U32(owner), rest);
        assert WriteElement(e) + rest == U16(0x8000 + id) + U16(length) + (U32(owner) + rest);
    }
  }

  lemma {:induction false} ElementsAreRead(elements: seq<Element>, rest: seq<Byte>)
    requires forall e <- elements :: ElementFits(e)
    ensures ReadElements(|elements|, WriteElements(elements) + rest) == Some((elements, rest))
  {
    hide ElementFits, WriteElement, ReadElement, ReadElements;
    if elements == [] {
      ReadNoElement(WriteElements(elements) + rest);
      assert WriteElements(elements) + rest == rest;
    } else {
      var e, tail := elements[0], WriteElements(elements[1..]);
      ElementsAreRead(elements[1..], rest);
      ElementIsRead(e, tail + rest);
      assert WriteElements(elements) + rest == WriteElement(e) + (tail + rest);
      ReadFirstElement(WriteElements(elements) + rest, e, tail + rest, elements[1..], rest);
      assert [e] + elements[1..] == elements;
    }
  }

  lemma ReadNoElement(bytes: seq<Byte>)
    ensures ReadElements(0, bytes) == Some(([], bytes))
  {
  }

  lemma ReadFirstElement(bytes: seq<Byte>, e: Element, tail: seq<Byte>, elements: seq<Element>, rest: seq<Byte>)
    requires ReadElement(bytes) == Some((e, tail)) && ReadElements(|elements|, tail) == Some((elements, rest))
    ensures ReadElements(|elements| + 1, bytes) == Some(([e] + elements, rest))
  {
    hide ReadElement;
  }

  // A template with the bytes between its header and its elements, of which an options template has two.
  lemma TemplateIsRead(link: nat, elements: seq<Element>, extra: seq<Byte>, padding: seq<Byte>)
    requires link < 0x1_0000 && |elements| < 0x1_0000 && (forall e <- elements :: ElementFits(e)) && |padding| < 4
    ensures var bytes := U16(link) + U16(|elements|) + extra + WriteElements(elements) + padding;
            ReadTemplate(bytes, 4 + |extra|) == Some((link, elements)) && bytes[4..4 + |extra|] == extra
  {
    hide U16, Bytes.Value, WriteElements, ReadElements, ElementFits, ReadTemplate;
    ValueOfU16(link);
    ValueOfU16(|elements|);
    ElementsAreRead(elements, padding);
    Grouped(U16(link), U16(|elements|), extra, WriteElements(elements), padding);
    PartsOfTemplate(U16(link), U16(|elements|), extra, WriteElements(elements) + padding, elements, padding);
  }

  lemma PartsOfTemplate(link: seq<Byte>, count: seq<Byte>, extra: seq<Byte>, rest: seq<Byte>, elements: seq<Element>,
                        padding: seq<Byte>)
    requires |link| == |count| == 2 && |padding| < 4
    requires ReadElements(Bytes.Value(count), rest) == Some((elements, padding))
    ensures var bytes := link + count + extra + rest;
            ReadTemplate(bytes, 4 + |extra|) == Some((Bytes.Value(link), elements)) && bytes[4..4 + |extra|] == extra
  {
    hide Bytes.Value, ReadElements;
    assert link + count + extra + rest == link + count + (extra + rest);
    Parts(link, count, extra + rest);
    Parts(link + count, extra, rest);
  }

  lemma Grouped(a: seq<Byte>, b: seq<Byte>, c: seq<Byte>, d: seq<Byte>, e: seq<Byte>)
    ensures a + b + c + d + e == a + b + c + (d + e)
  {
  }

  lemma ContentIsRead(templates: Templates, s: Set, padding: seq<Byte>)
    requires SetFits(templates, s) && |padding| < 4
    ensures ReadContent(templates, SetId(s), Content(templates, s) + padding) == Some(s)
  {
    hide U16, Bytes.Value, WriteElements, ReadElements, WriteRecords, ReadRecords, ReadTemplate, ElementFits, Least;
    var bytes := Content(templates, s) + padding;
    match s {
      case Data(link, records) =>
        RecordsAreRead(Lengths(templates[link]), records, padding);
      case Template(link, elements) =>
        TemplateIsRead(link, elements, [], padding);
        assert bytes == U16(link) + U16(|elements|) + [] + WriteElements(elements) + padding;
      case OptionsTemplate(link, scope, elements) =>
        ValueOfU16(scope);
        TemplateIsRead(link, elements, U16(scope), padding);
    }
  }

  lemma HeaderIsRead(id: nat, content: seq<Byte>, rest: seq<Byte>)
    requires id < 0x1_0000 && |WithHeader(id, content)| < 0x1_0000
    ensures var bytes, length := WithHeader(id, content) + rest, |WithHeader(id, content)|;
            && Bytes.Value(bytes[..2]) == id && Bytes.Value(bytes[2..4]) == length
            && bytes[4..length] == content + Zeros(Pad(|content|)) && bytes[length..] == rest
  {
    hide U16, Bytes.Value, Zeros, Pad;
    var zeros, length := Zeros(Pad(|content|)), |WithHeader(id, content)|;
    ValueOfU16(id);
    ValueOfU16(length);
    Parts(U16(id), U16(length), content + zeros + rest);
    Parts(U16(id) + U16(length), content + zeros, rest);
    assert WithHeader(id, content) + rest == U16(id) + U16(length) + (content + zeros + rest);
    assert WithHeader(id, content) + rest == U16(id) + U16(length) + (content + zeros) + rest;
  }

  lemma {:induction false} SetsAreRead(templates: Templates, sets: seq<Set>)
    requires AllFit(templates, sets)
    ensures ReadSets(templates, WriteSets(templates, sets)) == Some(sets)
    decreases |sets|
  {
    hide WriteSet, ReadSets, SetFits, After, WriteSets, AllFit;
    if sets == [] {
      NoSets(templates);
    } else {
      FirstFits(templates, sets);
      var templates' := After(templates, sets[0]);
      SetsAreRead(templates', sets[1..]);
      SetIsRead(templates, sets[0], WriteSets(templates', sets[1..]), sets[1..]);
      assert [sets[0]] + sets[1..] == sets;
    }
  }

  lemma NoSets(templates: Templates)
    ensures AllFit(templates, []) && WriteSets(templates, []) == [] && ReadSets(templates, []) == Some([])
  {
  }

  lemma FirstFits(templates: Templates, sets: seq<Set>)
    requires AllFit(templates, sets) && sets != []
    ensures SetFits(templates, sets[0]) && |WriteSet(templates, sets[0])| < 0x1_0000
    ensures AllFit(After(templates, sets[0]), sets[1..])
    ensures WriteSets(templates, sets)
            == WriteSet(templates, sets[0]) + WriteSets(After(templates, sets[0]), sets[1..])
  {
    hide WriteSet, SetFits, After;
  }

  lemma SetIsRead(templates: Templates, s: Set, bytes: seq<Byte>, sets: seq<Set>)
    requires SetFits(templates, s) && |WriteSet(templates, s)| < 0x1_0000
    requires ReadSets(After(templates, s), bytes) == Some(sets)
    ensures ReadSets(templates, WriteSet(templates, s) + bytes) == Some([s] + sets)
  {
    hide WithHeader, Bytes.Value, Content, ReadContent, SetFits, SetId, After;
    var content := Content(templates, s);
    ContentIsRead(templates, s, Zeros(Pad(|content|)));
    IdIsSmall(templates, s);
    HeaderIsRead(SetId(s), content, bytes);
  }

  lemma IdIsSmall(templates: Templates, s: Set)
    requires SetFits(templates, s)
    ensures SetId(s) < 0x1_0000
  {
  }

  // A collector that knows the templates in force reads back every set of a message.
  lemma MessageIsRead(templates: Templates, header: Header, sets: seq<Set>)
    requires AllFit(templates, sets) && 16 + |WriteSets(templates, sets)| < 0x1_0000
    requires header.sequence < 0x1_0000_0000 && header.observation < 0x1_0000_0000
    ensures ReadMessage(templates, WriteMessage(header, WriteSets(templates, sets)))
            == Some((header.(time := header.time % 0x1_0000_0000), sets))
  {
    hide U16, U32, Bytes.Value, WriteSets, ReadSets;
    var body := WriteSets(templates, sets);
    var bytes := WriteMessage(header, body);
    SetsAreRead(templates, sets);
    ValueOfU16(10);
    ValueOfU16(16 + |body|);
    ValueOfU32(header.time);
    ValueOfU32(header.sequence);
    ValueOfU32(header.observation);
    MessageParts(U16(10), U16(16 + |body|), U32(header.time), U32(header.sequence), U32(header.observation), body);
  }

  // A message starts with its version, 10, its length, and the numbers of its header.
  lemma MessageStarts(header: Header, body: seq<Byte>)
    ensures var bytes := WriteMessage(header, body);
            && bytes[..4] == [0, 10, |bytes| / 0x100 % 0x100, |bytes| % 0x100]
            && bytes[4..8] == U32(header.time) && bytes[8..12] == U32(header.sequence)
            && bytes[12..16] == U32(header.observation) && bytes[16..] == body
  {
    hide U16, U32;
    U16Is(10);
    U16Is(16 + |body|);
    MessageParts(U16(10), U16(16 + |body|), U32(header.time), U32(header.sequence), U32(header.observation), body);
    var bytes := WriteMessage(header, body);
    assert bytes[..4] == bytes[..2] + bytes[2..4];
  }

  lemma MessageParts(a: seq<Byte>, b: seq<Byte>, c: seq<Byte>, d: seq<Byte>, e: seq<Byte>, body: seq<Byte>)
    requires |a| == |b| == 2 && |c| == |d| == |e| == 4
    ensures var bytes := a + b + c + d + e + body;
            && bytes[..2] == a && bytes[2..4] == b && bytes[4..8] == c && bytes[8..12] == d && bytes[12..16] == e
            && bytes[16..] == body
  {
    var front := a + b + c + d + e;
    assert front[..2] == a && front[2..4] == b && front[4..8] == c && front[8..12] == d && front[12..] == e;
    assert (front + body)[..16] == front;
  }
}
