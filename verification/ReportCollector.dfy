/** What a collector gets out of a run of reports: every spot, in order, from the bytes alone. */
module ReportCollector {
  import opened Bytes
  import opened Ipfix
  import opened SpotReports
  import opened Utf8
  import opened Wrappers

  lemma DescriptorsInform(templates: Templates)
    ensures var s1, s2 := Template(SENDER_LINK, SENDER), OptionsTemplate(RECEIVER_LINK, 0, RECEIVER);
            Informed(After(After(templates, s1), s2))
  {
  }

  // A report is a run of sets that can be written, and leaves the collector knowing the formats.
  lemma ReportSetsFit(templates: Templates, p: Preamble, chunk: seq<Spot>)
    requires p.descriptors || Informed(templates)
    requires |SpotSet(chunk)| < 0x1_0000
    ensures AllFit(templates, ReportSets(p, chunk))
    ensures WriteSets(templates, ReportSets(p, chunk)) == Front(p) + SpotSet(chunk)
    ensures Informed(AfterAll(templates, ReportSets(p, chunk)))
  {
    hide SpotSet, ReceiverSet, SetFits, WriteSet, AllFit, WriteSets, After, AfterAll, Informed, Values;
    var data := DataSets(p, chunk);
    if p.descriptors {
      var s1, s2 := Template(SENDER_LINK, SENDER), OptionsTemplate(RECEIVER_LINK, 0, RECEIVER);
      var t1 := After(templates, s1);
      var t2 := After(t1, s2);
      DescriptorsInform(templates);
      DataSetsFit(t2, p, chunk);
      DataKeepsTemplates(t2, p, chunk);
      DescriptorsFit(t1);
      AddSet(t1, s2, data);
      DescriptorsFit(templates);
      AddSet(templates, s1, [s2] + data);
      AfterAdding(t1, s2, data);
      AfterAdding(templates, s1, [s2] + data);
      assert ReportSets(p, chunk) == [s1] + ([s2] + data);
    } else {
      DataSetsFit(templates, p, chunk);
      DataKeepsTemplates(templates, p, chunk);
      assert ReportSets(p, chunk) == data;
    }
  }

  lemma AfterAdding(templates: Templates, s: Set, rest: seq<Set>)
    ensures AfterAll(templates, [s] + rest) == AfterAll(After(templates, s), rest)
  {
    assert ([s] + rest)[1..] == rest;
  }

  lemma DataKeepsTemplates(templates: Templates, p: Preamble, chunk: seq<Spot>)
    ensures AfterAll(templates, DataSets(p, chunk)) == templates
  {
    var s := Data(RECEIVER_LINK, [ReceiverValues(p.receiver)]);
    var rest: seq<Set> := if chunk == [] then [] else [Data(SENDER_LINK, Values(chunk))];
    AfterAdding(templates, s, rest);
    if chunk != [] {
      AfterAdding(templates, rest[0], []);
    }
  }

  // A collector that has been told the formats, now or before, reads a report back.
  lemma ReportIsRead(templates: Templates, p: Preamble, time: int, chunk: seq<Spot>)
    requires p.descriptors || Informed(templates)
    requires |Report(p, time, chunk)| < 0x1_0000
    requires p.sequence < 0x1_0000_0000 && p.observation < 0x1_0000_0000
    ensures ReadMessage(templates, Report(p, time, chunk))
            == Some((Header(time % 0x1_0000_0000, p.sequence, p.observation), ReportSets(p, chunk)))
    ensures Informed(AfterAll(templates, ReportSets(p, chunk)))
  {
    hide SpotSet, Front, AllFit, WriteSets, Informed, ReportSets, AfterAll, ReadMessage;
    ReportSetsFit(templates, p, chunk);
    MessageIsRead(templates, Header(time, p.sequence, p.observation), ReportSets(p, chunk));
  }

  // A collector that has not been told the formats cannot read a report that does not tell them,
  lemma ReportIsRefused(templates: Templates, p: Preamble, time: int, chunk: seq<Spot>)
    requires !p.descriptors && RECEIVER_LINK !in templates
    requires |Report(p, time, chunk)| < 0x1_0000
    ensures ReadMessage(templates, Report(p, time, chunk)) == None
  {
    hide SpotSet, WriteRecord, ReceiverValues, Bytes.Value, WithHeader, U16, U32;
    var bytes := Report(p, time, chunk);
    var content := WriteRecord(RECEIVER_LENGTHS, ReceiverValues(p.receiver));
    assert bytes[16..] == WithHeader(RECEIVER_LINK, content) + SpotSet(chunk);
    HeaderIsRead(RECEIVER_LINK, content, SpotSet(chunk));
  }

  // and one that insists on scope fields reads none that tells them.
  lemma StrictlyRead(templates: Templates, p: Preamble, time: int, chunk: seq<Spot>)
    requires p.descriptors || Informed(templates)
    requires |Report(p, time, chunk)| < 0x1_0000
    requires p.sequence < 0x1_0000_0000 && p.observation < 0x1_0000_0000
    ensures ReadStrictly(templates, Report(p, time, chunk)).Some? <==> !p.descriptors
  {
    hide Report, ReadMessage, AfterAll, Informed, ReceiverValues, Values;
    ReportIsRead(templates, p, time, chunk);
    var sets := ReportSets(p, chunk);
    if p.descriptors {
      assert sets[1] == OptionsTemplate(RECEIVER_LINK, 0, RECEIVER) && !Conforms(sets[1]);
    }
  }

  // So a strict collector that starts with nothing reads nothing.
  lemma StrictlyNothing(p: Preamble, time: int, chunk: seq<Spot>)
    requires |Report(p, time, chunk)| < 0x1_0000
    requires p.sequence < 0x1_0000_0000 && p.observation < 0x1_0000_0000
    ensures ReadStrictly(map[], Report(p, time, chunk)) == None
  {
    hide Report, ReadMessage, AfterAll, Informed;
    if p.descriptors {
      StrictlyRead(map[], p, time, chunk);
    } else {
      ReportIsRefused(map[], p, time, chunk);
    }
  }

  /* Spots */

  // A byte as the signed number it stands for.
  function Signed(b: nat): int {
    if b < 0x80 then b else b - 0x100
  }

  // What is left of a spot on its way: strings cut, numbers reduced to their widths.
  function Seen(spot: Spot): Spot {
    Spot(Cut(spot.call), Cut(spot.grid), Signed(spot.snr % 0x100), spot.freq % 0x100_0000_0000, Cut(spot.mode),
         spot.time % 0x1_0000_0000)
  }

  function SeenAll(spots: seq<Spot>): (r: seq<Spot>)
    ensures |r| == |spots|
  {
    seq(|spots|, i requires 0 <= i < |spots| => Seen(spots[i]))
  }

  // A spot arrives as it was exactly if its strings are short and its numbers in range.
  lemma SeenUnchanged(spot: Spot)
    ensures Seen(spot) == spot <==>
            && |spot.call| <= 254 && |spot.grid| <= 254 && |spot.mode| <= 254
            && -0x80 <= spot.snr < 0x80 && spot.freq < 0x100_0000_0000 && 0 <= spot.time < 0x1_0000_0000
  {
    hide Cut, WellFormed;
    CutIsBest(spot.call);
    CutIsBest(spot.grid);
    CutIsBest(spot.mode);
  }

  // The owner of an element, which the standard ones do not have.
  function Owner(e: Element): Option<nat> {
    if e.Enterprise? then Some(e.owner) else None
  }

  // The value of an element in a record, found by the template.
  function ValueOf(elements: seq<Element>, record: Record, owner: Option<nat>, id: nat): Option<Ipfix.Value> {
    if elements == [] || record == [] then None
    else if Owner(elements[0]) == owner && elements[0].id == id then Some(record[0])
    else ValueOf(elements[1..], record[1..], owner, id)
  }

  function TextOf(elements: seq<Element>, record: Record, id: nat): Option<Text> {
    match ValueOf(elements, record, Some(30351), id)
    case Some(value) => if WellFormed(value) then Some(value) else None
    case None => None
  }

  function NumberOf(elements: seq<Element>, record: Record, owner: Option<nat>, id: nat): Option<nat> {
    match ValueOf(elements, record, owner, id)
    case Some(value) => Some(Bytes.Value(value))
    case None => None
  }

  // What a record says of a spot, by the numbers that PSK Reporter gives to the elements. The source of the
  // information is 1: spotted by a program.
  function ReadSpot(elements: seq<Element>, record: Record): Option<Spot> {
    match (TextOf(elements, record, 1), TextOf(elements, record, 3),
           NumberOf(elements, record, Some(30351), 6), NumberOf(elements, record, Some(30351), 5),
           TextOf(elements, record, 10), NumberOf(elements, record, None, 150))
    case (Some(call), Some(grid), Some(snr), Some(freq), Some(mode), Some(time)) =>
      if NumberOf(elements, record, Some(30351), 11) == Some(1)
      then Some(Spot(call, grid, Signed(snr), freq, mode, time))
      else None
    case _ => None
  }

  // And of the receiver.
  function ReadReceiver(elements: seq<Element>, record: Record): Option<Receiver> {
    match (TextOf(elements, record, 2), TextOf(elements, record, 4), TextOf(elements, record, 8),
           TextOf(elements, record, 9))
    case (Some(call), Some(grid), Some(program), Some(antenna)) => Some(Receiver(call, grid, program, antenna))
    case _ => None
  }

  lemma {:induction false} ValueAt(elements: seq<Element>, record: Record, owner: Option<nat>, id: nat, k: nat)
    requires k < |elements| == |record| && Owner(elements[k]) == owner && elements[k].id == id
    requires forall i | 0 <= i < k :: !(Owner(elements[i]) == owner && elements[i].id == id)
    ensures ValueOf(elements, record, owner, id) == Some(record[k])
  {
    if k > 0 {
      ValueAt(elements[1..], record[1..], owner, id, k - 1);
    }
  }

  lemma SpotElements(record: Record)
    requires |record| == 7
    ensures ValueOf(SENDER, record, Some(30351), 1) == Some(record[0])
    ensures ValueOf(SENDER, record, Some(30351), 5) == Some(record[1])
    ensures ValueOf(SENDER, record, Some(30351), 6) == Some(record[2])
    ensures ValueOf(SENDER, record, Some(30351), 10) == Some(record[3])
    ensures ValueOf(SENDER, record, Some(30351), 3) == Some(record[4])
    ensures ValueOf(SENDER, record, Some(30351), 11) == Some(record[5])
    ensures ValueOf(SENDER, record, None, 150) == Some(record[6])
  {
    hide ValueOf;
    ValueAt(SENDER, record, Some(30351), 1, 0);
    ValueAt(SENDER, record, Some(30351), 5, 1);
    ValueAt(SENDER, record, Some(30351), 6, 2);
    ValueAt(SENDER, record, Some(30351), 10, 3);
    ValueAt(SENDER, record, Some(30351), 3, 4);
    ValueAt(SENDER, record, Some(30351), 11, 5);
    ValueAt(SENDER, record, None, 150, 6);
  }

  // A spot is read back, each value by its element in the template.
  lemma SpotIsRead(spot: Spot)
    ensures ReadSpot(SENDER, SpotValues(spot)) == Some(Seen(spot))
  {
    hide Cut, WellFormed, Bytes.Value, BigEndian, U32, ValueOf;
    SpotElements(SpotValues(spot));
    ValueOfBigEndian(spot.freq, 5);
    ValueOfBigEndian(spot.snr, 1);
    ValueOfU32(spot.time);
    ValueOfOne();
    assert Power256(5) == 0x100_0000_0000 by {
      assert Power256(1) == 0x100;
      assert Power256(2) == 0x1_0000;
      assert Power256(3) == 0x100_0000;
      assert Power256(4) == 0x1_0000_0000;
    }
    assert Power256(1) == 0x100;
  }

  lemma ValueOfOne()
    ensures Bytes.Value([1]) == 1
  {
    assert Bytes.Value([1][..0]) == 0;
  }

  // And so is the receiver, up to the cuts.
  lemma ReceiverIsRead(receiver: Receiver)
    ensures ReadReceiver(RECEIVER, ReceiverValues(receiver))
            == Some(Receiver(Cut(receiver.call), Cut(receiver.grid), Cut(receiver.program), Cut(receiver.antenna)))
  {
    hide Cut, WellFormed, ValueOf;
    var record := ReceiverValues(receiver);
    ValueAt(RECEIVER, record, Some(30351), 2, 0);
    ValueAt(RECEIVER, record, Some(30351), 4, 1);
    ValueAt(RECEIVER, record, Some(30351), 8, 2);
    ValueAt(RECEIVER, record, Some(30351), 9, 3);
  }

  function ReadSpots(elements: seq<Element>, records: seq<Record>): Option<seq<Spot>> {
    if records == [] then Some([])
    else match ReadSpots(elements, records[..|records| - 1])
         case None => None
         case Some(spots) =>
           match ReadSpot(elements, records[|records| - 1])
           case None => None
           case Some(spot) => Some(spots + [spot])
  }

  lemma SeenAllOfTwo(a: seq<Spot>, b: seq<Spot>)
    ensures SeenAll(a + b) == SeenAll(a) + SeenAll(b)
  {
    hide Seen, WellFormed;
  }

  lemma {:induction false} SpotsAreRead(spots: seq<Spot>)
    ensures ReadSpots(SENDER, Values(spots)) == Some(SeenAll(spots))
  {
    hide ReadSpot, Seen, SpotValues, SeenAll, WellFormed;
    if spots != [] {
      var n := |spots| - 1;
      SpotsAreRead(spots[..n]);
      SpotIsRead(spots[n]);
      assert Values(spots)[..n] == Values(spots[..n]);
      SeenOne(spots[n]);
      SeenAllOfTwo(spots[..n], [spots[n]]);
      assert spots == spots[..n] + [spots[n]];
    }
  }

  lemma SeenOne(spot: Spot)
    ensures SeenAll([spot]) == [Seen(spot)]
  {
  }

  predicate HoldsSpots(s: Set) {
    s.Data? && s.link == SENDER_LINK
  }

  // The spots of a message: the records of its sets of spots, by the templates in force.
  function SpotsOf(templates: Templates, sets: seq<Set>): Option<seq<Spot>>
    decreases |sets|
  {
    if sets == [] then Some([])
    else match FirstSpots(templates, sets[0])
         case None => None
         case Some(first) =>
           match SpotsOf(After(templates, sets[0]), sets[1..])
           case None => None
           case Some(rest) => Some(first + rest)
  }

  function FirstSpots(templates: Templates, s: Set): Option<seq<Spot>> {
    if !HoldsSpots(s) then Some([])
    else if SENDER_LINK in templates then ReadSpots(templates[SENDER_LINK], s.records)
    else None
  }

  lemma OtherSet(templates: Templates, s: Set, rest: seq<Set>)
    requires !HoldsSpots(s) && SpotsOf(After(templates, s), rest).Some?
    ensures SpotsOf(templates, [s] + rest) == SpotsOf(After(templates, s), rest)
  {
    assert ([s] + rest)[1..] == rest;
    assert [] + SpotsOf(After(templates, s), rest).value == SpotsOf(After(templates, s), rest).value;
  }

  lemma OnlySpots(templates: Templates, chunk: seq<Spot>)
    requires Informed(templates)
    ensures SpotsOf(templates, [Data(SENDER_LINK, Values(chunk))]) == Some(SeenAll(chunk))
  {
    hide ReadSpots, SeenAll, Values;
    SpotsAreRead(chunk);
    var sets := [Data(SENDER_LINK, Values(chunk))];
    assert sets[1..] == [] && SpotsOf(templates, sets[1..]) == Some([]);
    assert SeenAll(chunk) + [] == SeenAll(chunk);
  }

  lemma DataSpots(templates: Templates, p: Preamble, chunk: seq<Spot>)
    requires Informed(templates)
    ensures SpotsOf(templates, DataSets(p, chunk)) == Some(SeenAll(chunk))
  {
    hide SeenAll, Values, ReceiverValues, Informed;
    var r := Data(RECEIVER_LINK, [ReceiverValues(p.receiver)]);
    if chunk == [] {
      OtherSet(templates, r, []);
      assert SeenAll([]) == [];
    } else {
      OnlySpots(templates, chunk);
      OtherSet(templates, r, [Data(SENDER_LINK, Values(chunk))]);
    }
  }

  // A report holds the spots of its chunk.
  lemma ReportSpots(templates: Templates, p: Preamble, chunk: seq<Spot>)
    requires p.descriptors || Informed(templates)
    ensures SpotsOf(templates, ReportSets(p, chunk)) == Some(SeenAll(chunk))
  {
    hide SpotsOf, SeenAll, Values, ReceiverValues, Informed, After;
    var data := DataSets(p, chunk);
    if p.descriptors {
      var s1, s2 := Template(SENDER_LINK, SENDER), OptionsTemplate(RECEIVER_LINK, 0, RECEIVER);
      DescriptorsInform(templates);
      DataSpots(After(After(templates, s1), s2), p, chunk);
      OtherSet(After(templates, s1), s2, data);
      OtherSet(templates, s1, [s2] + data);
      assert ReportSets(p, chunk) == [s1] + ([s2] + data);
    } else {
      DataSpots(templates, p, chunk);
      assert ReportSets(p, chunk) == data;
    }
  }

  /* Runs of reports */

  datatype Sent = Sent(preamble: Preamble, time: int, chunk: seq<Spot>)

  ghost predicate Sound(s: Sent) {
    && |Report(s.preamble, s.time, s.chunk)| < 0x1_0000
    && s.preamble.sequence < 0x1_0000_0000 && s.preamble.observation < 0x1_0000_0000
  }

  ghost function Payloads(log: seq<Sent>): (r: seq<seq<Byte>>)
    ensures |r| == |log|
  {
    seq(|log|, i requires 0 <= i < |log| => Report(log[i].preamble, log[i].time, log[i].chunk))
  }

  function Spots(log: seq<Sent>): seq<Spot> {
    if log == [] then [] else Spots(log[..|log| - 1]) + log[|log| - 1].chunk
  }

  // A collector fed with messages one after the other.
  function Collect(templates: Templates, messages: seq<seq<Byte>>): Option<seq<Spot>>
    decreases |messages|
  {
    if messages == [] then Some([])
    else match ReadMessage(templates, messages[0])
         case None => None
         case Some((header, sets)) =>
           match SpotsOf(templates, sets)
           case None => None
           case Some(first) =>
             match Collect(AfterAll(templates, sets), messages[1..])
             case None => None
             case Some(rest) => Some(first + rest)
  }

  lemma {:induction false} SpotsFromFirst(log: seq<Sent>)
    requires log != []
    ensures Spots(log) == log[0].chunk + Spots(log[1..])
  {
    var n := |log| - 1;
    if n > 0 {
      SpotsFromFirst(log[..n]);
      assert log[..n][1..] == log[1..][..n - 1];
    }
  }

  lemma CollectFirst(templates: Templates, messages: seq<seq<Byte>>, header: Header, sets: seq<Set>,
                     first: seq<Spot>, rest: seq<Spot>)
    requires messages != [] && ReadMessage(templates, messages[0]) == Some((header, sets))
    requires SpotsOf(templates, sets) == Some(first) && Collect(AfterAll(templates, sets), messages[1..]) == Some(rest)
    ensures Collect(templates, messages) == Some(first + rest)
  {
    hide ReadMessage, SpotsOf, AfterAll;
  }

  lemma CollectReport(templates: Templates, s: Sent, messages: seq<seq<Byte>>, rest: seq<Spot>)
    requires Sound(s) && (s.preamble.descriptors || Informed(templates))
    requires messages != [] && messages[0] == Report(s.preamble, s.time, s.chunk)
    requires Collect(AfterAll(templates, ReportSets(s.preamble, s.chunk)), messages[1..]) == Some(rest)
    ensures Collect(templates, messages) == Some(SeenAll(s.chunk) + rest)
  {
    hide ReadMessage, SpotsOf, AfterAll, Informed, Report, SeenAll, Collect, ReportSets, WellFormed;
    ReportIsRead(templates, s.preamble, s.time, s.chunk);
    ReportSpots(templates, s.preamble, s.chunk);
    CollectFirst(templates, messages, Header(s.time % 0x1_0000_0000, s.preamble.sequence, s.preamble.observation),
                 ReportSets(s.preamble, s.chunk), SeenAll(s.chunk), rest);
  }

  lemma ReportInforms(templates: Templates, s: Sent)
    requires Sound(s) && (s.preamble.descriptors || Informed(templates))
    ensures Informed(AfterAll(templates, ReportSets(s.preamble, s.chunk)))
  {
    hide AfterAll, Informed, Report, ReportSets, WellFormed;
    ReportIsRead(templates, s.preamble, s.time, s.chunk);
  }

  lemma PayloadsFromFirst(log: seq<Sent>)
    requires log != []
    ensures Payloads(log)[0] == Report(log[0].preamble, log[0].time, log[0].chunk)
    ensures Payloads(log)[1..] == Payloads(log[1..])
  {
    hide Report, WellFormed;
  }

  // Whatever was sent is collected, provided the formats were known or came first.
  lemma {:induction false} EverySpotIsCollected(templates: Templates, log: seq<Sent>)
    requires forall s <- log :: Sound(s)
    requires log == [] || log[0].preamble.descriptors || Informed(templates)
    ensures Collect(templates, Payloads(log)) == Some(SeenAll(Spots(log)))
    decreases |log|
  {
    if log != [] {
      hide AfterAll, Informed, Report, SeenAll, Spots, Collect, ReportSets, WellFormed, Sound, Payloads;
      var s := log[0];
      ReportInforms(templates, s);
      EverySpotIsCollected(AfterAll(templates, ReportSets(s.preamble, s.chunk)), log[1..]);
      PayloadsFromFirst(log);
      CollectReport(templates, s, Payloads(log), SeenAll(Spots(log[1..])));
      SpotsFromFirst(log);
      SeenAllOfTwo(s.chunk, Spots(log[1..]));
    } else {
      assert Spots(log) == [];
    }
  }

  // From the bytes of one connection alone everything is collected exactly if the formats came first, and
  // otherwise nothing is.
  lemma SessionIsCollected(log: seq<Sent>)
    requires (forall s <- log :: Sound(s)) && log != []
    ensures Collect(map[], Payloads(log)) == if log[0].preamble.descriptors then Some(SeenAll(Spots(log))) else None
  {
    hide Informed, Report, SeenAll, Spots, WellFormed, ReadMessage;
    if log[0].preamble.descriptors {
      EverySpotIsCollected(map[], log);
    } else {
      assert Sound(log[0]);
      ReportIsRefused(map[], log[0].preamble, log[0].time, log[0].chunk);
    }
  }

  /* Sequence numbers */

  // The data records of a message, which a sequence number should count (section 3.1 of RFC 7011).
  function Records(sets: seq<Set>): nat {
    if sets == [] then 0 else (if sets[0].Data? then |sets[0].records| else 0) + Records(sets[1..])
  }

  // The number that a collector that counts them expects of the next message.
  function Expected(header: Header, sets: seq<Set>): nat {
    (header.sequence + Records(sets)) % 0x1_0000_0000
  }

  lemma RecordsOfOneMore(s: Set, rest: seq<Set>)
    ensures Records([s] + rest) == (if s.Data? then |s.records| else 0) + Records(rest)
  {
    assert ([s] + rest)[1..] == rest;
  }

  // The receiver is one record, and each spot is one.
  lemma ReportRecords(p: Preamble, chunk: seq<Spot>)
    ensures Records(ReportSets(p, chunk)) == 1 + |chunk|
  {
    hide Values, ReceiverValues, Records;
    var data := DataSets(p, chunk);
    var receiver := Data(RECEIVER_LINK, [ReceiverValues(p.receiver)]);
    var spots: seq<Set> := if chunk == [] then [] else [Data(SENDER_LINK, Values(chunk))];
    NoRecords();
    ValuesCount(chunk);
    if chunk != [] {
      RecordsOfOneMore(spots[0], []);
      assert [spots[0]] + [] == spots;
    }
    RecordsOfOneMore(receiver, spots);
    assert data == [receiver] + spots;
    if p.descriptors {
      var s1, s2 := Template(SENDER_LINK, SENDER), OptionsTemplate(RECEIVER_LINK, 0, RECEIVER);
      RecordsOfOneMore(s2, data);
      RecordsOfOneMore(s1, [s2] + data);
      assert ReportSets(p, chunk) == [s1] + ([s2] + data);
    } else {
      assert ReportSets(p, chunk) == data;
    }
  }

  lemma NoRecords()
    ensures Records([]) == 0
  {
  }

  lemma ValuesCount(chunk: seq<Spot>)
    ensures |Values(chunk)| == |chunk|
  {
  }

  lemma {:induction false} SpotsTakeBytes(chunk: seq<Spot>)
    ensures |SpotBytes(chunk)| >= |chunk|
  {
    if chunk != [] {
      SpotsTakeBytes(chunk[..|chunk| - 1]);
      SpotRecordSize(chunk[|chunk| - 1]);
    }
  }

  lemma FewSpots(p: Preamble, time: int, chunk: seq<Spot>)
    requires |Report(p, time, chunk)| < 0x1_0000
    ensures |chunk| < 0x1_0000
  {
    hide SpotBytes;
    SpotsTakeBytes(chunk);
  }

  // The numbers count messages, not records. So a collector that counts records sees no gap between a report and
  // the next if and only if the first has no spots.
  lemma GapExactly(templates: Templates, a: Sent, b: Sent)
    requires Sound(a) && (a.preamble.descriptors || Informed(templates))
    requires b.preamble.sequence == (a.preamble.sequence + 1) % 0x1_0000_0000
    ensures var read := ReadMessage(templates, Report(a.preamble, a.time, a.chunk));
            read.Some? && (Expected(read.value.0, read.value.1) == b.preamble.sequence <==> a.chunk == [])
  {
    hide Report, ReadMessage, AfterAll, Informed, Records, ReportSets, WellFormed;
    ReportIsRead(templates, a.preamble, a.time, a.chunk);
    ReportRecords(a.preamble, a.chunk);
    FewSpots(a.preamble, a.time, a.chunk);
  }
}
