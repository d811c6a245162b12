/** The reports sent to PSK Reporter: spots as records of an IPFIX data set, behind a preamble that
    describes the receiver and, now and then, the format of the records. */
module SpotReports {
  import opened Bytes
  import opened Division
  import opened Ipfix
  import opened Utf8
  import opened Wrappers

  const MAX_STRING_LENGTH := 254
  const OWNER := 30351
  const SENDER_LINK := 0x50e3
  const RECEIVER_LINK := 0x50e2

  const SENDER := [
    Enterprise(1, VARIABLE, OWNER), Enterprise(5, 5, OWNER), Enterprise(6, 1, OWNER),
    Enterprise(10, VARIABLE, OWNER), Enterprise(3, VARIABLE, OWNER), Enterprise(11, 1, OWNER), Standard(150, 4)]
  const SENDER_LENGTHS: seq<nat> := [VARIABLE, 5, 1, VARIABLE, VARIABLE, 1, 4]

  const RECEIVER := [
    Enterprise(2, VARIABLE, OWNER), Enterprise(4, VARIABLE, OWNER), Enterprise(8, VARIABLE, OWNER),
    Enterprise(9, VARIABLE, OWNER)]
  const RECEIVER_LENGTHS: seq<nat> := [VARIABLE, VARIABLE, VARIABLE, VARIABLE]

  datatype Spot = Spot(call: Text, grid: Text, snr: int, freq: nat, mode: Text, time: int)

  datatype Receiver = Receiver(call: Text, grid: Text, program: Text, antenna: Text)

  datatype Preamble = Preamble(sequence: nat, observation: nat, descriptors: bool, receiver: Receiver)

  /* Strings */

  function Cut(s: Text): (r: Text)
    ensures |r| <= MAX_STRING_LENGTH
  {
    FitIsWellFormed(s, MAX_STRING_LENGTH);
    Fit(s, MAX_STRING_LENGTH)
  }

  function Field(s: Text): (r: seq<Byte>) {
    [|Cut(s)|] + Cut(s)
  }

  // The last place at or before the limit where the text may be cut.
  method TruncatePosition(utf: Text) returns (i: nat)
    requires |utf| > MAX_STRING_LENGTH
    ensures i == |Cut(utf)|
  {
    i := MAX_STRING_LENGTH;
    while i > 0
      invariant i <= MAX_STRING_LENGTH
      invariant forall k | i < k <= MAX_STRING_LENGTH :: IsTail(utf[k])
    {
      if !IsTail(utf[i]) {
        FitEndsAt(utf, MAX_STRING_LENGTH, i);
        return;
      }
      i := i - 1;
    }
    CutsBetweenCharacters(utf, 0);
    FitEndsAt(utf, MAX_STRING_LENGTH, 0);
  }

  // Appends a string, cut if need be, behind its length.
  method WriteUtfString(out: seq<Byte>, s: Text) returns (r: seq<Byte>)
    ensures r == out + Field(s)
  {
    hide WellFormed, Leading, Fit;
    var utf := s;
    if |utf| > MAX_STRING_LENGTH {
      var position := TruncatePosition(s);
      utf := s[..position];
      FitIsWellFormed(s, MAX_STRING_LENGTH);
    } else {
      ShortTextFits(s, MAX_STRING_LENGTH);
    }
    r := out + [|utf|] + utf;
  }

  // What is written of a string is well-formed, and the string itself when it is short enough;
  // otherwise at most three bytes of the room are left, and nothing longer would be well-formed.
  lemma CutIsBest(s: Text)
    ensures WellFormed(Cut(s)) && Cut(s) <= s
    ensures |s| <= 254 <==> Cut(s) == s
    ensures |s| > 254 ==> |Cut(s)| >= 251
    ensures forall i | 0 <= i <= |s| && i <= 254 && WellFormed(s[..i]) :: i <= |Cut(s)|
  {
    FitIsWellFormed(s, MAX_STRING_LENGTH);
    if |s| <= MAX_STRING_LENGTH {
      ShortTextFits(s, MAX_STRING_LENGTH);
    } else {
      FitWastesLittle(s, MAX_STRING_LENGTH);
    }
    forall i | 0 <= i <= |s| && i <= MAX_STRING_LENGTH && WellFormed(s[..i])
      ensures i <= |Cut(s)|
    {
      FitIsLongest(s, MAX_STRING_LENGTH, i);
    }
  }

  function Fields(strings: seq<Text>): seq<Byte> {
    if strings == [] then [] else Field(strings[0]) + Fields(strings[1..])
  }

  function Cuts(strings: seq<Text>): (r: Record) {
    if strings == [] then [] else [Cut(strings[0])] + Cuts(strings[1..])
  }

  function Variables(n: nat): seq<nat> {
    if n == 0 then [] else [VARIABLE] + Variables(n - 1)
  }

  lemma {:induction false} FieldsAreRecord(strings: seq<Text>)
    ensures RecordFits(Variables(|strings|), Cuts(strings))
    ensures WriteRecord(Variables(|strings|), Cuts(strings)) == Fields(strings)
  {
    if strings == [] {
      EmptyRecord();
    } else {
      hide Cut, Field, WellFormed, RecordFits, WriteRecord;
      FieldsAreRecord(strings[1..]);
      AddField(strings[0], Variables(|strings| - 1), Cuts(strings[1..]));
    }
  }

  // A run of strings is read back, each as far as it was written.
  lemma StringsAreRead(strings: seq<Text>, rest: seq<Byte>)
    ensures ReadRecord(Variables(|strings|), Fields(strings) + rest) == Some((Cuts(strings), rest))
  {
    FieldsAreRecord(strings);
    RecordIsRead(Variables(|strings|), Cuts(strings), rest);
  }

  /* Sets */

  // Pads a buffer to whole words and fills in its length, which covers the padding, behind the
  // first two bytes.
  method SetLength(b: seq<Byte>) returns (r: seq<Byte>)
    requires |b| >= 4
    ensures r == b[..2] + U16(|b| + Pad(|b|)) + b[4..] + Zeros(Pad(|b|))
  {
    r := b;
    var padSize := Pad(|r|);
    if padSize != 0 {
      r := r + Zeros(padSize);
    }
    r := r[..2] + U16(|r|) + r[4..];
  }

  // With a place-holder for the length, that makes a set.
  lemma SetLengthMakesSet(id: nat, content: seq<Byte>)
    ensures var b := U16(id) + U16(0) + content;
            b[..2] + U16(|b| + Pad(|b|)) + b[4..] + Zeros(Pad(|b|)) == WithHeader(id, content)
  {
    hide U16;
    var b := U16(id) + U16(0) + content;
    assert b[..2] == U16(id) && b[4..] == content;
    assert Pad(|b|) == Pad(|content|);
  }

  method SenderDescriptor() returns (r: seq<Byte>)
    ensures r == WriteSet(map[], Template(SENDER_LINK, SENDER))
    ensures r == [0, 2, 0, 60, 0x50, 0xE3, 0, 7] + Own(1, 0xFF, 0xFF) + Own(5, 0, 5) + Own(6, 0, 1)
                 + Own(10, 0xFF, 0xFF) + Own(3, 0xFF, 0xFF) + Own(11, 0, 1) + [0, 150, 0, 4]
  {
    hide WriteElements, U16, Own, WithHeader, WriteSet, SetFits;
    SenderDescriptorFits(map[]);
    SenderDescriptorIs();
    SenderSetIs();
    var content := U16(SENDER_LINK) + U16(7) + WriteElements(SENDER);
    SetLengthMakesSet(2, content);
    r := SetLength(U16(2) + U16(0) + content);
  }

  method ReceiverDescriptor() returns (r: seq<Byte>)
    ensures r == WriteSet(map[], OptionsTemplate(RECEIVER_LINK, 0, RECEIVER))
    ensures r == [0, 3, 0, 44, 0x50, 0xE2, 0, 4, 0, 0] + Own(2, 0xFF, 0xFF) + Own(4, 0xFF, 0xFF)
                 + Own(8, 0xFF, 0xFF) + Own(9, 0xFF, 0xFF) + [0, 0]
  {
    hide WriteElements, U16, Own, WithHeader, WriteSet, SetFits;
    ReceiverDescriptorFits(map[]);
    ReceiverDescriptorIs();
    ReceiverSetIs();
    var content := U16(RECEIVER_LINK) + U16(4) + U16(0) + WriteElements(RECEIVER);
    SetLengthMakesSet(3, content);
    r := SetLength(U16(3) + U16(0) + content);
  }

  function ReceiverValues(receiver: Receiver): (r: Record)
    ensures RecordFits(RECEIVER_LENGTHS, r)
  {
    [Cut(receiver.call), Cut(receiver.grid), Cut(receiver.program), Cut(receiver.antenna)]
  }

  function SpotValues(spot: Spot): (r: Record)
    ensures RecordFits(SENDER_LENGTHS, r)
  {
    [Cut(spot.call), BigEndian(spot.freq, 5), BigEndian(spot.snr, 1), Cut(spot.mode), Cut(spot.grid), [1],
     U32(spot.time)]
  }

  lemma AddField(s: Text, lengths: seq<nat>, record: Record)
    requires RecordFits(lengths, record)
    ensures RecordFits([VARIABLE] + lengths, [Cut(s)] + record)
    ensures WriteRecord([VARIABLE] + lengths, [Cut(s)] + record) == Field(s) + WriteRecord(lengths, record)
  {
    AddValue(VARIABLE, Cut(s), lengths, record);
  }

  lemma AddValue(length: nat, value: Ipfix.Value, lengths: seq<nat>, record: Record)
    requires Fits(length, value) && RecordFits(lengths, record)
    ensures RecordFits([length] + lengths, [value] + record)
    ensures WriteRecord([length] + lengths, [value] + record)
            == WriteValue(length, value) + WriteRecord(lengths, record)
  {
    assert ([length] + lengths)[1..] == lengths && ([value] + record)[1..] == record;
  }

  // The strings of the receiver, as the preamble writes them, are a record of the descriptor.
  lemma ReceiverRecord(receiver: Receiver)
    ensures WriteRecord(RECEIVER_LENGTHS, ReceiverValues(receiver))
            == Field(receiver.call) + Field(receiver.grid) + Field(receiver.program) + Field(receiver.antenna)
  {
    hide Field, Cut, WriteRecord, RecordFits;
    EmptyRecord();
    var l1, l2, l3: seq<nat> := [VARIABLE], [VARIABLE, VARIABLE], [VARIABLE, VARIABLE, VARIABLE];
    var v1: Record := [Cut(receiver.antenna)];
    var v2: Record := [Cut(receiver.program), Cut(receiver.antenna)];
    var v3: Record := [Cut(receiver.grid), Cut(receiver.program), Cut(receiver.antenna)];
    AddField(receiver.antenna, [], []);
    assert [VARIABLE] + [] == l1 && [Cut(receiver.antenna)] + [] == v1;
    AddField(receiver.program, l1, v1);
    assert [VARIABLE] + l1 == l2 && [Cut(receiver.program)] + v1 == v2;
    AddField(receiver.grid, l2, v2);
    assert [VARIABLE] + l2 == l3 && [Cut(receiver.grid)] + v2 == v3;
    AddField(receiver.call, l3, v3);
    assert [VARIABLE] + l3 == RECEIVER_LENGTHS && [Cut(receiver.call)] + v3 == ReceiverValues(receiver);
  }

  lemma EmptyRecord()
    ensures RecordFits([], []) && WriteRecord([], []) == []
  {
  }

  function SpotRecord(spot: Spot): seq<Byte> {
    Field(spot.call) + BigEndian(spot.freq, 5) + BigEndian(spot.snr, 1) + Field(spot.mode) + Field(spot.grid)
    + [1] + U32(spot.time)
  }

  lemma LastFieldsFit(spot: Spot)
    ensures RecordFits(SENDER_LENGTHS[3..], SpotValues(spot)[3..])
    ensures WriteRecord(SENDER_LENGTHS[3..], SpotValues(spot)[3..])
            == Field(spot.mode) + Field(spot.grid) + [1] + U32(spot.time)
  {
    hide Field, Cut, WriteRecord, RecordFits, BigEndian, U32;
    EmptyRecord();
    var l1, l2, l3: seq<nat> := [4], [1, 4], [VARIABLE, 1, 4];
    var v1: Record := [U32(spot.time)];
    var v2: Record := [[1], U32(spot.time)];
    var v3: Record := [Cut(spot.grid), [1], U32(spot.time)];
    AddValue(4, U32(spot.time), [], []);
    assert [4] + [] == l1 && [U32(spot.time)] + [] == v1;
    AddValue(1, [1], l1, v1);
    assert [1] + l1 == l2 && [[1]] + v1 == v2;
    AddField(spot.grid, l2, v2);
    assert [VARIABLE] + l2 == l3 && [Cut(spot.grid)] + v2 == v3;
    AddField(spot.mode, l3, v3);
    assert [VARIABLE] + l3 == SENDER_LENGTHS[3..] && [Cut(spot.mode)] + v3 == SpotValues(spot)[3..];
  }

  lemma LaterFieldsFit(spot: Spot)
    ensures RecordFits(SENDER_LENGTHS[1..], SpotValues(spot)[1..])
    ensures WriteRecord(SENDER_LENGTHS[1..], SpotValues(spot)[1..])
            == BigEndian(spot.freq, 5) + BigEndian(spot.snr, 1) + Field(spot.mode) + Field(spot.grid) + [1]
               + U32(spot.time)
  {
    hide Field, Cut, WriteRecord, RecordFits, BigEndian, U32, WellFormed;
    LastFieldsFit(spot);
    var l, v := SENDER_LENGTHS, SpotValues(spot);
    AddValue(1, BigEndian(spot.snr, 1), l[3..], v[3..]);
    assert [1] + l[3..] == l[2..] && [BigEndian(spot.snr, 1)] + v[3..] == v[2..];
    AddValue(5, BigEndian(spot.freq, 5), l[2..], v[2..]);
    assert [5] + l[2..] == l[1..] && [BigEndian(spot.freq, 5)] + v[2..] == v[1..];
  }

  // A spot, as it is written, is a record of the descriptor.
  lemma SpotRecordFits(spot: Spot)
    ensures WriteRecord(SENDER_LENGTHS, SpotValues(spot)) == SpotRecord(spot)
  {
    hide Field, Cut, WriteRecord, RecordFits, BigEndian, U32, WellFormed;
    LaterFieldsFit(spot);
    var l, v := SENDER_LENGTHS, SpotValues(spot);
    AddField(spot.call, l[1..], v[1..]);
    assert [VARIABLE] + l[1..] == l && [Cut(spot.call)] + v[1..] == v;
  }

  // Dividing by bytes in turn is shifting by all of them at once.
  lemma Shift(n: nat, d: nat, m: nat)
    requires d > 0 && m == 0x100 * d
    ensures n / 0x100 / d == n / m
  {
    var q := n / 0x100 / d;
    assert n == m * q + (n / 0x100 % d * 0x100 + n % 0x100);
    QuotientIs(n, m, q, n / 0x100 % d * 0x100 + n % 0x100);
  }

  lemma FrequencyBytes(freq: nat)
    ensures BigEndian(freq, 5) == [freq / 0x1_0000_0000 % 0x100, freq / 0x100_0000 % 0x100,
                                   freq / 0x1_0000 % 0x100, freq / 0x100 % 0x100, freq % 0x100]
  {
    var f1 := freq / 0x100;
    var f2 := f1 / 0x100;
    var f3 := f2 / 0x100;
    var f4 := f3 / 0x100;
    Shift(freq, 0x100, 0x1_0000);
    Shift(freq, 0x1_0000, 0x100_0000);
    Shift(f1, 0x100, 0x1_0000);
    Shift(freq, 0x100_0000, 0x1_0000_0000);
    Shift(f1, 0x1_0000, 0x100_0000);
    Shift(f2, 0x100, 0x1_0000);
    assert BigEndian(f4, 1) == BigEndian(f4 / 0x100, 0) + [f4 % 0x100] == [f4 % 0x100];
    assert BigEndian(f3, 2) == BigEndian(f4, 1) + [f3 % 0x100];
    assert BigEndian(f2, 3) == BigEndian(f3, 2) + [f2 % 0x100];
    assert BigEndian(f1, 4) == BigEndian(f2, 3) + [f1 % 0x100];
  }

  // Appends the record of a spot.
  method WriteSpot(out: seq<Byte>, spot: Spot) returns (r: seq<Byte>)
    ensures r == out + SpotRecord(spot)
  {
    hide Field, BigEndian, U32;
    var freq := spot.freq;
    r := WriteUtfString(out, spot.call);
    r := r + [freq / 0x1_0000_0000 % 0x100, freq / 0x100_0000 % 0x100, freq / 0x1_0000 % 0x100,
              freq / 0x100 % 0x100, freq % 0x100];
    FrequencyBytes(freq);
    r := r + BigEndian(spot.snr, 1);
    r := WriteUtfString(r, spot.mode);
    r := WriteUtfString(r, spot.grid);
    r := r + [1] + U32(spot.time);
  }

  lemma SpotRecordSize(spot: Spot)
    ensures 14 <= |SpotRecord(spot)| <= 776
  {
  }

  function SpotBytes(spots: seq<Spot>): seq<Byte> {
    if spots == [] then [] else SpotBytes(spots[..|spots| - 1]) + SpotRecord(spots[|spots| - 1])
  }

  function Values(spots: seq<Spot>): (r: seq<Record>)
    ensures |r| == |spots| && forall v <- r :: RecordFits(SENDER_LENGTHS, v)
  {
    if spots == [] then [] else Values(spots[..|spots| - 1]) + [SpotValues(spots[|spots| - 1])]
  }

  lemma {:induction false} AddRecord(lengths: seq<nat>, records: seq<Record>, record: Record)
    requires (forall r <- records :: RecordFits(lengths, r)) && RecordFits(lengths, record)
    ensures WriteRecords(lengths, records + [record])
            == WriteRecords(lengths, records) + WriteRecord(lengths, record)
  {
    hide RecordFits, WriteRecord;
    if records == [] {
      assert records + [record] == [record] && [record][1..] == [];
    } else {
      AddRecord(lengths, records[1..], record);
      assert (records + [record])[1..] == records[1..] + [record];
    }
  }

  lemma {:induction false} SpotBytesAreRecords(spots: seq<Spot>)
    ensures WriteRecords(SENDER_LENGTHS, Values(spots)) == SpotBytes(spots)
  {
    if spots != [] {
      hide SpotRecord, RecordFits, WriteRecord;
      var n := |spots| - 1;
      SpotBytesAreRecords(spots[..n]);
      AddRecord(SENDER_LENGTHS, Values(spots[..n]), SpotValues(spots[n]));
      SpotRecordFits(spots[n]);
    }
  }

  /* Reports */

  // The bytes of a preamble behind the message header.
  ghost function Descriptors(): seq<Byte> {
    WriteSet(map[], Template(SENDER_LINK, SENDER)) + WriteSet(map[], OptionsTemplate(RECEIVER_LINK, 0, RECEIVER))
  }

  ghost function ReceiverSet(receiver: Receiver): seq<Byte> {
    WithHeader(RECEIVER_LINK, WriteRecord(RECEIVER_LENGTHS, ReceiverValues(receiver)))
  }

  ghost function Front(p: Preamble): seq<Byte> {
    (if p.descriptors then Descriptors() else []) + ReceiverSet(p.receiver)
  }

  ghost function SpotSet(chunk: seq<Spot>): seq<Byte> {
    if chunk == [] then [] else WithHeader(SENDER_LINK, SpotBytes(chunk))
  }

  // A whole report: the payload of one datagram.
  ghost function Report(p: Preamble, time: int, chunk: seq<Spot>): seq<Byte> {
    WriteMessage(Header(time, p.sequence, p.observation), Front(p) + SpotSet(chunk))
  }

  // The same, as sets.
  function ReportSets(p: Preamble, chunk: seq<Spot>): seq<Set> {
    (if p.descriptors then [Template(SENDER_LINK, SENDER), OptionsTemplate(RECEIVER_LINK, 0, RECEIVER)] else [])
    + [Data(RECEIVER_LINK, [ReceiverValues(p.receiver)])]
    + (if chunk == [] then [] else [Data(SENDER_LINK, Values(chunk))])
  }

  // A collector that can read reports without descriptors.
  predicate Informed(templates: Templates) {
    && SENDER_LINK in templates && templates[SENDER_LINK] == SENDER
    && RECEIVER_LINK in templates && templates[RECEIVER_LINK] == RECEIVER
  }

  lemma DescriptorLengths()
    ensures Lengths(SENDER) == SENDER_LENGTHS && Lengths(RECEIVER) == RECEIVER_LENGTHS
  {
    assert Lengths(SENDER[6..]) == [4];
    assert Lengths(SENDER[5..]) == [SENDER[5].length] + Lengths(SENDER[5..][1..]) == [1, 4] by {
      assert SENDER[5..][1..] == SENDER[6..];
    }
    assert Lengths(SENDER[4..]) == [VARIABLE, 1, 4] by {
      assert SENDER[4..][1..] == SENDER[5..];
    }
    assert Lengths(SENDER[3..]) == [VARIABLE, VARIABLE, 1, 4] by {
      assert SENDER[3..][1..] == SENDER[4..];
    }
    assert Lengths(SENDER[2..]) == [1, VARIABLE, VARIABLE, 1, 4] by {
      assert SENDER[2..][1..] == SENDER[3..];
    }
    assert Lengths(SENDER[1..]) == [5, 1, VARIABLE, VARIABLE, 1, 4] by {
      assert SENDER[1..][1..] == SENDER[2..];
    }
    assert Lengths(RECEIVER[2..]) == [VARIABLE, VARIABLE] by {
      assert RECEIVER[2..][1..] == [RECEIVER[3]];
    }
    assert Lengths(RECEIVER[1..]) == [VARIABLE, VARIABLE, VARIABLE] by {
      assert RECEIVER[1..][1..] == RECEIVER[2..];
    }
  }

  function DataSets(p: Preamble, chunk: seq<Spot>): seq<Set> {
    [Data(RECEIVER_LINK, [ReceiverValues(p.receiver)])]
    + if chunk == [] then [] else [Data(SENDER_LINK, Values(chunk))]
  }

  lemma LeastLengths()
    ensures Least(SENDER_LENGTHS) == 14 && Least(RECEIVER_LENGTHS) == 4
  {
    hide Least;
    SenderLeast();
    ReceiverLeast();
  }

  lemma SenderLeast()
    ensures Least(SENDER_LENGTHS) == 14
  {
    hide Least;
    EmptyLeast();
    var l := SENDER_LENGTHS;
    forall i | 0 <= i < 7
      ensures l[i..] == [l[i]] + l[i + 1..]
    {
    }
    LeastOf(l[6], l[7..]);
    LeastOf(l[5], l[6..]);
    LeastOf(l[4], l[5..]);
    LeastOf(l[3], l[4..]);
    LeastOf(l[2], l[3..]);
    LeastOf(l[1], l[2..]);
    LeastOf(l[0], l[1..]);
  }

  lemma ReceiverLeast()
    ensures Least(RECEIVER_LENGTHS) == 4
  {
    hide Least;
    EmptyLeast();
    var m := RECEIVER_LENGTHS;
    forall i | 0 <= i < 4
      ensures m[i..] == [m[i]] + m[i + 1..]
    {
    }
    LeastOf(m[3], m[4..]);
    LeastOf(m[2], m[3..]);
    LeastOf(m[1], m[2..]);
    LeastOf(m[0], m[1..]);
  }

  lemma EmptyLeast()
    ensures Least([]) == 0
  {
  }

  lemma LeastOf(length: nat, lengths: seq<nat>)
    ensures Least([length] + lengths) == (if length == VARIABLE then 1 else length) + Least(lengths)
  {
    assert ([length] + lengths)[1..] == lengths;
  }

  lemma AddSet(templates: Templates, s: Set, rest: seq<Set>)
    requires SetFits(templates, s) && |WriteSet(templates, s)| < 0x1_0000
    requires AllFit(After(templates, s), rest)
    ensures AllFit(templates, [s] + rest)
    ensures WriteSets(templates, [s] + rest) == WriteSet(templates, s) + WriteSets(After(templates, s), rest)
  {
    hide SetFits, WriteSet, After;
    assert ([s] + rest)[1..] == rest && ([s] + rest)[0] == s;
  }

  lemma ReceiverRecordSize(receiver: Receiver)
    ensures 4 <= |WriteRecord(RECEIVER_LENGTHS, ReceiverValues(receiver))| <= 1020
    ensures |ReceiverSet(receiver)| <= 1024
  {
    hide WriteRecord, RecordFits, ReceiverValues, Cut;
    ReceiverRecord(receiver);
  }

  lemma ReceiverSetFits(templates: Templates, receiver: Receiver)
    requires Informed(templates)
    ensures var s := Data(RECEIVER_LINK, [ReceiverValues(receiver)]);
            SetFits(templates, s) && WriteSet(templates, s) == ReceiverSet(receiver)
  {
    hide RecordFits, WriteRecord, Lengths, Least;
    DescriptorLengths();
    LeastLengths();
    var v := ReceiverValues(receiver);
    assert WriteRecords(RECEIVER_LENGTHS, [v]) == WriteRecord(RECEIVER_LENGTHS, v) + WriteRecords(RECEIVER_LENGTHS, []);
  }

  lemma SpotSetFits(templates: Templates, chunk: seq<Spot>)
    requires Informed(templates) && chunk != []
    ensures var s := Data(SENDER_LINK, Values(chunk));
            SetFits(templates, s) && WriteSet(templates, s) == SpotSet(chunk)
  {
    hide Values, SpotBytes, WriteRecords, Least, RecordFits, Lengths;
    DescriptorLengths();
    LeastLengths();
    SpotBytesAreRecords(chunk);
  }

  // The sets with data, for a collector that knows their formats.
  lemma DataSetsFit(templates: Templates, p: Preamble, chunk: seq<Spot>)
    requires Informed(templates) && |SpotSet(chunk)| < 0x1_0000
    ensures AllFit(templates, DataSets(p, chunk))
    ensures WriteSets(templates, DataSets(p, chunk)) == ReceiverSet(p.receiver) + SpotSet(chunk)
  {
    hide Values, SpotBytes, WriteRecords, WriteRecord, Least, RecordFits, SetFits, WriteSet, Informed, WithHeader;
    ReceiverRecordSize(p.receiver);
    ReceiverSetFits(templates, p.receiver);
    var rest: seq<Set> := if chunk == [] then [] else [Data(SENDER_LINK, Values(chunk))];
    if chunk != [] {
      SpotSetFits(templates, chunk);
      AddSet(templates, rest[0], []);
    }
    AddSet(templates, Data(RECEIVER_LINK, [ReceiverValues(p.receiver)]), rest);
  }

  lemma DescriptorsFit(templates: Templates)
    ensures SetFits(templates, Template(SENDER_LINK, SENDER))
    ensures SetFits(templates, OptionsTemplate(RECEIVER_LINK, 0, RECEIVER))
    ensures WriteSet(templates, Template(SENDER_LINK, SENDER)) == WriteSet(map[], Template(SENDER_LINK, SENDER))
    ensures WriteSet(templates, OptionsTemplate(RECEIVER_LINK, 0, RECEIVER))
            == WriteSet(map[], OptionsTemplate(RECEIVER_LINK, 0, RECEIVER))
    ensures |WriteSet(map[], Template(SENDER_LINK, SENDER))| == 60
    ensures |WriteSet(map[], OptionsTemplate(RECEIVER_LINK, 0, RECEIVER))| == 44
  {
    hide SetFits, WriteSet;
    SenderDescriptorFits(templates);
    ReceiverDescriptorFits(templates);
  }

  lemma SenderDescriptorFits(templates: Templates)
    ensures var s := Template(SENDER_LINK, SENDER);
            && SetFits(templates, s) && SetFits(map[], s)
            && WriteSet(templates, s) == WriteSet(map[], s) && |WriteSet(map[], s)| == 60
  {
    hide WriteElements, RecordFits, Least;
    SenderElementsSize();
  }

  lemma ReceiverDescriptorFits(templates: Templates)
    ensures var s := OptionsTemplate(RECEIVER_LINK, 0, RECEIVER);
            && SetFits(templates, s) && SetFits(map[], s)
            && WriteSet(templates, s) == WriteSet(map[], s) && |WriteSet(map[], s)| == 44
  {
    hide WriteElements, RecordFits, Least;
    ReceiverElementsSize();
  }

  lemma ElementsSize(e: Element, elements: seq<Element>)
    ensures |WriteElements([e] + elements)| == (if e.Standard? then 4 else 8) + |WriteElements(elements)|
  {
    assert ([e] + elements)[1..] == elements;
  }

  lemma SenderElementsSize()
    ensures |WriteElements(SENDER)| == 52
  {
    hide WriteElements;
    var l := SENDER;
    forall i | 0 <= i < 7
      ensures l[i..] == [l[i]] + l[i + 1..]
    {
    }
    NoElements();
    ElementsSize(l[6], l[7..]);
    ElementsSize(l[5], l[6..]);
    ElementsSize(l[4], l[5..]);
    ElementsSize(l[3], l[4..]);
    ElementsSize(l[2], l[3..]);
    ElementsSize(l[1], l[2..]);
    ElementsSize(l[0], l[1..]);
  }

  lemma ReceiverElementsSize()
    ensures |WriteElements(RECEIVER)| == 32
  {
    hide WriteElements;
    var l := RECEIVER;
    forall i | 0 <= i < 4
      ensures l[i..] == [l[i]] + l[i + 1..]
    {
    }
    NoElements();
    ElementsSize(l[3], l[4..]);
    ElementsSize(l[2], l[3..]);
    ElementsSize(l[1], l[2..]);
    ElementsSize(l[0], l[1..]);
  }

  lemma NoElements()
    ensures WriteElements([]) == []
  {
  }

  // An element of PSK Reporter, with the length given.
  function Own(id: Byte, high: Byte, low: Byte): seq<Byte> {
    [0x80, id, high, low, 0x00, 0x00, 0x76, 0x8F]
  }

  lemma OwnIs(id: nat, length: nat)
    requires id < 0x100 && length < 0x1_0000
    ensures WriteElement(Enterprise(id, length, 30351)) == Own(id, length / 0x100, length % 0x100)
  {
    U16Is(0x8000 + id);
    U16Is(length);
    U32Is(30351);
    U16Is(0);
    U16Is(30351);
  }

  lemma WriteElementsOf(e: Element, elements: seq<Element>)
    ensures WriteElements([e] + elements) == WriteElement(e) + WriteElements(elements)
  {
    assert ([e] + elements)[1..] == elements;
  }

  lemma WriteElementsFrom(elements: seq<Element>, k: nat)
    requires k < |elements|
    ensures WriteElements(elements[k..]) == WriteElement(elements[k]) + WriteElements(elements[k + 1..])
  {
    WriteElementsOf(elements[k], elements[k + 1..]);
    assert elements[k..] == [elements[k]] + elements[k + 1..];
  }

  lemma Regrouped(a: seq<Byte>, b: seq<Byte>, c: seq<Byte>, d: seq<Byte>, e: seq<Byte>, f: seq<Byte>, g: seq<Byte>)
    ensures a + (b + (c + (d + (e + f + g)))) == a + b + c + d + e + f + g
  {
  }

  // The elements of a spot, byte by byte: call, frequency, signal, mode, grid, source, time.
  lemma SenderElementsAre()
    ensures WriteElements(SENDER)
            == Own(1, 0xFF, 0xFF) + Own(5, 0, 5) + Own(6, 0, 1) + Own(10, 0xFF, 0xFF) + Own(3, 0xFF, 0xFF)
               + Own(11, 0, 1) + [0, 150, 0, 4]
  {
    hide WriteElements, WriteElement, Own;
    LastElementsAre();
    var last := Own(3, 0xFF, 0xFF) + Own(11, 0, 1) + [0, 150, 0, 4];
    OwnIs(10, 0xFFFF);
    WriteElementsFrom(SENDER, 3);
    assert WriteElements(SENDER[3..]) == Own(10, 0xFF, 0xFF) + last;
    OwnIs(6, 1);
    WriteElementsFrom(SENDER, 2);
    assert WriteElements(SENDER[2..]) == Own(6, 0, 1) + (Own(10, 0xFF, 0xFF) + last);
    OwnIs(5, 5);
    WriteElementsFrom(SENDER, 1);
    OwnIs(1, 0xFFFF);
    WriteElementsFrom(SENDER, 0);
    assert SENDER[0..] == SENDER;
    Regrouped(Own(1, 0xFF, 0xFF), Own(5, 0, 5), Own(6, 0, 1), Own(10, 0xFF, 0xFF), Own(3, 0xFF, 0xFF), Own(11, 0, 1),
              [0, 150, 0, 4]);
  }

  lemma LastElementsAre()
    ensures WriteElements(SENDER[4..]) == Own(3, 0xFF, 0xFF) + Own(11, 0, 1) + [0, 150, 0, 4]
  {
    hide WriteElements, WriteElement, Own;
    NoElements();
    StandardIs(150, 4);
    WriteElementsFrom(SENDER, 6);
    assert SENDER[7..] == [] && WriteElements(SENDER[6..]) == [0, 150, 0, 4];
    OwnIs(11, 1);
    WriteElementsFrom(SENDER, 5);
    assert WriteElements(SENDER[5..]) == Own(11, 0, 1) + [0, 150, 0, 4];
    OwnIs(3, 0xFFFF);
    WriteElementsFrom(SENDER, 4);
    assert WriteElements(SENDER[4..]) == Own(3, 0xFF, 0xFF) + (Own(11, 0, 1) + [0, 150, 0, 4]);
  }

  lemma StandardIs(id: nat, length: nat)
    requires id < 0x100 && length < 0x100
    ensures WriteElement(Standard(id, length)) == [0, id, 0, length]
  {
    U16Is(id);
    U16Is(length);
  }

  // And those of the receiver: call, grid, program, antenna.
  lemma ReceiverElementsAre()
    ensures WriteElements(RECEIVER)
            == Own(2, 0xFF, 0xFF) + Own(4, 0xFF, 0xFF) + Own(8, 0xFF, 0xFF) + Own(9, 0xFF, 0xFF)
  {
    hide WriteElements, WriteElement, Own;
    NoElements();
    OwnIs(9, 0xFFFF);
    WriteElementsFrom(RECEIVER, 3);
    OwnIs(8, 0xFFFF);
    WriteElementsFrom(RECEIVER, 2);
    OwnIs(4, 0xFFFF);
    WriteElementsFrom(RECEIVER, 1);
    OwnIs(2, 0xFFFF);
    WriteElementsFrom(RECEIVER, 0);
    assert RECEIVER[0..] == RECEIVER;
  }

  // The descriptors, byte by byte.
  lemma SenderDescriptorIs()
    ensures WithHeader(2, U16(SENDER_LINK) + U16(|SENDER|) + WriteElements(SENDER))
            == [0, 2, 0, 60, 0x50, 0xE3, 0, 7] + Own(1, 0xFF, 0xFF) + Own(5, 0, 5) + Own(6, 0, 1)
               + Own(10, 0xFF, 0xFF) + Own(3, 0xFF, 0xFF) + Own(11, 0, 1) + [0, 150, 0, 4]
  {
    hide WriteElements, Own, WithHeader, U16;
    SenderElementsAre();
    SenderElementsSize();
    U16Is(2);
    U16Is(60);
    U16Is(0x50E3);
    U16Is(7);
    HeaderOf(2, U16(SENDER_LINK) + U16(|SENDER|) + WriteElements(SENDER));
  }

  lemma ReceiverDescriptorIs()
    ensures WithHeader(3, U16(RECEIVER_LINK) + U16(|RECEIVER|) + U16(0) + WriteElements(RECEIVER))
            == [0, 3, 0, 44, 0x50, 0xE2, 0, 4, 0, 0] + Own(2, 0xFF, 0xFF) + Own(4, 0xFF, 0xFF)
               + Own(8, 0xFF, 0xFF) + Own(9, 0xFF, 0xFF) + [0, 0]
  {
    hide WriteElements, Own, WithHeader, U16;
    ReceiverElementsAre();
    ReceiverElementsSize();
    U16Is(3);
    U16Is(44);
    U16Is(0x50E2);
    U16Is(4);
    U16Is(0);
    HeaderOf(3, U16(RECEIVER_LINK) + U16(|RECEIVER|) + U16(0) + WriteElements(RECEIVER));
  }

  lemma SenderSetIs()
    requires SetFits(map[], Template(SENDER_LINK, SENDER))
    ensures WriteSet(map[], Template(SENDER_LINK, SENDER))
            == WithHeader(2, U16(SENDER_LINK) + U16(|SENDER|) + WriteElements(SENDER))
  {
    hide WithHeader, U16, WriteElements;
  }

  lemma ReceiverSetIs()
    requires SetFits(map[], OptionsTemplate(RECEIVER_LINK, 0, RECEIVER))
    ensures WriteSet(map[], OptionsTemplate(RECEIVER_LINK, 0, RECEIVER))
            == WithHeader(3, U16(RECEIVER_LINK) + U16(|RECEIVER|) + U16(0) + WriteElements(RECEIVER))
  {
    hide WithHeader, U16, WriteElements;
  }

  lemma HeaderOf(id: nat, content: seq<Byte>)
    ensures WithHeader(id, content) == U16(id) + U16(4 + |content| + Pad(|content|)) + content + Zeros(Pad(|content|))
  {
  }

  // The strings of the receiver as a set, sent with every report.
  method ReceiverInformation(receiver: Receiver) returns (r: seq<Byte>)
    ensures r == ReceiverSet(receiver)
  {
    hide Field, U16, WellFormed, WriteRecord, RecordFits, ReceiverValues, WithHeader, Pad;
    r := WriteUtfString([], receiver.call);
    r := WriteUtfString(r, receiver.grid);
    r := WriteUtfString(r, receiver.program);
    r := WriteUtfString(r, receiver.antenna);
    ReceiverRecord(receiver);
    SetLengthMakesSet(RECEIVER_LINK, r);
    assert [] + Field(receiver.call) == Field(receiver.call);
    r := SetLength(U16(RECEIVER_LINK) + U16(0) + r);
  }
}
