/** The reporter itself: spots queued on arrival, batched into datagrams, and carried over from one
    call to the next when they do not fill or do not fit one. */
module PskReporter {
  import opened Bytes
  import opened Ipfix
  import opened ReportCollector
  import opened SpotCache
  import opened SpotReports
  import opened Utf8
  import opened Wrappers

  const FLUSH_INTERVAL := 125
  const MIN_PAYLOAD_LENGTH := 508
  const MAX_PAYLOAD_LENGTH := 10000

  // A payload that is still to be closed: no length, no time.
  ghost function Open(p: Preamble): seq<Byte> {
    U16(10) + U16(0) + U32(0) + U32(p.sequence) + U32(p.observation) + Front(p)
  }

  // A set of spots that is still to be closed: no length, no padding.
  ghost function OpenSet(spots: seq<Spot>): seq<Byte> {
    U16(SENDER_LINK) + U16(0) + SpotBytes(spots)
  }

  // The next spot would have taken a report over the limit.
  ghost predicate Overfull(s: Sent, next: Spot) {
    |Report(s.preamble, s.time, s.chunk + [next])| > MAX_PAYLOAD_LENGTH
  }

  // What a report is sent for: it is long, or the spot that is left over would not have fitted, or a flush is on.
  ghost predicate Justified(s: Sent, rest: seq<Spot>, flushing: bool) {
    || |Report(s.preamble, s.time, s.chunk)| > 508
    || (rest != [] && |Report(s.preamble, s.time, s.chunk + [rest[0]])| > 10000)
    || flushing
  }

  lemma SentIsJustified(s: Sent, rest: seq<Spot>, flushing: bool)
    requires || |Open(s.preamble)| + |SpotSet(s.chunk)| > MIN_PAYLOAD_LENGTH || (rest != [] && Overfull(s, rest[0]))
             || flushing
    ensures Justified(s, rest, flushing)
  {
    hide Open, SpotSet, Report;
    ReportSize(s.preamble, s.time, s.chunk);
  }

  lemma StillJustified(s: Sent, rest: seq<Spot>, more: seq<Spot>, flush: bool, flushing: bool)
    requires Justified(s, rest, flush) && (flush ==> flushing) && rest <= more
    ensures Justified(s, more, flushing)
  {
    hide Report;
  }

  // The n-th sequence number.
  function Number(n: nat): (r: nat)
    ensures r < 0x1_0000_0000
  {
    n % 0x1_0000_0000
  }

  ghost predicate Numbered(log: seq<Sent>) {
    forall i: nat | i < |log| :: log[i].preamble.sequence == Number(i + 1)
  }

  ghost predicate Logged(log: seq<Sent>, written: seq<seq<Byte>>) {
    written == Payloads(log) && (forall s <- log :: Deliverable(s)) && Numbered(log)
  }

  lemma LoggedOneMore(log: seq<Sent>, written: seq<seq<Byte>>, s: Sent)
    requires Logged(log, written) && Deliverable(s) && s.preamble.sequence == Number(|log| + 1)
    ensures Logged(log + [s], written + [Report(s.preamble, s.time, s.chunk)]) && |written| == |log|
  {
    hide Report, Payloads, Deliverable, Number;
    PayloadsOfOneMore(log, s);
    PayloadsCount(log);
  }

  lemma PayloadsCount(log: seq<Sent>)
    ensures |Payloads(log)| == |log|
  {
  }

  // How often the formats are still due after a number of preambles.
  function Due(n: nat, built: int): (r: nat)
    ensures built >= 0 ==> (n <= built && r == 0) || r + built == n
  {
    if built <= 0 then n else if n <= built then 0 else n - built
  }

  lemma NextNumber(n: nat)
    ensures Number(n + 1) == (Number(n) + 1) % 0x1_0000_0000
  {
  }

  ghost predicate Deliverable(s: Sent) {
    var size := |Report(s.preamble, s.time, s.chunk)|;
    size <= 10000 && size % 4 == 0 && Sound(s)
  }

  /* Sizes and shapes */

  lemma FrontSize(p: Preamble)
    ensures |Front(p)| <= 1128 && |Front(p)| % 4 == 0
  {
    hide WriteSet, ReceiverSet;
    DescriptorsFit(map[]);
    ReceiverRecordSize(p.receiver);
    ReceiverSetAligned(p.receiver);
  }

  lemma ReceiverSetAligned(receiver: Receiver)
    ensures |ReceiverSet(receiver)| % 4 == 0
  {
  }

  lemma SpotSetSize(spots: seq<Spot>)
    ensures |SpotSet(spots)| % 4 == 0
    ensures spots != [] ==> |SpotSet(spots)| == |OpenSet(spots)| + Pad(|OpenSet(spots)|)
    ensures spots == [] ==> SpotSet(spots) == []
  {
    hide SpotBytes, U16;
  }

  lemma SpotBytesOfOneMore(spots: seq<Spot>, spot: Spot)
    ensures SpotBytes(spots + [spot]) == SpotBytes(spots) + SpotRecord(spot)
    ensures |SpotBytes(spots)| + 14 <= |SpotBytes(spots + [spot])| <= |SpotBytes(spots)| + 776
  {
    SpotRecordSize(spot);
    assert (spots + [spot])[..|spots|] == spots;
  }

  lemma OneSpotSize(spot: Spot)
    ensures SpotBytes([spot]) == SpotRecord(spot)
    ensures |SpotSet([spot])| <= 784
  {
    SpotBytesOfOneMore([], spot);
    assert [] + [spot] == [spot];
  }

  lemma ClosedSetIsSet(chunk: seq<Spot>)
    requires chunk != []
    ensures var b := OpenSet(chunk);
            |b| >= 4 && b[..2] + U16(|b| + Pad(|b|)) + b[4..] + Zeros(Pad(|b|)) == SpotSet(chunk)
  {
    hide SpotBytes, U16, WithHeader;
    SetLengthMakesSet(SENDER_LINK, SpotBytes(chunk));
  }

  lemma NoPadding(n: nat)
    ensures n % 4 == 0 ==> Pad(n) == 0 && Zeros(Pad(n)) == []
  {
  }

  // Closing a payload, a place-holder for length and time at a time, makes it a report.
  lemma ClosedIsReport(p: Preamble, time: int, chunk: seq<Spot>)
    ensures var b := Open(p) + SpotSet(chunk);
            var c := b[..2] + U16(|b|) + b[4..];
            c[..4] + U32(time) + c[8..] == Report(p, time, chunk)
  {
    hide U16, U32, Front, SpotSet;
    var b := Open(p) + SpotSet(chunk);
    var c := b[..2] + U16(|b|) + b[4..];
    assert b[..2] == U16(10);
    assert b[8..] == U32(p.sequence) + U32(p.observation) + Front(p) + SpotSet(chunk);
    assert c[..4] == U16(10) + U16(|b|) && c[8..] == b[8..];
  }

  lemma OpenSize(p: Preamble)
    ensures |Open(p)| == 16 + |Front(p)|
  {
    hide Front, U16, U32;
  }

  lemma ReportSize(p: Preamble, time: int, chunk: seq<Spot>)
    ensures |Report(p, time, chunk)| == |Open(p)| + |SpotSet(chunk)|
    ensures |Report(p, time, chunk)| % 4 == 0
    ensures 16 <= |Open(p)| <= 1144 && |Open(p)| % 4 == 0
  {
    hide SpotSet, Front, U16, U32, WriteMessage, Open;
    OpenSize(p);
    FrontSize(p);
    SpotSetSize(chunk);
    SumAligned(16, |Front(p)|);
    SumAligned(|Open(p)|, |SpotSet(chunk)|);
  }

  lemma SumAligned(a: nat, b: nat)
    requires a % 4 == 0 && b % 4 == 0
    ensures (a + b) % 4 == 0
  {
  }

  lemma IsDeliverable(s: Sent)
    requires |Open(s.preamble)| + |SpotSet(s.chunk)| <= MAX_PAYLOAD_LENGTH
    requires s.preamble.sequence < 0x1_0000_0000 && s.preamble.observation < 0x1_0000_0000
    ensures Deliverable(s)
  {
    hide Report, Open, SpotSet;
    ReportSize(s.preamble, s.time, s.chunk);
  }

  // Closes a payload over a set of spots, if there are any.
  method CloseReport(payload: seq<Byte>, txData: seq<Byte>, time: int, ghost p: Preamble, ghost chunk: seq<Spot>)
    returns (r: seq<Byte>)
    requires payload == Open(p) && txData == if chunk == [] then [] else OpenSet(chunk)
    ensures r == Report(p, time, chunk)
  {
    hide Open, OpenSet, SpotSet, SpotBytes, WellFormed, Report, U16, U32, Pad;
    ReportSize(p, time, chunk);
    SpotSetSize(chunk);
    r := payload;
    if txData != [] {
      OpenSetIsLong(chunk);
      var tx := SetLength(txData);
      ClosedSetIsSet(chunk);
      r := r + tx;
    } else {
      OpenSetIsLong(chunk);
    }
    assert r == Open(p) + SpotSet(chunk);
    r := SetLength(r);
    NoPadding(|Open(p) + SpotSet(chunk)|);
    r := r[..4] + U32(time) + r[8..];
    ClosedIsReport(p, time, chunk);
  }

  lemma ResidueIsLong(spot: Spot)
    ensures SpotBytes([spot]) != []
  {
    OneSpotSize(spot);
    SpotRecordSize(spot);
  }

  lemma NoSpotBytes()
    ensures SpotBytes([]) == []
  {
  }

  lemma OpenSetIsLong(chunk: seq<Spot>)
    ensures |OpenSet(chunk)| == 4 + |SpotBytes(chunk)|
  {
  }

  lemma PayloadsOfOneMore(log: seq<Sent>, s: Sent)
    ensures Payloads(log + [s]) == Payloads(log) + [Report(s.preamble, s.time, s.chunk)]
    ensures Spots(log + [s]) == Spots(log) + s.chunk
  {
    hide Report, WellFormed;
    assert (log + [s])[..|log|] == log;
  }

  lemma AddedSpot(spots: seq<Spot>, spot: Spot)
    ensures OpenSet(spots + [spot]) == OpenSet(spots) + SpotRecord(spot)
    ensures SpotBytes([spot]) == SpotRecord(spot)
  {
    hide SpotBytes, SpotRecord, U16;
    SpotBytesOfOneMore(spots, spot);
    OneSpotSize(spot);
  }

  // The length that is computed beforehand is that of the report.
  lemma PaddedLength(p: Preamble, txData: seq<Byte>, spots: seq<Spot>)
    requires txData == if spots == [] then [] else OpenSet(spots)
    ensures var len := |Open(p)| + |txData| + Pad(|txData|);
            len + Pad(len) == |Open(p)| + |SpotSet(spots)|
  {
    hide Open, OpenSet, SpotSet, Report, Pad;
    ReportSize(p, 0, spots);
    SpotSetSize(spots);
    NoPadding(0);
    PaddedSum(|Open(p)|, |txData|, |SpotSet(spots)|);
  }

  lemma PaddedSum(a: nat, t: nat, b: nat)
    requires a % 4 == 0 && b % 4 == 0 && b == t + Pad(t)
    ensures a + t + Pad(t) + Pad(a + t + Pad(t)) == a + b
  {
    SumAligned(a, b);
    NoPadding(a + b);
  }

  // One spot always fits.
  lemma OneSpotFits(p: Preamble, spot: Spot)
    ensures |Open(p)| + |SpotSet([spot])| <= MAX_PAYLOAD_LENGTH
  {
    hide Open, SpotSet;
    ReportSize(p, 0, []);
    OneSpotSize(spot);
  }

  // A report with a single spot is never over the limit.
  lemma AddedIsNotFirst(p: Preamble, spots: seq<Spot>, spot: Spot)
    requires |Open(p)| + |SpotSet(spots + [spot])| > MAX_PAYLOAD_LENGTH
    ensures spots != []
  {
    hide Open, SpotSet;
    ReportSize(p, 0, spots);
    OneSpotSize(spot);
    assert [] + [spot] == [spot];
  }

  lemma OverfullIs(p: Preamble, time: int, spots: seq<Spot>, spot: Spot)
    requires |Open(p)| + |SpotSet(spots + [spot])| > MAX_PAYLOAD_LENGTH
    ensures Overfull(Sent(p, time, spots), spot)
  {
    hide Open, SpotSet, Report;
    ReportSize(p, time, spots + [spot]);
  }

  // The limit was the reason to send a report before the next.
  ghost predicate SameFirst(a: seq<Spot>, b: seq<Spot>) {
    a != [] && b != [] && a[0] == b[0]
  }

  lemma FirstOfFirst(a: seq<Spot>, b: seq<Spot>, c: seq<Spot>)
    requires SameFirst(a, b) && SameFirst(b, c)
    ensures SameFirst(a, c)
  {
  }

  ghost predicate Follows(a: Sent, b: Sent) {
    b.chunk != [] && Overfull(a, b.chunk[0])
  }

  ghost predicate Batched(log: seq<Sent>, from: nat) {
    forall i: nat, j | from <= i && j == i + 1 && j < |log| :: Follows(log[i], log[j])
  }

  lemma BatchedOneMore(log: seq<Sent>, s: Sent, from: nat)
    requires Batched(log, from) && (|log| > from ==> Follows(log[|log| - 1], s))
    ensures Batched(log + [s], from)
  {
    hide Follows;
  }

  lemma AddNothing(building: seq<Spot>, spots: seq<Spot>)
    requires spots == []
    ensures building + spots == building
  {
  }

  lemma OneMoved(building: seq<Spot>, spots: seq<Spot>)
    requires spots != []
    ensures building + [spots[0]] + spots[1..] == building + spots
  {
  }

  lemma Regroup(sent: seq<Spot>, chunk: seq<Spot>, left: seq<Spot>, spots: seq<Spot>)
    ensures sent + chunk + ([] + left + spots) == sent + (chunk + left + spots)
  {
  }

  class Reporter {
    const bands: Bands
    const program: Text
    const observation: nat
    const clock: nat -> int

    var call: Text
    var grid: Text
    var antenna: Text
    var txData: seq<Byte>
    var txResidue: seq<Byte>
    var payload: seq<Byte>
    var spots: seq<Spot>
    var calls: map<Key, int>
    var sequence: nat
    var sendDescriptors: nat
    var flushCounter: nat
    // Whether there is a socket, and what has been written to it.
    var hasSocket: bool
    var written: seq<seq<Byte>>

    // What was written, and what the buffers hold.
    ghost var log: seq<Sent>
    ghost var prepared: Preamble
    ghost var building: seq<Spot>
    ghost var left: seq<Spot>

    // The number of reports before the present socket, and whether the first to it tells the formats.
    ghost var start: nat
    ghost var informs: bool

    // The spots that have come out of the queue, and those still in it.
    ghost function AllSpots(): seq<Spot>
      reads this
    {
      Spots(log) + (building + left + spots)
    }

    ghost predicate PayloadValid()
      reads `sequence, `payload, `prepared, `log
    {
      && sequence < 0x1_0000_0000 && observation < 0x1_0000_0000
      && (payload != [] ==>
            payload == Open(prepared) && prepared.sequence == sequence && prepared.observation == observation)
      && sequence == Number(Built())
    }

    ghost predicate LogValid()
      reads `written, `log
    {
      Logged(log, written)
    }

    // The first report to a socket tells the formats, unless one without them was prepared before there was the
    // socket.
    ghost predicate FormatsFirst()
      reads `log, `payload, `prepared, `sendDescriptors, `hasSocket, `start, `informs
    {
      && start <= |log|
      && (|log| > start ==> log[start].preamble.descriptors == informs)
      && (|log| == start && payload != [] ==> prepared.descriptors == informs)
      && (|log| == start && payload == [] ==> informs && (hasSocket ==> sendDescriptors > 0))
      && (!hasSocket ==> log == [] && payload == [])
    }

    // The number of preambles built so far.
    ghost function Built(): nat
      reads `log, `payload
    {
      |log| + if payload == [] then 0 else 1
    }

    ghost predicate BuffersValid()
      reads `txData, `building, `txResidue, `left, `log, `payload
    {
      && txData == (if building == [] then [] else OpenSet(building))
      && txResidue == SpotBytes(left)
      && |left| <= 1
      && (left != [] ==> building == [] && log != [] && Overfull(log[|log| - 1], left[0]))
      && (building != [] ==> payload != [] && |payload| + |SpotSet(building)| <= MIN_PAYLOAD_LENGTH)
    }

    ghost predicate Sendable()
      reads `sequence, `payload, `prepared, `log, `written, `sendDescriptors, `hasSocket, `start, `informs
    {
      PayloadValid() && LogValid() && FormatsFirst()
    }

    ghost predicate Valid()
      reads this
    {
      Sendable() && BuffersValid() && flushCounter < 0x1_0000_0000
    }

    constructor (bands: Bands, program: Text, observation: nat, clock: nat -> int)
      requires observation < 0x1_0000_0000
      ensures Valid() && AllSpots() == [] && spots == [] && payload == [] && log == [] && flushCounter == 0
      ensures calls == map[] && !hasSocket && call == grid == antenna == []
      ensures this.bands == bands && this.program == program && this.observation == observation && this.clock == clock
    {
      this.bands, this.program, this.observation, this.clock := bands, program, observation, clock;
      call, grid, antenna := [], [], [];
      txData, txResidue, payload, spots, calls := [], [], [], [], map[];
      sequence, sendDescriptors, flushCounter, hasSocket, written := 0, 0, 0, false, [];
      log, building, left, start, informs := [], [], [], 0, true;
    }

    // A new socket; the formats are sent again, as often as it takes for datagrams, but not with a report that is
    // already prepared.
    method Reconnect(tcp: bool)
      requires Valid()
      modifies `hasSocket, `sendDescriptors, `start, `informs
      ensures Valid() && hasSocket && sendDescriptors == if tcp then 1 else 3
      ensures start == |log| && informs == (payload == [] || prepared.descriptors)
    {
      hide PayloadValid, LogValid, BuffersValid;
      start, informs := |log|, payload == [] || prepared.descriptors;
      hasSocket := true;
      sendDescriptors := if tcp then 1 else 3;
    }

    // Now and then the formats are sent again over UDP, in case the collector has lost them.
    method RepeatDescriptors(udp: bool)
      requires Valid()
      modifies `sendDescriptors
      ensures Valid() && sendDescriptors == if hasSocket && udp then 3 else old(sendDescriptors)
    {
      hide Open, OpenSet, Deliverable, Overfull, SpotSet, SpotBytes, WellFormed, Payloads;
      if hasSocket && udp {
        sendDescriptors := 3;
      }
    }

    method BuildPreamble()
      requires PayloadValid() && FormatsFirst() && payload == [] && hasSocket
      modifies `payload, `sequence, `sendDescriptors, `prepared
      ensures PayloadValid() && FormatsFirst() && payload != []
      ensures prepared.receiver == Receiver(call, grid, program, antenna)
      ensures prepared.descriptors == (old(sendDescriptors) > 0)
      ensures sendDescriptors == if old(sendDescriptors) > 0 then old(sendDescriptors) - 1 else 0
    {
      hide WriteSet, ReceiverSet, SpotBytes, WellFormed, U16, U32, Number;
      NextNumber(|log|);
      sequence := (sequence + 1) % 0x1_0000_0000;
      var receiver := Receiver(call, grid, program, antenna);
      prepared := Preamble(sequence, observation, sendDescriptors > 0, receiver);
      var front: seq<Byte> := [];
      if sendDescriptors > 0 {
        sendDescriptors := sendDescriptors - 1;
        var sender := SenderDescriptor();
        var rid := ReceiverDescriptor();
        front := sender + rid;
      }
      var record := ReceiverInformation(receiver);
      front := front + record;
      assert front == Front(prepared);
      payload := U16(10) + U16(0) + U32(0) + U32(sequence) + U32(observation) + front;
    }

    // Closes the payload over the first bytes of the set, writes it to the socket, and saves the rest.
    method Post(txDataSize: nat, ghost chunk: seq<Spot>, ghost rest: seq<Spot>)
      requires Sendable() && payload != [] && hasSocket
      requires if txData == [] then chunk == [] && rest == [] else txData == OpenSet(chunk) + SpotBytes(rest)
      requires txData != [] ==> chunk != [] && txDataSize == |OpenSet(chunk)|
      requires |payload| + |SpotSet(chunk)| <= MAX_PAYLOAD_LENGTH
      modifies `payload, `txData, `txResidue, `written, `log
      ensures log == old(log) + [Sent(prepared, clock(|old(log)|), chunk)]
      ensures Sendable()
      ensures payload == [] && txData == [] && txResidue == SpotBytes(rest)
    {
      hide Open, OpenSet, SpotSet, SpotBytes, WellFormed, Report, Deliverable, Number, Spots, Logged;
      var time := clock(|written|);
      ghost var was := written;
      var size := if txData == [] then 0 else txDataSize;
      ghost var s := Sent(prepared, time, chunk);
      OpenSetIsLong(chunk);
      NoSpotBytes();
      assert txData[..size] == (if chunk == [] then [] else OpenSet(chunk)) && txData[size..] == SpotBytes(rest);
      var closed := CloseReport(payload, txData[..size], time, prepared, chunk);
      written := written + [closed];
      payload := [];
      txResidue := txData[size..];
      txData := [];
      IsDeliverable(s);
      LoggedOneMore(log, was, s);
      log := log + [s];
    }

    method StartPayload()
      requires Valid() && payload == [] && hasSocket
      modifies `payload, `sequence, `sendDescriptors, `prepared
      ensures Valid() && payload != []
      ensures prepared.descriptors == (old(sendDescriptors) > 0) && sendDescriptors == Due(old(sendDescriptors), 1)
    {
      hide Open, OpenSet, SpotSet, SpotBytes, WellFormed, Overfull, Deliverable, Payloads, Numbered, Number;
      BuildPreamble();
    }

    lemma PayloadIsOpen()
      requires Sendable()
      ensures payload != [] ==> payload == Open(prepared)
    {
    }

    // Starts the set of spots, if there will be any, with the residue of the last report.
    method TakeResidue()
      requires Sendable() && BuffersValid() && payload != [] && payload == Open(prepared)
      modifies `txData, `txResidue, `building, `left
      ensures Sendable() && left == [] && txResidue == [] && building == old(building + left)
      ensures txData == if building == [] && spots == [] then [] else OpenSet(building)
      ensures |payload| + |SpotSet(building)| <= MAX_PAYLOAD_LENGTH
      ensures old(left) != [] ==> SameFirst(building, old(left))
    {
      hide Open, SpotSet, SpotBytes, WellFormed, Report, Overfull, U16, Sendable;
      ReportSize(prepared, 0, []);
      NoSpotBytes();
      SpotSetSize([]);
      if left != [] {
        OneSpotFits(prepared, left[0]);
        ResidueIsLong(left[0]);
        assert left == [left[0]];
      }
      ghost var all := building + left;
      assert left == [] ==> all == building;
      assert building == [] ==> all == left;
      if txData == [] && (spots != [] || txResidue != []) {
        txData := U16(SENDER_LINK) + U16(0);
        assert txData + [] == txData;
      }
      if txResidue != [] {
        txData := txData + txResidue;
        txResidue := [];
      }
      building, left := all, [];
    }

    // Moves a spot, if there is one, from the queue to the set, and sends the report if that is due:
    // when it is over the limit, or the queue is empty and either there is enough or a flush is on.
    method Take(flushing: bool) returns (sent: bool, ghost s: Sent)
      requires Sendable() && payload != [] && payload == Open(prepared) && hasSocket
      requires left == [] && txResidue == [] && (spots != [] || flushing)
      requires txData == if building == [] && spots == [] then [] else OpenSet(building)
      requires |payload| + |SpotSet(building)| <= MAX_PAYLOAD_LENGTH
      modifies `payload, `txData, `txResidue, `spots, `written, `log, `building, `left
      ensures Sendable()
      ensures old(spots) != [] ==> |spots| < |old(spots)|
      ensures old(spots) == [] ==> spots == [] && sent
      ensures !sent ==>
                && log == old(log) && payload == old(payload) && left == [] && txResidue == []
                && building + spots == old(building + spots)
                && (old(building) != [] ==> SameFirst(building, old(building)))
                && building != [] && txData == OpenSet(building)
                && |payload| + |SpotSet(building)| <= (if spots == [] then MIN_PAYLOAD_LENGTH else MAX_PAYLOAD_LENGTH)
                && (spots == [] ==> !flushing)
      ensures sent ==>
                && payload == [] && txData == [] && building == [] && txResidue == SpotBytes(left) && |left| <= 1
                && log == old(log) + [s] && s.chunk + left + spots == old(building + spots)
                && (left != [] ==> Overfull(s, left[0]))
                && (old(building) != [] ==> SameFirst(s.chunk, old(building)))
                && (left != [] || spots == [])
                && Justified(s, building + left, flushing)
    {
      hide Open, OpenSet, SpotSet, SpotBytes, WellFormed, Report, Overfull, U16, Deliverable, Payloads, Spots, Pad,
        SpotRecord, Sendable, Justified;
      s := Sent(prepared, 0, []);
      var txDataSize := |txData|;
      ghost var before, more: seq<Spot> := building, [];
      if spots != [] {
        var spot := spots[0];
        more := [spot];
        spots := spots[1..];
        txData := WriteSpot(txData, spot);
        building := building + [spot];
        AddedSpot(before, spot);
        OneMoved(before, old(spots));
      }
      var len := |payload| + |txData|;
      len := len + Pad(|txData|);
      len := len + Pad(len);
      PaddedLength(prepared, txData, building);
      sent := len > MAX_PAYLOAD_LENGTH || (spots == [] && len > MIN_PAYLOAD_LENGTH) || (flushing && spots == []);
      if sent {
        if |txData| > 0 && len <= MAX_PAYLOAD_LENGTH {
          txDataSize := |txData|;
        }
        ghost var chunk, rest := building, [];
        if len > MAX_PAYLOAD_LENGTH {
          chunk, rest := before, more;
          AddedIsNotFirst(prepared, before, more[0]);
          OverfullIs(prepared, clock(|log|), before, more[0]);
        }
        NoSpotBytes();
        OpenSetIsLong(chunk);
        s := Sent(prepared, clock(|log|), chunk);
        Post(txDataSize, chunk, rest);
        building, left := [], rest;
        assert building + left == rest;
        SentIsJustified(s, rest, flushing);
      }
    }

    // Moves spots until a report is sent or the queue is empty.
    method Batch(flush: bool) returns (sent: bool, ghost s: Sent)
      requires Sendable() && payload != [] && payload == Open(prepared) && hasSocket && (spots != [] || flush)
      requires left == [] && txResidue == [] && flushCounter < 0x1_0000_0000
      requires txData == if building == [] && spots == [] then [] else OpenSet(building)
      requires |payload| + |SpotSet(building)| <= MAX_PAYLOAD_LENGTH
      modifies `payload, `txData, `txResidue, `spots, `written, `log, `building, `left
      ensures Valid()
      ensures |spots| <= |old(spots)| && (sent ==> |spots| < |old(spots)| || flush)
      ensures !sent ==>
                && log == old(log) && !flush && spots == [] && left == [] && building == old(building + spots)
                && payload == old(payload)
      ensures sent ==>
                && log == old(log) + [s] && s.chunk + left + spots == old(building + spots)
                && payload == [] && building == [] && (left != [] || spots == [])
                && (old(building) != [] ==> SameFirst(s.chunk, old(building)))
                && Justified(s, building + left, flush)
    {
      hide Open, OpenSet, SpotSet, SpotBytes, WellFormed, Overfull, Sendable, BuffersValid, Spots, Payloads, Report,
        SameFirst, Justified;
      ghost var first, total := building, building + spots;
      sent, s := false, Sent(prepared, 0, []);
      while spots != [] || flush
        invariant Sendable() && log == old(log) && payload != [] && payload == old(payload) == Open(prepared)
        invariant left == [] && txResidue == [] && building + spots == total
        invariant txData == if building == [] && spots == [] then [] else OpenSet(building)
        invariant |payload| + |SpotSet(building)| <= MAX_PAYLOAD_LENGTH
        invariant building == first || first == [] || SameFirst(building, first)
        invariant spots == [] && flush ==> old(spots) == []
        invariant spots == [] && !flush ==> |payload| + |SpotSet(building)| <= MIN_PAYLOAD_LENGTH
        invariant |spots| <= |old(spots)|
        decreases |spots|
      {
        ghost var before := building;
        sent, s := Take(flush);
        if first != [] && before != first {
          FirstOfFirst(if sent then s.chunk else building, before, first);
        }
        if sent {
          NothingBuffered();
          return;
        }
      }
      FewBuffered();
      AddNothing(building, spots);
    }

    // Continues with what the last report left over, and then with the queue.
    method Fill(flush: bool) returns (sent: bool, ghost s: Sent)
      requires Valid() && hasSocket && payload != [] && (spots != [] || flush)
      modifies `payload, `txData, `txResidue, `spots, `written, `log, `building, `left
      ensures Valid()
      ensures |spots| <= |old(spots)| && (sent ==> |spots| < |old(spots)| || flush)
      ensures !sent ==>
                && log == old(log) && !flush && spots == [] && left == [] && building == old(building + left + spots)
                && payload == old(payload)
      ensures sent ==>
                && log == old(log) + [s] && s.chunk + left + spots == old(building + left + spots)
                && payload == [] && building == [] && (left != [] || spots == [])
                && (old(left) != [] ==> SameFirst(s.chunk, old(left)))
                && Justified(s, building + left, flush)
    {
      hide Open, OpenSet, SpotSet, SpotBytes, WellFormed, Overfull, Sendable, BuffersValid, Spots, Payloads, Report,
        SameFirst, Justified;
      LeftIsOver();
      PayloadIsOpen();
      TakeResidue();
      ghost var before := building;
      sent, s := Batch(flush);
      if sent && old(left) != [] {
        HasFirst(before, old(left));
        FirstOfFirst(s.chunk, before, old(left));
      }
    }

    lemma HasFirst(a: seq<Spot>, b: seq<Spot>)
      requires SameFirst(a, b)
      ensures a != []
    {
    }

    lemma LeftIsOver()
      requires Valid()
      ensures left != [] ==> building == [] && log != [] && Overfull(log[|log| - 1], left[0])
    {
    }

    // The two ways in which buffers are left when nothing more is to be done.
    lemma NothingBuffered()
      requires txData == [] && building == [] && txResidue == SpotBytes(left) && |left| <= 1
      requires left != [] ==> log != [] && Overfull(log[|log| - 1], left[0])
      ensures BuffersValid()
    {
    }

    lemma FewBuffered()
      requires left == [] && txResidue == [] && txData == (if building == [] then [] else OpenSet(building))
      requires payload != [] && |payload| + |SpotSet(building)| <= MIN_PAYLOAD_LENGTH
      ensures BuffersValid()
    {
    }

    // Sends the next report of a call, whose first is that numbered from, or empties the queue.
    method SendNext(flush: bool, ghost from: nat) returns (sent: bool)
      requires Valid() && hasSocket && (spots != [] || flush)
      requires from <= |log| && Batched(log, from) && (|log| > from ==> left != [])
      modifies `payload, `sequence, `sendDescriptors, `prepared, `txData, `txResidue, `spots, `written, `log, `building,
               `left
      ensures Valid() && AllSpots() == old(AllSpots()) && Batched(log, from)
      ensures |spots| <= |old(spots)| && (sent ==> |spots| < |old(spots)| || flush)
      ensures !sent ==> log == old(log) && !flush && spots == [] && payload != []
      ensures sent ==> |log| == |old(log)| + 1 && log[..|old(log)|] == old(log) && (left != [] || spots == [])
      ensures sent ==> payload == [] && Justified(log[|old(log)|], building + left, flush)
      ensures !sent ==> old(building + left) <= building + left
      ensures sendDescriptors == Due(old(sendDescriptors), Built() - old(Built()))
      ensures old(payload) != [] ==> prepared == old(prepared)
    {
      hide Sendable, BuffersValid, OpenSet, SpotSet, SpotBytes, Overfull, Spots, Open, WellFormed, Batched, Follows,
        Payloads, Report, Justified;
      LeftIsOver();
      if payload == [] {
        StartPayload();
      }
      ghost var s;
      sent, s := Fill(flush);
      if sent {
        PayloadsOfOneMore(old(log), s);
        Regroup(Spots(old(log)), s.chunk, left, spots);
        if |old(log)| > from {
          FollowsLeft(old(log)[|old(log)| - 1], s, old(left));
        }
        BatchedOneMore(old(log), s, from);
      }
    }

    static predicate Flushes(counter: nat, sendResidue: bool) {
      counter % FLUSH_INTERVAL == 0 || sendResidue
    }

    // Sends what is due: reports over the limit, one more if enough is left or a flush is on.
    method SendReport(connected: bool, sendResidue: bool)
      requires Valid() && (connected ==> hasSocket)
      modifies `payload, `sequence, `sendDescriptors, `prepared, `txData, `txResidue, `spots, `written, `log, `building,
               `left, `flushCounter
      ensures Valid() && AllSpots() == old(AllSpots())
      ensures |log| >= |old(log)| && log[..|old(log)|] == old(log) && Batched(log, |old(log)|)
      ensures !connected ==> spots == old(spots) && written == old(written) && flushCounter == old(flushCounter)
      ensures connected ==> spots == [] && flushCounter == (old(flushCounter) + 1) % 0x1_0000_0000
      ensures connected && (flushCounter % 125 == 0 || sendResidue) ==> |log| > |old(log)|
      ensures |log| > |old(log)| ==>
                Justified(log[|log| - 1], building + left, flushCounter % 125 == 0 || sendResidue)
      ensures connected && old(spots) == [] ==>
                |log| == |old(log)| + (if flushCounter % 125 == 0 || sendResidue then 1 else 0)
      ensures sendDescriptors == Due(old(sendDescriptors), Built() - old(Built()))
      ensures connected && log == old(log) ==>
                && payload != []
                && if old(payload) == [] then prepared.descriptors == (old(sendDescriptors) > 0)
                   else prepared == old(prepared)
      ensures connected && old(spots) == [] && log != old(log) ==> payload == []
    {
      hide Sendable, BuffersValid, OpenSet, SpotSet, SpotBytes, Overfull, Spots, Open, WellFormed, Batched, Justified;
      assert Batched(log, |log|) by {
        NothingSent(log);
      }
      if !connected {
        return;
      }
      if payload == [] {
        StartPayload();
      }
      flushCounter := (flushCounter + 1) % 0x1_0000_0000;
      SendQueued(Flushes(flushCounter, sendResidue));
    }

    // Sends reports, one at least if a flush is on, until the queue is empty.
    method SendQueued(flushing: bool)
      requires Valid() && hasSocket && payload != []
      modifies `payload, `sequence, `sendDescriptors, `prepared, `txData, `txResidue, `spots, `written, `log, `building,
               `left
      ensures Valid() && AllSpots() == old(AllSpots()) && spots == []
      ensures |log| >= |old(log)| && log[..|old(log)|] == old(log) && Batched(log, |old(log)|)
      ensures flushing ==> |log| > |old(log)|
      ensures |log| > |old(log)| ==> Justified(log[|log| - 1], building + left, flushing)
      ensures old(spots) == [] ==> |log| == |old(log)| + (if flushing then 1 else 0) && (flushing ==> payload == [])
      ensures sendDescriptors == Due(old(sendDescriptors), Built() - old(Built()))
      ensures log == old(log) ==> payload != [] && prepared == old(prepared)
    {
      hide Sendable, BuffersValid, OpenSet, SpotSet, SpotBytes, Overfull, Spots, Open, WellFormed, Batched, Justified;
      NothingSent(log);
      var flush := flushing;
      while spots != [] || flush
        invariant Valid() && AllSpots() == old(AllSpots()) && |spots| <= |old(spots)|
        invariant |log| >= |old(log)| && log[..|old(log)|] == old(log) && Batched(log, |old(log)|)
        invariant |log| > |old(log)| && spots != [] ==> left != []
        invariant flush ==> flushing && log == old(log)
        invariant flushing && !flush ==> |log| > |old(log)|
        invariant |log| > |old(log)| ==> Justified(log[|log| - 1], building + left, flushing)
        invariant old(spots) == [] ==> |log| == |old(log)| + (if flushing && !flush then 1 else 0)
        invariant old(spots) == [] && flushing && !flush ==> payload == []
        invariant sendDescriptors == Due(old(sendDescriptors), Built() - old(Built()))
        invariant log == old(log) ==> payload != [] && prepared == old(prepared)
        decreases |spots|, flush
      {
        ghost var waiting := building + left;
        var sent := SendNext(flush, |old(log)|);
        if sent {
          StillJustified(log[|log| - 1], building + left, building + left, flush, flushing);
        } else if |log| > |old(log)| {
          StillJustified(log[|log| - 1], waiting, building + left, flushing, flushing);
        }
        flush := flush && !sent;
      }
    }

    lemma FollowsLeft(a: Sent, b: Sent, rest: seq<Spot>)
      requires SameFirst(b.chunk, rest) && Overfull(a, rest[0])
      ensures Follows(a, b)
    {
    }

    lemma NothingSent(log: seq<Sent>)
      ensures Batched(log, |log|)
    {
    }

    method SetLocalStation(call: Text, grid: Text, antenna: Text)
      requires Valid()
      modifies `call, `grid, `antenna
      ensures Valid() && this.call == call && this.grid == grid && this.antenna == antenna
    {
      hide Sendable, BuffersValid;
      if call != this.call || grid != this.grid || antenna != this.antenna {
        this.call, this.grid, this.antenna := call, grid, antenna;
      }
    }

    // A spot is heard. Nothing is done without a valid socket.
    method AddRemoteStation(validSocket: bool, spot: Spot, now: int, eclipse: bool)
      requires Valid()
      modifies `spots, `calls
      ensures Valid()
      ensures Queue(spots, calls)
              == if validSocket then SpotCache.After(bands, old(Queue(spots, calls)), Arrival(spot, now, eclipse))
                 else old(Queue(spots, calls))
    {
      hide Sendable, BuffersValid, KeyOf, Same, WellFormed;
      if !validSocket {
        return;
      }
      var key := KeyOf(bands, spot);
      if key !in calls || calls[key] < now - CACHE_TIMEOUT || eclipse {
        spots := spots + [spot];
        calls := calls[key := now];
      } else {
        Update(spot, key, now);
      }
      calls := map k | k in calls && now - calls[k] <= CACHE_TIMEOUT * 2 :: calls[k];
    }

    // Looks through the queue from last to first for a spot to replace.
    method Update(spot: Spot, key: Key, now: int)
      requires key == KeyOf(bands, spot)
      modifies `spots, `calls
      ensures Queue(spots, calls) == Replaced(bands, old(Queue(spots, calls)), spot, now)
    {
      hide KeyOf, WellFormed;
      var i := |spots|;
      while i > 0
        invariant 0 <= i <= |spots| && spots == old(spots) && calls == old(calls)
        invariant Latest(bands, spots, spot, |spots|) == Latest(bands, spots, spot, i)
      {
        i := i - 1;
        if spots[i].call == spot.call && bands(spots[i].freq) == bands(spot.freq) {
          spots := spots[i := spot];
          calls := calls[key := now];
          return;
        }
      }
    }

    // Whoever reads the reports of one connection, knowing nothing before, gets every spot in them exactly if the
    // first tells the formats, and else nothing.
    lemma CollectorGetsAll(from: nat, to: nat)
      requires Valid() && from < to <= |log|
      ensures Collect(map[], written[from..to])
              == if log[from].preamble.descriptors then Some(SeenAll(Spots(log[from..to]))) else None
    {
      hide Report, Payloads, Collect, SeenAll, Spots, Informed, WellFormed;
      assert forall s <- log :: Deliverable(s) && Sound(s);
      PayloadsFrom(log, from, to);
      SessionIsCollected(log[from..to]);
    }

    // The numbers of the reports skip none, but they do not count records as a collector may.
    lemma CollectorSeesGaps(templates: Templates, i: nat)
      requires Valid() && i + 1 < |log| && (log[i].preamble.descriptors || Informed(templates))
      ensures |written| == |log| && written[i] == Report(log[i].preamble, log[i].time, log[i].chunk)
      ensures var read := ReadMessage(templates, written[i]);
              && read.Some?
              && (Expected(read.value.0, read.value.1) == log[i + 1].preamble.sequence <==> log[i].chunk == [])
    {
      hide Logged, Report, ReadMessage, Records, Informed, WellFormed, PayloadValid, FormatsFirst, BuffersValid,
        Expected;
      GapInLog(templates, log, written, i);
    }

    // At most one spot is left over by a report, and then the set is empty. An open set is small.
    lemma LittleWaits()
      requires Valid()
      ensures |txResidue| <= 776 && (left == [] || building == [])
      ensures building != [] ==> |payload| + |SpotSet(building)| <= 508
    {
      hide SpotSet, SpotRecord, WellFormed;
      NoSpotBytes();
      if left != [] {
        OneSpotSize(left[0]);
        SpotRecordSize(left[0]);
        assert left == [left[0]];
      }
    }

    // For the present socket that is decided when it is opened.
    lemma PresentCollectorGetsAll()
      requires Valid() && |log| > start
      ensures Collect(map[], written[start..]) == if informs then Some(SeenAll(Spots(log[start..]))) else None
    {
      hide Report, Payloads, Collect, SeenAll, Spots, WellFormed;
      CollectorGetsAll(start, |log|);
      PayloadsCount(log);
      assert written[start..|log|] == written[start..] && log[start..|log|] == log[start..];
    }
  }

  lemma GapInLog(templates: Templates, log: seq<Sent>, written: seq<seq<Byte>>, i: nat)
    requires Logged(log, written) && i + 1 < |log| && (log[i].preamble.descriptors || Informed(templates))
    ensures |written| == |log| && written[i] == Report(log[i].preamble, log[i].time, log[i].chunk)
    ensures var read := ReadMessage(templates, written[i]);
            && read.Some?
            && (Expected(read.value.0, read.value.1) == log[i + 1].preamble.sequence <==> log[i].chunk == [])
  {
    hide Report, ReadMessage, Records, Informed, WellFormed, Payloads, Expected;
    assert Deliverable(log[i]);
    PayloadsAt(log, i);
    NextNumber(i + 1);
    GapExactly(templates, log[i], log[i + 1]);
  }

  lemma PayloadsAt(log: seq<Sent>, i: nat)
    requires i < |log|
    ensures |Payloads(log)| == |log| && Payloads(log)[i] == Report(log[i].preamble, log[i].time, log[i].chunk)
  {
    hide Report, WellFormed;
  }

  lemma PayloadsFrom(log: seq<Sent>, from: nat, to: nat)
    requires from <= to <= |log|
    ensures |Payloads(log)| == |log| && Payloads(log)[from..to] == Payloads(log[from..to])
  {
    hide Report, WellFormed;
  }

  // The formats are due once over TCP. If the connection is lost after a later report was prepared, that report is
  // the first to the next socket, and a collector gets nothing from it.
  method LostFormats(bands: Bands, program: Text, observation: nat, clock: nat -> int) returns (r: Reporter)
    requires observation < 0x1_0000_0000
    ensures r.Valid() && |r.log| == r.start + 1 && Collect(map[], r.written[r.start..]) == None
  {
    hide Reporter.Sendable, Reporter.BuffersValid, Reporter.AllSpots, Spots, Collect, Batched, Justified;
    r := new Reporter(bands, program, observation, clock);
    r.Reconnect(true);
    r.SendReport(true, true);
    r.SendReport(true, false);
    r.Reconnect(true);
    r.SendReport(true, true);
    r.PresentCollectorGetsAll();
  }
}
