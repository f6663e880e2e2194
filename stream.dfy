/** The datagram source: live UDP reception, or the replay of a recording
    paced by the timestamps it holds. */
module Stream {
  import opened Primitives
  import Datagram
  import Driver

  /** The address live mode listens on when none is configured. */
  const DEFAULT_LOCAL_ADDR: string := "0.0.0.0:18733"

  /** Where the datagrams come from. */
  datatype Mode = Replay(recording: string) | Live(localAddr: string)

  /** `horizon4`'s choice: a recording path selects replay, whatever the
      address; otherwise live reception on the address given, or on the
      default one. */
  function SelectMode(localAddr: Option<string>, recording: Option<string>): (m: Mode)
    ensures m.Replay? <==> recording.Some?
    ensures m.Replay? ==> m.recording == recording.value
    ensures m.Live? && localAddr.Some? ==> m.localAddr == localAddr.value
    ensures m.Live? && localAddr.None? ==> m.localAddr == DEFAULT_LOCAL_ADDR
  {
    match recording
    case Some(path) => Replay(path)
    case None => Live(localAddr.GetOr(DEFAULT_LOCAL_ADDR))
  }

  /** A buffer the size of one datagram, as the replay loop reads into. */
  type RecordBuffer = b: seq<uint8> | |b| == Datagram.DATAGRAM_SIZE witness seq(324, i => 0)

  /** The datagram a filled buffer holds, once the zeroed datagram the
      read wrote into is taken as initialised: every buffer of the right
      size decodes, and to a datagram whose bytes are that buffer. */
  function RecordOf(b: RecordBuffer): (d: Datagram.Horizon4Datagram)
    ensures Datagram.Decode(b) == Ok(d)
    ensures Datagram.Encode(d) == b
  {
    Datagram.EncodeOfDecode(b);
    Datagram.Decode(b).value
  }

  /** The outcome of one read from the recording: a filled buffer, given by
      the datagram it holds (see `RecordOf`), fewer bytes than a datagram,
      or an I/O error. */
  datatype ReadOutcome = Filled(record: Datagram.Horizon4Datagram) | Short(count: nat) | Failed

  /** The replay anchor: the instant the first record was yielded and the
      timestamp that record carried. */
  datatype Anchor = Anchor(time: int, firstTimestamp: uint32)

  /** The instant (in milliseconds) a record stamped `ts` is due: the anchor
      instant plus the timestamp's distance from the first one, taken
      modulo 2^32. A timestamp behind the first one is therefore due almost
      2^32 ms later, never in the past. */
  function Deadline(a: Anchor, ts: uint32): (t: int)
    ensures a.time <= t < a.time + TWO_32
    ensures ts >= a.firstTimestamp ==> t == a.time + (ts - a.firstTimestamp)
    ensures ts < a.firstTimestamp ==> t == a.time + TWO_32 - (a.firstTimestamp - ts)
  {
    a.time + WrappingSub32(ts, a.firstTimestamp)
  }

  /** The index of the first read that did not fill its buffer, or the
      number of reads when all did. */
  function FirstUnfilled(outcomes: seq<ReadOutcome>): (k: nat)
    ensures k <= |outcomes|
    ensures forall i :: 0 <= i < k ==> outcomes[i].Filled?
    ensures k < |outcomes| ==> !outcomes[k].Filled?
  {
    if outcomes == [] || !outcomes[0].Filled? then 0
    else
      var k := 1 + FirstUnfilled(outcomes[1..]);
      assert forall i :: 1 <= i < k ==> outcomes[i] == outcomes[1..][i - 1];
      k
  }

  /** The replay loop of `horizon4`, over the outcomes of its successive
      reads. `startNow` is the clock when the first record arrives. The
      stream yields the records of the filled reads in file order, each
      once; a short read, or the end of the reads, ends it quietly, and an
      I/O error ends it with an error item. The first record is yielded
      at once and fixes the anchor; every later one is held back until its
      deadline from that same anchor. */
  method ReplayRecording(outcomes: seq<ReadOutcome>, startNow: int)
    returns (items: seq<Driver.StreamItem>, waits: seq<Option<int>>, start: Option<Anchor>)
    ensures |waits| == FirstUnfilled(outcomes)
    ensures |items| == if FirstUnfilled(outcomes) < |outcomes| && outcomes[FirstUnfilled(outcomes)].Failed?
      then FirstUnfilled(outcomes) + 1 else FirstUnfilled(outcomes)
    ensures forall i :: 0 <= i < |waits| ==> items[i] == Driver.Received(outcomes[i].record)
    ensures |waits| < |items| ==> items[|waits|] == Driver.ReadError
    ensures Driver.FirstNotReceived(items) == |waits|
    ensures start.Some? <==> |waits| > 0
    ensures |waits| > 0 ==>
      waits[0] == None && start == Some(Anchor(startNow, outcomes[0].record.sled.timestampMs))
    ensures forall i :: 0 < i < |waits| ==>
      waits[i] == Some(Deadline(start.value, outcomes[i].record.sled.timestampMs))
  {
    items, waits, start := [], [], None;
    var i := 0;
    while i < |outcomes|
      invariant i <= |outcomes|
      invariant forall j :: 0 <= j < i ==> outcomes[j].Filled?
      invariant |items| == |waits| == i
      invariant forall j :: 0 <= j < i ==> items[j] == Driver.Received(outcomes[j].record)
      invariant start.Some? <==> i > 0
      invariant i > 0 ==>
        waits[0] == None && start == Some(Anchor(startNow, outcomes[0].record.sled.timestampMs))
      invariant forall j :: 0 < j < i ==>
        waits[j] == Some(Deadline(start.value, outcomes[j].record.sled.timestampMs))
    {
      match outcomes[i] {
        case Short(_) =>
          ItemsRun(items, items);
          return;
        case Failed =>
          ItemsRun(items, items + [Driver.ReadError]);
          items := items + [Driver.ReadError];
          return;
        case Filled(record) =>
          match start {
            case Some(anchor) =>
              waits := waits + [Some(Deadline(anchor, record.sled.timestampMs))];
            case None =>
              start := Some(Anchor(startNow, record.sled.timestampMs));
              waits := waits + [None];
          }
          items := items + [Driver.Received(record)];
      }
      i := i + 1;
    }
    ItemsRun(items, items);
  }

  /** A run of datagrams, alone or followed by one error item, is read by
      the driver up to the end of the run. */
  lemma {:induction false} ItemsRun(run: seq<Driver.StreamItem>, items: seq<Driver.StreamItem>)
    requires forall j :: 0 <= j < |run| ==> run[j].Received?
    requires items == run || items == run + [Driver.ReadError]
    ensures Driver.FirstNotReceived(items) == |run|
  {
    if run != [] {
      assert items[1..] == run[1..] || items[1..] == run[1..] + [Driver.ReadError];
      ItemsRun(run[1..], items[1..]);
    }
  }
}
