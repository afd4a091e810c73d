/**
 Recorded scans played back: every data packet is offered again and the
 correction packet loads the table.
 */
module ScanReplay {
  import opened Common
  import opened FrameSplitter
  import opened XtFrames
  import opened FrameRuns
  import CorrectionText

  const MAX_ROWS := CorrectionText.MAX_ROWS
  const FRAME_SIZE := CorrectionText.FRAME_SIZE

  type Row = CorrectionText.LoadedRow

  /** What the replay hands to the receiving side. */
  datatype Offer = Offer(stamp: real, data: seq<byte>)

  datatype Replay = Replay(gotCorrection: bool, table: seq<Row>, offers: seq<Offer>)

  predicate IsCorrection(p: RawPacket) {
    |p.data| >= 2 && p.data[0] == 0x47 && p.data[1] == 0x74
  }

  /** The sizes the replay relies on without checking them. */
  ghost predicate WellSized(p: RawPacket) {
    && |p.data| >= 2 && p.size <= |p.data|
    && (IsCorrection(p) ==> |p.data| >= FRAME_SIZE + p.size)
  }

  /** A loaded text replaces as many leading rows as it has. */
  function Overlay(rows: seq<Row>, table: seq<Row>): seq<Row> {
    if |rows| <= |table| then rows + table[|rows|..] else rows
  }

  /** The text a correction packet loads: its own if the two lengths agree, else that of the configured file. */
  function TextOf(p: RawPacket, file: Option<string>): Option<string>
    requires FRAME_SIZE + p.size <= |p.data|
  {
    var own := CorrectionText.Unframe(p.data, p.size);
    if own.Some? then own else file
  }

  function ReplayPacket(file: Option<string>, r: Replay, p: RawPacket): Replay
    requires WellSized(p)
  {
    if !IsCorrection(p) then r.(offers := r.offers + [Offer(Joined(p.sec, p.nanosec), p.data[..p.size])])
    else if r.gotCorrection then r
    else
      var text := TextOf(p, file);
      Replay(true, if text.Some? then Overlay(CorrectionText.LoadTable(text.value), r.table) else r.table, r.offers)
  }

  ghost predicate AllWellSized(packets: seq<RawPacket>) {
    forall i :: 0 <= i < |packets| ==> WellSized(packets[i])
  }

  function ReplayAll(file: Option<string>, r: Replay, packets: seq<RawPacket>): Replay
    requires AllWellSized(packets)
  {
    if packets == [] then r else ReplayPacket(file, ReplayAll(file, r, Front(packets)), Last(packets))
  }

  class ScanReplayer {
    var gotCorrection: bool
    var table: seq<Row>
    var offers: seq<Offer>     // the packets passed on to PushLiDARData

    function State(): Replay
      reads this
    {
      Replay(gotCorrection, table, offers)
    }

    constructor (table: seq<Row>)
      ensures State() == Replay(false, table, [])
    {
      gotCorrection, this.table, offers := false, table, [];
    }

    method Load(content: string)
      requires |CorrectionText.LoadTable(content)| <= MAX_ROWS
      modifies this`table
      ensures table == Overlay(CorrectionText.LoadTable(content), old(table))
    {
      var rows := CorrectionText.LoadCorrectionFile(content);
      table := if |rows| <= |table| then rows + table[|rows|..] else rows;
    }

    method LoadCorrection(p: RawPacket, file: Option<string>)
      requires WellSized(p) && IsCorrection(p) && !gotCorrection
      requires TextOf(p, file).Some? ==> |CorrectionText.LoadTable(TextOf(p, file).value)| <= MAX_ROWS
      modifies this`table, this`gotCorrection
      ensures State() == ReplayPacket(file, old(State()), p)
    {
      var own := CorrectionText.Unframe(p.data, p.size);
      if own.Some? {
        Load(own.value);
        gotCorrection := true;
      }
      if !gotCorrection {
        if file.Some? {
          Load(file.value);
        }
        gotCorrection := true;
      }
    }

    method PushScanPacket(scan: seq<RawPacket>, file: Option<string>)
      requires AllWellSized(scan)
      requires forall i :: 0 <= i < |scan| && IsCorrection(scan[i]) && TextOf(scan[i], file).Some? ==>
                 |CorrectionText.LoadTable(TextOf(scan[i], file).value)| <= MAX_ROWS
      modifies this
      ensures State() == ReplayAll(file, old(State()), scan)
    {
      for i := 0 to |scan|
        invariant State() == ReplayAll(file, old(State()), scan[..i])
      {
        assert Front(scan[..i + 1]) == scan[..i];
        if !IsCorrection(scan[i]) {
          offers := offers + [Offer(Joined(scan[i].sec, scan[i].nanosec), scan[i].data[..scan[i].size])];
        } else if !gotCorrection {
          LoadCorrection(scan[i], file);
        }
      }
      assert scan[..|scan|] == scan;
    }
  }

  // ------------------------------------------------ what a replay offers

  lemma {:induction false} ReplayJoin(file: Option<string>, r: Replay, a: seq<RawPacket>, b: seq<RawPacket>)
    requires AllWellSized(a) && AllWellSized(b)
    ensures ReplayAll(file, r, a + b) == ReplayAll(file, ReplayAll(file, r, a), b)
  {
    if b == [] {
      assert a + b == a;
    } else {
      assert Front(a + b) == a + Front(b);
      ReplayJoin(file, r, a, Front(b));
    }
  }

  function OfferOf(p: RawPacket): Offer {
    Offer(Joined(p.sec, p.nanosec), p.data)
  }

  function Offers(packets: seq<RawPacket>): seq<Offer> {
    seq(|packets|, i requires 0 <= i < |packets| => OfferOf(packets[i]))
  }

  /** A recorded data packet: whole, and not taken for a correction packet. */
  ghost predicate IsData(p: RawPacket) {
    |p.data| >= 2 && p.size == |p.data| && !IsCorrection(p)
  }

  ghost predicate AllData(packets: seq<RawPacket>) {
    forall i :: 0 <= i < |packets| ==> IsData(packets[i])
  }

  lemma {:induction false} DataIsOffered(file: Option<string>, r: Replay, packets: seq<RawPacket>)
    requires AllData(packets)
    ensures AllWellSized(packets)
    ensures ReplayAll(file, r, packets) == r.(offers := r.offers + Offers(packets))
  {
    if packets == [] {
      assert r.offers + Offers(packets) == r.offers;
    } else {
      DataIsOffered(file, r, Front(packets));
      var p := Last(packets);
      assert IsData(p);
      assert p.data[..p.size] == p.data;
      assert r.offers + Offers(packets) == r.offers + Offers(Front(packets)) + [OfferOf(p)];
    }
  }

  /** `next` is `table` with its leading rows replaced by `rows`. */
  ghost predicate LeadsWith(rows: seq<Row>, table: seq<Row>, next: seq<Row>) {
    && |next| == |table| && rows <= next
    && forall i :: |rows| <= i < |table| ==> next[i] == table[i]
  }

  /** The first correction packet puts `rows` at the head of the table; later ones change nothing. */
  ghost predicate Restores(rows: seq<Row>, r: Replay, next: Replay) {
    next.gotCorrection && if r.gotCorrection then next.table == r.table else LeadsWith(rows, r.table, next.table)
  }

  /** The length that the frame of a correction packet announces, most significant byte first. */
  function Announced(p: RawPacket): nat
    requires |p.data| >= 8
  {
    ((p.data[4] as nat * 256 + p.data[5]) * 256 + p.data[6]) * 256 + p.data[7]
  }

  /**
   The first correction packet loads its own text if that has the announced
   length, else the configured file, and nothing if there is none; rows behind
   the loaded ones stay, and from then on every correction packet is ignored.
   */
  lemma CorrectionTextChosen(file: Option<string>, r: Replay, p: RawPacket)
    requires WellSized(p) && IsCorrection(p)
    ensures var next := ReplayPacket(file, r, p);
            var own := CorrectionText.LoadTable(CorrectionText.Text(p.data[8..8 + p.size]));
            && next.gotCorrection && next.offers == r.offers
            && (r.gotCorrection ==> next == r)
            && (!r.gotCorrection && Announced(p) == p.size && |own| <= |r.table| ==> LeadsWith(own, r.table, next.table))
            && (!r.gotCorrection && Announced(p) != p.size && file.None? ==> next.table == r.table)
            && (!r.gotCorrection && Announced(p) != p.size && file.Some? && |CorrectionText.LoadTable(file.value)| <= |r.table| ==>
                  LeadsWith(CorrectionText.LoadTable(file.value), r.table, next.table))
  {
  }

  /** A correction packet whose own text holds exactly `rows`. */
  ghost predicate CarriesRows(correction: RawPacket, rows: seq<Row>) {
    && WellSized(correction) && IsCorrection(correction) && |rows| <= MAX_LASER_NUM
    && CorrectionText.Unframe(correction.data, correction.size).Some?
    && CorrectionText.LoadTable(CorrectionText.Unframe(correction.data, correction.size).value) == rows
  }

  /** The rows recorded in every scan of a setup. */
  function RecordedRows(setup: Setup): seq<Row>
    requires setup.Valid()
  {
    CorrectionText.Exact(setup.table[..LasersOf(setup.packetSize)])
  }

  /** The correction packet of a scan carries the table it was printed from. */
  lemma CorrectionCarriesTable(setup: Setup)
    requires setup.Valid() && CorrectionText.Printable(setup.table)
    ensures CarriesRows(CorrectionPacket(setup, LasersOf(setup.packetSize)), RecordedRows(setup))
    ensures var p := CorrectionPacket(setup, LasersOf(setup.packetSize));
            p.sec == 0 && p.nanosec == 0 && |p.data| == 8 + p.size && Announced(p) == p.size
  {
    var table := setup.table[..LasersOf(setup.packetSize)];
    CorrectionText.CorrectionRoundTrip(table);
    ExactSize(table);
    var p := CorrectionPacket(setup, LasersOf(setup.packetSize));
    assert p.data == CorrectionText.FrameBytes(CorrectionText.PrintTable(table));
  }

  lemma CorrectionIsLoaded(correction: RawPacket, rows: seq<Row>, file: Option<string>, r: Replay)
    requires CarriesRows(correction, rows) && |r.table| == MAX_LASER_NUM
    ensures Restores(rows, r, ReplayPacket(file, r, correction))
    ensures ReplayPacket(file, r, correction).offers == r.offers
  {
  }

  lemma {:induction false} ExactSize(table: seq<CorrectionText.Angles>)
    ensures |CorrectionText.Exact(table)| == |table|
  {
    if table != [] {
      ExactSize(table[1..]);
    }
  }

  /** The packets of all emitted scans, correction packets included. */
  function Scans(emissions: seq<Emission>): seq<RawPacket> {
    if emissions == [] then [] else Scans(Front(emissions)) + Last(emissions).scan
  }

  ghost predicate Replayable(correction: RawPacket, e: Emission) {
    e.scan != [] && AllData(Front(e.scan)) && Last(e.scan) == correction
  }

  lemma ScanIsReplayed(correction: RawPacket, rows: seq<Row>, e: Emission, file: Option<string>, r: Replay)
    requires CarriesRows(correction, rows) && Replayable(correction, e) && |r.table| == MAX_LASER_NUM
    ensures AllWellSized(e.scan)
    ensures Restores(rows, r, ReplayAll(file, r, e.scan))
    ensures ReplayAll(file, r, e.scan).offers == r.offers + Offers(Front(e.scan))
  {
    var before := r.(offers := r.offers + Offers(Front(e.scan)));
    DataIsOffered(file, r, Front(e.scan));
    CorrectionIsLoaded(correction, rows, file, before);
    assert e.scan == Front(e.scan) + [Last(e.scan)];
    LastIsReplayed(file, r, e.scan, before);
  }

  lemma LastIsReplayed(file: Option<string>, r: Replay, packets: seq<RawPacket>, before: Replay)
    requires packets != [] && AllWellSized(packets) && ReplayAll(file, r, Front(packets)) == before
    ensures ReplayAll(file, r, packets) == ReplayPacket(file, before, Last(packets))
  {
  }

  lemma OffersJoin(a: seq<RawPacket>, b: seq<RawPacket>)
    ensures Offers(a + b) == Offers(a) + Offers(b)
  {
  }

  /** The state of a replay that began at `start` and has played `recorded`, from at least one scan if `any`. */
  ghost predicate Played(rows: seq<Row>, start: Replay, recorded: seq<RawPacket>, any: bool, r: Replay) {
    && r.offers == start.offers + Offers(recorded)
    && if any then Restores(rows, start, r) else r == start
  }

  lemma PlayOneMore(correction: RawPacket, rows: seq<Row>, e: Emission, file: Option<string>,
                    start: Replay, recorded: seq<RawPacket>, any: bool, r: Replay)
    requires CarriesRows(correction, rows) && Replayable(correction, e) && |start.table| == MAX_LASER_NUM
    requires Played(rows, start, recorded, any, r)
    ensures AllWellSized(e.scan)
    ensures Played(rows, start, recorded + Front(e.scan), true, ReplayAll(file, r, e.scan))
  {
    ScanIsReplayed(correction, rows, e, file, r);
    OffersJoin(recorded, Front(e.scan));
  }

  /**
   Playing back all emitted scans offers exactly the recorded packets, in order,
   byte for byte; the first correction packet restores the rows it carries and
   later ones change nothing.
   */
  lemma {:induction false} ReplayOffersRecorded(correction: RawPacket, rows: seq<Row>, emissions: seq<Emission>,
                                                file: Option<string>, start: Replay)
    requires CarriesRows(correction, rows) && |start.table| == MAX_LASER_NUM
    requires forall i :: 0 <= i < |emissions| ==> Replayable(correction, emissions[i])
    ensures AllWellSized(Scans(emissions))
    ensures Played(rows, start, Flatten(Recorded(emissions)), emissions != [], ReplayAll(file, start, Scans(emissions)))
  {
    if emissions == [] {
      assert start.offers + Offers([]) == start.offers;
    } else {
      var rest, e := Front(emissions), Last(emissions);
      ReplayOffersRecorded(correction, rows, rest, file, start);
      assert Replayable(correction, e);
      PlayOneMore(correction, rows, e, file, start, Flatten(Recorded(rest)), rest != [], ReplayAll(file, start, Scans(rest)));
      ReplayJoin(file, start, Scans(rest), e.scan);
      RecordedSnoc(emissions);
    }
  }

  lemma RecordedSnoc(emissions: seq<Emission>)
    requires emissions != [] && Last(emissions).scan != []
    ensures Flatten(Recorded(emissions)) == Flatten(Recorded(Front(emissions))) + Front(Last(emissions).scan)
  {
    assert Front(Recorded(emissions)) == Recorded(Front(emissions));
  }
}
