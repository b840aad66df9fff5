/** Lost-packet reports and time stamps of one track (internal/service/media.go:168-190). */
module RtpGap {
  const SEQUENCES: nat := 0x1_0000
  const TIMESTAMPS: nat := 0x1_0000_0000

  datatype Packet = Packet(sequence: nat, timestamp: nat)

  predicate WellFormed(p: Packet) {
    p.sequence < SEQUENCES && p.timestamp < TIMESTAMPS
  }

  class Track {
    var lsn: nat
    var firstRtpTs: nat
    var lastRtpTs: nat
    /** The counts logged as lost, in order. */
    var reports: seq<nat>
    const isVideo: bool
    ghost var released: seq<Packet>

    ghost predicate Valid()
      reads this
    {
      && (forall k :: 0 <= k < |released| ==> WellFormed(released[k]))
      && lsn == LastSequence(released)
      && reports == Reports(released)
      && firstRtpTs == (if isVideo then FirstTimestamp(released) else 0)
      && lastRtpTs == (if isVideo && released != [] then released[|released| - 1].timestamp else 0)
    }

    constructor (isVideo: bool)
      ensures Valid() && released == [] && this.isVideo == isVideo
    {
      this.isVideo := isVideo;
      lsn, firstRtpTs, lastRtpTs, reports, released := 0, 0, 0, [], [];
    }

    /** The release handler; both numbers are 16 bits wide, so their difference wraps. */
    method Release(pkt: Packet)
      requires Valid() && WellFormed(pkt)
      modifies this
      ensures Valid() && released == old(released) + [pkt]
      ensures reports == old(reports)
                         + if old(lsn) == 0 || (old(lsn) + 1) % 65536 == pkt.sequence then []
                           else [(pkt.sequence - (old(lsn) + 1)) % 65536]
      ensures lsn == pkt.sequence
      ensures isVideo ==> lastRtpTs == pkt.timestamp
      ensures isVideo ==> firstRtpTs == if old(firstRtpTs) != 0 then old(firstRtpTs) else pkt.timestamp
      ensures !isVideo ==> lastRtpTs == old(lastRtpTs) && firstRtpTs == old(firstRtpTs)
    {
      var expected := (lsn + 1) % SEQUENCES;
      if lsn != 0 && pkt.sequence != expected {
        reports := reports + [(pkt.sequence - expected) % SEQUENCES];
      }
      lsn := pkt.sequence;
      if isVideo {
        if firstRtpTs == 0 {
          firstRtpTs := pkt.timestamp;
        }
        lastRtpTs := pkt.timestamp;
      }
      released := released + [pkt];
      assert released[..|released| - 1] == old(released);
    }
  }

  function LastSequence(s: seq<Packet>): nat {
    if s == [] then 0 else s[|s| - 1].sequence
  }

  /** What one packet logs after the last number `lsn`. */
  function Report(lsn: nat, sequence: nat): seq<nat> {
    var expected := (lsn + 1) % SEQUENCES;
    if lsn != 0 && sequence != expected then [(sequence - expected) % SEQUENCES] else []
  }

  /** The counts logged for a stream of packets. */
  function Reports(s: seq<Packet>): seq<nat> {
    if s == [] then []
    else Reports(s[..|s| - 1]) + Report(LastSequence(s[..|s| - 1]), s[|s| - 1].sequence)
  }

  /** The first time stamp that is not 0: a stamp of 0 reads as not set yet. */
  function FirstTimestamp(s: seq<Packet>): nat {
    if s == [] then 0
    else
      var t := FirstTimestamp(s[..|s| - 1]);
      if t == 0 then s[|s| - 1].timestamp else t
  }

  /** The recorded first stamp is the first that differs from 0. */
  lemma {:induction false} FirstTimestampAt(s: seq<Packet>, k: nat)
    requires k < |s| && s[k].timestamp != 0 && forall j :: 0 <= j < k ==> s[j].timestamp == 0
    ensures FirstTimestamp(s) == s[k].timestamp
  {
    var init := s[..|s| - 1];
    if k < |init| {
      FirstTimestampAt(init, k);
    } else {
      FirstTimestampZero(init);
    }
  }

  /** The recorded first stamp is the first packet's iff that stamp is not 0 or no stamp differs from 0. */
  lemma {:induction false} FirstTimestampIsFirst(s: seq<Packet>)
    requires s != []
    ensures FirstTimestamp(s) == s[0].timestamp
            <==> s[0].timestamp != 0 || forall k :: 0 <= k < |s| ==> s[k].timestamp == 0
  {
    FirstTimestampZero(s);
    if s[0].timestamp != 0 {
      FirstTimestampStays(s);
    }
  }

  lemma {:induction false} FirstTimestampZero(s: seq<Packet>)
    ensures FirstTimestamp(s) == 0 <==> forall k :: 0 <= k < |s| ==> s[k].timestamp == 0
  {
    if s != [] {
      var init := s[..|s| - 1];
      FirstTimestampZero(init);
      assert forall k :: 0 <= k < |init| ==> init[k] == s[k];
    }
  }

  lemma {:induction false} FirstTimestampStays(s: seq<Packet>)
    requires s != [] && s[0].timestamp != 0
    ensures FirstTimestamp(s) == s[0].timestamp
  {
    if |s| > 1 {
      FirstTimestampStays(s[..|s| - 1]);
    } else {
      assert s[..|s| - 1] == [];
    }
  }

  // ---- streams by position

  /** Packet k carries the low 16 bits of position pos[k]; positions advance by 1 to 65535. */
  predicate Carries(s: seq<Packet>, pos: seq<int>) {
    && |s| == |pos|
    && (forall k :: 0 <= k < |s| ==> s[k].sequence == pos[k] % SEQUENCES)
    && forall k :: 1 <= k < |s| ==> 1 <= pos[k] - pos[k - 1] < SEQUENCES
  }

  function Sum(counts: seq<nat>): nat {
    if counts == [] then 0 else Sum(counts[..|counts| - 1]) + counts[|counts| - 1]
  }

  /** How many positions the stream skips. */
  function Skipped(pos: seq<int>): int {
    if |pos| <= 1 then 0 else Skipped(pos[..|pos| - 1]) + (pos[|pos| - 1] - pos[|pos| - 2] - 1)
  }

  /** Of these, how many right after a packet numbered 0. */
  function SkippedAfterZero(pos: seq<int>): int {
    if |pos| <= 1 then 0
    else
      SkippedAfterZero(pos[..|pos| - 1]) + AfterZero(pos[|pos| - 2], pos[|pos| - 1])
  }

  function AfterZero(a: int, b: int): int {
    if a % SEQUENCES == 0 then b - a - 1 else 0
  }

  lemma ReportIsDistance(a: int, b: int)
    requires 1 <= b - a < SEQUENCES
    ensures Report(a % SEQUENCES, b % SEQUENCES) == if a % SEQUENCES == 0 || b == a + 1 then [] else [b - a - 1]
  {
    var expected := (a % SEQUENCES + 1) % SEQUENCES;
    assert (b % SEQUENCES - expected) % SEQUENCES == b - a - 1;
  }

  lemma OneMoreReport(counts: seq<nat>, a: int, b: int)
    requires 1 <= b - a < SEQUENCES
    ensures Sum(counts + Report(a % SEQUENCES, b % SEQUENCES)) + AfterZero(a, b) == Sum(counts) + (b - a - 1)
  {
    ReportIsDistance(a, b);
    if a % SEQUENCES == 0 || b == a + 1 {
      assert counts + [] == counts;
    } else {
      assert (counts + [b - a - 1])[..|counts + [b - a - 1]| - 1] == counts;
    }
  }

  lemma CarriesInit(s: seq<Packet>, pos: seq<int>)
    requires Carries(s, pos) && s != []
    ensures Carries(s[..|s| - 1], pos[..|pos| - 1])
  {
  }

  /** Exactly the positions skipped are reported, save those right after a packet numbered 0. */
  lemma {:induction false} ReportsAccount(s: seq<Packet>, pos: seq<int>)
    requires Carries(s, pos)
    ensures Sum(Reports(s)) + SkippedAfterZero(pos) == Skipped(pos)
  {
    if |s| == 1 {
      assert s[..0] == [];
    } else if |s| > 1 {
      var init, front := s[..|s| - 1], pos[..|pos| - 1];
      CarriesInit(s, pos);
      ReportsAccount(init, front);
      var a, b := pos[|pos| - 2], pos[|pos| - 1];
      assert LastSequence(init) == a % SEQUENCES && s[|s| - 1].sequence == b % SEQUENCES;
      OneMoreReport(Reports(init), a, b);
    }
  }

  predicate GapAfterZero(pos: seq<int>, k: nat)
    requires 1 <= k < |pos|
  {
    pos[k - 1] % SEQUENCES == 0 && pos[k] > pos[k - 1] + 1
  }

  lemma {:induction false} SkippedAfterZeroBounds(s: seq<Packet>, pos: seq<int>)
    requires Carries(s, pos)
    ensures SkippedAfterZero(pos) >= 0
    ensures SkippedAfterZero(pos) == 0 <==> forall k: nat :: 1 <= k < |pos| ==> !GapAfterZero(pos, k)
  {
    if |s| > 1 {
      var front := pos[..|pos| - 1];
      CarriesInit(s, pos);
      SkippedAfterZeroBounds(s[..|s| - 1], front);
      forall k: nat | 1 <= k < |front| ensures GapAfterZero(front, k) == GapAfterZero(pos, k) {
      }
      var last: nat := |pos| - 1;
      assert GapAfterZero(pos, last) <==> pos[last - 1] % SEQUENCES == 0 && pos[last] > pos[last - 1] + 1;
    }
  }

  /** The reports add up to what was skipped iff nothing is skipped right after a packet numbered 0. */
  lemma ReportsAreComplete(s: seq<Packet>, pos: seq<int>)
    requires Carries(s, pos)
    ensures Sum(Reports(s)) == Skipped(pos) <==> forall k: nat :: 1 <= k < |pos| ==> !GapAfterZero(pos, k)
  {
    ReportsAccount(s, pos);
    SkippedAfterZeroBounds(s, pos);
  }

  /** A stream without gaps reports nothing, however often its numbers wrap. */
  lemma {:induction false} ContiguousIsSilent(s: seq<Packet>, pos: seq<int>)
    requires Carries(s, pos) && forall k :: 1 <= k < |pos| ==> pos[k] == pos[k - 1] + 1
    ensures Reports(s) == []
  {
    if |s| == 1 {
      assert s[..0] == [];
    } else if |s| > 1 {
      CarriesInit(s, pos);
      ContiguousIsSilent(s[..|s| - 1], pos[..|pos| - 1]);
      ReportIsDistance(pos[|pos| - 2], pos[|pos| - 1]);
      assert LastSequence(s[..|s| - 1]) == s[|s| - 2].sequence;
    }
  }

  /** A gap of 100 right after packet 0 goes unseen. */
  lemma GapAfterZeroUnseen()
    ensures var s := [Packet(65535, 1), Packet(0, 2), Packet(101, 3)];
            Carries(s, [65535, 65536, 65637]) && Sum(Reports(s)) == 0 && Skipped([65535, 65536, 65637]) == 100
  {
    var s := [Packet(65535, 1), Packet(0, 2), Packet(101, 3)];
    var pos := [65535, 65536, 65637];
    assert s[..2] == [Packet(65535, 1), Packet(0, 2)] && s[..2][..1] == [Packet(65535, 1)] && s[..2][..1][..0] == [];
    assert pos[..2] == [65535, 65536] && pos[..2][..1] == [65535];
    assert Reports(s[..2][..1]) == [];
    assert Reports(s[..2]) == [];
    assert Reports(s) == [];
  }
}
