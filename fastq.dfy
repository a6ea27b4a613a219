/**
 * FASTQ records as the three line-oriented scripts see them: every four
 * consecutive lines of the input form one record, and lines left over at the
 * end (one to three of them) never fill the buffer and form no record.
 */
module Fastq {

  /** One record: its four lines as read, line terminators included. */
  datatype Record = Record(header: string, sequence: string, separator: string, quality: string)

  /** The lines a record is written back as, in order. */
  function Lines(r: Record): seq<string>
  {
    [r.header, r.sequence, r.separator, r.quality]
  }

  /** The record held by a full four-line buffer. */
  function RecordOf(buffer: seq<string>): (r: Record)
    requires |buffer| == 4
    ensures Lines(r) == buffer
  {
    Record(buffer[0], buffer[1], buffer[2], buffer[3])
  }

  /** The complete records of a line stream, in input order. */
  function Records(lines: seq<string>): (recs: seq<Record>)
    ensures |recs| == |lines| / 4
    decreases |lines|
  {
    if |lines| < 4 then [] else [RecordOf(lines[..4])] + Records(lines[4..])
  }

  /** Record `k` is made of lines `4 * k` to `4 * k + 3`. */
  lemma {:induction false} RecordAt(lines: seq<string>, k: nat)
    requires 4 * k + 4 <= |lines|
    ensures k < |Records(lines)| && Lines(Records(lines)[k]) == lines[4 * k..4 * k + 4]
    decreases k
  {
    if k > 0 {
      RecordAt(lines[4..], k - 1);
      assert lines[4..][4 * (k - 1)..4 * (k - 1) + 4] == lines[4 * k..4 * k + 4];
    }
  }

  /** A stream of `4 * m` lines plus fewer than four leftover ones holds
      `m` complete records. */
  lemma RecordCount(lines: seq<string>, m: nat, rest: nat)
    requires |lines| == 4 * m + rest && rest < 4
    ensures |Records(lines)| == m
  {
  }

  /** The lines that writing the records one after another produces. */
  function Flatten(recs: seq<Record>): (lines: seq<string>)
    ensures |lines| == 4 * |recs|
    decreases |recs|
  {
    if recs == [] then [] else Lines(recs[0]) + Flatten(recs[1..])
  }

  /** Writing one more record appends its four lines. */
  lemma {:induction false} FlattenSnoc(recs: seq<Record>, r: Record)
    ensures Flatten(recs + [r]) == Flatten(recs) + Lines(r)
    decreases |recs|
  {
    if recs == [] {
      assert [r][1..] == [];
    } else {
      assert (recs + [r])[1..] == recs[1..] + [r];
      FlattenSnoc(recs[1..], r);
    }
  }

  /** Writing out the complete records reproduces the input without its
      trailing partial record. */
  lemma {:induction false} FlattenRecords(lines: seq<string>)
    ensures Flatten(Records(lines)) == lines[..4 * (|lines| / 4)]
    decreases |lines|
  {
    if |lines| >= 4 {
      var rest := lines[4..];
      FlattenRecords(rest);
      assert ([RecordOf(lines[..4])] + Records(rest))[1..] == Records(rest);
      assert 4 * (|lines| / 4) == 4 + 4 * (|rest| / 4);
      assert lines[..4] + rest[..4 * (|rest| / 4)] == lines[..4 * (|lines| / 4)];
    }
  }

  /** Reading back what was written gives the same records. */
  lemma {:induction false} RecordsFlatten(recs: seq<Record>)
    ensures Records(Flatten(recs)) == recs
    decreases |recs|
  {
    if recs != [] {
      var out := Flatten(recs);
      RecordsFlatten(recs[1..]);
      assert out[..4] == Lines(recs[0]);
      assert out[4..] == Flatten(recs[1..]);
      assert RecordOf(out[..4]) == recs[0];
    }
  }
}
