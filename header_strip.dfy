/**
 * The header-stripping script: it reads a FASTQ stream four lines at a time,
 * deletes every `/2` and then every `/1` from the header line of each
 * complete record, and writes the four lines out. The output file is
 * modelled as the sequence of lines written to it.
 */
module HeaderStrip {
  import opened Util
  import opened Strings
  import opened Fastq

  /** The rewritten header line: `/2` deleted everywhere, then `/1`. */
  function FixHeader(h: string): string
  {
    Replace(Replace(h, "/2", ""), "/1", "")
  }

  /** A record with its header rewritten and its other lines kept. */
  function FixRecord(r: Record): Record
  {
    r.(header := FixHeader(r.header))
  }

  /** Every record rewritten, in order. */
  function FixAll(recs: seq<Record>): seq<Record>
  {
    seq(|recs|, k requires 0 <= k < |recs| => FixRecord(recs[k]))
  }

  /** Rewriting one more record appends its four rewritten lines. */
  lemma FixAllStep(recs: seq<Record>, m: nat)
    requires m < |recs|
    ensures Flatten(FixAll(recs[..m + 1])) == Flatten(FixAll(recs[..m])) + Lines(FixRecord(recs[m]))
  {
    assert FixAll(recs[..m + 1]) == FixAll(recs[..m]) + [FixRecord(recs[m])];
    FlattenSnoc(FixAll(recs[..m]), FixRecord(recs[m]));
  }

  /** One full buffer handled: what is written is record `m` rewritten. */
  lemma Advance(lines: seq<string>, m: nat, read: seq<string>, out: seq<string>)
    requires 4 * m + 4 <= |lines| && read == lines[4 * m..4 * m + 4]
    requires out == Flatten(FixAll(Records(lines)[..m]))
    ensures m + 1 <= |Records(lines)|
    ensures out + read[0 := FixHeader(read[0])] == Flatten(FixAll(Records(lines)[..m + 1]))
  {
    RecordAt(lines, m);
    FixAllStep(Records(lines), m);
  }

  /** The script: a four-line buffer whose first line is rewritten before the
      buffer is written and emptied. */
  method StripHeaders(lines: seq<string>) returns (out: seq<string>)
    ensures out == Flatten(FixAll(Records(lines)))
  {
    ghost var recs := Records(lines);
    out := [];
    var read: seq<string> := [];
    ghost var m := 0;
    var i := 0;
    while i < |lines|
      invariant 0 <= i <= |lines| && i == 4 * m + |read| && |read| < 4
      invariant read == lines[4 * m..i]
      invariant m <= |recs| && out == Flatten(FixAll(recs[..m]))
    {
      SliceSnoc(lines, 4 * m, i);
      read := read + [lines[i]];
      i := i + 1;
      if |read| == 4 {
        Advance(lines, m, read, out);
        read := read[0 := FixHeader(read[0])];
        out := out + read;
        read := [];
        m := m + 1;
      }
    }
    RecordCount(lines, m, |read|);
    assert recs[..m] == recs;
  }

  /** The output holds one record per complete input record, in order; each
      keeps its sequence, separator and quality lines, and its header is the
      rewritten input header. A trailing partial record is dropped. */
  lemma {:induction false} OnlyHeaderChanges(lines: seq<string>)
    ensures var recs := Records(lines);
      var outRecs := Records(Flatten(FixAll(recs)));
      && |outRecs| == |lines| / 4
      && |Flatten(FixAll(recs))| == 4 * (|lines| / 4)
      && forall k :: 0 <= k < |outRecs| ==>
        && outRecs[k].header == FixHeader(recs[k].header)
        && outRecs[k].sequence == recs[k].sequence
        && outRecs[k].separator == recs[k].separator
        && outRecs[k].quality == recs[k].quality
  {
    RecordsFlatten(FixAll(Records(lines)));
  }

  /** A header without `/1` or `/2` is left as it is. */
  lemma FixHeaderWithoutTags(h: string)
    requires !Contains(h, "/1") && !Contains(h, "/2")
    ensures FixHeader(h) == h
  {
    ReplaceAbsent(h, "/2", "");
    ReplaceAbsent(h, "/1", "");
  }

  /** The rewritten header is never longer than the original. */
  lemma FixHeaderShrinks(h: string)
    ensures |FixHeader(h)| <= |h|
  {
    ReplaceByNothingShrinks(h, "/2");
    ReplaceByNothingShrinks(Replace(h, "/2", ""), "/1");
  }

  /** A trailing mate tag is removed: `h/1` and `h/2` become what `h`
      becomes, whatever `h` is. */
  lemma MateTagRemoved(h: string)
    ensures FixHeader(h + "/1\n") == FixHeader(h) + "\n"
    ensures FixHeader(h + "/2\n") == FixHeader(h) + "\n"
  {
    var h2 := Replace(h, "/2", "");
    ReplaceConcat(h, "/1\n", "/2", "");
    assert Replace("/1\n", "/2", "") == "/1\n";
    ReplaceConcat(h2, "/1\n", "/1", "");
    assert Replace("/1\n", "/1", "") == "\n";
    ReplaceConcat(h, "/2\n", "/2", "");
    assert Replace("/2\n", "/2", "") == "\n";
    ReplaceConcat(h2, "\n", "/1", "");
    assert Replace("\n", "/1", "") == "\n";
  }

  /** The usual Illumina-style tags. */
  lemma FixHeaderExamples()
    ensures FixHeader("@read/1\n") == "@read\n"
    ensures FixHeader("@read/2\n") == "@read\n"
  {
    MateTagRemoved("@read");
    assert "@read" + "/1\n" == "@read/1\n";
    assert "@read" + "/2\n" == "@read/2\n";
    assert "@read" + "\n" == "@read\n";
    ReplaceMissingChar("@read", "/2", "");
    ReplaceMissingChar("@read", "/1", "");
  }

  /** Rewriting is not idempotent: deleting `/1` can bring a new `/1`
      together, which a second pass then deletes. */
  lemma FixHeaderNotIdempotent()
    ensures FixHeader("@r//11\n") == "@r/1\n"
    ensures FixHeader(FixHeader("@r//11\n")) == "@r\n"
  {
    FirstPass();
    SecondPass();
  }

  lemma FirstPass()
    ensures FixHeader("@r//11\n") == "@r/1\n"
  {
    var a, b, c := "@r/", "/1", "1\n";
    assert a + (b + c) == "@r//11\n";
    ReplaceMissingChar(a + (b + c), "/2", "");
    ReplaceConcat(a, b + c, "/1", "");
    ReplaceMissingChar(a, "/1", "");
    ReplaceHit(c, "/1", "");
    ReplaceMissingChar(c, "/1", "");
    assert a + ("" + c) == "@r/1\n";
  }

  lemma SecondPass()
    ensures FixHeader("@r/1\n") == "@r\n"
  {
    var a, b, c := "@r", "/1", "\n";
    assert a + (b + c) == "@r/1\n";
    ReplaceMissingChar(a + (b + c), "/2", "");
    ReplaceConcat(a, b + c, "/1", "");
    ReplaceMissingChar(a, "/1", "");
    ReplaceHit(c, "/1", "");
    ReplaceMissingChar(c, "/1", "");
    assert a + ("" + c) == "@r\n";
  }

  /** A second pass changes nothing once no tag is left. */
  lemma FixHeaderIdempotentWhenClean(h: string)
    requires !Contains(FixHeader(h), "/1") && !Contains(FixHeader(h), "/2")
    ensures FixHeader(FixHeader(h)) == FixHeader(h)
  {
    FixHeaderWithoutTags(FixHeader(h));
  }
}
