/**
 * The deinterleaving script: it reads an interleaved FASTQ stream four lines
 * at a time and writes each complete record to the first output when the
 * last character of its stripped header is `1`, and to the second output
 * otherwise. The two outputs are modelled as the sequences of lines written
 * to them.
 */
module Deinterleaver {
  import opened Util
  import opened Strings
  import opened Fastq

  datatype Mate = First | Second

  /** The output a record with this header goes to; `None` when the header
      strips to nothing, where taking its last character raises IndexError.
      Stripping both ends or only the right end leaves the same last
      character (`StripEnds`), so the right end is all that is looked at. */
  function MateOf(header: string): Option<Mate>
  {
    var s := RStrip(header);
    if s == [] then None
    else if s[|s| - 1] == '1' then Some(First)
    else Some(Second)
  }

  /** Routing looks only at the last visible character of the header. */
  lemma MateOfLastVisibleChar(header: string)
    ensures MateOf(header).None? <==> forall j :: 0 <= j < |header| ==> IsSpace(header[j])
    ensures MateOf(header) == Some(First) <==>
      exists i :: 0 <= i < |header| && header[i] == '1' &&
        forall j :: i < j < |header| ==> IsSpace(header[j])
  {
    StripEnds(header);
    RStripShape(header);
    var t := RStrip(header);
    if MateOf(header) == Some(First) {
      assert header[|t| - 1] == t[|t| - 1];
    }
    forall i | 0 <= i < |header| && header[i] == '1' &&
        forall j :: i < j < |header| ==> IsSpace(header[j])
      ensures MateOf(header) == Some(First)
    {
      assert !IsSpace(header[i]);
      assert i < |t|;
      assert t[|t| - 1] == header[|t| - 1];
      assert i == |t| - 1;
    }
  }

  /** The records routed to `m`, in input order: Python's `filter`. */
  function Select(recs: seq<Record>, m: Mate): seq<Record>
    decreases |recs|
  {
    if recs == [] then []
    else (if MateOf(recs[0].header) == Some(m) then [recs[0]] else []) + Select(recs[1..], m)
  }

  lemma {:induction false} SelectSnoc(recs: seq<Record>, r: Record, m: Mate)
    ensures Select(recs + [r], m) ==
      Select(recs, m) + (if MateOf(r.header) == Some(m) then [r] else [])
    decreases |recs|
  {
    var t := if MateOf(r.header) == Some(m) then [r] else [];
    if recs == [] {
      assert [r][1..] == [];
      assert t + [] == t;
    } else {
      var h := if MateOf(recs[0].header) == Some(m) then [recs[0]] else [];
      ConcatParts(recs, [r]);
      SelectSnoc(recs[1..], r, m);
      AppendAssoc(h, Select(recs[1..], m), t);
    }
  }

  /** What routing record `m - 1` adds to the output for `mate`. */
  lemma SelectStep(recs: seq<Record>, m: nat, mate: Mate)
    requires 0 < m <= |recs|
    ensures Flatten(Select(recs[..m], mate)) ==
      Flatten(Select(recs[..m - 1], mate)) +
      (if MateOf(recs[m - 1].header) == Some(mate) then Lines(recs[m - 1]) else [])
  {
    var r := recs[m - 1];
    assert recs[..m] == recs[..m - 1] + [r];
    SelectSnoc(recs[..m - 1], r, mate);
    if MateOf(r.header) == Some(mate) {
      FlattenSnoc(Select(recs[..m - 1], mate), r);
    } else {
      assert Select(recs[..m - 1], mate) + [] == Select(recs[..m - 1], mate);
    }
  }

  /** Every record's header can be routed. */
  predicate Routable(recs: seq<Record>)
  {
    forall k :: 0 <= k < |recs| ==> MateOf(recs[k].header).Some?
  }

  lemma RoutableStep(recs: seq<Record>, m: nat)
    requires m < |recs| && Routable(recs[..m]) && MateOf(recs[m].header).Some?
    ensures Routable(recs[..m + 1])
  {
    assert recs[..m + 1] == recs[..m] + [recs[m]];
  }

  /** How many leading records are routed before one whose header strips to
      nothing stops the script. */
  function RoutablePrefix(recs: seq<Record>): (n: nat)
    ensures n <= |recs| && Routable(recs[..n])
    ensures n < |recs| ==> MateOf(recs[n].header).None?
    decreases |recs|
  {
    if recs == [] || MateOf(recs[0].header).None? then 0
    else
      var n := RoutablePrefix(recs[1..]);
      assert recs[..n + 1] == [recs[0]] + recs[1..][..n];
      n + 1
  }

  /** The lines written to the output for `mate` once the first `m`
      records have been routed, built up record by record as the script
      writes them. */
  function Written(recs: seq<Record>, m: nat, mate: Mate): seq<string>
    requires m <= |recs|
  {
    if m == 0 then [] else
      Written(recs, m - 1, mate) +
      (if MateOf(recs[m - 1].header) == Some(mate) then Lines(recs[m - 1]) else [])
  }

  /** Routing record `m` appends its lines to the output its header names. */
  lemma WrittenStep(recs: seq<Record>, m: nat, mate: Mate)
    requires m < |recs|
    ensures MateOf(recs[m].header) == Some(mate) ==>
      Written(recs, m + 1, mate) == Written(recs, m, mate) + Lines(recs[m])
    ensures MateOf(recs[m].header) != Some(mate) ==>
      Written(recs, m + 1, mate) == Written(recs, m, mate)
  {
  }

  /** What the script writes is the filtered records, written in order. */
  lemma {:induction false} WrittenSelected(recs: seq<Record>, m: nat, mate: Mate)
    requires m <= |recs|
    ensures Written(recs, m, mate) == Flatten(Select(recs[..m], mate))
    decreases m
  {
    if m > 0 {
      WrittenSelected(recs, m - 1, mate);
      SelectStep(recs, m, mate);
    }
  }

  /** The routable prefix is the one that ends at the first unroutable
      record, or at the end. */
  lemma {:induction false} RoutablePrefixIs(recs: seq<Record>, m: nat)
    requires m <= |recs| && Routable(recs[..m])
    requires m < |recs| ==> MateOf(recs[m].header).None?
    ensures RoutablePrefix(recs) == m
    decreases |recs|
  {
    if recs != [] {
      assert m > 0 ==> recs[..m][0] == recs[0];
      if MateOf(recs[0].header).Some? {
        assert m != 0;
        var tail := recs[1..][..m - 1];
        forall k | 0 <= k < |tail| ensures MateOf(tail[k].header).Some? {
          assert tail[k] == recs[..m][k + 1];
        }
        assert m - 1 < |recs| - 1 ==> recs[1..][m - 1] == recs[m];
        RoutablePrefixIs(recs[1..], m - 1);
      }
    }
  }

  /** One full buffer handled: record `m` goes to the output named by the
      last character of its stripped header. */
  lemma Advance(lines: seq<string>, m: nat, buffer: seq<string>,
                out1: seq<string>, out2: seq<string>, next1: seq<string>, next2: seq<string>)
    requires 4 * m + 4 <= |lines| && buffer == lines[4 * m..4 * m + 4]
    requires var recs := Records(lines);
      && m <= |recs| && Routable(recs[..m])
      && out1 == Written(recs, m, First) && out2 == Written(recs, m, Second)
    requires var h := Strip(buffer[0]);
      && h != []
      && next1 == (if h[|h| - 1] == '1' then out1 + buffer else out1)
      && next2 == (if h[|h| - 1] == '1' then out2 else out2 + buffer)
    ensures var recs := Records(lines);
      && m + 1 <= |recs| && Routable(recs[..m + 1])
      && next1 == Written(recs, m + 1, First) && next2 == Written(recs, m + 1, Second)
  {
    var recs := Records(lines);
    RecordAt(lines, m);
    WrittenStep(recs, m, First);
    WrittenStep(recs, m, Second);
    StripEnds(buffer[0]);
    RoutableStep(recs, m);
  }

  /** An empty stripped header stops the script at record `m`. */
  lemma Stop(lines: seq<string>, m: nat, buffer: seq<string>)
    requires 4 * m + 4 <= |lines| && buffer == lines[4 * m..4 * m + 4]
    requires Strip(buffer[0]) == []
    ensures m < |Records(lines)| && MateOf(Records(lines)[m].header).None?
  {
    RecordAt(lines, m);
    StripEnds(buffer[0]);
  }

  /** Where the loop ends, the outputs are the routable prefix's records. */
  lemma Finish(recs: seq<Record>, m: nat, out1: seq<string>, out2: seq<string>)
    requires m <= |recs| && Routable(recs[..m])
    requires m < |recs| ==> MateOf(recs[m].header).None?
    requires out1 == Written(recs, m, First) && out2 == Written(recs, m, Second)
    ensures var n := RoutablePrefix(recs);
      && n == m
      && out1 == Flatten(Select(recs[..n], First))
      && out2 == Flatten(Select(recs[..n], Second))
  {
    RoutablePrefixIs(recs, m);
    WrittenSelected(recs, m, First);
    WrittenSelected(recs, m, Second);
  }

  /** The script: a four-line buffer, routed and emptied each time it fills.
      `failed` reports the IndexError; the outputs then hold what was
      written before it. */
  method Deinterleave(lines: seq<string>) returns (out1: seq<string>, out2: seq<string>, failed: bool)
    ensures var recs := Records(lines);
      var n := RoutablePrefix(recs);
      && (failed <==> n < |recs|)
      && out1 == Flatten(Select(recs[..n], First))
      && out2 == Flatten(Select(recs[..n], Second))
  {
    ghost var recs := Records(lines);
    out1, out2, failed := [], [], false;
    var buffer: seq<string> := [];
    ghost var m := 0;
    var i := 0;
    while i < |lines|
      invariant 0 <= i <= |lines| && i == 4 * m + |buffer| && |buffer| < 4
      invariant buffer == lines[4 * m..i]
      invariant m <= |recs| && Routable(recs[..m])
      invariant out1 == Written(recs, m, First) && out2 == Written(recs, m, Second)
    {
      SliceSnoc(lines, 4 * m, i);
      buffer := buffer + [lines[i]];
      i := i + 1;
      if |buffer| == 4 {
        var header := Strip(buffer[0]);
        if header == [] {
          Stop(lines, m, buffer);
          failed := true;
          break;
        }
        ghost var prev1, prev2 := out1, out2;
        if header[|header| - 1] == '1' {
          out1 := out1 + buffer;
        } else {
          out2 := out2 + buffer;
        }
        Advance(lines, m, buffer, prev1, prev2, out1, out2);
        buffer := [];
        m := m + 1;
      }
    }
    if !failed {
      RecordCount(lines, m, |buffer|);
    }
    Finish(recs, m, out1, out2);
  }

  lemma RoutableTail(recs: seq<Record>)
    requires recs != [] && Routable(recs)
    ensures MateOf(recs[0].header).Some? && Routable(recs[1..])
  {
    assert forall k :: 0 <= k < |recs| - 1 ==> recs[1..][k] == recs[k + 1];
  }

  /** Routing partitions the records: each one lands in exactly one output,
      none is lost or duplicated. */
  lemma {:induction false} SelectPartition(recs: seq<Record>)
    requires Routable(recs)
    ensures multiset(Select(recs, First)) + multiset(Select(recs, Second)) == multiset(recs)
    ensures |Select(recs, First)| + |Select(recs, Second)| == |recs|
    decreases |recs|
  {
    if recs != [] {
      RoutableTail(recs);
      SelectPartition(recs[1..]);
      var f, g := Select(recs[1..], First), Select(recs[1..], Second);
      assert recs == [recs[0]] + recs[1..];
      if MateOf(recs[0].header) == Some(First) {
        assert Select(recs, First) == [recs[0]] + f;
        assert Select(recs, Second) == [] + g;
      } else {
        assert Select(recs, First) == [] + f;
        assert Select(recs, Second) == [recs[0]] + g;
      }
    }
  }

  /** A record is in the output for `m` exactly when it is an input record
      whose header routes to `m`. */
  lemma {:induction false} SelectMembers(recs: seq<Record>, m: Mate, r: Record)
    ensures r in Select(recs, m) <==> r in recs && MateOf(r.header) == Some(m)
    decreases |recs|
  {
    if recs != [] {
      SelectMembers(recs[1..], m, r);
      assert recs == [recs[0]] + recs[1..];
    }
  }

  /** Routing preserves input order: filtering a concatenation filters each
      part and keeps them in sequence. */
  lemma {:induction false} SelectAppend(a: seq<Record>, b: seq<Record>, m: Mate)
    ensures Select(a + b, m) == Select(a, m) + Select(b, m)
    decreases |a|
  {
    if a == [] {
      assert a + b == b;
    } else {
      var h := if MateOf(a[0].header) == Some(m) then [a[0]] else [];
      ConcatParts(a, b);
      SelectAppend(a[1..], b, m);
      AppendAssoc(h, Select(a[1..], m), Select(b, m));
    }
  }

  /** Line count: when every header routes, the two outputs together hold
      exactly the lines of the complete records, `4 * (n / 4)` of them. */
  lemma DeinterleaveLineCount(lines: seq<string>)
    requires Routable(Records(lines))
    ensures var recs := Records(lines);
      |Flatten(Select(recs, First))| + |Flatten(Select(recs, Second))| == 4 * (|lines| / 4)
  {
    SelectPartition(Records(lines));
  }

  /** Header routing on the usual mate tags. */
  lemma MateTagExamples()
    ensures MateOf("@read/1\n") == Some(First)
    ensures MateOf("@read/2\n") == Some(Second)
    ensures MateOf(" \n") == None
  {
    MateOfLastVisibleChar("@read/1\n");
    assert "@read/1\n"[6] == '1';
    MateOfLastVisibleChar("@read/2\n");
    MateOfLastVisibleChar(" \n");
  }
}
