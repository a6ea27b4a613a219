/**
 * The extracted-barcode counter: it scans a FASTQ stream, takes the UMI at
 * the end of every header line (every fourth line, starting with the first)
 * and reports how many distinct UMIs it saw and how many reads the stream
 * holds. The report's two numbers are the method's results; the printed
 * sentence around them is not modelled.
 */
module BarcodeCounter {
  import opened Strings
  import opened Fastq

  /** The paired-end flag from its command-line text: only the exact text
      `False` turns it off. */
  function PairedFlag(arg: string): bool
  {
    arg != "False"
  }

  /** The UMI of a header line: what follows the last `_` of the line with
      its trailing whitespace removed. */
  function UmiOf(line: string): string
  {
    LastField(RStrip(line), '_')
  }

  /** The distinct UMIs of the header lines among the first `n` lines,
      collected in line order. */
  function HeaderUmis(lines: seq<string>, n: nat): set<string>
    requires n <= |lines|
    decreases n
  {
    if n == 0 then {}
    else HeaderUmis(lines, n - 1) + (if (n - 1) % 4 == 0 then {UmiOf(lines[n - 1])} else {})
  }

  /** The read count reported for a stream of `n` lines: records of four
      lines, two records to a read pair when the input is paired. */
  function ReadCount(n: nat, paired: bool): nat
  {
    if paired then n / 8 else n / 4
  }

  /** Scanning one more line adds its UMI when it is a header line. */
  lemma HeaderUmisStep(lines: seq<string>, n: nat)
    requires n < |lines|
    ensures HeaderUmis(lines, n + 1) ==
      HeaderUmis(lines, n) + (if n % 4 == 0 then {UmiOf(lines[n])} else {})
  {
  }

  /** A UMI is collected exactly when some header line among the first `n`
      lines carries it. */
  lemma HeaderUmisMembers(lines: seq<string>, n: nat, u: string)
    requires n <= |lines|
    ensures u in HeaderUmis(lines, n) <==>
      exists k :: 0 <= k < n && k % 4 == 0 && UmiOf(lines[k]) == u
  {
    if u in HeaderUmis(lines, n) {
      HeaderUmiSource(lines, n, u);
    }
    forall k | 0 <= k < n && k % 4 == 0 && UmiOf(lines[k]) == u
      ensures u in HeaderUmis(lines, n)
    {
      HeaderUmiCollected(lines, n, k);
    }
  }

  /** Every collected UMI comes from a header line. */
  lemma {:induction false} HeaderUmiSource(lines: seq<string>, n: nat, u: string)
    requires n <= |lines| && u in HeaderUmis(lines, n)
    ensures exists k :: 0 <= k < n && k % 4 == 0 && UmiOf(lines[k]) == u
    decreases n
  {
    if u in HeaderUmis(lines, n - 1) {
      HeaderUmiSource(lines, n - 1, u);
    } else {
      assert UmiOf(lines[n - 1]) == u;
    }
  }

  /** Every header line's UMI is collected. */
  lemma {:induction false} HeaderUmiCollected(lines: seq<string>, n: nat, k: nat)
    requires k < n <= |lines| && k % 4 == 0
    ensures UmiOf(lines[k]) in HeaderUmis(lines, n)
    decreases n
  {
    if k < n - 1 {
      HeaderUmiCollected(lines, n - 1, k);
    }
  }

  /** The script: a line counter and a growing set of UMIs, then the read
      count from the final counter. */
  method CountBarcodes(lines: seq<string>, r2Arg: string) returns (umiCount: nat, readCount: nat)
    ensures umiCount == |HeaderUmis(lines, |lines|)|
    ensures readCount == ReadCount(|lines|, PairedFlag(r2Arg))
  {
    var paired: bool;
    if r2Arg == "False" {
      paired := false;
    } else {
      paired := true;
    }
    var umis: set<string> := {};
    var lineNum := 0;
    while lineNum < |lines|
      invariant 0 <= lineNum <= |lines|
      invariant umis == HeaderUmis(lines, lineNum)
    {
      HeaderUmisStep(lines, lineNum);
      if lineNum % 4 == 0 {
        var parts := Split(RStrip(lines[lineNum]), '_');
        var umi := parts[|parts| - 1];
        umis := umis + {umi};
      }
      lineNum := lineNum + 1;
    }
    if paired {
      readCount := lineNum / 8;
    } else {
      readCount := lineNum / 4;
    }
    umiCount := |umis|;
  }

  /** The UMI is the text after the last `_` of the right-stripped line,
      or that whole line when it has no `_`. */
  lemma UmiIsLastField(line: string)
    ensures var t := RStrip(line);
      var u := UmiOf(line);
      && |u| <= |t| && u == t[|t| - |u|..]
      && '_' !in u
      && (|u| == |t| <==> '_' !in t)
      && (|u| < |t| ==> t[|t| - |u| - 1] == '_')
  {
    SplitLast(RStrip(line), '_');
  }

  /** At most one UMI per header line: no more than `ceil(n / 4)` of them. */
  lemma {:induction false} UmiCountBound(lines: seq<string>, n: nat)
    requires n <= |lines|
    ensures |HeaderUmis(lines, n)| <= (n + 3) / 4
    decreases n
  {
    if n > 0 {
      var m := n - 1;
      var prev := HeaderUmis(lines, m);
      UmiCountBound(lines, m);
      HeaderCountStep(m);
      if m % 4 == 0 {
        assert |prev + {UmiOf(lines[m])}| <= |prev| + 1;
      } else {
        assert prev + {} == prev;
      }
    }
  }

  /** Line `m` is a header line exactly when it raises `ceil(m / 4)`. */
  lemma HeaderCountStep(m: nat)
    ensures m % 4 == 0 ==> (m + 4) / 4 == (m + 3) / 4 + 1
    ensures m % 4 != 0 ==> (m + 4) / 4 == (m + 3) / 4
  {
  }

  /** A record whose UMI was already seen leaves the set, and so the count,
      as it was. */
  lemma RepeatedUmi(lines: seq<string>, record: seq<string>)
    requires |lines| % 4 == 0 && |record| == 4
    requires UmiOf(record[0]) in HeaderUmis(lines, |lines|)
    ensures HeaderUmis(lines + record, |lines + record|) == HeaderUmis(lines, |lines|)
  {
    var all := lines + record;
    var n := |lines|;
    HeaderUmisPrefix(lines, record, n);
    HeaderUmisStep(all, n);
    HeaderUmisStep(all, n + 1);
    HeaderUmisStep(all, n + 2);
    HeaderUmisStep(all, n + 3);
  }

  /** Lines appended after the first `n` do not change what those `n`
      lines contribute. */
  lemma {:induction false} HeaderUmisPrefix(lines: seq<string>, more: seq<string>, n: nat)
    requires n <= |lines|
    ensures HeaderUmis(lines + more, n) == HeaderUmis(lines, n)
    decreases n
  {
    if n > 0 {
      HeaderUmisPrefix(lines, more, n - 1);
      assert (lines + more)[n - 1] == lines[n - 1];
    }
  }

  /** Unpaired, the read count is the number of complete records; paired,
      it is the number of complete record pairs. */
  lemma ReadCountRecords(lines: seq<string>, paired: bool)
    ensures paired ==> ReadCount(|lines|, paired) == |Records(lines)| / 2
    ensures !paired ==> ReadCount(|lines|, paired) == |Records(lines)|
  {
  }

  /** Only the exact text `False` switches pairing off. */
  lemma PairedFlagExamples()
    ensures !PairedFlag("False")
    ensures PairedFlag("True") && PairedFlag("false") && PairedFlag("")
  {
  }
}
