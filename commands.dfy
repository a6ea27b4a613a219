/**
 * The shell command lines the pipeline driver hands to the shell, one
 * builder per external step. Each builder appends its pieces to the text
 * in the same order and with the same spacing as the driver does.
 *
 * The partner of every builder is word splitting: when no argument holds a
 * space, splitting the command at single spaces gives back exactly the
 * program name, the fixed flags and the arguments in their places, which is
 * the argument vector the shell passes to the tool.
 */
module Commands {
  import opened Util
  import opened Strings

  /** Text without a space: one word on the command line. */
  predicate NoSpace(w: string)
  {
    ' ' !in w
  }

  /** Words joined by single spaces. */
  function Unwords(ws: seq<string>): string
    requires ws != []
  {
    Join(ws, ' ')
  }

  /** `bowtie2-build -f <fasta> <gene>`: index the reference. */
  function BuildFastaIndex(fasta: string, gene: string): string
  {
    Unwords(["bowtie2-build", "-f", fasta, gene])
  }

  /** `umi_tools extract`: move the first `umiLen` bases of read 1 into the
      read names of both mates; the barcode pattern is `umiLen` letters `N`. */
  function ExtractUmis(umiLen: int, r1: string, r2: string, read1Umi: string, read2Umi: string): string
  {
    var umi := Repeat('N', umiLen);
    Unwords(["umi_tools", "extract", "-p", umi, "-I", r1, "--read2-in=" + r2, "-S", read1Umi,
      "--read2-out=" + read2Umi])
  }

  /** The fixed local-alignment settings passed to bowtie2, word by word. */
  const AlignFlags: seq<string> := ["--local", "--sensitive-local", "--mp", "3,1", "--rdg", "5,1",
    "--rfg", "5,1", "--dpad", "30", "--maxins", "800", "--ignore-quals", "--no-unal"]

  /** `bowtie2`: align the read pairs against the indexed reference with `p`
      threads. */
  function AlignReads(gene: string, p: int, r1: string, r2: string, output: string): string
  {
    Unwords(["bowtie2", "-p", IntToString(p)] + AlignFlags + ["-x", gene, "-1", r1, "-2", r2, "-S", output])
  }

  /** `samtools view -b <sam> > <bam>`. */
  function SamToBam(sam: string, bam: string): string
  {
    Unwords(["samtools", "view", "-b", sam, ">", bam])
  }

  /** `samtools sort <inp> -o <out>`, with ` -n` appended to sort by read
      name. */
  function SortBam(inp: string, out: string, byName: bool): string
  {
    var cmd := Unwords(["samtools", "sort", inp, "-o", out]);
    if byName then cmd + " -n" else cmd
  }

  /** `samtools index <bam>`. */
  function IndexBam(bam: string): string
  {
    Unwords(["samtools", "index", bam])
  }

  /** `umicollapse bam`: collapse paired reads sharing a UMI and a mapping
      position. */
  function CollapseUmi(bam: string, dedup: string): string
  {
    Unwords(["umicollapse", "bam", "-p", ".05", "-i", bam, "-o", dedup, "--paired"])
  }

  /** `samtools fastq <bam> > <fastq>`. */
  function BamToFastq(bam: string, fastq: string): string
  {
    Unwords(["samtools", "fastq", bam, ">", fastq])
  }

  /** The deinterleaving script, run from the driver's own directory
      `scriptDir`. */
  function DeinterleaveFastq(scriptDir: string, interleaved: string, r1: string, r2: string): string
  {
    Unwords(["python", scriptDir + "/" + "deinterleaver.py", interleaved, r1, r2])
  }

  /** The header-stripping script, run from the driver's own directory. */
  function TrimHeader(scriptDir: string, fastqIn: string, fastqOut: string): string
  {
    Unwords(["python", scriptDir + "/" + "strip_fastq_headers.py", fastqIn, fastqOut])
  }

  /** `cp <f> <dest>`. */
  function Copy(f: string, dest: string): string
  {
    Unwords(["cp", f, dest])
  }

  // The argument vector of each command, when no argument holds a space.

  lemma BuildFastaIndexWords(fasta: string, gene: string)
    requires NoSpace(fasta) && NoSpace(gene)
    ensures Split(BuildFastaIndex(fasta, gene), ' ') == ["bowtie2-build", "-f", fasta, gene]
  {
    SplitJoin(["bowtie2-build", "-f", fasta, gene], ' ');
  }

  /** The word after `-p` is exactly `umiLen` letters `N` (none when
      `umiLen` is not positive). */
  lemma ExtractUmisWords(umiLen: int, r1: string, r2: string, read1Umi: string, read2Umi: string)
    requires NoSpace(r1) && NoSpace(r2) && NoSpace(read1Umi) && NoSpace(read2Umi)
    ensures var ws := Split(ExtractUmis(umiLen, r1, r2, read1Umi, read2Umi), ' ');
      && ws == ["umi_tools", "extract", "-p", Repeat('N', umiLen), "-I", r1, "--read2-in=" + r2,
           "-S", read1Umi, "--read2-out=" + read2Umi]
      && |ws[3]| == (if umiLen <= 0 then 0 else umiLen)
      && forall j :: 0 <= j < |ws[3]| ==> ws[3][j] == 'N'
  {
    var umi := Repeat('N', umiLen);
    assert NoSpace(umi);
    SplitJoin(["umi_tools", "extract", "-p", umi, "-I", r1, "--read2-in=" + r2, "-S", read1Umi,
      "--read2-out=" + read2Umi], ' ');
  }

  /** bowtie2 gets the thread count, the fixed settings, the index, both
      mates and the output file, in that order. */
  lemma AlignReadsWords(gene: string, p: int, r1: string, r2: string, output: string)
    requires NoSpace(gene) && NoSpace(r1) && NoSpace(r2) && NoSpace(output)
    ensures Split(AlignReads(gene, p, r1, r2, output), ' ') ==
      ["bowtie2", "-p", IntToString(p)] + AlignFlags + ["-x", gene, "-1", r1, "-2", r2, "-S", output]
  {
    SplitJoin(["bowtie2", "-p", IntToString(p)] + AlignFlags + ["-x", gene, "-1", r1, "-2", r2, "-S", output], ' ');
  }

  lemma SamToBamWords(sam: string, bam: string)
    requires NoSpace(sam) && NoSpace(bam)
    ensures Split(SamToBam(sam, bam), ' ') == ["samtools", "view", "-b", sam, ">", bam]
  {
    SplitJoin(["samtools", "view", "-b", sam, ">", bam], ' ');
  }

  /** The sort key flag `-n` comes last, and only when sorting by name. */
  lemma SortBamWords(inp: string, out: string, byName: bool)
    requires NoSpace(inp) && NoSpace(out)
    ensures Split(SortBam(inp, out, byName), ' ') ==
      ["samtools", "sort", inp, "-o", out] + (if byName then ["-n"] else [])
  {
    var ws := ["samtools", "sort", inp, "-o", out];
    if byName {
      JoinAppend(ws, ["-n"], ' ');
      assert Unwords(["-n"]) == "-n";
      assert " " + "-n" == " -n";
      AppendAssoc(Unwords(ws), " ", "-n");
      assert Unwords(ws + ["-n"]) == SortBam(inp, out, byName);
      SplitJoin(ws + ["-n"], ' ');
    } else {
      SplitJoin(ws, ' ');
    }
  }

  /** The command ends with ` -n` when sorting by name and with `-o <out>`
      otherwise; for an output name that is one word other than `-n`, the
      ending tells the two apart. */
  lemma SortBamEnding(inp: string, out: string, byName: bool)
    ensures byName ==> EndsWith(SortBam(inp, out, byName), " -n")
    ensures !byName ==> EndsWith(SortBam(inp, out, byName), "-o " + out)
    ensures NoSpace(out) && out != "-n" ==> (EndsWith(SortBam(inp, out, byName), " -n") <==> byName)
  {
    var cmd := Unwords(["samtools", "sort", inp, "-o", out]);
    var front := Unwords(["samtools", "sort", inp, "-o"]);
    JoinAppend(["samtools", "sort", inp, "-o"], [out], ' ');
    assert ["samtools", "sort", inp, "-o"] + [out] == ["samtools", "sort", inp, "-o", out];
    assert cmd == front + " " + out;
    JoinAppend(["samtools", "sort", inp], ["-o"], ' ');
    assert ["samtools", "sort", inp] + ["-o"] == ["samtools", "sort", inp, "-o"];
    EndsWithWord(Unwords(["samtools", "sort", inp]), "-o", out);
    if byName {
      assert (cmd + " -n")[|cmd + " -n"| - 3..] == " -n";
    } else if NoSpace(out) && out != "-n" {
      LastWordNotFlag(front, out);
    }
  }

  /** A text ending with a word after a space ends with that word. */
  lemma EndsWithWord(x: string, y: string, w: string)
    ensures EndsWith(x + " " + y + " " + w, y + " " + w)
  {
    var s := x + " " + y + " " + w;
    assert s[|s| - |y + " " + w|..] == y + " " + w;
  }

  /** A last word without spaces other than `-n` leaves no ` -n` at the
      end. */
  lemma LastWordNotFlag(x: string, w: string)
    requires NoSpace(w) && w != "-n"
    ensures !EndsWith(x + " " + w, " -n")
  {
    var s := x + " " + w;
    if |s| >= 3 {
      var tail := s[|s| - 3..];
      if |w| >= 3 {
        assert tail[0] == w[|w| - 3] != ' ';
      } else if |w| == 2 {
        assert tail[1..] == w && " -n"[1..] == "-n";
      } else if |w| == 1 {
        assert tail[1] == ' ';
      } else {
        assert tail[2] == ' ';
      }
    }
  }

  lemma IndexBamWords(bam: string)
    requires NoSpace(bam)
    ensures Split(IndexBam(bam), ' ') == ["samtools", "index", bam]
  {
    SplitJoin(["samtools", "index", bam], ' ');
  }

  lemma CollapseUmiWords(bam: string, dedup: string)
    requires NoSpace(bam) && NoSpace(dedup)
    ensures Split(CollapseUmi(bam, dedup), ' ') ==
      ["umicollapse", "bam", "-p", ".05", "-i", bam, "-o", dedup, "--paired"]
  {
    SplitJoin(["umicollapse", "bam", "-p", ".05", "-i", bam, "-o", dedup, "--paired"], ' ');
  }

  lemma BamToFastqWords(bam: string, fastq: string)
    requires NoSpace(bam) && NoSpace(fastq)
    ensures Split(BamToFastq(bam, fastq), ' ') == ["samtools", "fastq", bam, ">", fastq]
  {
    SplitJoin(["samtools", "fastq", bam, ">", fastq], ' ');
  }

  /** The script path is the driver's directory followed by the script's
      file name. */
  lemma DeinterleaveFastqWords(scriptDir: string, interleaved: string, r1: string, r2: string)
    requires NoSpace(scriptDir) && NoSpace(interleaved) && NoSpace(r1) && NoSpace(r2)
    ensures Split(DeinterleaveFastq(scriptDir, interleaved, r1, r2), ' ') ==
      ["python", scriptDir + "/" + "deinterleaver.py", interleaved, r1, r2]
  {
    assert NoSpace(scriptDir + "/" + "deinterleaver.py");
    SplitJoin(["python", scriptDir + "/" + "deinterleaver.py", interleaved, r1, r2], ' ');
  }

  lemma TrimHeaderWords(scriptDir: string, fastqIn: string, fastqOut: string)
    requires NoSpace(scriptDir) && NoSpace(fastqIn) && NoSpace(fastqOut)
    ensures Split(TrimHeader(scriptDir, fastqIn, fastqOut), ' ') ==
      ["python", scriptDir + "/" + "strip_fastq_headers.py", fastqIn, fastqOut]
  {
    assert NoSpace(scriptDir + "/" + "strip_fastq_headers.py");
    SplitJoin(["python", scriptDir + "/" + "strip_fastq_headers.py", fastqIn, fastqOut], ' ');
  }

  lemma CopyWords(f: string, dest: string)
    requires NoSpace(f) && NoSpace(dest)
    ensures Split(Copy(f, dest), ' ') == ["cp", f, dest]
  {
    SplitJoin(["cp", f, dest], ' ');
  }
}
