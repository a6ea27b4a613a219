/**
 * The pipeline driver: it checks its inputs, creates the temporary
 * directory, works out the file names and the list of commands, runs them
 * and removes the temporary directory.
 *
 * The command list is specified by a plan of steps, each naming the files it
 * reads and writes; the commands are the steps rendered as text. The file
 * system is a snapshot of which paths exist and what each directory lists.
 */
module Pipeline {
  import opened Util
  import opened Strings
  import opened Errors
  import opened Commands
  import opened Runner

  /** The driver's command-line settings. */
  datatype Config = Config(
    r1: string, r2: string, fasta: string, umiLen: int, outputPrefix: string, temp: string,
    keepTemp: bool, threads: int, indexFasta: bool, disableHeaderCorrection: bool)

  /** The three inputs of a run, in the order they are checked. */
  function InputFiles(cfg: Config): seq<string>
  {
    [cfg.r1, cfg.r2, cfg.fasta]
  }

  /** Which paths exist, and the file names each listable directory holds
      (`.` is the working directory). */
  datatype FileSystem = FileSystem(existing: set<string>, listing: map<string, seq<string>>)

  /** The index name: the reference path up to its first `.`. */
  function GeneName(fasta: string): string
  {
    Split(fasta, '.')[0]
  }

  /** The files of one run. All but the two final outputs live in the
      temporary directory. */
  datatype Names = Names(
    bowtieSam: string, bowtieBam: string, sortedBam: string, dedup: string, dedupByName: string,
    interleaved: string, read1Umi: string, read2Umi: string, preFinal1: string, preFinal2: string,
    final1: string, final2: string)

  function NamesOf(cfg: Config): Names
  {
    var prefix := cfg.temp + "/" + cfg.outputPrefix;
    Names(
      prefix + ".sam", prefix + ".bam", prefix + "sortedsample.bam", prefix + "sortedsamplededup.bam",
      prefix + "sortedsamplebynamededup.bam", prefix + "_dedup.fastq", prefix + "_umi_R1.fastq",
      prefix + "_umi_R2.fastq", prefix + "_nonstripped_R1.fastq", prefix + "_nonstripped_R2.fastq",
      cfg.outputPrefix + "_R1.fastq", cfg.outputPrefix + "_R2.fastq")
  }

  /** One external step of the pipeline. */
  datatype Step =
    | BuildIndex(fasta: string, gene: string)
    | Extract(umiLen: int, r1: string, r2: string, out1: string, out2: string)
    | Align(gene: string, threads: int, in1: string, in2: string, sam: string)
    | ToBam(sam: string, bam: string)
    | Sort(inp: string, out: string, byName: bool)
    | IndexSorted(bam: string)
    | Collapse(bam: string, out: string)
    | ToFastq(bam: string, out: string)
    | Deinterleave(inp: string, out1: string, out2: string)
    | TrimHeaders(inp: string, out: string)
    | CopyFile(src: string, dst: string)

  /** The files a step reads. The bowtie2 index that `Align` uses is
      addressed by its name prefix and is not among them. */
  function Inputs(s: Step): seq<string>
  {
    match s
    case BuildIndex(fasta, _) => [fasta]
    case Extract(_, r1, r2, _, _) => [r1, r2]
    case Align(_, _, in1, in2, _) => [in1, in2]
    case ToBam(sam, _) => [sam]
    case Sort(inp, _, _) => [inp]
    case IndexSorted(bam) => [bam]
    case Collapse(bam, _) => [bam]
    case ToFastq(bam, _) => [bam]
    case Deinterleave(inp, _, _) => [inp]
    case TrimHeaders(inp, _) => [inp]
    case CopyFile(src, _) => [src]
  }

  /** The files a step writes under a name the driver chose. The index
      files of `BuildIndex` and `IndexSorted` are named by the tools. */
  function Outputs(s: Step): seq<string>
  {
    match s
    case BuildIndex(_, _) => []
    case Extract(_, _, _, out1, out2) => [out1, out2]
    case Align(_, _, _, _, sam) => [sam]
    case ToBam(_, bam) => [bam]
    case Sort(_, out, _) => [out]
    case IndexSorted(_) => []
    case Collapse(_, out) => [out]
    case ToFastq(_, out) => [out]
    case Deinterleave(_, out1, out2) => [out1, out2]
    case TrimHeaders(_, out) => [out]
    case CopyFile(_, dst) => [dst]
  }

  /** The command text of a step; `scriptDir` is the driver's directory. */
  function Render(s: Step, scriptDir: string): string
  {
    match s
    case BuildIndex(fasta, gene) => BuildFastaIndex(fasta, gene)
    case Extract(n, r1, r2, out1, out2) => ExtractUmis(n, r1, r2, out1, out2)
    case Align(gene, p, in1, in2, sam) => AlignReads(gene, p, in1, in2, sam)
    case ToBam(sam, bam) => SamToBam(sam, bam)
    case Sort(inp, out, byName) => SortBam(inp, out, byName)
    case IndexSorted(bam) => IndexBam(bam)
    case Collapse(bam, out) => CollapseUmi(bam, out)
    case ToFastq(bam, out) => BamToFastq(bam, out)
    case Deinterleave(inp, out1, out2) => DeinterleaveFastq(scriptDir, inp, out1, out2)
    case TrimHeaders(inp, out) => TrimHeader(scriptDir, inp, out)
    case CopyFile(src, dst) => Copy(src, dst)
  }

  /** The commands of a list of steps, one per step, in order. */
  function Rendered(steps: seq<Step>, scriptDir: string): (cmds: seq<string>)
    ensures |cmds| == |steps|
    decreases |steps|
  {
    if steps == [] then [] else [Render(steps[0], scriptDir)] + Rendered(steps[1..], scriptDir)
  }

  /** The steps of a run are appended one at a time, as the driver does.
      First, indexing the reference when it is needed, UMI extraction,
      alignment, conversion to BAM and sorting. */
  function EarlySteps(cfg: Config, n: Names, needIndex: bool): seq<Step>
  {
    var gene := GeneName(cfg.fasta);
    var none: seq<Step> := [];
    (if needIndex then none + [BuildIndex(cfg.fasta, gene)] else none)
    + [Extract(cfg.umiLen, cfg.r1, cfg.r2, n.read1Umi, n.read2Umi)]
    + [Align(gene, cfg.threads, n.read1Umi, n.read2Umi, n.bowtieSam)]
    + [ToBam(n.bowtieSam, n.bowtieBam)]
    + [Sort(n.bowtieBam, n.sortedBam, false)]
  }

  /** Then indexing the sorted alignments, UMI collapsing, sorting by read
      name, conversion back to FASTQ and splitting the mates. */
  function MainSteps(cfg: Config, n: Names, needIndex: bool): seq<Step>
  {
    EarlySteps(cfg, n, needIndex)
    + [IndexSorted(n.sortedBam)]
    + [Collapse(n.sortedBam, n.dedup)]
    + [Sort(n.dedup, n.dedupByName, true)]
    + [ToFastq(n.dedupByName, n.interleaved)]
    + [Deinterleave(n.interleaved, n.preFinal1, n.preFinal2)]
  }

  /** Last, two finishing steps that produce the final outputs: plain
      copies when header correction is disabled, header stripping
      otherwise. */
  function Plan(cfg: Config, n: Names, needIndex: bool): seq<Step>
  {
    var body := MainSteps(cfg, n, needIndex);
    if cfg.disableHeaderCorrection then body + [CopyFile(n.preFinal1, n.final1)] + [CopyFile(n.preFinal2, n.final2)]
    else body + [TrimHeaders(n.preFinal1, n.final1)] + [TrimHeaders(n.preFinal2, n.final2)]
  }

  /** Rendering one more step appends its command. */
  lemma {:induction false} RenderedSnoc(steps: seq<Step>, s: Step, scriptDir: string)
    ensures Rendered(steps + [s], scriptDir) == Rendered(steps, scriptDir) + [Render(s, scriptDir)]
    decreases |steps|
  {
    if steps != [] {
      RenderedSnoc(steps[1..], s, scriptDir);
      assert (steps + [s])[1..] == steps[1..] + [s];
    } else {
      assert [s][1..] == [];
    }
  }

  /** The commands of a plan, one per step. */
  lemma RenderedPlan(cfg: Config, n: Names, scriptDir: string, needIndex: bool)
    ensures var gene := GeneName(cfg.fasta);
      var none: seq<string> := [];
      var body := (if needIndex then none + [BuildFastaIndex(cfg.fasta, gene)] else none)
        + [ExtractUmis(cfg.umiLen, cfg.r1, cfg.r2, n.read1Umi, n.read2Umi)]
        + [AlignReads(gene, cfg.threads, n.read1Umi, n.read2Umi, n.bowtieSam)]
        + [SamToBam(n.bowtieSam, n.bowtieBam)]
        + [SortBam(n.bowtieBam, n.sortedBam, false)]
        + [IndexBam(n.sortedBam)]
        + [CollapseUmi(n.sortedBam, n.dedup)]
        + [SortBam(n.dedup, n.dedupByName, true)]
        + [BamToFastq(n.dedupByName, n.interleaved)]
        + [DeinterleaveFastq(scriptDir, n.interleaved, n.preFinal1, n.preFinal2)];
      Rendered(Plan(cfg, n, needIndex), scriptDir) ==
      if cfg.disableHeaderCorrection then body + [Copy(n.preFinal1, n.final1)] + [Copy(n.preFinal2, n.final2)]
      else body + [TrimHeader(scriptDir, n.preFinal1, n.final1)] + [TrimHeader(scriptDir, n.preFinal2, n.final2)]
  {
    var gene := GeneName(cfg.fasta);
    var none: seq<Step> := [];
    var p := if needIndex then none + [BuildIndex(cfg.fasta, gene)] else none;
    RenderedSnoc(none, BuildIndex(cfg.fasta, gene), scriptDir);
    RenderedSnoc(p, Extract(cfg.umiLen, cfg.r1, cfg.r2, n.read1Umi, n.read2Umi), scriptDir);
    p := p + [Extract(cfg.umiLen, cfg.r1, cfg.r2, n.read1Umi, n.read2Umi)];
    RenderedSnoc(p, Align(gene, cfg.threads, n.read1Umi, n.read2Umi, n.bowtieSam), scriptDir);
    p := p + [Align(gene, cfg.threads, n.read1Umi, n.read2Umi, n.bowtieSam)];
    RenderedSnoc(p, ToBam(n.bowtieSam, n.bowtieBam), scriptDir);
    p := p + [ToBam(n.bowtieSam, n.bowtieBam)];
    RenderedSnoc(p, Sort(n.bowtieBam, n.sortedBam, false), scriptDir);
    p := p + [Sort(n.bowtieBam, n.sortedBam, false)];
    RenderedSnoc(p, IndexSorted(n.sortedBam), scriptDir);
    p := p + [IndexSorted(n.sortedBam)];
    RenderedSnoc(p, Collapse(n.sortedBam, n.dedup), scriptDir);
    p := p + [Collapse(n.sortedBam, n.dedup)];
    RenderedSnoc(p, Sort(n.dedup, n.dedupByName, true), scriptDir);
    p := p + [Sort(n.dedup, n.dedupByName, true)];
    RenderedSnoc(p, ToFastq(n.dedupByName, n.interleaved), scriptDir);
    p := p + [ToFastq(n.dedupByName, n.interleaved)];
    RenderedSnoc(p, Deinterleave(n.interleaved, n.preFinal1, n.preFinal2), scriptDir);
    p := p + [Deinterleave(n.interleaved, n.preFinal1, n.preFinal2)];
    if cfg.disableHeaderCorrection {
      RenderedSnoc(p, CopyFile(n.preFinal1, n.final1), scriptDir);
      RenderedSnoc(p + [CopyFile(n.preFinal1, n.final1)], CopyFile(n.preFinal2, n.final2), scriptDir);
    } else {
      RenderedSnoc(p, TrimHeaders(n.preFinal1, n.final1), scriptDir);
      RenderedSnoc(p + [TrimHeaders(n.preFinal1, n.final1)], TrimHeaders(n.preFinal2, n.final2), scriptDir);
    }
  }

  /** The commands of a run whose checks passed. */
  function RunCommandsOf(cfg: Config, scriptDir: string, needIndex: bool): seq<string>
  {
    Rendered(Plan(cfg, NamesOf(cfg), needIndex), scriptDir)
  }

  /** The driver's list of commands, grown one command at a time. */
  method AssembleCommands(cfg: Config, scriptDir: string, needIndex: bool) returns (cmds: seq<string>)
    ensures cmds == RunCommandsOf(cfg, scriptDir, needIndex)
  {
    var n := NamesOf(cfg);
    var gene := GeneName(cfg.fasta);
    cmds := [];
    if needIndex {
      cmds := cmds + [BuildFastaIndex(cfg.fasta, gene)];
    }
    cmds := cmds + [ExtractUmis(cfg.umiLen, cfg.r1, cfg.r2, n.read1Umi, n.read2Umi)];
    cmds := cmds + [AlignReads(gene, cfg.threads, n.read1Umi, n.read2Umi, n.bowtieSam)];
    cmds := cmds + [SamToBam(n.bowtieSam, n.bowtieBam)];
    cmds := cmds + [SortBam(n.bowtieBam, n.sortedBam, false)];
    cmds := cmds + [IndexBam(n.sortedBam)];
    cmds := cmds + [CollapseUmi(n.sortedBam, n.dedup)];
    cmds := cmds + [SortBam(n.dedup, n.dedupByName, true)];
    cmds := cmds + [BamToFastq(n.dedupByName, n.interleaved)];
    cmds := cmds + [DeinterleaveFastq(scriptDir, n.interleaved, n.preFinal1, n.preFinal2)];
    if cfg.disableHeaderCorrection {
      cmds := cmds + [Copy(n.preFinal1, n.final1)];
      cmds := cmds + [Copy(n.preFinal2, n.final2)];
    } else {
      cmds := cmds + [TrimHeader(scriptDir, n.preFinal1, n.final1)];
      cmds := cmds + [TrimHeader(scriptDir, n.preFinal2, n.final2)];
    }
    RenderedPlan(cfg, n, scriptDir, needIndex);
  }

  /** The files written by the steps, in order, under the names the driver
      chose. */
  function Written(steps: seq<Step>): seq<string>
    decreases |steps|
  {
    if steps == [] then [] else Written(steps[..|steps| - 1]) + Outputs(steps[|steps| - 1])
  }

  /** Each of `files` is an input of the run or was written before. */
  predicate Available(files: seq<string>, sources: seq<string>, written: seq<string>)
  {
    forall k :: 0 <= k < |files| ==> files[k] in sources || files[k] in written
  }

  /** Every step reads only files that are inputs of the run (`sources`)
      or were written by an earlier step. */
  predicate WellFed(steps: seq<Step>, sources: seq<string>)
    decreases |steps|
  {
    steps == [] ||
    (WellFed(steps[..|steps| - 1], sources) && Available(Inputs(steps[|steps| - 1]), sources, Written(steps[..|steps| - 1])))
  }

  /** One more step: it is fed when its inputs are available, and it adds
      its outputs to what has been written. */
  lemma WellFedSnoc(steps: seq<Step>, s: Step, sources: seq<string>)
    ensures Written(steps + [s]) == Written(steps) + Outputs(s)
    ensures WellFed(steps + [s], sources) <==> WellFed(steps, sources) && Available(Inputs(s), sources, Written(steps))
  {
    assert (steps + [s])[..|steps|] == steps;
  }

  /** The files the early steps write, in order. */
  function EarlyOutputs(n: Names): seq<string>
  {
    [n.read1Umi, n.read2Umi, n.bowtieSam, n.bowtieBam, n.sortedBam]
  }

  /** The files the main steps write, in order. */
  function MainOutputs(n: Names): seq<string>
  {
    EarlyOutputs(n) + [n.dedup] + [n.dedupByName] + [n.interleaved] + [n.preFinal1, n.preFinal2]
  }

  /** The files a run writes, in the order the steps write them. */
  function OutputNames(n: Names): seq<string>
  {
    MainOutputs(n) + [n.final1] + [n.final2]
  }

  /** One more step fed from what is available; `before` and `after` name
      what has been written before and after it. */
  lemma Feed(steps: seq<Step>, s: Step, sources: seq<string>, before: seq<string>, after: seq<string>)
    requires WellFed(steps, sources) && Written(steps) == before
    requires Available(Inputs(s), sources, before) && after == before + Outputs(s)
    ensures WellFed(steps + [s], sources) && Written(steps + [s]) == after
  {
    WellFedSnoc(steps, s, sources);
  }

  /** The steps after the optional indexing step `p0`, which writes
      nothing under a name the driver chose. */
  lemma EarlyFrom(cfg: Config, n: Names, p0: seq<Step>)
    requires WellFed(p0, InputFiles(cfg)) && Written(p0) == []
    ensures var gene := GeneName(cfg.fasta);
      var p := p0 + [Extract(cfg.umiLen, cfg.r1, cfg.r2, n.read1Umi, n.read2Umi)]
        + [Align(gene, cfg.threads, n.read1Umi, n.read2Umi, n.bowtieSam)]
        + [ToBam(n.bowtieSam, n.bowtieBam)]
        + [Sort(n.bowtieBam, n.sortedBam, false)];
      WellFed(p, InputFiles(cfg)) && Written(p) == EarlyOutputs(n)
  {
    var gene := GeneName(cfg.fasta);
    var src := InputFiles(cfg);
    var none: seq<string> := [];
    var w1 := none + [n.read1Umi, n.read2Umi];
    var w2 := w1 + [n.bowtieSam];
    var w3 := w2 + [n.bowtieBam];
    var w4 := w3 + [n.sortedBam];
    var p1 := p0 + [Extract(cfg.umiLen, cfg.r1, cfg.r2, n.read1Umi, n.read2Umi)];
    var p2 := p1 + [Align(gene, cfg.threads, n.read1Umi, n.read2Umi, n.bowtieSam)];
    var p3 := p2 + [ToBam(n.bowtieSam, n.bowtieBam)];
    Feed(p0, Extract(cfg.umiLen, cfg.r1, cfg.r2, n.read1Umi, n.read2Umi), src, none, w1);
    Feed(p1, Align(gene, cfg.threads, n.read1Umi, n.read2Umi, n.bowtieSam), src, w1, w2);
    Feed(p2, ToBam(n.bowtieSam, n.bowtieBam), src, w2, w3);
    Feed(p3, Sort(n.bowtieBam, n.sortedBam, false), src, w3, w4);
    assert w4 == EarlyOutputs(n);
  }

  /** The early steps read the run's inputs and each other's outputs. */
  lemma EarlyDataflow(cfg: Config, n: Names, needIndex: bool)
    ensures WellFed(EarlySteps(cfg, n, needIndex), InputFiles(cfg))
    ensures Written(EarlySteps(cfg, n, needIndex)) == EarlyOutputs(n)
  {
    var none: seq<Step> := [];
    var index := BuildIndex(cfg.fasta, GeneName(cfg.fasta));
    if needIndex {
      Feed(none, index, InputFiles(cfg), [], []);
      EarlyFrom(cfg, n, none + [index]);
    } else {
      EarlyFrom(cfg, n, none);
    }
  }

  /** So do the main steps. */
  lemma MainDataflow(cfg: Config, n: Names, needIndex: bool)
    ensures WellFed(MainSteps(cfg, n, needIndex), InputFiles(cfg))
    ensures Written(MainSteps(cfg, n, needIndex)) == MainOutputs(n)
  {
    var src := InputFiles(cfg);
    var w0 := EarlyOutputs(n);
    var w1 := w0 + [n.dedup];
    var w2 := w1 + [n.dedupByName];
    var w3 := w2 + [n.interleaved];
    var w4 := w3 + [n.preFinal1, n.preFinal2];
    var p0 := EarlySteps(cfg, n, needIndex);
    var p1 := p0 + [IndexSorted(n.sortedBam)];
    var p2 := p1 + [Collapse(n.sortedBam, n.dedup)];
    var p3 := p2 + [Sort(n.dedup, n.dedupByName, true)];
    var p4 := p3 + [ToFastq(n.dedupByName, n.interleaved)];
    EarlyDataflow(cfg, n, needIndex);
    assert w0[4] == n.sortedBam;
    Feed(p0, IndexSorted(n.sortedBam), src, w0, w0);
    Feed(p1, Collapse(n.sortedBam, n.dedup), src, w0, w1);
    Feed(p2, Sort(n.dedup, n.dedupByName, true), src, w1, w2);
    Feed(p3, ToFastq(n.dedupByName, n.interleaved), src, w2, w3);
    Feed(p4, Deinterleave(n.interleaved, n.preFinal1, n.preFinal2), src, w3, w4);
  }

  /** Two more steps, each fed from what is available before it. */
  lemma FeedTwo(steps: seq<Step>, a: Step, b: Step, sources: seq<string>, w: seq<string>, outA: seq<string>, outB: seq<string>)
    requires WellFed(steps, sources) && Written(steps) == w
    requires Outputs(a) == outA && Outputs(b) == outB
    requires Available(Inputs(a), sources, w) && Available(Inputs(b), sources, w + outA)
    ensures WellFed(steps + [a] + [b], sources) && Written(steps + [a] + [b]) == w + outA + outB
  {
    var s1 := steps + [a];
    var w1 := w + outA;
    Feed(steps, a, sources, w, w1);
    Feed(s1, b, sources, w1, w1 + outB);
  }

  /** A run's dataflow is closed: every step reads the two read files, the
      reference, or a file an earlier step wrote. The steps write the
      intermediate files and then the two final outputs. */
  lemma PlanDataflow(cfg: Config, n: Names, needIndex: bool)
    ensures WellFed(Plan(cfg, n, needIndex), InputFiles(cfg))
    ensures Written(Plan(cfg, n, needIndex)) == OutputNames(n)
  {
    var src := InputFiles(cfg);
    var p := MainSteps(cfg, n, needIndex);
    var w := MainOutputs(n);
    MainDataflow(cfg, n, needIndex);
    assert w[8] == n.preFinal1 && w[9] == n.preFinal2;
    if cfg.disableHeaderCorrection {
      FeedTwo(p, CopyFile(n.preFinal1, n.final1), CopyFile(n.preFinal2, n.final2), src, w, [n.final1], [n.final2]);
    } else {
      FeedTwo(p, TrimHeaders(n.preFinal1, n.final1), TrimHeaders(n.preFinal2, n.final2), src, w, [n.final1], [n.final2]);
    }
  }

  /** Every file the driver names, except the two final outputs, is inside
      the temporary directory. */
  lemma IntermediatesInTemp(cfg: Config)
    ensures var names := MainOutputs(NamesOf(cfg));
      forall k :: 0 <= k < |names| ==> StartsWith(names[k], cfg.temp + "/")
  {
    var dir := cfg.temp + "/";
    var prefix := dir + cfg.outputPrefix;
    var suffixes := ["_umi_R1.fastq", "_umi_R2.fastq", ".sam", ".bam", "sortedsample.bam", "sortedsamplededup.bam",
      "sortedsamplebynamededup.bam", "_dedup.fastq", "_nonstripped_R1.fastq", "_nonstripped_R2.fastq"];
    var names := MainOutputs(NamesOf(cfg));
    assert |names| == |suffixes| && forall k :: 0 <= k < |names| ==> names[k] == prefix + suffixes[k];
    forall k | 0 <= k < |names|
      ensures StartsWith(names[k], dir)
    {
      assert (prefix + suffixes[k])[..|dir|] == dir;
    }
  }

  /** Indexing adds exactly one step, in front of the eleven others. */
  lemma IndexStepFirst(cfg: Config, n: Names)
    ensures |Plan(cfg, n, false)| == 11
    ensures Plan(cfg, n, true) == [BuildIndex(cfg.fasta, GeneName(cfg.fasta))] + Plan(cfg, n, false)
  {
    var none: seq<Step> := [];
    var b := BuildIndex(cfg.fasta, GeneName(cfg.fasta));
    assert EarlySteps(cfg, n, true) == [b] + EarlySteps(cfg, n, false);
    assert MainSteps(cfg, n, true) == [b] + MainSteps(cfg, n, false);
  }

  /** Disabling header correction swaps the two header-stripping steps for
      plain copies between the same files and changes nothing else. */
  lemma HeaderCorrectionToggle(cfg: Config, n: Names, needIndex: bool)
    ensures var on := Plan(cfg.(disableHeaderCorrection := false), n, needIndex);
      var off := Plan(cfg.(disableHeaderCorrection := true), n, needIndex);
      && |on| == |off| >= 2
      && on[..|on| - 2] == off[..|off| - 2]
      && on[|on| - 2..] == [TrimHeaders(n.preFinal1, n.final1), TrimHeaders(n.preFinal2, n.final2)]
      && off[|off| - 2..] == [CopyFile(n.preFinal1, n.final1), CopyFile(n.preFinal2, n.final2)]
  {
    var body := MainSteps(cfg, n, needIndex);
    assert MainSteps(cfg.(disableHeaderCorrection := false), n, needIndex) == body;
    assert MainSteps(cfg.(disableHeaderCorrection := true), n, needIndex) == body;
    var on := body + [TrimHeaders(n.preFinal1, n.final1)] + [TrimHeaders(n.preFinal2, n.final2)];
    var off := body + [CopyFile(n.preFinal1, n.final1)] + [CopyFile(n.preFinal2, n.final2)];
    assert on[..|on| - 2] == body;
    assert off[..|off| - 2] == body;
  }

  // The reference's index name.

  /** The index name is the text before the first `.` of the reference
      path, so it holds no `.` and the path continues with a `.` after it
      unless the path has none. */
  lemma GeneNamePrefix(fasta: string)
    ensures var gene := GeneName(fasta);
      && gene <= fasta && '.' !in gene
      && (gene == fasta <==> '.' !in fasta)
      && (gene != fasta ==> fasta[|gene|] == '.')
  {
    SplitFirst(fasta, '.');
  }

  /** A reference given relative to `./` (or `../`) has an empty index
      name: the path's first `.` is its first character. */
  lemma GeneNameDotPath(rest: string)
    ensures GeneName("." + rest) == ""
  {
    SplitCons('.', rest, '.');
  }

  // Looking for an existing bowtie2 index next to the reference.

  /** A file belongs to the index named `stem` when its name starts with the
      stem and ends with `bt2`. */
  predicate FileIsIndex(f: string, stem: string)
  {
    StartsWith(f, stem) && EndsWith(f, "bt2")
  }

  /** Any name made of the stem, anything at all, and `bt2` counts as an
      index file, so the index of another reference whose name starts with
      the same stem (`ref2.1.bt2` for `ref`) is taken for this one. */
  lemma FileIsIndexAnyMiddle(stem: string, middle: string)
    ensures FileIsIndex(stem + middle + "bt2", stem)
  {
    var f := stem + middle + "bt2";
    assert f[..|stem|] == stem;
    assert f[|f| - 3..] == "bt2";
  }

  /** Some file of a directory listing belongs to the index. */
  predicate HasIndexFile(files: seq<string>, stem: string)
  {
    exists k :: 0 <= k < |files| && FileIsIndex(files[k], stem)
  }

  /** The directory to list and the index name within it: the path up to
      its last `/` and the rest, or the working directory and the whole
      name when the name has no `/`. */
  function IndexLocation(gene: string): (string, string)
  {
    var parts := Split(gene, '/');
    if |parts| > 1 then (Join(parts[..|parts| - 1], '/'), parts[|parts| - 1]) else (".", parts[0])
  }

  /** The directory and the name inside it make up the index name again. */
  lemma IndexLocationParts(gene: string)
    ensures var (dir, stem) := IndexLocation(gene);
      && '/' !in stem
      && ('/' in gene ==> dir + "/" + stem == gene)
      && ('/' !in gene ==> dir == "." && stem == gene)
  {
    var parts := Split(gene, '/');
    SplitSingle(gene, '/');
    SplitLast(gene, '/');
    if |parts| > 1 {
      var init := parts[..|parts| - 1];
      var last := [parts[|parts| - 1]];
      assert parts == init + last;
      JoinAppend(init, last, '/');
      JoinSplit(gene, '/');
    } else {
      SplitWithoutSeparator(gene, '/');
    }
  }

  /** What `os.listdir` raises for a directory that is not in the listing. */
  function NoSuchDirectory(dir: string): Raised
  {
    Raised(FileNotFoundError, "[Errno 2] No such file or directory: '" + dir + "'")
  }

  /** What `os.listdir` raises when it is handed a list of path pieces. */
  const ListdirTypeMessage: string := "listdir: path should be string, bytes, os.PathLike, integer or None, not list"

  /** Whether an index for `gene` is present, with the directory part of a
      name in a subdirectory joined back into a path before it is listed. */
  function LookupIndex(gene: string, fs: FileSystem): Result<bool, Raised>
  {
    var (dir, stem) := IndexLocation(gene);
    if dir !in fs.listing then Err(NoSuchDirectory(dir)) else Ok(HasIndexFile(fs.listing[dir], stem))
  }

  /** The lookup as the driver writes it: for a name in a subdirectory it
      hands the list of directory pieces itself to `os.listdir`, which
      raises a `TypeError` before anything is listed. */
  function LookupIndexAsWritten(gene: string, fs: FileSystem): Result<bool, Raised>
  {
    if |Split(gene, '/')| > 1 then Err(Raised(TypeError, ListdirTypeMessage)) else LookupIndex(gene, fs)
  }

  /** The lookup scans the directory and stops at the first index file. */
  method FastaIndexPresent(gene: string, fs: FileSystem) returns (r: Result<bool, Raised>)
    ensures r == LookupIndex(gene, fs)
  {
    var (dir, stem) := IndexLocation(gene);
    if dir !in fs.listing {
      return Err(NoSuchDirectory(dir));
    }
    var files := fs.listing[dir];
    var i := 0;
    while i < |files|
      invariant 0 <= i <= |files|
      invariant forall j :: 0 <= j < i ==> !FileIsIndex(files[j], stem)
    {
      if FileIsIndex(files[i], stem) {
        return Ok(true);
      }
      i := i + 1;
    }
    return Ok(false);
  }

  /** The lookup as the driver runs it: the name is split at `/` first, and
      a name in a subdirectory never reaches the scan. */
  method FastaIndexPresentAsWritten(gene: string, fs: FileSystem) returns (r: Result<bool, Raised>)
    ensures r == LookupIndexAsWritten(gene, fs)
  {
    var parts := Split(gene, '/');
    if |parts| > 1 {
      return Err(Raised(TypeError, ListdirTypeMessage));
    }
    r := FastaIndexPresent(gene, fs);
  }

  /** An index is reported present exactly when the directory holding the
      reference's index lists a file that, taken as a path in that
      directory, starts with the index name and ends with `bt2`; a missing
      directory is an error. */
  lemma LookupIndexFinds(gene: string, fs: FileSystem)
    ensures var (dir, stem) := IndexLocation(gene);
      && (LookupIndex(gene, fs).Err? <==> dir !in fs.listing)
      && (LookupIndex(gene, fs) == Ok(true) <==>
          dir in fs.listing &&
          exists k :: 0 <= k < |fs.listing[dir]| && EndsWith(fs.listing[dir][k], "bt2") &&
            StartsWith(if '/' in gene then dir + "/" + fs.listing[dir][k] else fs.listing[dir][k], gene))
  {
    var (dir, stem) := IndexLocation(gene);
    IndexLocationParts(gene);
    if '/' in gene && dir in fs.listing {
      forall f: string
        ensures StartsWith(dir + "/" + f, gene) <==> StartsWith(f, stem)
      {
        PrefixUnderDirectory(dir + "/", stem, f);
      }
    }
  }

  /** Under a common directory part, one path starts with another exactly
      when the names inside the directory do. */
  lemma PrefixUnderDirectory(d: string, stem: string, f: string)
    ensures StartsWith(d + f, d + stem) <==> StartsWith(f, stem)
  {
    if StartsWith(d + f, d + stem) {
      forall i | 0 <= i < |stem|
        ensures stem[i] == f[i]
      {
        assert (d + stem)[|d| + i] == (d + f)[|d| + i];
      }
    }
  }

  /** Both lookups agree on a name in the working directory; for a name in a
      subdirectory the lookup as written always fails with a `TypeError`. */
  lemma LookupIndexAsWrittenDiffers(gene: string, fs: FileSystem)
    ensures '/' !in gene ==> LookupIndexAsWritten(gene, fs) == LookupIndex(gene, fs)
    ensures '/' in gene ==> LookupIndexAsWritten(gene, fs) == Err(Raised(TypeError, ListdirTypeMessage))
  {
    SplitSingle(gene, '/');
  }

  /** A reference indexed in place in a subdirectory `dir`: the lookup as
      written raises whatever the directory holds, the corrected one lists
      the directory and looks for the index there. */
  lemma SubdirectoryLookup(dir: string, stem: string, fs: FileSystem)
    requires '/' !in dir && '/' !in stem
    ensures LookupIndexAsWritten(dir + "/" + stem, fs) == Err(Raised(TypeError, ListdirTypeMessage))
    ensures dir in fs.listing ==> LookupIndex(dir + "/" + stem, fs) == Ok(HasIndexFile(fs.listing[dir], stem))
    ensures dir !in fs.listing ==> LookupIndex(dir + "/" + stem, fs) == Err(NoSuchDirectory(dir))
  {
    SplitPair(dir, stem, '/');
    assert [dir, stem][..1] == [dir];
  }


  // The driver's checks before it builds the command list.

  /** `files[k]` is the first of `files` that does not exist. */
  predicate FirstMissingAt(files: seq<string>, existing: set<string>, k: nat)
    requires k < |files|
  {
    files[k] !in existing && forall j :: 0 <= j < k ==> files[j] in existing
  }

  /** The first of `files` that does not exist, if any. */
  function MissingInput(files: seq<string>, existing: set<string>): (r: Option<string>)
    ensures r.None? <==> forall k :: 0 <= k < |files| ==> files[k] in existing
    ensures r.Some? ==> exists k :: 0 <= k < |files| && files[k] == r.value && FirstMissingAt(files, existing, k)
    decreases |files|
  {
    if files == [] then None
    else if files[0] !in existing then Some(files[0])
    else
      var r := MissingInput(files[1..], existing);
      if r.Some? then
        var k :| 0 <= k < |files| - 1 && files[1..][k] == r.value && FirstMissingAt(files[1..], existing, k);
        assert files[k + 1] == r.value && FirstMissingAt(files, existing, k + 1);
        r
      else r
  }

  /** `MissingInput` reports the first missing file. */
  lemma MissingInputFirst(files: seq<string>, existing: set<string>, i: nat)
    requires i < |files| && FirstMissingAt(files, existing, i)
    ensures MissingInput(files, existing) == Some(files[i])
  {
    var k :| 0 <= k < |files| && files[k] == MissingInput(files, existing).value && FirstMissingAt(files, existing, k);
    assert FirstMissingAt(files, existing, k);
  }

  function MissingMessage(fl: string): string
  {
    "File: " + fl + " not found."
  }

  function TempExistsMessage(temp: string): string
  {
    "Filename: " + temp + " already exists. Please either delete this file or submit a different temp file name via --temp."
  }

  const IndexPresentMessage: string := "Fasta index already present, skipping indexing."
  const CompletedMessage: string :=
    "Pipeline completed. Deleting temp folder. Use --keep_temp argument to preserve temp folder."

  /** The checks on paths: the inputs exist and nothing is in the place of
      the temporary directory, which is created when they pass. */
  function PathError(cfg: Config, fs: FileSystem): Option<Raised>
  {
    var missing := MissingInput(InputFiles(cfg), fs.existing);
    if missing.Some? then Some(Raised(ValueError, MissingMessage(missing.value)))
    else if cfg.temp in fs.existing then Some(Raised(FileExistsError, TempExistsMessage(cfg.temp)))
    else None
  }

  /** The temporary directory is created once the path checks pass. */
  predicate TempCreated(cfg: Config, fs: FileSystem)
  {
    PathError(cfg, fs).None?
  }

  /** The checks before the command list is built: the path checks, then,
      when indexing was asked for, the index lookup as the driver writes it.
      The result says whether the index is to be built. */
  function Preflight(cfg: Config, fs: FileSystem): Result<bool, Raised>
  {
    match PathError(cfg, fs)
    case Some(e) => Err(e)
    case None =>
      if !cfg.indexFasta then Ok(false)
      else
        match LookupIndexAsWritten(GeneName(cfg.fasta), fs)
        case Err(e) => Err(e)
        case Ok(present) => Ok(!present)
  }

  /** The path checks fail exactly when an input is missing or something
      is in the place of the temporary directory, and a missing input is
      reported even then. */
  lemma PathChecks(cfg: Config, fs: FileSystem)
    ensures PathError(cfg, fs).Some? <==>
      (exists k :: 0 <= k < 3 && InputFiles(cfg)[k] !in fs.existing) || cfg.temp in fs.existing
    ensures (exists k :: 0 <= k < 3 && InputFiles(cfg)[k] !in fs.existing) ==>
      PathError(cfg, fs).Some? && PathError(cfg, fs).value.kind == ValueError
  {
  }

  /** The checks fail in order: the path checks come first and nothing is
      created when they fail; once the directory is created, only the
      index lookup can fail. */
  lemma PreflightOrder(cfg: Config, fs: FileSystem)
    ensures !TempCreated(cfg, fs) ==> Preflight(cfg, fs) == Err(PathError(cfg, fs).value)
    ensures TempCreated(cfg, fs) ==>
      (Preflight(cfg, fs).Err? <==> cfg.indexFasta && LookupIndexAsWritten(GeneName(cfg.fasta), fs).Err?)
  {
  }

  /** The index is built exactly when indexing was asked for and the lookup
      found none, which never happens for a reference in a subdirectory;
      without indexing, the directory listings do not matter. */
  lemma IndexOnlyWhenAsked(cfg: Config, fs: FileSystem, other: FileSystem)
    ensures Preflight(cfg, fs) == Ok(true) <==>
      TempCreated(cfg, fs) && cfg.indexFasta && LookupIndexAsWritten(GeneName(cfg.fasta), fs) == Ok(false)
    ensures '/' in GeneName(cfg.fasta) ==> Preflight(cfg, fs) != Ok(true)
    ensures !cfg.indexFasta && other.existing == fs.existing ==> Preflight(cfg, fs) == Preflight(cfg, other)
  {
    LookupIndexAsWrittenDiffers(GeneName(cfg.fasta), fs);
  }

  /** A run has twelve commands when the index is built and eleven
      otherwise. */
  lemma CommandCount(cfg: Config, scriptDir: string, needIndex: bool)
    ensures |RunCommandsOf(cfg, scriptDir, needIndex)| == if needIndex then 12 else 11
  {
    IndexStepFirst(cfg, NamesOf(cfg));
  }

  /** The inputs are checked one by one; the first missing one is
      reported. */
  method FindMissing(files: seq<string>, existing: set<string>) returns (missing: Option<string>)
    ensures missing == MissingInput(files, existing)
  {
    var i := 0;
    while i < |files|
      invariant 0 <= i <= |files|
      invariant forall j :: 0 <= j < i ==> files[j] in existing
    {
      if files[i] !in existing {
        MissingInputFirst(files, existing, i);
        return Some(files[i]);
      }
      i := i + 1;
    }
    return None;
  }

  /** The driver's checks on paths: each input must exist, and the
      temporary directory is created unless something is in its place. */
  method CheckPaths(cfg: Config, fs: FileSystem) returns (e: Option<Raised>)
    ensures e == PathError(cfg, fs)
  {
    var missing := FindMissing(InputFiles(cfg), fs.existing);
    if missing.Some? {
      return Some(Raised(ValueError, MissingMessage(missing.value)));
    }
    if cfg.temp in fs.existing {
      return Some(Raised(FileExistsError, TempExistsMessage(cfg.temp)));
    }
    return None;
  }

  /** Then the index lookup, when indexing was asked for. */
  method Check(cfg: Config, fs: FileSystem) returns (r: Result<bool, Raised>, created: bool)
    ensures r == Preflight(cfg, fs) && created == TempCreated(cfg, fs)
  {
    var e := CheckPaths(cfg, fs);
    if e.Some? {
      return Err(e.value), false;
    }
    created := true;
    if !cfg.indexFasta {
      return Ok(false), created;
    }
    var present := FastaIndexPresentAsWritten(GeneName(cfg.fasta), fs);
    if present.Err? {
      return Err(present.error), created;
    }
    return Ok(!present.value), created;
  }

  /** The commands of a run whose checks passed are assembled and run; a
      clean run ends with the notice that the temporary directory is
      removed, unless it is kept. */
  method RunChecked(cfg: Config, scriptDir: string, needIndex: bool, outcomes: seq<Outcome>)
    returns (log: seq<string>, error: Option<Raised>)
    requires |outcomes| >= 12
    ensures var cmds := RunCommandsOf(cfg, scriptDir, needIndex);
      && |cmds| <= |outcomes|
      && error == RunError(outcomes, |cmds|)
      && log == Transcript(cmds, outcomes) + (if error.Some? || cfg.keepTemp then [] else [CompletedMessage])
  {
    var cmds := AssembleCommands(cfg, scriptDir, needIndex);
    CommandCount(cfg, scriptDir, needIndex);
    log, error := RunCommands(cmds, outcomes);
    if error.None? && !cfg.keepTemp {
      log := log + [CompletedMessage];
    }
  }

  /** What the driver prints (without timestamps), the error it raises and
      whether the temporary directory is left behind, on a file system
      snapshot `fs` and with `outcomes[i]` the outcome of its `i`-th
      command. */
  function Driver(cfg: Config, fs: FileSystem, scriptDir: string, outcomes: seq<Outcome>): (seq<string>, Option<Raised>, bool)
    requires |outcomes| >= 12
  {
    match Preflight(cfg, fs)
    case Err(e) => ([], Some(e), TempCreated(cfg, fs))
    case Ok(needIndex) =>
      var cmds := RunCommandsOf(cfg, scriptDir, needIndex);
      CommandCount(cfg, scriptDir, needIndex);
      var notice := if cfg.indexFasta && !needIndex then [IndexPresentMessage] else [];
      var error := RunError(outcomes, |cmds|);
      var finish := if error.Some? || cfg.keepTemp then [] else [CompletedMessage];
      (notice + (Transcript(cmds, outcomes) + finish), error, TempCreated(cfg, fs) && (error.Some? || cfg.keepTemp))
  }

  /** The driver: the checks, then the commands. */
  method RunPipeline(cfg: Config, fs: FileSystem, scriptDir: string, outcomes: seq<Outcome>)
    returns (log: seq<string>, error: Option<Raised>, tempLeft: bool)
    requires |outcomes| >= 12
    ensures (log, error, tempLeft) == Driver(cfg, fs, scriptDir, outcomes)
  {
    var pre, created := Check(cfg, fs);
    if pre.Err? {
      return [], Some(pre.error), created;
    }
    var needIndex := pre.value;
    var notice: seq<string> := [];
    if cfg.indexFasta && !needIndex {
      notice := [IndexPresentMessage];
    }
    var runLog;
    runLog, error := RunChecked(cfg, scriptDir, needIndex, outcomes);
    log := notice + runLog;
    tempLeft := created && (error.Some? || cfg.keepTemp);
  }

  /** A failed check runs nothing: the driver prints nothing, raises the
      check's error, and leaves the temporary directory behind only when
      the failure came after it was created. */
  lemma DriverStopsAtCheck(cfg: Config, fs: FileSystem, scriptDir: string, outcomes: seq<Outcome>)
    requires |outcomes| >= 12 && Preflight(cfg, fs).Err?
    ensures var (log, error, tempLeft) := Driver(cfg, fs, scriptDir, outcomes);
      && log == [] && error == Some(Preflight(cfg, fs).error)
      && (tempLeft <==> cfg.indexFasta && PathError(cfg, fs).None?)
  {
    PreflightOrder(cfg, fs);
  }

  /** A reference in a subdirectory with indexing asked for: the temporary
      directory is created, the index lookup raises `TypeError`, nothing is
      run or printed, and the directory is left behind. */
  lemma DriverSubdirectoryReference(cfg: Config, fs: FileSystem, scriptDir: string, outcomes: seq<Outcome>)
    requires |outcomes| >= 12
    requires cfg.indexFasta && '/' in GeneName(cfg.fasta) && PathError(cfg, fs).None?
    ensures Driver(cfg, fs, scriptDir, outcomes) == ([], Some(Raised(TypeError, ListdirTypeMessage)), true)
  {
    LookupIndexAsWrittenDiffers(GeneName(cfg.fasta), fs);
  }

  /** When every command succeeds, the driver raises nothing, prints three
      entries per command, and removes the temporary directory, announcing
      it last, unless asked to keep it. */
  lemma DriverCleanRun(cfg: Config, fs: FileSystem, scriptDir: string, outcomes: seq<Outcome>)
    requires |outcomes| >= 12 && Preflight(cfg, fs).Ok?
    requires var cmds := RunCommandsOf(cfg, scriptDir, Preflight(cfg, fs).value);
      forall j :: 0 <= j < |cmds| && j < |outcomes| ==> Succeeded(outcomes[j])
    ensures var (log, error, tempLeft) := Driver(cfg, fs, scriptDir, outcomes);
      var cmds := RunCommandsOf(cfg, scriptDir, Preflight(cfg, fs).value);
      && error == None
      && (tempLeft <==> cfg.keepTemp)
      && |log| == (if cfg.indexFasta && !Preflight(cfg, fs).value then 1 else 0) + 3 * |cmds| + (if cfg.keepTemp then 0 else 1)
      && (!cfg.keepTemp ==> log[|log| - 1] == CompletedMessage)
  {
    var needIndex := Preflight(cfg, fs).value;
    var cmds := RunCommandsOf(cfg, scriptDir, needIndex);
    CommandCount(cfg, scriptDir, needIndex);
    CleanRun(cmds, outcomes);
    PreflightOrder(cfg, fs);
  }

  /** When command `k` is the first to fail, the driver raises the error
      for that failure, its log ends with the announcement of command `k`,
      and the temporary directory is left behind. */
  lemma DriverFailedRun(cfg: Config, fs: FileSystem, scriptDir: string, outcomes: seq<Outcome>, k: nat)
    requires |outcomes| >= 12 && Preflight(cfg, fs).Ok?
    requires k < |RunCommandsOf(cfg, scriptDir, Preflight(cfg, fs).value)| && k < |outcomes|
    requires forall j :: 0 <= j < k ==> Succeeded(outcomes[j])
    requires !Succeeded(outcomes[k])
    ensures var (log, error, tempLeft) := Driver(cfg, fs, scriptDir, outcomes);
      var cmds := RunCommandsOf(cfg, scriptDir, Preflight(cfg, fs).value);
      && error == Some(HandleException(FailureOf(outcomes[k])))
      && tempLeft
      && log != [] && log[|log| - 1] == "Running " + cmds[k]
  {
    var needIndex := Preflight(cfg, fs).value;
    var cmds := RunCommandsOf(cfg, scriptDir, needIndex);
    CommandCount(cfg, scriptDir, needIndex);
    RunStopsAtFailure(cmds, outcomes, k);
    PreflightOrder(cfg, fs);
  }
}
