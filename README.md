# UMI deduplication pipeline — a Dafny model

This project models the logic of a paired-end UMI deduplication pipeline.
The pipeline has four parts:

- **`deinterleaver.py`** reads an interleaved FASTQ stream four lines at a
  time. It writes each complete record to the first mate file when the last
  character of its stripped header is `1`, and to the second otherwise.
- **`strip_fastq_headers.py`** copies a FASTQ stream four lines at a time.
  Before writing a record, it deletes every `/2` and then every `/1` from the
  header line.
- **`extracted_barcode_counter.py`** scans the header lines (every fourth
  line, starting with the first). It collects the distinct UMIs, each being
  the text after the last `_`. It reports how many UMIs it found and how
  many reads the file holds.
- **`dedup.py`** is the driver. It:
  - checks its inputs and creates a temporary directory;
  - optionally looks for an existing bowtie2 index of the reference;
  - names the intermediate files;
  - builds the shell commands (UMI extraction, alignment, BAM conversion,
    sorting, UMI collapsing, conversion back to FASTQ, deinterleaving, and
    header stripping or copying);
  - runs the commands in order, stopping at the first failure, and turns a
    failure into an exception;
  - removes the temporary directory unless asked to keep it.

The model has one module per concern:

| module | what it models |
|---|---|
| `Util` | option and result types |
| `Strings` | the Python string operations the scripts rely on: `strip`, `replace`, `split`, `join`, `*`, `str` of an int |
| `Fastq` | four-line records |
| `Deinterleaver`, `HeaderStrip`, `BarcodeCounter` | the three scripts |
| `Commands` | the command builders |
| `Errors` | `handle_exception` |
| `Runner` | `run_commands` |
| `Pipeline` | `main`, `fasta_index_present` and `file_is_index` |

How each script is modelled:

- The three scripts and the runner keep their loops. They are methods over
  the sequence of input lines, or over the sequence of command outcomes.
- Each method is proved equal to a specification function.
- The script's promises are proved as lemmas about that function: partition,
  order, only the header changes, bounds on the counts.
- The driver's command list is specified by a plan of steps. Each step names
  the files it reads and writes, and the list is proved to form a closed
  dataflow.
- The file system is a snapshot: the set of paths that exist, and what each
  directory lists.
- The shell is a sequence of outcomes, one per command.

## Model

| member | source | states |
|---|---|---|
| Strings.StripEnds | deinterleaver.py:12 | `strip()` leaves nothing exactly when the text is all whitespace (which is when `rstrip()` leaves nothing); otherwise it ends on the same last character as `rstrip()` |
| Strings.RStripShape | extracted_barcode_counter.py:14 | `rstrip()` keeps a prefix, drops only whitespace, and ends on a non-space character |
| Strings.LStripShape | deinterleaver.py:12 | `lstrip()` keeps a suffix, drops only whitespace, and starts on a non-space character |
| Strings.ReplaceAbsent | strip_fastq_headers.py:16 | `replace` leaves text without the pattern unchanged |
| Strings.ReplaceMissingChar | strip_fastq_headers.py:16 | `replace` leaves text unchanged when it lacks one of the two characters of the pattern |
| Strings.ReplaceHit | strip_fastq_headers.py:16 | an occurrence at the front is replaced, and the scan resumes after it |
| Strings.ReplaceByNothingShrinks | strip_fastq_headers.py:16 | deleting a pattern never makes the text longer |
| Strings.ReplaceConcat | strip_fastq_headers.py:16 | for a two-character pattern, `replace` on a concatenation replaces in each part separately, unless an occurrence could straddle the join |
| Strings.Split | extracted_barcode_counter.py:14 | `split` never returns an empty list |
| Strings.SplitSingle | dedup.py:223-224 | `split` gives more than one piece exactly when the separator occurs |
| Strings.SplitFirst | dedup.py:164 | the first piece is a separator-free prefix, followed by a separator unless it is the whole text |
| Strings.SplitLast | extracted_barcode_counter.py:14 | `split(sep)[-1]` is a separator-free suffix; it is the whole text iff the separator is absent, and otherwise follows a separator |
| Strings.SplitJoin | dedup.py:7-111 | splitting a join gives back the parts when none holds the separator |
| Strings.JoinSplit | dedup.py:91 | joining the pieces of a split gives back the text |
| Strings.JoinAppend | dedup.py:7-111 | joining two lists puts exactly one separator between their joins |
| Strings.Repeat | dedup.py:15 | `"N" * umi_len` has `max(umi_len, 0)` characters, all of them the repeated one |
| Strings.IntToString | dedup.py:27 | `str(p)` has no space, and starts with `-` exactly for a negative number |
| Fastq.RecordOf | deinterleaver.py:11 | a full buffer is one record whose four lines are the buffer |
| Fastq.Records | deinterleaver.py:8-17 | a stream of `n` lines holds `n / 4` complete records |
| Fastq.RecordAt | deinterleaver.py:8-17 | record `k` is lines `4k` to `4k+3` |
| Fastq.FlattenRecords | deinterleaver.py:11-17 | writing out the records reproduces the input minus its trailing partial record |
| Fastq.RecordsFlatten | strip_fastq_headers.py:17 | reading back what was written gives the same records |
| Deinterleaver.MateOf | deinterleaver.py:12-15 | the output a header routes to: none when it strips to nothing (the IndexError), the first when its stripped text ends in `1`, the second otherwise |
| Deinterleaver.MateOfLastVisibleChar | deinterleaver.py:12 | a header routes nowhere iff it is all whitespace; it routes to the first output iff its last non-space character is `1` |
| Deinterleaver.MateTagExamples | deinterleaver.py:12-15 | `/1` headers go to the first output and `/2` headers to the second; a blank header cannot be routed |
| Deinterleaver.RoutablePrefix | deinterleaver.py:12 | the records before the first header that strips to nothing are routable, and that header stops the script |
| Deinterleaver.RoutablePrefixIs | deinterleaver.py:9-17 | the routable prefix is unique: it is the one that ends at the first unroutable record |
| Deinterleaver.WrittenSelected | deinterleaver.py:13-15 | writing record by record yields the filtered records, written in order |
| Deinterleaver.Deinterleave | deinterleaver.py:7-17 | output 1 holds the lines of the records routed to mate 1 and output 2 those routed to mate 2, in input order, unchanged, with a trailing partial record dropped; a header that strips to nothing stops the script (`failed`) after the records before it |
| Deinterleaver.SelectPartition | deinterleaver.py:9-17 | when every header routes, each record lands in exactly one output (multiset equality), with none lost or duplicated |
| Deinterleaver.SelectMembers | deinterleaver.py:12-15 | a record is in an output iff it is an input record whose header routes there |
| Deinterleaver.SelectAppend | deinterleaver.py:9-17 | routing preserves input order: the output of a concatenation is the concatenation of the outputs |
| Deinterleaver.DeinterleaveLineCount | deinterleaver.py:11-17 | when every header routes, the two outputs hold `4 * (n / 4)` lines together |
| HeaderStrip.FixHeader | strip_fastq_headers.py:16 | the header with every `/2` deleted, and then every `/1` |
| HeaderStrip.Advance | strip_fastq_headers.py:15-18 | handling one full buffer appends record `m` with its header rewritten |
| HeaderStrip.StripHeaders | strip_fastq_headers.py:11-18 | the output is every complete input record, in order, with its header rewritten |
| HeaderStrip.OnlyHeaderChanges | strip_fastq_headers.py:15-17 | the output holds `n / 4` records; each record's header is the rewritten input header and its other three lines are unchanged |
| HeaderStrip.FixHeaderWithoutTags | strip_fastq_headers.py:16 | a header with neither `/1` nor `/2` is unchanged |
| HeaderStrip.FixHeaderShrinks | strip_fastq_headers.py:16 | a rewritten header is never longer |
| HeaderStrip.MateTagRemoved | strip_fastq_headers.py:16 | a trailing `/1` or `/2` tag is removed, whatever precedes it |
| HeaderStrip.FixHeaderExamples | strip_fastq_headers.py:16 | `@read/1` and `@read/2` both become `@read` |
| HeaderStrip.FixHeaderNotIdempotent | strip_fastq_headers.py:16 | `@r//11` becomes `@r/1` on the first pass and `@r` on the second |
| HeaderStrip.FixHeaderIdempotentWhenClean | strip_fastq_headers.py:16 | a second pass changes nothing once no tag is left |
| BarcodeCounter.PairedFlag | extracted_barcode_counter.py:4-7 | pairing is off exactly for the argument `False` |
| BarcodeCounter.UmiOf | extracted_barcode_counter.py:14 | the last `_`-separated field of the right-stripped line |
| BarcodeCounter.ReadCount | extracted_barcode_counter.py:20-23 | `n / 8` reads when paired, `n / 4` otherwise, for `n` lines |
| BarcodeCounter.CountBarcodes | extracted_barcode_counter.py:4-24 | the UMI count is the number of distinct UMIs of the header lines (every fourth line, a trailing partial record's header included); the read count is `n / 8` when paired, else `n / 4` |
| BarcodeCounter.HeaderUmisMembers | extracted_barcode_counter.py:12-15 | a UMI is collected iff some line at an index `≡ 0 (mod 4)` carries it |
| BarcodeCounter.HeaderUmiSource | extracted_barcode_counter.py:13-15 | every collected UMI comes from a header line |
| BarcodeCounter.HeaderUmiCollected | extracted_barcode_counter.py:13-15 | every header line's UMI is collected |
| BarcodeCounter.UmiIsLastField | extracted_barcode_counter.py:14 | the UMI is the text after the last `_` of the right-stripped line, or that whole line when it has no `_` |
| BarcodeCounter.UmiCountBound | extracted_barcode_counter.py:10-17 | at most `ceil(n / 4)` distinct UMIs |
| BarcodeCounter.RepeatedUmi | extracted_barcode_counter.py:15 | a record whose UMI was already seen leaves the set unchanged |
| BarcodeCounter.HeaderUmisPrefix | extracted_barcode_counter.py:10-17 | appended lines do not change what earlier lines contributed |
| BarcodeCounter.ReadCountRecords | extracted_barcode_counter.py:20-23 | the read count is the number of complete records, or half of it when paired |
| BarcodeCounter.PairedFlagExamples | extracted_barcode_counter.py:4-7 | only the exact text `False` turns pairing off; `True`, `false` and the empty text leave it on |
| Commands.BuildFastaIndex | dedup.py:7-12 | computes `bowtie2-build -f <fasta> <gene>` |
| Commands.ExtractUmis | dedup.py:14-23 | computes `umi_tools extract -p <N × umi_len> -I <R1> --read2-in=<R2> -S <read1umi> --read2-out=<read2umi>` |
| Commands.AlignReads | dedup.py:25-42 | computes `bowtie2 -p <p>`, the nine fixed settings (`--local` … `--no-unal`), then `-x <gene> -1 <R1> -2 <R2> -S <output>` |
| Commands.SamToBam | dedup.py:44-51 | computes `samtools view -b <sam> > <bam>` |
| Commands.SortBam | dedup.py:53-61 | computes `samtools sort <inp> -o <out>`, with ` -n` appended when sorting by name |
| Commands.IndexBam | dedup.py:64-69 | computes `samtools index <bam>` |
| Commands.CollapseUmi | dedup.py:71-79 | computes `umicollapse bam -p .05 -i <bam> -o <dedup> --paired` |
| Commands.BamToFastq | dedup.py:81-87 | computes `samtools fastq <bam> > <fastq>` |
| Commands.DeinterleaveFastq | dedup.py:89-96 | computes `python <scriptDir>/deinterleaver.py <interleaved> <R1> <R2>` |
| Commands.TrimHeader | dedup.py:98-104 | computes `python <scriptDir>/strip_fastq_headers.py <in> <out>` |
| Commands.Copy | dedup.py:106-111 | computes `cp <f> <dest>` |
| Commands.BuildFastaIndexWords | dedup.py:7-12 | the command splits into `bowtie2-build -f <fasta> <gene>` |
| Commands.ExtractUmisWords | dedup.py:14-23 | the argument vector word by word; the word after `-p` is exactly `umi_len` letters `N` |
| Commands.AlignReadsWords | dedup.py:25-42 | bowtie2 gets the thread count, the fourteen words of the nine fixed settings, the index, both mates and the output, in that order |
| Commands.SamToBamWords | dedup.py:44-51 | `samtools view -b <sam> > <bam>` word by word |
| Commands.SortBamWords | dedup.py:53-61 | `samtools sort <inp> -o <out>`, followed by `-n` only when sorting by name |
| Commands.SortBamEnding | dedup.py:53-61 | the command ends with ` -n` when sorting by name and with `-o <out>` otherwise; for a one-word output other than `-n`, it ends with ` -n` iff sorting by name |
| Commands.LastWordNotFlag | dedup.py:57-59 | a command whose last word is one word other than `-n` does not end with ` -n` |
| Commands.IndexBamWords | dedup.py:64-69 | `samtools index <bam>` word by word |
| Commands.CollapseUmiWords | dedup.py:71-79 | `umicollapse bam -p .05 -i <bam> -o <dedup> --paired` word by word |
| Commands.BamToFastqWords | dedup.py:81-87 | `samtools fastq <bam> > <fastq>` word by word |
| Commands.DeinterleaveFastqWords | dedup.py:89-96 | `python <dir>/deinterleaver.py <in> <r1> <r2>` word by word |
| Commands.TrimHeaderWords | dedup.py:98-104 | `python <dir>/strip_fastq_headers.py <in> <out>` word by word |
| Commands.CopyWords | dedup.py:106-111 | `cp <f> <dest>` word by word |
| Errors.HandleException | dedup.py:130-147 | the error class is FileNotFoundError iff the program was missing, or stderr names a missing index or says `command not found`; a re-raise iff the spawn failed otherwise; a generic exception iff stderr says neither. Every failure yields a raised error |
| Errors.DependencyAdvice | dedup.py:132-144 | a missing program gives a FileNotFoundError whose message ends with the install advice; for the shell's complaint, the message starts with the stripped stderr and keeps `command not found` |
| Errors.CommandNotFoundKept | dedup.py:144 | `rstrip` keeps the phrase `command not found` |
| Errors.IndexReportedFirst | dedup.py:140-143 | stderr naming a missing index is reported as the index problem, even when it also says `command not found` |
| Errors.OtherFailuresKeepStderr | dedup.py:146-147 | any other failure is a generic exception carrying stderr, whatever the exit code |
| Runner.FirstFailure | dedup.py:115-124 | the index found is at most `n`, and fails when below `n` |
| Runner.FirstFailureIsFirst | dedup.py:115-124 | every command before the first failure succeeded |
| Runner.RunCommands | dedup.py:113-128 | commands run in list order; the run stops at the first failure and raises that failure's error; the log holds, for each command up to the failure, `Running <cmd>` and then, on success, its stdout and stderr |
| Runner.FirstFailureUpTo | dedup.py:115-124 | looking further never moves the first failure |
| Runner.RunStopsAtFailure | dedup.py:115-124 | a failure at `k` after `k` successes is the first failure, and the log before it holds exactly `3k` entries |
| Runner.CleanRun | dedup.py:113-128 | no error is raised iff every command succeeds, and then the log has three entries per command |
| Pipeline.Rendered | dedup.py:182-208 | one command per step |
| Pipeline.RenderedPlan | dedup.py:182-208 | the plan renders to the index build (when needed), then the nine pipeline commands, then either two `cp` or two header-stripping commands |
| Pipeline.AssembleCommands | dedup.py:182-208 | the list grown one command at a time equals the rendered plan |
| Pipeline.EarlyDataflow | dedup.py:183-192 | the first steps read only the inputs or earlier outputs, and write the UMI-tagged reads, SAM, BAM and sorted BAM, in that order |
| Pipeline.MainDataflow | dedup.py:183-197 | the same holds up to deinterleaving, with the collapsed BAM, name-sorted BAM, interleaved FASTQ and two pre-final files added |
| Pipeline.PlanDataflow | dedup.py:182-208 | every step reads only the two read files, the reference, or a file an earlier step wrote; the steps write the intermediates and then the two final outputs |
| Pipeline.NamesOf | dedup.py:162-179 | the ten intermediate names are `temp + "/" + output_prefix` plus a fixed suffix each; the finals are `output_prefix + "_R1.fastq"` and `output_prefix + "_R2.fastq"` |
| Pipeline.IntermediatesInTemp | dedup.py:162-176 | every intermediate file name starts with `temp + "/"` |
| Pipeline.IndexStepFirst | dedup.py:183-187 | without indexing the plan has 11 steps; indexing puts exactly the index build in front |
| Pipeline.HeaderCorrectionToggle | dedup.py:202-208 | the toggle changes only the last two steps: header stripping vs `cp`, on the same source and destination pairs |
| Pipeline.CommandCount | dedup.py:182-208 | a run has 12 commands when the index must be built, and 11 otherwise (also with `--index_fasta` when an index is already present) |
| Pipeline.GeneName | dedup.py:164 | the first piece of the reference path split at `.` |
| Pipeline.GeneNamePrefix | dedup.py:164 | the index name is the reference path before its first `.` |
| Pipeline.GeneNameDotPath | dedup.py:164 | a reference path starting with `.` (such as `./ref.fa`) has an empty index name |
| Pipeline.FileIsIndex | dedup.py:218-220 | a file name belongs to the index when it starts with the stem and ends with `bt2` |
| Pipeline.FileIsIndexAnyMiddle | dedup.py:218-220 | any file named `<stem>…bt2` is taken as an index file, including another reference's index that shares the prefix |
| Pipeline.IndexLocationParts | dedup.py:223-231 | the directory and stem rebuild the index name; a name without `/` is looked up in `.` |
| Pipeline.FastaIndexPresent | dedup.py:222-234 | the scan stops at the first index file and equals the corrected lookup, which lists the reference's own directory |
| Pipeline.LookupIndexFinds | dedup.py:222-234 | the corrected lookup fails iff the directory is missing; it finds an index iff the directory lists a `bt2` file whose path starts with the index name |
| Pipeline.LookupIndexAsWritten | dedup.py:222-234 | the lookup as written: `TypeError` for a name with `/`, otherwise a scan of the working directory for an index file |
| Pipeline.FastaIndexPresentAsWritten | dedup.py:222-234 | the driver's lookup: a name with `/` raises `TypeError` before any scan, otherwise the working directory is scanned; equals the lookup as written |
| Pipeline.LookupIndexAsWrittenDiffers | dedup.py:223-231 | as written, the lookup agrees with the corrected one in the working directory, and raises `TypeError` for any name with `/` |
| Pipeline.SubdirectoryLookup | dedup.py:224-227 | for `dir/stem`, the code as written raises `TypeError`; the corrected lookup lists `dir` and looks for `stem` there |
| Pipeline.MissingInput | dedup.py:151-153 | returns none iff every input exists; otherwise the first missing one |
| Pipeline.MissingInputFirst | dedup.py:151-153 | the first missing input is the one reported |
| Pipeline.FindMissing | dedup.py:151-153 | the loop over the inputs reports the first missing one |
| Pipeline.CheckPaths | dedup.py:151-159 | a missing input gives ValueError; otherwise an existing temp path gives FileExistsError |
| Pipeline.PathChecks | dedup.py:151-159 | the path checks fail iff an input is missing or the temp path exists; a missing input wins |
| Pipeline.Check | dedup.py:151-187 | the path checks, then, with `--index_fasta`, the lookup as written; equals `Preflight` and reports whether the temp directory was created |
| Pipeline.Preflight | dedup.py:151-187 | the path checks, then, with `--index_fasta`, the lookup as written: its error is raised, and the index is to be built iff none was found |
| Pipeline.PreflightOrder | dedup.py:151-187 | a path failure comes first and creates nothing; after creation, only the index lookup as written can fail |
| Pipeline.IndexOnlyWhenAsked | dedup.py:183-187 | the index is built iff indexing was asked for and the lookup as written found none, which never happens for a reference in a subdirectory; without indexing, directory listings do not matter |
| Pipeline.RunChecked | dedup.py:182-216 | runs the assembled commands; a clean run without `--keep_temp` ends with the completion notice |
| Pipeline.Driver | dedup.py:149-216 | on a failed check: nothing printed, the check's error, the temp directory left iff it was created; otherwise the index notice, the runner's log and the completion notice, the runner's error, and the temp directory left iff a command failed or it is kept |
| Pipeline.RunPipeline | dedup.py:149-216 | equals the driver's specification: the log printed (index notice, the runner's log, completion notice), the error raised, and whether the temp directory remains |
| Pipeline.DriverStopsAtCheck | dedup.py:151-187 | a failed check runs and prints nothing, and leaves the temp directory only when the failure came after it was created |
| Pipeline.DriverSubdirectoryReference | dedup.py:183-227 | with `--index_fasta` and a reference in a subdirectory, the driver creates the temp directory, raises `TypeError` from the lookup, runs and prints nothing, and leaves the directory behind |
| Pipeline.DriverCleanRun | dedup.py:211-216 | when every command succeeds: no error; the temp directory remains iff it is kept; the log has the notice plus three entries per command plus the completion line, which comes last |
| Pipeline.DriverFailedRun | dedup.py:115-124 | when command `k` fails first, its error is raised, the log ends with `Running <cmd k>`, and the temp directory is left behind |

## Left out

- File I/O is not modelled. Inputs and outputs are sequences of lines; `open`, `sys.argv` and argparse (dedup.py:236-252) are out of scope.
- The timestamp line printed before each command (dedup.py:116) is left out, being a clock reading. So is `flush`.
- Processes and the external tools (bowtie2, samtools, umi_tools, umicollapse) are not modelled. Each command has a given outcome: an exit code with stdout and stderr, or a spawn failure.
- Output is modelled as decoded text. The model does not capture the UTF-8 decoding or the fact that `handle_exception` searches and reports `str(stderr)`, the bytes repr (`b'...'`).
- A re-raised spawn exception is the `Reraised` kind carrying its detail, not the exception object.
- `os.path.abspath(__file__)` (dedup.py:91,100) is replaced by the script directory, given as a parameter.
- The file system is a snapshot.
  - `os.path.exists`, `os.mkdir` and `os.listdir` read it.
  - A mkdir failure other than an existing path is not modelled.
  - A directory that cannot be listed for any reason is `NoSuchDirectory`.
  - The listing is taken as it stands after the temp directory is created.
  - `shutil.rmtree` appears only as the `tempLeft` result.
- Word-splitting lemmas assume no argument holds a space; the model does not capture how the shell treats such arguments.
- Float division `int(line_num / 8)` (extracted_barcode_counter.py:21,23) is integer division; the two agree for any realistic line count.
- The unused `read = 0` (deinterleaver.py:7) has no counterpart.
- A positional-parity deinterleaving policy appears in no source file, so it is not modelled.
- BarcodeCounter.CountBarcodes: the printed sentence around the two numbers (extracted_barcode_counter.py:24) is not modelled; the numbers are returned.
- Deinterleaver.Deinterleave: the IndexError on a header that strips to nothing is the `failed` result. The outputs hold what was written before the error. The files being left half-written is not otherwise modelled.
- Pipeline.RunPipeline requires at least twelve outcomes, one per possible command. Unused outcomes are ignored.
- Pipeline.GeneNameDotPath records source behaviour: with a reference given as `./ref.fa`, the index name is empty.
- The header-stripping script is not idempotent: `@r//11` becomes `@r/1`, and then `@r`. The model follows the code, and idempotence is proved only for headers left without tags (`HeaderStrip.FixHeaderIdempotentWhenClean`).

## Findings

| source | as written | input that shows it | evidently intended | confidence | as-written member | corrected member |
|---|---|---|---|---|---|---|
| dedup.py:224-227 | for a reference in a subdirectory, the list of path pieces `spl_gene[:-1]` is handed to `os.listdir`, which raises `TypeError` before anything is listed | `--fasta refs/ref.fa --index_fasta` (index name `refs/ref`) | list the directory `refs` and look for a file starting with `ref` and ending with `bt2` | not executed | Pipeline.LookupIndexAsWritten, Pipeline.SubdirectoryLookup, Pipeline.DriverSubdirectoryReference | Pipeline.LookupIndex, Pipeline.FastaIndexPresent, Pipeline.LookupIndexFinds |

The driver (`Pipeline.Preflight`, `Pipeline.Check`, `Pipeline.RunPipeline`) models the program as written: with `--index_fasta`, a reference in a subdirectory stops the run with the `TypeError` (`Pipeline.DriverSubdirectoryReference`). The corrected lookup is stated and proved on its own (`Pipeline.LookupIndex`, `Pipeline.FastaIndexPresent`, `Pipeline.LookupIndexFinds`).
