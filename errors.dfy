/**
 * How the pipeline driver turns a failed command into the error it raises.
 * Every path raises: a command that could not be started re-raises (with a
 * dependency hint when the program was missing), and a command that exited
 * with a non-zero code is classified by the text of its standard error.
 */
module Errors {
  import opened Strings

  /** The Python exception classes the driver raises. `Reraised` stands for
      whatever exception the process module itself threw, passed on as is. */
  datatype Kind = FileNotFoundError | ValueError | FileExistsError | TypeError | GenericException | Reraised

  /** A raised exception: its class and its message. */
  datatype Raised = Raised(kind: Kind, message: string)

  /** Why one command failed. */
  datatype Failure =
    | SpawnFailed(missingProgram: bool, detail: string)  // the process module threw; FileNotFoundError when `missingProgram`
    | ExitedNonZero(returnCode: int, stderr: string)     // the shell ran and reported a non-zero status

  const DependencyHint: string := "Please ensure that all dependencies are installed. "
  const NotAnIndex: string := "does not exist or is not a Bowtie 2 index"
  const NoIndex: string := "Could not locate a Bowtie index"
  const CommandNotFound: string := "command not found"
  const IndexHint: string :=
    "Fasta file index not found. Ensure the fasta file is bowtie indexed in place. (Can rerun script with --index_fasta)"

  /** bowtie2 complained that the reference index is missing. */
  predicate IndexMissing(stderr: string)
  {
    Contains(stderr, NotAnIndex) || Contains(stderr, NoIndex)
  }

  /** The error raised for a failed command. The index complaint is looked
      for before the shell's `command not found`. */
  function HandleException(f: Failure): (e: Raised)
    ensures e.kind == FileNotFoundError <==>
      (f.SpawnFailed? && f.missingProgram) || (f.ExitedNonZero? && (IndexMissing(f.stderr) || Contains(f.stderr, CommandNotFound)))
    ensures e.kind == Reraised <==> f.SpawnFailed? && !f.missingProgram
    ensures e.kind == GenericException <==>
      f.ExitedNonZero? && !IndexMissing(f.stderr) && !Contains(f.stderr, CommandNotFound)
  {
    match f
    case SpawnFailed(missing, detail) =>
      if missing then Raised(FileNotFoundError, DependencyHint) else Raised(Reraised, detail)
    case ExitedNonZero(_, stderr) =>
      if IndexMissing(stderr) then Raised(FileNotFoundError, IndexHint)
      else if Contains(stderr, CommandNotFound) then Raised(FileNotFoundError, RStrip(stderr) + "\n" + DependencyHint)
      else Raised(GenericException, stderr)
  }

  /** A pattern found inside a part of the text is found in the whole. */
  lemma ContainsInPrefix(s: string, t: string, pat: string)
    requires Contains(s, pat)
    ensures Contains(s + t, pat)
  {
    var i: nat :| i <= |s| && OccursAt(s, pat, i);
    assert (s + t)[i..i + |pat|] == s[i..i + |pat|];
    assert OccursAt(s + t, pat, i);
  }

  /** Whenever a program is missing, the message ends with the advice to
      install the dependencies; when the shell said so, the message begins
      with the shell's own complaint, trailing whitespace removed, and keeps
      the phrase `command not found`. */
  lemma DependencyAdvice(f: Failure)
    requires (f.SpawnFailed? && f.missingProgram) ||
      (f.ExitedNonZero? && !IndexMissing(f.stderr) && Contains(f.stderr, CommandNotFound))
    ensures var e := HandleException(f);
      && e.kind == FileNotFoundError
      && EndsWith(e.message, DependencyHint)
      && (f.ExitedNonZero? ==> RStrip(f.stderr) <= e.message && Contains(e.message, CommandNotFound))
  {
    if f.ExitedNonZero? {
      var head := RStrip(f.stderr);
      var e := HandleException(f);
      assert e.message == head + ("\n" + DependencyHint);
      assert e.message[|e.message| - |DependencyHint|..] == DependencyHint;
      CommandNotFoundKept(f.stderr);
      ContainsInPrefix(head, "\n" + DependencyHint, CommandNotFound);
    }
  }

  /** `rstrip` only drops whitespace, so it keeps the words of the shell's
      complaint. */
  lemma CommandNotFoundKept(stderr: string)
    requires Contains(stderr, CommandNotFound)
    ensures Contains(RStrip(stderr), CommandNotFound)
  {
    var i: nat :| i <= |stderr| && OccursAt(stderr, CommandNotFound, i);
    var r := RStrip(stderr);
    RStripShape(stderr);
    var last := i + |CommandNotFound| - 1;
    assert stderr[last] == CommandNotFound[|CommandNotFound| - 1] == 'd';
    assert !IsSpace(stderr[last]);
    assert last < |r|;
    assert r[i..i + |CommandNotFound|] == stderr[i..i + |CommandNotFound|];
    assert OccursAt(r, CommandNotFound, i);
  }

  /** A missing index wins over a missing command: a standard error that
      mentions both is reported as the index problem. */
  lemma IndexReportedFirst(returnCode: int, stderr: string)
    requires IndexMissing(stderr)
    ensures HandleException(ExitedNonZero(returnCode, stderr)) == Raised(FileNotFoundError, IndexHint)
  {
  }

  /** Anything else is reported with the standard error as its message, and
      the exit status never changes the report. */
  lemma OtherFailuresKeepStderr(returnCode: int, otherCode: int, stderr: string)
    requires !IndexMissing(stderr) && !Contains(stderr, CommandNotFound)
    ensures HandleException(ExitedNonZero(returnCode, stderr)) == Raised(GenericException, stderr)
    ensures HandleException(ExitedNonZero(returnCode, stderr)) == HandleException(ExitedNonZero(otherCode, stderr))
  {
  }
}
