/**
 * State that DependencyAnalyzer shares between all analyzer instances: the static
 * root folder path, the static Output log and the process-wide native symbol
 * handler, kept in one Runtime object that every analyzer refers to. Also the
 * seed-file filter both strategies apply to the directory enumeration.
 */
module AnalyzerBase {
  import opened Text
  import opened Platform
  import opened Sequences

  /** The lines the analyzers append to Output (error codes and exception texts left out). */
  datatype Message =
    | SymInitializeFailed
    | SymLoadModuleFailed(file: string)
    | EnumerateModulesFailed(file: string)
    | ParseFailed(file: string)
    | FileInfo(file: string)
    | FileAnalyzed(file: string)
    | DependencyCount(count: nat)
    | GraphSaved(path: string)

  datatype NativeCall = SymInitialize(succeeded: bool) | SymCleanup

  /** One observable event: a log line or a call into the symbol handler. */
  datatype Event = Log(message: Message) | Native(call: NativeCall)

  /** The process-wide statics of DependencyAnalyzer and the native handler state. */
  class Runtime {
    const platform: Platform
    /** `DependencyAnalyzer._rootFolderPath`. */
    var rootFolderPath: string
    /** Everything appended to Output and every SymInitialize / SymCleanup, in order. */
    var trace: seq<Event>
    /** True between a successful SymInitialize and the matching SymCleanup. */
    ghost var symbolHandlerActive: bool

    constructor (platform: Platform)
      ensures this.platform == platform
      ensures rootFolderPath == "" && trace == [] && !symbolHandlerActive
    {
      this.platform := platform;
      rootFolderPath := "";
      trace := [];
      symbolHandlerActive := false;
    }

    method SetRootFolder(path: string)
      modifies this
      ensures rootFolderPath == path
      ensures trace == old(trace) && symbolHandlerActive == old(symbolHandlerActive)
    {
      rootFolderPath := path;
    }

    method Append(m: Message)
      modifies this
      ensures trace == old(trace) + [Log(m)]
      ensures rootFolderPath == old(rootFolderPath) && symbolHandlerActive == old(symbolHandlerActive)
    {
      trace := trace + [Log(m)];
    }

    /** SymInitialize, whose answer the platform decides for the file about to be loaded. */
    method SymInitialize(file: string) returns (ok: bool)
      requires !symbolHandlerActive
      modifies this
      ensures ok == !platform.symbols(file).InitFailed?
      ensures trace == old(trace) + [Native(NativeCall.SymInitialize(ok))]
      ensures symbolHandlerActive == ok && rootFolderPath == old(rootFolderPath)
    {
      ok := !platform.symbols(file).InitFailed?;
      trace := trace + [Native(NativeCall.SymInitialize(ok))];
      symbolHandlerActive := ok;
    }

    method SymCleanup()
      requires symbolHandlerActive
      modifies this
      ensures trace == old(trace) + [Native(NativeCall.SymCleanup)]
      ensures !symbolHandlerActive && rootFolderPath == old(rootFolderPath)
    {
      trace := trace + [Native(NativeCall.SymCleanup)];
      symbolHandlerActive := false;
    }
  }

  /** The seed filter: the name ends in ".dll" or ".exe", ignoring case. */
  predicate IsCandidate(f: string) {
    EndsWithIgnoreCase(f, ".dll") || EndsWithIgnoreCase(f, ".exe")
  }

  /** The enumerated files that pass the seed filter, in enumeration order. */
  function Candidates(files: seq<string>): (r: seq<string>)
    ensures forall f | f in r :: f in files
  {
    Filter(files, IsCandidate)
  }

  /** Seeds are exactly the enumerated .dll/.exe files, in enumeration order. */
  lemma CandidatesExactly(files: seq<string>)
    ensures forall f :: f in Candidates(files) <==> f in files && IsCandidate(f)
    ensures IsSubsequence(Candidates(files), files)
  {
    forall f | f in files && IsCandidate(f) {
      FilterComplete(files, IsCandidate, f);
    }
    FilterIsSubsequence(files, IsCandidate);
  }
}
