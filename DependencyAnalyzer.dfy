/**
 * The abstract base DependencyAnalyzer: the factory that picks a strategy by mode,
 * and the members every analyzer shares (the graph it exposes, the run entry
 * point). The static root folder path and Output live in the Runtime object that
 * all analyzers created from one Runtime hold, so a run of either strategy
 * changes the root folder every other analyzer sees.
 */
module DependencyAnalyzer {
  import opened Wrappers
  import opened Dictionaries
  import opened Platform
  import opened AnalyzerBase
  import S = SymbolDependecyAnalyzer
  import P = PFEHeaderDependencyAnalyzer

  /** `DependencyAnalyzerMode`: a C# enum, so any 32-bit integer converts to it. */
  newtype DependencyAnalyzerMode = x: int | -0x8000_0000 <= x < 0x8000_0000

  const DebugSymbols: DependencyAnalyzerMode := 0
  const PFEHeader: DependencyAnalyzerMode := 1

  /** The exception Create throws for any other mode. */
  datatype ArgumentException = ArgumentException(message: string)

  /** The two concrete strategies. */
  datatype Strategy = DebugSymbolsStrategy | PeHeaderStrategy

  /** Which strategy a mode selects, or the exception for an unknown mode. */
  function StrategyFor(mode: DependencyAnalyzerMode): (r: Result<Strategy, ArgumentException>)
    ensures r.Success? <==> mode == DebugSymbols || mode == PFEHeader
    ensures r.Success? ==> (r.value == DebugSymbolsStrategy <==> mode == DebugSymbols)
    ensures r.Failure? ==> r.error.message == "Invalid mode specified."
  {
    if mode == DebugSymbols then Success(DebugSymbolsStrategy)
    else if mode == PFEHeader then Success(PeHeaderStrategy)
    else Failure(ArgumentException("Invalid mode specified."))
  }

  /** An analyzer object of either strategy, as the base-class reference Create returns. */
  datatype Analyzer =
    | Symbol(symbol: S.SymbolDependecyAnalyzer)
    | PeHeader(pe: P.PFEHeaderDependencyAnalyzer)
  {
    function Kind(): Strategy {
      match this
      case Symbol(_) => DebugSymbolsStrategy
      case PeHeader(_) => PeHeaderStrategy
    }

    /** `DependencyGraph`: the analyzer's own dictionary object. */
    function DependencyGraph(): Dictionary {
      match this
      case Symbol(a) => a.graph
      case PeHeader(a) => a.graph
    }

    /** The shared statics the analyzer was created with. */
    function Statics(): Runtime {
      match this
      case Symbol(a) => a.runtime
      case PeHeader(a) => a.runtime
    }

    /** Everything a run may change. */
    function Footprint(): set<object> {
      match this
      case Symbol(a) => {a, a.graph, a.runtime}
      case PeHeader(a) => {a.graph, a.runtime}
    }
  }

  /** `Create(mode)`: a fresh analyzer of the selected strategy with an empty graph. */
  method Create(mode: DependencyAnalyzerMode, runtime: Runtime) returns (r: Result<Analyzer, ArgumentException>)
    ensures r.Success? <==> StrategyFor(mode).Success?
    ensures r.Failure? ==> r == Failure(StrategyFor(mode).error)
    ensures r.Success? ==> r.value.Kind() == StrategyFor(mode).value
    ensures r.Success? ==> fresh(r.value.DependencyGraph()) && r.value.DependencyGraph().contents == Empty()
    ensures r.Success? ==> r.value.Statics() == runtime
    ensures r.Success? && r.value.Symbol? ==> r.value.symbol.processed == {}
  {
    if mode == DebugSymbols {
      var a := new S.SymbolDependecyAnalyzer(runtime);
      return Success(Symbol(a));
    } else if mode == PFEHeader {
      var a := new P.PFEHeaderDependencyAnalyzer(runtime);
      return Success(PeHeader(a));
    } else {
      return Failure(ArgumentException("Invalid mode specified."));
    }
  }

  /** `ExecuteDependencyCheck(folderPath, recursive)`, dispatched to the analyzer's strategy. */
  method ExecuteDependencyCheck(a: Analyzer, folderPath: string, recursive: bool)
    requires Closed(a.Statics().platform) && !a.Statics().symbolHandlerActive
    modifies a.Footprint()
    ensures a.Statics().rootFolderPath == folderPath && !a.Statics().symbolHandlerActive
    ensures a.Symbol? ==>
      var b := S.Build(a.Statics().platform, folderPath, recursive);
      && a.symbol.State() == b.scan
      && a.Statics().trace == old(a.Statics().trace) + b.events
                              + [Log(GraphSaved(a.Statics().platform.combine(folderPath, "DependencyGraph.xml")))]
    ensures a.PeHeader? ==>
      var files := Candidates(a.Statics().platform.enumerate(folderPath, recursive));
      && a.DependencyGraph().contents == P.PeGraph(a.Statics().platform, folderPath, files)
      && a.Statics().trace == old(a.Statics().trace) + P.PeEvents(a.Statics().platform, folderPath, files)
                              + [Log(GraphSaved(a.Statics().platform.combine(folderPath, "DependencyGraph.xml")))]
  {
    match a
    case Symbol(s) => s.ExecuteDependencyCheck(folderPath, recursive);
    case PeHeader(pe) => pe.ExecuteDependencyCheck(folderPath, recursive);
  }
}
