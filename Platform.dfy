/**
 * What the analyzers ask of the operating system, the file system, the native
 * symbol handler (dbghelp) and the PE parser, as plain total functions. A run of
 * the model fixes one Platform: the same question always gets the same answer.
 */
module Platform {
  import opened Wrappers

  /**
   * What the symbol handler does when asked about one file:
   * SymInitialize fails; SymLoadModuleEx returns base address 0; SymEnumerateModules
   * calls back with `modules` and returns `completed`; or an exception escapes the
   * native calls after the callback has seen `modules`.
   */
  datatype SymOutcome =
    | InitFailed
    | LoadFailed
    | Enumerated(modules: seq<string>, completed: bool)
    | Faulted(modules: seq<string>)

  datatype Platform = Platform(
    /** Every identifier a run can meet: a finite set, see Closed. */
    universe: set<string>,
    /** `Directory.EnumerateFiles(folder, "*.*", recursive ? AllDirectories : TopDirectoryOnly)`. */
    enumerate: (string, bool) -> seq<string>,
    /** `Path.GetFullPath(Path.GetDirectoryName(Path.GetFullPath(path)))`. */
    directoryOf: string -> string,
    /** `Path.GetFileName(path)`. */
    fileName: string -> string,
    /** `Path.Combine(folder, name)`. */
    combine: (string, string) -> string,
    /** `File.Exists(path)`. */
    fileExists: string -> bool,
    /** The symbol handler's behaviour for one file. */
    symbols: string -> SymOutcome,
    /** `new PeFile(path).ImportedFunctions.Select(f => f.DLL)`, or None when that throws. */
    imports: string -> Option<seq<string>>
  )

  /** The module names the symbol handler's callback sees for one file. */
  function Reported(o: SymOutcome): seq<string> {
    match o
    case Enumerated(modules, _) => modules
    case Faulted(modules) => modules
    case _ => []
  }

  /**
   * The universe holds every enumerated file and every module the symbol handler
   * reports for a member of the universe: the finite world the traversal runs in.
   */
  ghost predicate Closed(p: Platform) {
    && (forall folder, recursive, f | f in p.enumerate(folder, recursive) :: f in p.universe)
    && (forall f, m | f in p.universe && m in Reported(p.symbols(f)) :: m in p.universe)
  }
}
