/**
 * The issue taxonomy of include/readoutmodules/ReadoutModulesIssues.hpp:
 * every issue the header declares, and the base each one derives from.
 * An issue declared with ERS_DECLARE_ISSUE derives from ers::Issue
 * directly (a root here); one declared with ERS_DECLARE_ISSUE_BASE derives
 * from the issue it names, so a handler that catches the base also catches it.
 */
module ReadoutModulesIssues {
  import opened Wrappers
  import Failures

  datatype IssueKind =
    | InternalError
    | CommandError
    | InitializationError
    | ConfigurationError
    | BufferedReaderWriterConfigurationError
    | DataRecorderConfigurationError
    | GenericConfigurationError
    | CannotOpenFile
    | BufferedReaderWriterCannotOpenFile
    | CannotReadFile
    | CannotWriteToFile
    | PostprocessingNotKeepingUp
    | EmptySourceBuffer
    | CannotReadFromQueue
    | CannotWriteToQueue
    | TrmWithEmptyFragment
    | RequestOnEmptyBuffer
    | FailedReadoutInitialization
    | FailedFakeCardInitialization
    | NoImplementationAvailableError
    | ResourceQueueError
    | DataRecorderResourceQueueError
    | GenericResourceQueueError
    | ConfigurationNote
    | ConfigurationProblem
    | RequestTimedOut
    | EndOfRunEmptyFragment

  /** The base an issue is declared with; None for one that derives from ers::Issue directly. */
  function Base(k: IssueKind): Option<IssueKind>
  {
    match k
    case CannotReadFile => Some(ConfigurationError)
    case FailedReadoutInitialization => Some(InitializationError)
    case NoImplementationAvailableError => Some(ConfigurationError)
    case DataRecorderResourceQueueError => Some(DataRecorderConfigurationError)
    case _ => None
  }

  /** How many declarations separate an issue from ers::Issue, less one: no base is itself derived. */
  function Depth(k: IssueKind): nat
  {
    if Base(k).None? then 0 else 1
  }

  /**
   * Whether an issue of kind `k` is an issue of kind `b`: it is `b` or
   * derives from it through its chain of bases. Because no base is itself
   * derived, the chain is one step long.
   */
  function IsA(k: IssueKind, b: IssueKind): (r: bool)
    ensures r <==> k == b || Base(k) == Some(b)
    decreases Depth(k)
  {
    k == b || (Base(k).Some? && IsA(Base(k).value, b))
  }

  /** Exactly four issues are declared with a base, and every base is a root. */
  lemma DerivedIssues()
    ensures forall k :: Base(k).Some? <==>
      k in {CannotReadFile, FailedReadoutInitialization, NoImplementationAvailableError, DataRecorderResourceQueueError}
    ensures forall k :: Base(k).Some? ==> Base(Base(k).value).None? && Depth(k) == 1
  {
    forall k ensures Base(k).Some? ==> Base(Base(k).value).None? {
      BaseIsRoot(k);
    }
  }

  /** The bases the header names: two derive from ConfigurationError, one each from the initialisation and recorder issues. */
  lemma DeclaredBases()
    ensures IsA(CannotReadFile, ConfigurationError) && IsA(NoImplementationAvailableError, ConfigurationError)
    ensures IsA(FailedReadoutInitialization, InitializationError)
    ensures IsA(DataRecorderResourceQueueError, DataRecorderConfigurationError)
    ensures forall b :: IsA(ConfigurationError, b) <==> b == ConfigurationError
  {
  }

  /**
   * The configuration issues are separate roots: a handler for
   * ConfigurationError catches neither GenericConfigurationError nor
   * DataRecorderConfigurationError (nor what derives from the latter).
   */
  lemma ConfigurationRoots()
    ensures !IsA(GenericConfigurationError, ConfigurationError)
    ensures !IsA(DataRecorderConfigurationError, ConfigurationError)
    ensures !IsA(DataRecorderResourceQueueError, ConfigurationError)
    ensures forall k :: IsA(k, ConfigurationError) <==> k in {ConfigurationError, CannotReadFile, NoImplementationAvailableError}
  {
  }

  /** Two issue kinds that are each a kind of the other are the same kind. */
  lemma IsAAntisymmetric(a: IssueKind, b: IssueKind)
    ensures IsA(a, b) && IsA(b, a) ==> a == b
  {
    BaseIsRoot(a);
  }

  /** A kind of a kind of `c` is a kind of `c`. */
  lemma IsATransitive(a: IssueKind, b: IssueKind, c: IssueKind)
    ensures IsA(a, b) && IsA(b, c) ==> IsA(a, c)
  {
    BaseIsRoot(a);
  }

  /** The base of a derived issue derives from nothing but ers::Issue. */
  lemma BaseIsRoot(k: IssueKind)
    ensures Base(k).Some? ==> Base(Base(k).value).None?
  {
  }

  /**
   * The kind, in this header, of an issue the modules raise; None for one
   * declared elsewhere. Only the link handler's FailedReadoutInitialization
   * (include/readoutmodules/detail/DataLinkHandlerBase.hxx:27,33) is thrown
   * as a readoutmodules issue; every other failure is thrown as the
   * readoutlibs class of the same name, a different type that no handler
   * for an issue of this header catches.
   */
  function KindOf(f: Failures.Failure): Option<IssueKind>
  {
    match f
    case FailedReadoutInitialization(_, _) => Some(FailedReadoutInitialization)
    case _ => None
  }

  /**
   * Which handlers for the issues of this header see the failures the
   * modules raise: only the link handler's FailedReadoutInitialization is
   * one of them, and it is caught as itself or as an InitializationError,
   * never as a ConfigurationError.
   */
  lemma RaisedFailuresCaughtAs(f: Failures.Failure)
    ensures KindOf(f).Some? <==> f.FailedReadoutInitialization?
    ensures KindOf(f).Some? ==> forall b :: IsA(KindOf(f).value, b) <==> b in {FailedReadoutInitialization, InitializationError}
  {
  }
}
