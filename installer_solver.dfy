/** A model of the installer router of the Composer Shared Package Plugin.

    For every operation of Composer's uniform installer interface, the router
    decides whether the symlink-based shared-package installer or Composer's
    stock library installer handles a package. The decision is made by the
    package classifier (SharedPackageSolver::isSharedPackage), which this model
    takes as a given function. The two delegate installers are opaque: their
    path and "is installed" queries are given functions, and every
    install/update/uninstall call the router makes on them is recorded in a log.
 */
module InstallerSolver {

  datatype Option<T> = None | Some(value: T)

  /** A resolved Composer package, as far as the router looks at it. */
  datatype Package = Package(name: string, prettyName: string, version: string, packageType: string)

  /** Composer's installed repository, queried through hasPackage. */
  type Repository = set<Package>

  predicate HasPackage(repo: Repository, p: Package) {
    p in repo
  }

  /** The two strategy installers an operation can be routed to. */
  datatype Strategy = Shared | Default

  /** The read-only queries of a delegate installer. */
  datatype InstallerQueries = InstallerQueries(
    installPath: Package -> string,
    isInstalled: (Repository, Package) -> bool)

  /** One call the router makes on a delegate installer, with the arguments it passes on. */
  datatype Call =
    | InstallCall(via: Strategy, repo: Repository, pkg: Package)
    | UpdateCall(via: Strategy, repo: Repository, initial: Package, target: Package)
    | UninstallCall(via: Strategy, repo: Repository, pkg: Package)

  /** How an operation of the router ends: normally, or with the exception it throws. */
  datatype Outcome = Done | Failed(message: string)

  /** What one update or uninstall does: how it ends and which delegate calls it makes. */
  datatype Step = Step(outcome: Outcome, calls: seq<Call>)

  /** Composer's promise objects; the router never produces one. */
  datatype Promise = Pending

  const NotInstalledPrefix := "Package is not installed : "

  /** The message of the exception thrown when the repository lacks a package. */
  function NotInstalledMessage(prettyName: string): string {
    NotInstalledPrefix + prettyName
  }

  /** The exception message names the package: different pretty names give different messages. */
  lemma NotInstalledMessageNamesPackage(a: string, b: string)
    ensures NotInstalledMessage(a) == NotInstalledMessage(b) <==> a == b
  {
    if NotInstalledMessage(a) == NotInstalledMessage(b) {
      assert a == NotInstalledMessage(a)[|NotInstalledPrefix|..];
      assert b == NotInstalledMessage(b)[|NotInstalledPrefix|..];
    }
  }

  class SharedPackageInstallerSolver {
    /** The classifier, SharedPackageSolver::isSharedPackage. */
    const isSharedPackage: Package -> bool
    /** Queries of the symlink-based SharedPackageInstaller. */
    const symlinkInstaller: InstallerQueries
    /** Queries of Composer's LibraryInstaller. */
    const defaultInstaller: InstallerQueries
    /** Every install, update and uninstall call made on a delegate, oldest first. */
    var calls: seq<Call>

    /** The routing table, stated call by call: a delegate call is routed as the
        classification demands, and the shared installer only ever updates or
        uninstalls a package the repository holds. */
    predicate Routed(c: Call) {
      match c
      case InstallCall(via, repo, p) =>
        via == Shared <==> isSharedPackage(p)
      case UpdateCall(via, repo, i, t) =>
        (via == Default <==> !isSharedPackage(i) && !isSharedPackage(t)) &&
        (via == Shared ==> HasPackage(repo, i))
      case UninstallCall(via, repo, p) =>
        (via == Shared <==> isSharedPackage(p)) &&
        (via == Shared ==> HasPackage(repo, p))
    }

    ghost predicate Valid()
      reads this
    {
      forall k :: 0 <= k < |calls| ==> Routed(calls[k])
    }

    constructor (isSharedPackage: Package -> bool, symlinkInstaller: InstallerQueries, defaultInstaller: InstallerQueries)
      ensures this.isSharedPackage == isSharedPackage
      ensures this.symlinkInstaller == symlinkInstaller
      ensures this.defaultInstaller == defaultInstaller
      ensures Valid() && calls == []
    {
      this.isSharedPackage := isSharedPackage;
      this.symlinkInstaller := symlinkInstaller;
      this.defaultInstaller := defaultInstaller;
      calls := [];
    }

    /** The installer that handles an operation on a single package. */
    function Route(p: Package): (s: Strategy)
      ensures s == Shared <==> isSharedPackage(p)
    {
      if isSharedPackage(p) then Shared else Default
    }

    /** The installer that handles an update from initial to target. */
    function UpdateRoute(initial: Package, target: Package): (s: Strategy)
      ensures s == Default <==> Route(initial) == Default && Route(target) == Default
    {
      if !isSharedPackage(initial) && !isSharedPackage(target) then Default else Shared
    }

    function Queries(s: Strategy): InstallerQueries {
      match s
      case Shared => symlinkInstaller
      case Default => defaultInstaller
    }

    /** getInstallPath: the path the chosen installer gives for the package. */
    function GetInstallPath(p: Package): (path: string)
      ensures isSharedPackage(p) ==> path == symlinkInstaller.installPath(p)
      ensures !isSharedPackage(p) ==> path == defaultInstaller.installPath(p)
    {
      Queries(Route(p)).installPath(p)
    }

    /** isInstalled: exactly the chosen installer's answer, for every repository. */
    function IsInstalled(repo: Repository, p: Package): (installed: bool)
      ensures isSharedPackage(p) ==> installed == symlinkInstaller.isInstalled(repo, p)
      ensures !isSharedPackage(p) ==> installed == defaultInstaller.isInstalled(repo, p)
    {
      Queries(Route(p)).isInstalled(repo, p)
    }

    /** supports: the router claims every package type. */
    function Supports(packageType: string): (supported: bool)
      ensures supported
    {
      true
    }

    /** The delegate calls install makes: exactly one, routed by classification. */
    function InstallCalls(repo: Repository, p: Package): (cs: seq<Call>)
      ensures |cs| == 1 && cs[0].InstallCall? && Routed(cs[0])
      ensures cs[0].repo == repo && cs[0].pkg == p
    {
      [InstallCall(Route(p), repo, p)]
    }

    /** What update does: the default installer when neither package is shared,
        otherwise the shared installer behind a repository check on initial. */
    function UpdateStep(repo: Repository, initial: Package, target: Package): (st: Step)
      ensures st.outcome.Failed? <==>
                (isSharedPackage(initial) || isSharedPackage(target)) && !HasPackage(repo, initial)
      ensures st.outcome.Failed? ==>
                st.outcome.message == NotInstalledMessage(initial.prettyName) && st.calls == []
      ensures st.outcome == Done ==>
                |st.calls| == 1 && st.calls[0].UpdateCall? && Routed(st.calls[0]) &&
                st.calls[0].repo == repo && st.calls[0].initial == initial && st.calls[0].target == target
      ensures st.outcome == Done ==>
                (st.calls[0].via == Default <==> !isSharedPackage(initial) && !isSharedPackage(target))
    {
      var via := UpdateRoute(initial, target);
      if via == Shared && !HasPackage(repo, initial) then
        Step(Failed(NotInstalledMessage(initial.prettyName)), [])
      else
        Step(Done, [UpdateCall(via, repo, initial, target)])
    }

    /** What uninstall does: the shared installer behind a repository check,
        or the default installer with no check. */
    function UninstallStep(repo: Repository, p: Package): (st: Step)
      ensures st.outcome.Failed? <==> isSharedPackage(p) && !HasPackage(repo, p)
      ensures st.outcome.Failed? ==>
                st.outcome.message == NotInstalledMessage(p.prettyName) && st.calls == []
      ensures st.outcome == Done ==>
                |st.calls| == 1 && st.calls[0].UninstallCall? && Routed(st.calls[0]) &&
                st.calls[0].repo == repo && st.calls[0].pkg == p
    {
      var via := Route(p);
      if via == Shared && !HasPackage(repo, p) then
        Step(Failed(NotInstalledMessage(p.prettyName)), [])
      else
        Step(Done, [UninstallCall(via, repo, p)])
    }

    method Install(repo: Repository, p: Package)
      requires Valid()
      modifies this`calls
      ensures Valid()
      ensures calls == old(calls) + InstallCalls(repo, p)
    {
      if isSharedPackage(p) {
        calls := calls + [InstallCall(Shared, repo, p)];
      } else {
        calls := calls + [InstallCall(Default, repo, p)];
      }
    }

    method Update(repo: Repository, initial: Package, target: Package) returns (outcome: Outcome)
      requires Valid()
      modifies this`calls
      ensures Valid()
      ensures outcome == UpdateStep(repo, initial, target).outcome
      ensures calls == old(calls) + UpdateStep(repo, initial, target).calls
    {
      if !isSharedPackage(initial) && !isSharedPackage(target) {
        calls := calls + [UpdateCall(Default, repo, initial, target)];
      } else {
        if !HasPackage(repo, initial) {
          return Failed(NotInstalledMessage(initial.prettyName));
        }
        calls := calls + [UpdateCall(Shared, repo, initial, target)];
      }
      outcome := Done;
    }

    method Uninstall(repo: Repository, p: Package) returns (outcome: Outcome)
      requires Valid()
      modifies this`calls
      ensures Valid()
      ensures outcome == UninstallStep(repo, p).outcome
      ensures calls == old(calls) + UninstallStep(repo, p).calls
    {
      if isSharedPackage(p) {
        if !HasPackage(repo, p) {
          return Failed(NotInstalledMessage(p.prettyName));
        }
        calls := calls + [UninstallCall(Shared, repo, p)];
      } else {
        calls := calls + [UninstallCall(Default, repo, p)];
      }
      outcome := Done;
    }

    /** download: a no-op that returns null and may change nothing. */
    method Download(p: Package, prevPackage: Option<Package>) returns (promise: Option<Promise>)
      ensures promise == None
    {
      promise := None;
    }

    /** prepare: a no-op that returns null and may change nothing. */
    method Prepare(operationType: string, p: Package, prevPackage: Option<Package>) returns (promise: Option<Promise>)
      ensures promise == None
    {
      promise := None;
    }

    /** cleanup: a no-op that returns null and may change nothing. */
    method Cleanup(operationType: string, p: Package, prevPackage: Option<Package>) returns (promise: Option<Promise>)
      ensures promise == None
    {
      promise := None;
    }
  }

  /** On the default path update makes no repository check: its effect is the
      same for every repository. */
  lemma UpdateDefaultPathIgnoresRepository(
    s: SharedPackageInstallerSolver, repo1: Repository, repo2: Repository, initial: Package, target: Package)
    requires !s.isSharedPackage(initial) && !s.isSharedPackage(target)
    ensures s.UpdateStep(repo1, initial, target).outcome == s.UpdateStep(repo2, initial, target).outcome == Done
    ensures s.UpdateStep(repo1, initial, target).calls[0].via == s.UpdateStep(repo2, initial, target).calls[0].via == Default
  {
  }

  /** On the default path uninstall makes no repository check either. */
  lemma UninstallDefaultPathIgnoresRepository(s: SharedPackageInstallerSolver, repo1: Repository, repo2: Repository, p: Package)
    requires !s.isSharedPackage(p)
    ensures s.UninstallStep(repo1, p).outcome == s.UninstallStep(repo2, p).outcome == Done
    ensures s.UninstallStep(repo1, p).calls[0].via == s.UninstallStep(repo2, p).calls[0].via == Default
  {
  }

  /** Update routing agrees with single-package routing: it is symmetric in its
      two packages, and an update of a package to itself goes where install would. */
  lemma UpdateRouteAgreesWithRoute(s: SharedPackageInstallerSolver, initial: Package, target: Package)
    ensures s.UpdateRoute(initial, target) == s.UpdateRoute(target, initial)
    ensures s.UpdateRoute(initial, initial) == s.Route(initial)
    ensures s.Route(initial) == Shared ==> s.UpdateRoute(initial, target) == Shared
  {
  }

  /** A failed update and a failed uninstall report the same message only when
      they concern packages with the same pretty name. */
  lemma FailureMessageIdentifiesPackage(
    s: SharedPackageInstallerSolver, repo1: Repository, initial: Package, target: Package, repo2: Repository, p: Package)
    requires s.UpdateStep(repo1, initial, target).outcome.Failed?
    requires s.UninstallStep(repo2, p).outcome.Failed?
    ensures s.UpdateStep(repo1, initial, target).outcome == s.UninstallStep(repo2, p).outcome <==>
            initial.prettyName == p.prettyName
  {
    NotInstalledMessageNamesPackage(initial.prettyName, p.prettyName);
  }
}
