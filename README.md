# Shared package installer router, modelled in Dafny

The Composer Shared Package Plugin installs some packages ("shared" packages) once into a
shared store and links them into a project's vendor directory. Other packages go through
Composer's stock `LibraryInstaller`. The class `SharedPackageInstallerSolver` is the
installer that Composer sees. For every operation of Composer's installer interface, it
routes the package to one of two delegates:

- the symlink-based `SharedPackageInstaller`, or
- the default `LibraryInstaller`.

The choice comes from the classifier `SharedPackageSolver::isSharedPackage`.

`installer_solver.dfy` (module `InstallerSolver`) models that class:

- The classifier is a function value `isSharedPackage: Package -> bool` that the constructor receives.
- Each delegate's read-only queries (`getInstallPath`, `isInstalled`) are function values in an `InstallerQueries` record.
- Each `install`, `update` and `uninstall` call made on a delegate is appended to the
  object's `calls` log. The log entry carries the strategy called and the exact arguments passed on.
- The installed repository is a set of packages, and `hasPackage` is set membership.
- The `InvalidArgumentException` the router throws is the outcome `Failed(message)`.
- `Routed` states, call by call, which delegate may receive a call. `Valid()` says that every logged call is `Routed`.
- The pure functions `InstallCalls`, `UpdateStep` and `UninstallStep` give the outcome and the
  delegate calls of each operation. The methods `Install`, `Update` and `Uninstall` are proved against them.

The "package is not installed" check belongs to the router itself. It is made on the shared path
only (lines 118 and 135), before the shared installer is called. Any checks the shared installer
makes of its own are not part of this model.

## Model

| member | source | states |
|---|---|---|
| InstallerSolver.SharedPackageInstallerSolver.constructor | src/LEtudiant/Composer/Installer/Solver/SharedPackageInstallerSolver.php:54-63 | the router keeps the classifier and both delegates it is given; its call log starts empty and satisfies Valid() |
| InstallerSolver.SharedPackageInstallerSolver.Route | src/LEtudiant/Composer/Installer/Solver/SharedPackageInstallerSolver.php:85-92 | a single-package operation goes to the shared installer exactly when the package is classified shared |
| InstallerSolver.SharedPackageInstallerSolver.UpdateRoute | src/LEtudiant/Composer/Installer/Solver/SharedPackageInstallerSolver.php:114-123 | an update goes to the default installer exactly when both packages would each go to the default installer |
| InstallerSolver.SharedPackageInstallerSolver.GetInstallPath | src/LEtudiant/Composer/Installer/Solver/SharedPackageInstallerSolver.php:72-79 | the install path is the shared installer's path for a shared package and the default installer's path otherwise |
| InstallerSolver.SharedPackageInstallerSolver.IsInstalled | src/LEtudiant/Composer/Installer/Solver/SharedPackageInstallerSolver.php:100-107 | the answer is exactly the chosen installer's answer, for every repository, including one that lacks the package |
| InstallerSolver.SharedPackageInstallerSolver.Supports | src/LEtudiant/Composer/Installer/Solver/SharedPackageInstallerSolver.php:150-155 | every package type is supported |
| InstallerSolver.SharedPackageInstallerSolver.InstallCalls | src/LEtudiant/Composer/Installer/Solver/SharedPackageInstallerSolver.php:85-92 | install makes exactly one delegate call, with the same repository and package, and that call is Routed |
| InstallerSolver.SharedPackageInstallerSolver.UpdateStep | src/LEtudiant/Composer/Installer/Solver/SharedPackageInstallerSolver.php:112-124 | update fails exactly when a package is shared and the repository lacks the initial one; the failure message is "Package is not installed : " plus the initial pretty name, and no delegate is called; otherwise exactly one Routed call is made with the same repository, initial and target, to the default installer exactly when neither package is shared |
| InstallerSolver.SharedPackageInstallerSolver.UninstallStep | src/LEtudiant/Composer/Installer/Solver/SharedPackageInstallerSolver.php:132-143 | uninstall fails exactly when the package is shared and missing from the repository, with the not-installed message and no delegate call; otherwise exactly one Routed call is made with the same repository and package |
| InstallerSolver.SharedPackageInstallerSolver.Install | src/LEtudiant/Composer/Installer/Solver/SharedPackageInstallerSolver.php:85-92 | appends exactly InstallCalls to the log and keeps every logged call Routed |
| InstallerSolver.SharedPackageInstallerSolver.Update | src/LEtudiant/Composer/Installer/Solver/SharedPackageInstallerSolver.php:112-124 | returns UpdateStep's outcome, appends exactly its calls to the log, and keeps every logged call Routed |
| InstallerSolver.SharedPackageInstallerSolver.Uninstall | src/LEtudiant/Composer/Installer/Solver/SharedPackageInstallerSolver.php:132-143 | returns UninstallStep's outcome, appends exactly its calls to the log, and keeps every logged call Routed |
| InstallerSolver.SharedPackageInstallerSolver.Download | src/LEtudiant/Composer/Installer/Solver/SharedPackageInstallerSolver.php:164-168 | returns null; it has no modifies clause, so it makes no delegate call and changes no state |
| InstallerSolver.SharedPackageInstallerSolver.Prepare | src/LEtudiant/Composer/Installer/Solver/SharedPackageInstallerSolver.php:183-187 | returns null; it has no modifies clause, so it makes no delegate call and changes no state |
| InstallerSolver.SharedPackageInstallerSolver.Cleanup | src/LEtudiant/Composer/Installer/Solver/SharedPackageInstallerSolver.php:201-205 | returns null; it has no modifies clause, so it makes no delegate call and changes no state |
| InstallerSolver.NotInstalledMessageNamesPackage | src/LEtudiant/Composer/Installer/Solver/SharedPackageInstallerSolver.php:118-120 | two not-installed messages are equal exactly when the pretty names are equal, so the message identifies the package |
| InstallerSolver.UpdateDefaultPathIgnoresRepository | src/LEtudiant/Composer/Installer/Solver/SharedPackageInstallerSolver.php:114-116 | when neither package is shared, update succeeds through the default installer whatever the repository holds, so no repository check is made |
| InstallerSolver.UninstallDefaultPathIgnoresRepository | src/LEtudiant/Composer/Installer/Solver/SharedPackageInstallerSolver.php:140-142 | a non-shared package is uninstalled through the default installer whatever the repository holds |
| InstallerSolver.UpdateRouteAgreesWithRoute | src/LEtudiant/Composer/Installer/Solver/SharedPackageInstallerSolver.php:114-123 | update routing is symmetric in its two packages; updating a package to itself goes where install would; a shared initial package always sends the update to the shared installer |
| InstallerSolver.FailureMessageIdentifiesPackage | src/LEtudiant/Composer/Installer/Solver/SharedPackageInstallerSolver.php:132-137 | a failed update and a failed uninstall report the same message exactly when their packages have the same pretty name |

## Left out

- The body of `SharedPackageSolver::isSharedPackage` is not part of this model. The classifier is a given total function, so classifying a package never depends on the repository.
- `SharedPackageInstaller` and `LibraryInstaller` are not part of this model. Their install, update and uninstall calls are log entries. What they do to the repository and the filesystem is not modelled, and neither are the exceptions they throw themselves.
- The `SymlinkFilesystem` field (line 31) is declared but never used by the router, so it has no counterpart.
- Composer's promise objects are represented only by the null result of `download`, `prepare` and `cleanup`. The download/prepare/cleanup pipeline around them is Composer's own code.
- The PHP exception class hierarchy is reduced to one outcome, `Failed`, that carries the message.
- `hasPackage` is modelled as membership in a set of package values. How Composer's repositories compare package objects is not modelled.
- Plugin activation and configuration parsing, which the unit test exercises with mocks, are not part of this model.
