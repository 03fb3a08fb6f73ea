/**
 * Locating Mountebank (`mountepy/mb_mgmt.py`): the `mb` command when
 * Mountebank is installed, otherwise node and mb from a standalone
 * distribution unpacked in a cache directory; and the module-level cache of
 * the resulting command. The file system is given as the listing of each
 * directory, in `os.listdir` order.
 */
module MbMgmt {
  import opened Wrappers
  import opened Text

  /** Directory listings by path; a path without a listing does not exist. */
  type Listings = map<string, seq<string>>

  /** `MBStandaloneBrokenError(message)`, or the `FileNotFoundError` of listing a missing directory. */
  datatype MbError = StandaloneBroken(message: string) | FileNotFound(path: string)

  const MbDirPrefix: string := "mountebank-v"
  const NodeDirPrefix: string := "node-v"
  const NoMbDistributionMessage: string :=
    "No Mountebank distribution found! It should have been automatically downloaded earlier"
  const NoNodeMessage: string :=
    "No NodeJS distribution found in Mountebank distribution! WTF? Distribution dir: "
  const NodeBinary: string := "bin/node"
  const MbScript: string := "mountebank/bin/mb"

  /** `os.path.join(a, b)` on POSIX. */
  function PathJoin(a: string, b: string): (r: string)
    ensures EndsWith(r, b)
    ensures a != [] && !StartsWith(b, "/") ==> StartsWith(r, a) && EndsWith(r, "/" + b)
  {
    if StartsWith(b, "/") then b
    else if a == [] || a[|a| - 1] == '/' then a + b
    else a + "/" + b
  }

  /** Joining onto a directory without a trailing slash inserts one slash. */
  lemma PathJoinPlain(a: string, b: string)
    requires a != [] && a[|a| - 1] != '/' && !StartsWith(b, "/")
    ensures PathJoin(a, b) == a + "/" + b
  {
  }

  /** Entry i is the first in the listing that starts with the prefix. */
  predicate IsFirstWithPrefix(entries: seq<string>, prefix: string, i: nat) {
    && i < |entries|
    && StartsWith(entries[i], prefix)
    && forall j :: 0 <= j < i ==> !StartsWith(entries[j], prefix)
  }

  /** `next(e for e in entries if e.startswith(prefix))`, by position; None for `StopIteration`. */
  function FirstWithPrefix(entries: seq<string>, prefix: string): (r: Option<nat>)
    ensures r.Some? ==> IsFirstWithPrefix(entries, prefix, r.value)
    ensures r.None? ==> forall j :: 0 <= j < |entries| ==> !StartsWith(entries[j], prefix)
    decreases |entries|
  {
    if entries == [] then None
    else if StartsWith(entries[0], prefix) then Some(0)
    else
      match FirstWithPrefix(entries[1..], prefix)
      case None => None
      case Some(i) => Some(i + 1)
  }

  /**
   * `_get_mb_dir(cache_dir)`: the cache directory joined with its first
   * entry starting with `mountebank-v`; `MBStandaloneBrokenError` when there
   * is none.
   */
  function GetMbDir(disk: Listings, cacheDir: string): (r: Result<string, MbError>)
    ensures cacheDir !in disk ==> r == Failure(FileNotFound(cacheDir))
    ensures cacheDir in disk ==>
      (r.Success? <==> exists j :: 0 <= j < |disk[cacheDir]| && StartsWith(disk[cacheDir][j], MbDirPrefix))
    ensures cacheDir in disk && r.Failure? ==> r.error == StandaloneBroken(NoMbDistributionMessage)
    ensures r.Success? ==>
      exists i: nat ::
        IsFirstWithPrefix(disk[cacheDir], MbDirPrefix, i) && r.value == PathJoin(cacheDir, disk[cacheDir][i])
    ensures r.Success? ==> r.value != []
  {
    if cacheDir !in disk then Failure(FileNotFound(cacheDir))
    else
      var entries := disk[cacheDir];
      match FirstWithPrefix(entries, MbDirPrefix)
      case None => Failure(StandaloneBroken(NoMbDistributionMessage))
      case Some(i) =>
        assert EndsWith(PathJoin(cacheDir, entries[i]), entries[i]);
        Success(PathJoin(cacheDir, entries[i]))
  }

  /**
   * `_get_node_path(mb_dir)`: `bin/node` inside the distribution's first
   * entry starting with `node-v`; `MBStandaloneBrokenError` naming the
   * distribution directory when there is none.
   */
  function GetNodePath(disk: Listings, mbDir: string): (r: Result<string, MbError>)
    ensures mbDir !in disk ==> r == Failure(FileNotFound(mbDir))
    ensures mbDir in disk ==>
      (r.Success? <==> exists j :: 0 <= j < |disk[mbDir]| && StartsWith(disk[mbDir][j], NodeDirPrefix))
    ensures mbDir in disk && r.Failure? ==> r.error == StandaloneBroken(NoNodeMessage + mbDir)
    ensures r.Success? ==>
      exists i: nat ::
        IsFirstWithPrefix(disk[mbDir], NodeDirPrefix, i) && r.value == PathJoin(PathJoin(mbDir, disk[mbDir][i]), NodeBinary)
    ensures r.Success? ==> EndsWith(r.value, "/" + NodeBinary)
  {
    if mbDir !in disk then Failure(FileNotFound(mbDir))
    else
      var entries := disk[mbDir];
      match FirstWithPrefix(entries, NodeDirPrefix)
      case None => Failure(StandaloneBroken(NoNodeMessage + mbDir))
      case Some(i) =>
        var nodeDir := PathJoin(mbDir, entries[i]);
        assert nodeDir != [] by {
          assert EndsWith(nodeDir, entries[i]);
          assert entries[i][0] == NodeDirPrefix[0];
        }
        assert !StartsWith(NodeBinary, "/");
        var node := PathJoin(nodeDir, NodeBinary);
        assert EndsWith(node, "/" + NodeBinary);
        assert IsFirstWithPrefix(entries, NodeDirPrefix, i) && node == PathJoin(PathJoin(mbDir, entries[i]), NodeBinary);
        Success(node)
  }

  /**
   * With a cache directory written without a trailing slash, the
   * distribution directory is `cache_dir + "/" + e` for the first entry e
   * starting with `mountebank-v`.
   */
  lemma MbDirPlain(disk: Listings, cacheDir: string)
    requires cacheDir != [] && cacheDir[|cacheDir| - 1] != '/'
    requires GetMbDir(disk, cacheDir).Success?
    ensures exists i: nat ::
      IsFirstWithPrefix(disk[cacheDir], MbDirPrefix, i) && GetMbDir(disk, cacheDir).value == cacheDir + "/" + disk[cacheDir][i]
  {
    var entries := disk[cacheDir];
    var i := FirstWithPrefix(entries, MbDirPrefix).value;
    var e := entries[i];
    assert e[0] == MbDirPrefix[0];
    assert !StartsWith(e, "/") by { assert e[0] != '/'; }
    PathJoinPlain(cacheDir, e);
    assert GetMbDir(disk, cacheDir).value == cacheDir + "/" + e;
  }

  /**
   * With a distribution directory without a trailing slash whose entries do
   * not end in a slash, the node path is `mb_dir + "/" + e + "/bin/node"` for
   * the first entry e starting with `node-v`.
   */
  lemma NodePathPlain(disk: Listings, mbDir: string)
    requires mbDir != [] && mbDir[|mbDir| - 1] != '/'
    requires mbDir in disk && forall j :: 0 <= j < |disk[mbDir]| ==> !EndsWith(disk[mbDir][j], "/")
    requires GetNodePath(disk, mbDir).Success?
    ensures exists i: nat ::
      IsFirstWithPrefix(disk[mbDir], NodeDirPrefix, i)
      && GetNodePath(disk, mbDir).value == mbDir + "/" + disk[mbDir][i] + "/" + NodeBinary
  {
    var entries := disk[mbDir];
    var i := FirstWithPrefix(entries, NodeDirPrefix).value;
    var n := entries[i];
    assert n[0] == NodeDirPrefix[0];
    assert !StartsWith(n, "/") by { assert n[0] != '/'; }
    PathJoinPlain(mbDir, n);
    var nodeDir := mbDir + "/" + n;
    assert nodeDir[|nodeDir| - 1] == n[|n| - 1];
    assert !EndsWith(n, "/");
    assert n[|n| - 1] != '/' by { assert n[|n| - 1..] != "/"; }
    assert !StartsWith(NodeBinary, "/");
    PathJoinPlain(nodeDir, NodeBinary);
    assert GetNodePath(disk, mbDir).value == nodeDir + "/" + NodeBinary;
  }

  /**
   * The command `get_mb_command` produces on a given file system: `['mb']`
   * when Mountebank is installed, otherwise the node path and the mb script
   * of the standalone distribution, or the error of finding either.
   */
  ghost predicate IsMbCommandResult(r: Result<seq<string>, MbError>, mbInstalled: bool, cacheDir: string, disk: Listings) {
    if mbInstalled then r == Success(["mb"])
    else
      match GetMbDir(disk, cacheDir)
      case Failure(e) => r == Failure(e)
      case Success(mbDir) =>
        match GetNodePath(disk, mbDir)
        case Failure(e) => r == Failure(e)
        case Success(node) => r == Success([node, PathJoin(mbDir, MbScript)])
  }

  /** The file system `get_mb_command` reads: the unpacked distribution when it had to set one up. */
  function DiskAfterSetup(mbInstalled: bool, cacheDir: string, disk: Listings, unpacked: Listings): Listings {
    if !mbInstalled && cacheDir !in disk then unpacked else disk
  }

  /**
   * `_MountebankInstallManager.get_mb_command`. `mbInstalled` is the outcome
   * of running `mb help`; `unpacked` is the file system after the standalone
   * distribution has been downloaded and extracted into `cacheDir`.
   */
  method GetMbCommand(mbInstalled: bool, cacheDir: string, disk: Listings, unpacked: Listings)
    returns (r: Result<seq<string>, MbError>, setupRan: bool)
    ensures setupRan <==> !mbInstalled && cacheDir !in disk
    ensures IsMbCommandResult(r, mbInstalled, cacheDir, DiskAfterSetup(mbInstalled, cacheDir, disk, unpacked))
    ensures r.Success? && mbInstalled ==> r.value == ["mb"]
    ensures r.Success? && !mbInstalled ==>
      |r.value| == 2 && EndsWith(r.value[0], "/" + NodeBinary) && EndsWith(r.value[1], "/" + MbScript)
  {
    setupRan := false;
    if mbInstalled {
      r := Success(["mb"]);
    } else {
      var files := disk;
      if cacheDir !in files {
        files := unpacked;
        setupRan := true;
      }
      var mbDir := GetMbDir(files, cacheDir);
      if mbDir.Failure? {
        return Failure(mbDir.error), setupRan;
      }
      var nodePath := GetNodePath(files, mbDir.value);
      if nodePath.Failure? {
        return Failure(nodePath.error), setupRan;
      }
      assert !StartsWith(MbScript, "/");
      r := Success([nodePath.value, PathJoin(mbDir.value, MbScript)]);
    }
  }

  /** The module-level `_mb_command`, filled by the first call that finds a command. */
  class MbCommandCache {
    var mbCommand: Option<seq<string>>

    constructor ()
      ensures mbCommand == None
    {
      mbCommand := None;
    }

    /** Empty like `not _mb_command`: unset, or set to an empty list. */
    predicate IsEmpty()
      reads this
    {
      mbCommand.None? || mbCommand.value == []
    }

    /**
     * Module `get_mb_command`: asks the install manager only while the cache
     * is empty and keeps what it returns; an error leaves the cache as it was.
     */
    method Get(mbInstalled: bool, cacheDir: string, disk: Listings, unpacked: Listings)
      returns (r: Result<seq<string>, MbError>, computed: bool)
      modifies this
      ensures computed == old(IsEmpty())
      ensures !computed ==> r == Success(old(mbCommand).value) && mbCommand == old(mbCommand)
      ensures computed ==> IsMbCommandResult(r, mbInstalled, cacheDir, DiskAfterSetup(mbInstalled, cacheDir, disk, unpacked))
      ensures computed && r.Success? ==> mbCommand == Some(r.value) && !IsEmpty()
      ensures computed && r.Failure? ==> mbCommand == old(mbCommand)
    {
      computed := IsEmpty();
      if computed {
        var command, _ := GetMbCommand(mbInstalled, cacheDir, disk, unpacked);
        if command.Failure? {
          return command, computed;
        }
        mbCommand := Some(command.value);
      }
      r := Success(mbCommand.value);
    }
  }

  /** Once a command has been found, later calls return it whatever the file system then holds. */
  method GetTwice(
    cache: MbCommandCache,
    installed1: bool, cacheDir1: string, disk1: Listings, unpacked1: Listings,
    installed2: bool, cacheDir2: string, disk2: Listings, unpacked2: Listings)
    returns (first: Result<seq<string>, MbError>, second: Result<seq<string>, MbError>)
    modifies cache
    ensures first.Success? ==> second == first
  {
    var computed;
    first, computed := cache.Get(installed1, cacheDir1, disk1, unpacked1);
    second, computed := cache.Get(installed2, cacheDir2, disk2, unpacked2);
  }
}
