/** An abstract file system: absolute or relative path strings mapped to directories and file contents. */
module FileStore {
  import opened Common

  datatype Node = Dir | File(bytes: seq<Byte>)

  type Disk = map<string, Node>

  /** What is found at a path; the empty path names nothing. */
  function At(disk: Disk, path: string): Option<Node> {
    if path != "" && path in disk then Some(disk[path]) else None
  }

  /** A result together with the disk it leaves behind. */
  datatype Stored<+T> = Stored(disk: Disk, result: Outcome<T>)

  // ---------------------------------------------------------------- path strings

  function LastSlash(path: string): (i: int)
    ensures -1 <= i < |path|
  {
    if path == "" then -1
    else if path[|path| - 1] == '/' then |path| - 1
    else LastSlash(path[..|path| - 1])
  }

  /** The directory part; empty for a name in the working directory or in the root. */
  function Parent(path: string): (p: string)
    ensures path != "" ==> |p| < |path|
  {
    if LastSlash(path) == -1 then "" else path[..LastSlash(path)]
  }

  function Join(dir: string, name: string): string {
    dir + "/" + name
  }

  lemma {:induction false} ParentOfJoin(dir: string, name: string)
    requires '/' !in name
    ensures LastSlash(Join(dir, name)) == |dir|
    ensures Parent(Join(dir, name)) == dir
  {
    var path := Join(dir, name);
    if name == "" {
      assert path == dir + "/";
    } else {
      var init := name[..|name| - 1];
      ParentOfJoin(dir, init);
      assert path[..|path| - 1] == Join(dir, init);
      assert path[|path| - 1] == name[|name| - 1];
    }
  }

  /** Joining plain names to directories loses nothing. */
  lemma JoinInjective(d1: string, n1: string, d2: string, n2: string)
    requires '/' !in n1 && '/' !in n2
    requires Join(d1, n1) == Join(d2, n2)
    ensures d1 == d2 && n1 == n2
  {
    ParentOfJoin(d1, n1);
    ParentOfJoin(d2, n2);
    assert Join(d1, n1)[|d1| + 1..] == n1 && Join(d2, n2)[|d2| + 1..] == n2;
  }

  function Digits(n: nat): string {
    if n < 10 then ["0123456789"[n]] else Digits(n / 10) + ["0123456789"[n % 10]]
  }

  lemma {:induction false} DigitsPlain(n: nat)
    ensures Digits(n) != "" && forall i :: 0 <= i < |Digits(n)| ==> '0' <= Digits(n)[i] <= '9'
  {
    if n >= 10 {
      DigitsPlain(n / 10);
    }
  }

  lemma {:induction false} DigitsInjective(m: nat, n: nat)
    requires Digits(m) == Digits(n)
    ensures m == n
  {
    var dm, dn := Digits(m), Digits(n);
    assert dm[|dm| - 1] == "0123456789"[m % 10] && dn[|dn| - 1] == "0123456789"[n % 10];
    DigitsPlain(m / 10);
    DigitsPlain(n / 10);
    if m >= 10 && n >= 10 {
      assert dm[..|dm| - 1] == Digits(m / 10) && dn[..|dn| - 1] == Digits(n / 10);
      DigitsInjective(m / 10, n / 10);
    }
  }

  // ---------------------------------------------------------------- operations

  predicate DirectoryExists(disk: Disk, dir: string) {
    dir == "" || At(disk, dir) == Some(Dir)
  }

  /** `File::create` succeeds unless the path is a directory or its parent is none. */
  predicate CanCreate(disk: Disk, path: string) {
    path != "" && At(disk, path) != Some(Dir) && DirectoryExists(disk, Parent(path))
  }

  function CreateFile(disk: Disk, path: string, bytes: seq<Byte>): Outcome<Disk> {
    if CanCreate(disk, path) then Ok(disk[path := File(bytes)]) else Err(Io)
  }

  function ReadFile(disk: Disk, path: string): Outcome<seq<Byte>> {
    match At(disk, path)
    case Some(File(bytes)) => Ok(bytes)
    case _ => Err(Io)
  }

  /** One file, then another; the first stays when the second fails. */
  function CreateBoth(disk: Disk, path1: string, bytes1: seq<Byte>, path2: string, bytes2: seq<Byte>): Stored<()> {
    match CreateFile(disk, path1, bytes1)
    case Ok(disk1) =>
      (match CreateFile(disk1, path2, bytes2)
       case Ok(disk2) => Stored(disk2, Ok(()))
       case failed => Stored(disk1, failed.PropagateFailure()))
    case failed => Stored(disk, failed.PropagateFailure())
  }

  lemma CreateBothExact(disk: Disk, path1: string, bytes1: seq<Byte>, path2: string, bytes2: seq<Byte>)
    requires path1 != path2 && Parent(path2) != path1
    ensures var written := CreateBoth(disk, path1, bytes1, path2, bytes2);
            && (written.result.Ok? <==> CanCreate(disk, path1) && CanCreate(disk, path2))
            && (written.result.Ok? ==>
                At(written.disk, path1) == Some(File(bytes1)) && At(written.disk, path2) == Some(File(bytes2)))
            && forall q :: q != path1 && (q != path2 || !written.result.Ok?) ==> At(written.disk, q) == At(disk, q)
  {
  }

  /** `fs::create_dir_all` */
  function CreateDirAll(disk: Disk, path: string): Outcome<Disk>
    decreases |path|
  {
    if path == "" then Ok(disk)
    else
      match At(disk, path)
      case Some(Dir) => Ok(disk)
      case Some(File(_)) => Err(Io)
      case None =>
        var above :- CreateDirAll(disk, Parent(path));
        Ok(above[path := Dir])
  }

  /** Existing nodes stay what they are; new ones may appear. */
  ghost predicate Extends(disk: Disk, disk': Disk) {
    forall q :: q in disk ==> q in disk' && disk'[q] == disk[q]
  }

  /** Creating directories touches no existing node and adds only directories on the way to `path`. */
  lemma {:induction false} CreateDirAllExact(disk: Disk, path: string)
    ensures match CreateDirAll(disk, path)
            case Ok(disk') =>
              && DirectoryExists(disk', path)
              && Extends(disk, disk')
              && forall q :: q in disk' && q !in disk ==> disk'[q] == Dir && q <= path
            case Err(e) => e == Io
            case Panic => false
    decreases |path|
  {
    if path != "" && At(disk, path) == None {
      CreateDirAllExact(disk, Parent(path));
    }
  }

  /** The directory `k` levels above a path; the path itself for 0. */
  function Above(path: string, k: nat): string
    decreases k
  {
    if k == 0 then path else Above(Parent(path), k - 1)
  }

  /** No file is in the way `k` levels up: there is none, or some directory below it is already there. */
  ghost predicate FreeWay(disk: Disk, path: string, k: nat) {
    At(disk, Above(path, k)).Some? && At(disk, Above(path, k)).value.File? ==>
      exists j: nat :: j < k && At(disk, Above(path, j)) == Some(Dir)
  }

  /** Directories can be made exactly if no file is in the way. */
  lemma {:induction false} CreateDirAllSucceedsIff(disk: Disk, path: string)
    ensures CreateDirAll(disk, path).Ok? <==>
            forall k: nat :: FreeWay(disk, path, k)
    decreases |path|
  {
    if path == "" {
      forall k: nat ensures FreeWay(disk, path, k) { AboveNothing(k); }
    } else if At(disk, path).Some? {
      assert Above(path, 0) == path && FreeWay(disk, path, 0) == (At(disk, path) == Some(Dir));
      forall k: nat | At(disk, path) == Some(Dir) ensures FreeWay(disk, path, k) {
        assert k > 0 ==> At(disk, Above(path, 0)) == Some(Dir);
      }
    } else {
      var up := Parent(path);
      CreateDirAllSucceedsIff(disk, up);
      assert Above(path, 0) == path;
      forall k: nat ensures Above(path, k + 1) == Above(up, k) {
      }
      forall k: nat ensures FreeWay(disk, path, k + 1) == FreeWay(disk, up, k) {
        if j: nat :| j < k && At(disk, Above(up, j)) == Some(Dir) {
          assert At(disk, Above(path, j + 1)) == Some(Dir);
        }
        if j: nat :| j < k + 1 && At(disk, Above(path, j)) == Some(Dir) {
          assert j > 0 && Above(path, j) == Above(up, j - 1);
        }
      }
      assert FreeWay(disk, path, 0);
      forall k: nat ensures k == 0 || FreeWay(disk, path, k) == FreeWay(disk, up, k - 1) {
        assert k > 0 ==> FreeWay(disk, path, (k - 1) + 1) == FreeWay(disk, up, k - 1);
      }
      if forall k: nat :: FreeWay(disk, path, k) {
        forall k: nat ensures FreeWay(disk, up, k) { assert FreeWay(disk, path, k + 1); }
      }
    }
  }

  lemma {:induction false} AboveNothing(k: nat)
    ensures Above("", k) == ""
  {
    if k > 0 {
      AboveNothing(k - 1);
    }
  }

  /** The mutable store behind the file operations. */
  class Store {
    var disk: Disk

    constructor (disk: Disk)
      ensures this.disk == disk
    {
      this.disk := disk;
    }

    method Create(path: string, bytes: seq<Byte>) returns (r: Outcome<()>)
      modifies this
      ensures match CreateFile(old(disk), path, bytes)
              case Ok(disk') => r == Ok(()) && disk == disk'
              case failed => r == failed.PropagateFailure() && disk == old(disk)
    {
      if !CanCreate(disk, path) {
        return Err(Io);
      }
      disk := disk[path := File(bytes)];
      return Ok(());
    }

    method MakeDirAll(path: string) returns (r: Outcome<()>)
      modifies this
      ensures match CreateDirAll(old(disk), path)
              case Ok(disk') => r == Ok(()) && disk == disk'
              case failed => r == failed.PropagateFailure() && disk == old(disk)
    {
      var made :- CreateDirAll(disk, path);
      disk := made;
      return Ok(());
    }
  }
}
