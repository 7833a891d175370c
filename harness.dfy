/** The scaffolding of the trash-list integration test: an info directory
    that numbers the records added to it, and a runner that collects what
    the command writes. */
module Harness {
  import opened Wrappers
  import opened Text
  import opened TrashInfo
  import opened FileSystem
  import opened Locator
  import opened Report
  import opened ListCommand

  /** The name `AddFile` gives its n-th record: the number in decimal,
      then the `.trashinfo` suffix. */
  function Numbered(n: nat): (r: string)
    ensures EndsWith(r, ".trashinfo")
    ensures AllDigits(r[..|r| - 10]) && NumberOf(r[..|r| - 10]) == n
  {
    var r := Decimal(n) + ".trashinfo";
    assert r[..|r| - 10] == Decimal(n);
    r
  }

  /** An info directory of the test filesystem. `AddFile` names its records
      `1.trashinfo`, `2.trashinfo`, ... in the order they are added. */
  class FakeInfoDir {
    const path: string
    var number: nat
    var pathOfLastFileAdded: Option<string>

    constructor (path: string)
      ensures this.path == path && number == 1 && pathOfLastFileAdded == None
    {
      this.path := path;
      number := 1;
      pathOfLastFileAdded := None;
    }

    /** The full path of a name relative to this directory. */
    function RealPath(relative: string): (r: string)
      ensures StartsWith(r, path + "/") && r[|path| + 1..] == relative
    {
      Join(path, relative)
    }

    method MakeFile(disk: Disk, relative: string, contents: string)
      modifies disk
      ensures disk.nodes == Place(old(disk.nodes), path, relative, File(contents))
    {
      disk.Put(path, relative, File(contents));
    }

    /** An empty record file. */
    method Touch(disk: Disk, relative: string)
      modifies disk
      ensures disk.nodes == Place(old(disk.nodes), path, relative, File(""))
    {
      MakeFile(disk, relative, "");
    }

    method MakeUnreadableFile(disk: Disk, relative: string)
      modifies disk
      ensures disk.nodes == Place(old(disk.nodes), path, relative, Unreadable)
    {
      disk.Put(path, relative, Unreadable);
    }

    /** The name the next added record gets. */
    function NextName(): (r: string)
      reads this
      ensures EndsWith(r, ".trashinfo")
    ensures AllDigits(r[..|r| - 10]) && NumberOf(r[..|r| - 10]) == number
    {
      Numbered(number)
    }

    /** Writes `contents` as the next numbered record and advances the
        counter by one. */
    method AddFile(disk: Disk, contents: string)
      modifies this, disk
      ensures number == old(number) + 1
      ensures pathOfLastFileAdded == Some(Join(path, old(NextName())))
      ensures disk.nodes == Place(old(disk.nodes), path, old(NextName()), File(contents))
    {
      var name := NextName();
      disk.Put(path, name, File(contents));
      number := number + 1;
      pathOfLastFileAdded := Some(Join(path, name));
    }

    /** Writes a serialised record as the next numbered file. */
    method AddTrashinfo(disk: Disk, escapedPathEntry: string, formattedDeletionDate: string)
      modifies this, disk
      ensures number == old(number) + 1
      ensures pathOfLastFileAdded == Some(Join(path, old(NextName())))
      ensures disk.nodes == Place(old(disk.nodes), path, old(NextName()),
                                  File(Trashinfo(escapedPathEntry, formattedDeletionDate)))
    {
      AddFile(disk, Trashinfo(escapedPathEntry, formattedDeletionDate));
    }
  }

  /** Runs the command against the test filesystem with a given
      environment, volume list and user id, and collects both streams. Its
      `getuid` fails until a fake uid is set. */
  class TrashListRunner {
    var stdout: string
    var stderr: string
    const environ: map<string, string>
    var uid: Option<nat>
    var volumes: seq<string>

    constructor (environ: map<string, string>)
      ensures this.environ == environ
      ensures stdout == "" && stderr == "" && uid == None && volumes == []
    {
      this.environ := environ;
      stdout, stderr := "", "";
      uid := None;
      volumes := [];
    }

    method SetFakeUid(uid: nat)
      modifies this
      ensures this.uid == Some(uid)
      ensures stdout == old(stdout) && stderr == old(stderr) && volumes == old(volumes)
    {
      this.uid := Some(uid);
    }

    method AddVolume(mountPoint: string)
      modifies this
      ensures volumes == old(volumes) + [mountPoint]
      ensures stdout == old(stdout) && stderr == old(stderr) && uid == old(uid)
    {
      volumes := volumes + [mountPoint];
    }

    /** Runs `trash-list` and appends what it writes to the collectors.
        `home` is where the user's home directory is. */
    method Run(disk: Disk, home: string) returns (failure: Option<LocateError>)
      modifies this
      ensures uid == old(uid) && volumes == old(volumes)
      ensures failure.None? <==> volumes == [] || uid.Some?
      ensures match Listing(disk.nodes, environ, home, volumes, uid)
        case Ok((out, err)) => stdout == old(stdout) + Concat(out) && stderr == old(stderr) + Concat(err)
        case Err(_) => stdout == old(stdout) && stderr == old(stderr)
    {
      var out, err;
      out, err, failure := ListCommand.Run(disk.nodes, environ, home, volumes, uid);
      stdout, stderr := stdout + Concat(out), stderr + Concat(err);
    }
  }
}
