/** Where the listing looks: the home trash, then for every volume the two
    top-level trash layouts. */
module Locator {
  import opened Wrappers
  import opened Text
  import opened FileSystem

  /** An info directory to scan, with the volume root that is prefixed onto
      the paths of its records (none for the home trash). */
  datatype TrashDir = TrashDir(infoDir: string, volume: Option<string>)

  /** The user id could not be obtained: the platform's `getuid` failed. */
  datatype LocateError = UidUnavailable

  /** `$XDG_DATA_HOME/Trash/info`, or `<home>/.local/share/Trash/info` when
      the variable is unset. */
  function HomeInfoDir(environ: map<string, string>, home: string): (r: string)
    ensures "XDG_DATA_HOME" in environ ==> r == environ["XDG_DATA_HOME"] + "/Trash/info"
    ensures "XDG_DATA_HOME" !in environ ==> r == home + "/.local/share/Trash/info"
  {
    var dataHome := if "XDG_DATA_HOME" in environ then environ["XDG_DATA_HOME"] else home + "/.local/share";
    dataHome + "/Trash/info"
  }

  /** The shared top-level trash: `<volume>/.Trash`. */
  function SharedTrash(volume: string): (r: string)
    ensures r == Join(volume, ".Trash")
  {
    volume + "/.Trash"
  }

  /** Method 1: `<volume>/.Trash/<uid>/info`. */
  function Method1InfoDir(volume: string, uid: nat): (r: string)
    ensures r == Join(Join(SharedTrash(volume), Decimal(uid)), "info")
    ensures StartsWith(r, SharedTrash(volume) + "/")
  {
    SharedTrash(volume) + "/" + Decimal(uid) + "/info"
  }

  /** Method 2: `<volume>/.Trash-<uid>/info`. */
  function Method2InfoDir(volume: string, uid: nat): (r: string)
    ensures r == Join(Join(volume, ".Trash-" + Decimal(uid)), "info")
    ensures !StartsWith(r, SharedTrash(volume) + "/")
  {
    var r := volume + "/.Trash-" + Decimal(uid) + "/info";
    assert r[|volume| + 7] == '-' && (SharedTrash(volume) + "/")[|volume| + 7] == '/';
    r
  }

  /** The two layouts never name the same directory. */
  lemma MethodsDiffer(volume: string, uid: nat)
    ensures Method1InfoDir(volume, uid) != Method2InfoDir(volume, uid)
  {
    var m1, m2 := Method1InfoDir(volume, uid), Method2InfoDir(volume, uid);
    assert m1[|volume| + 7] == '/';
    assert m2[|volume| + 7] == '-';
  }

  /** The trash directories of one volume: method 1 only when the shared
      `.Trash` is a sticky directory, then method 2 without any check. */
  function VolumeTrashDirs(fs: Tree, volume: string, uid: nat): (r: seq<TrashDir>)
    ensures |r| == if IsStickyDir(fs, SharedTrash(volume)) then 2 else 1
    ensures forall i :: 0 <= i < |r| ==> r[i].volume == Some(volume)
    ensures r[|r| - 1] == TrashDir(Method2InfoDir(volume, uid), Some(volume))
    ensures |r| == 2 ==> r[0] == TrashDir(Method1InfoDir(volume, uid), Some(volume))
  {
    var method2 := [TrashDir(Method2InfoDir(volume, uid), Some(volume))];
    if IsStickyDir(fs, SharedTrash(volume))
    then [TrashDir(Method1InfoDir(volume, uid), Some(volume))] + method2
    else method2
  }

  /** The top-level trash directories of all volumes, volume by volume. */
  function TopTrashDirs(fs: Tree, volumes: seq<string>, uid: nat): (r: seq<TrashDir>)
    ensures forall i :: 0 <= i < |r| ==> r[i].volume.Some? && r[i].volume.value in volumes
    ensures forall i :: 0 <= i < |r| ==>
      r[i].infoDir == Method2InfoDir(r[i].volume.value, uid) ||
      (r[i].infoDir == Method1InfoDir(r[i].volume.value, uid) && IsStickyDir(fs, SharedTrash(r[i].volume.value)))
  {
    if volumes == [] then []
    else VolumeTrashDirs(fs, volumes[0], uid) + TopTrashDirs(fs, volumes[1..], uid)
  }

  /** Every directory to scan, in scanning order. The user id is only needed
      for the volumes: with no volume a failing `getuid` is never called. */
  function Locate(fs: Tree, homeInfoDir: string, volumes: seq<string>, uid: Option<nat>): (r: Result<seq<TrashDir>, LocateError>)
    ensures r.Ok? <==> volumes == [] || uid.Some?
    ensures r.Ok? ==> |r.value| >= 1 && r.value[0] == TrashDir(homeInfoDir, None)
    ensures r.Ok? ==> forall i :: 1 <= i < |r.value| ==> r.value[i].volume.Some?
  {
    if volumes == [] then Ok([TrashDir(homeInfoDir, None)])
    else match uid
      case None => Err(UidUnavailable)
      case Some(u) => Ok([TrashDir(homeInfoDir, None)] + TopTrashDirs(fs, volumes, u))
  }

  /** Without volumes only the home trash is scanned, whatever the uid. */
  lemma LocateWithoutVolumes(fs: Tree, homeInfoDir: string, uid: Option<nat>)
    ensures Locate(fs, homeInfoDir, [], uid) == Ok([TrashDir(homeInfoDir, None)])
  {
  }

  /** Volumes are visited in the order they were supplied. */
  lemma {:induction false} TopTrashDirsAppend(fs: Tree, vs1: seq<string>, vs2: seq<string>, uid: nat)
    ensures TopTrashDirs(fs, vs1 + vs2, uid) == TopTrashDirs(fs, vs1, uid) + TopTrashDirs(fs, vs2, uid)
  {
    if vs1 != [] {
      assert (vs1 + vs2)[1..] == vs1[1..] + vs2 && (vs1 + vs2)[0] == vs1[0];
      TopTrashDirsAppend(fs, vs1[1..], vs2, uid);
      var head := VolumeTrashDirs(fs, vs1[0], uid);
      assert TopTrashDirs(fs, vs1 + vs2, uid) == head + TopTrashDirs(fs, vs1[1..] + vs2, uid);
      AppendAssoc(head, TopTrashDirs(fs, vs1[1..], uid), TopTrashDirs(fs, vs2, uid));
    } else {
      assert vs1 + vs2 == vs2;
    }
  }

  /** A volume's method-1 directory is scanned exactly when the volume is
      listed and its shared `.Trash` is a sticky directory. */
  lemma {:induction false} Method1Scanned(fs: Tree, volumes: seq<string>, uid: nat, v: string)
    ensures TrashDir(Method1InfoDir(v, uid), Some(v)) in TopTrashDirs(fs, volumes, uid)
      <==> v in volumes && IsStickyDir(fs, SharedTrash(v))
  {
    var d := TrashDir(Method1InfoDir(v, uid), Some(v));
    if volumes != [] {
      Method1Scanned(fs, volumes[1..], uid, v);
      MethodsDiffer(v, uid);
      var head := VolumeTrashDirs(fs, volumes[0], uid);
      assert d in head <==> volumes[0] == v && IsStickyDir(fs, SharedTrash(v));
      assert volumes == [volumes[0]] + volumes[1..];
    }
  }

  /** A volume's method-2 directory is scanned exactly when the volume is
      listed: no sticky check gates it. */
  lemma {:induction false} Method2Scanned(fs: Tree, volumes: seq<string>, uid: nat, v: string)
    ensures TrashDir(Method2InfoDir(v, uid), Some(v)) in TopTrashDirs(fs, volumes, uid) <==> v in volumes
  {
    if volumes != [] {
      Method2Scanned(fs, volumes[1..], uid, v);
      var d := TrashDir(Method2InfoDir(v, uid), Some(v));
      var head := VolumeTrashDirs(fs, volumes[0], uid);
      assert volumes[0] == v ==> d == head[|head| - 1];
      assert TopTrashDirs(fs, volumes, uid) == head + TopTrashDirs(fs, volumes[1..], uid);
      assert volumes == [volumes[0]] + volumes[1..];
    }
  }
}
