/** Temporary files (internal/service/temp.go). The file system is the set of names on disk. */
module TempFiles {
  import opened Model

  /** What DeleteFile leaves on disk when the removals of the names in `stuck` fail:
      a record without tracks is refused, and then its own path stays too. */
  function RemoveFile(disk: set<Path>, f: File, stuck: set<Path>): set<Path> {
    if f.track == [] then disk else disk - (PathsOf(f) - stuck)
  }

  /** The track names before position i. */
  function FirstTracks(f: File, i: nat): set<Path>
    requires i <= |f.track|
  {
    set k | 0 <= k < i :: f.track[k].path
  }

  class TempFileService {
    var disk: set<Path>
    /** Every name NewID has drawn so far. */
    var drawn: set<Path>

    constructor ()
      ensures disk == {} && drawn == {}
    {
      disk, drawn := {}, {};
    }

    /** `name` is the directory joined with the identifier NewID draws; identifiers do not repeat. */
    method NewFilePath(f: File, name: Path) returns (named: File, err: bool)
      requires name != "" && name !in drawn
      modifies this`drawn
      ensures err == (f.path != "")
      ensures named == if err then f else f.(path := name)
      ensures drawn == if err then old(drawn) else old(drawn) + {name}
    {
      named, err := f, f.path != "";
      if err {
        return;
      }
      drawn := drawn + {name};
      named := f.(path := name);
    }

    /** `ok` is the operating system's answer to the open call. */
    method NewWriter(f: File, name: Path, ok: bool) returns (named: File, err: bool)
      requires name != "" && name !in drawn
      modifies this
      ensures err == (f.path != "" || !ok)
      ensures f.path != "" ==> named == f && drawn == old(drawn)
      ensures f.path == "" ==> named == f.(path := name) && drawn == old(drawn) + {name}
      ensures disk == if err then old(disk) else old(disk) + {name}
    {
      named, err := NewFilePath(f, name);
      if err {
        return;
      }
      err := !ok;
      if ok {
        disk := disk + {named.path};
      }
    }

    /** os.Remove: fails for a name in `stuck` and for a name that is not there. */
    method OsRemove(p: Path, stuck: set<Path>) returns (err: bool)
      modifies this`disk
      ensures err == (p !in old(disk) || p in stuck)
      ensures disk == old(disk) - ({p} - stuck)
    {
      err := p !in disk || p in stuck;
      if !err {
        disk := disk - {p};
      }
    }

    /** Removes every track and then the path, apart from the names in `stuck`; a record without tracks is refused.
        The error of the last removal is the one reported: its name is stuck, was never there, or has just gone
        under an earlier entry. */
    method DeleteFile(f: File, stuck: set<Path>) returns (err: bool)
      modifies this`disk
      ensures disk == RemoveFile(old(disk), f, stuck)
      ensures f.track == [] ==> err && disk == old(disk)
      ensures f.track != [] ==> forall p :: p in disk <==>
                p in old(disk)
                && (p in stuck
                    || !((exists k :: 0 <= k < |f.track| && f.track[k].path == p) || (f.path != "" && f.path == p)))
      ensures f.track != [] && f.path != "" ==>
                (err <==> f.path in stuck || f.path !in old(disk) || exists k :: 0 <= k < |f.track| && f.track[k].path == f.path)
      ensures f.track != [] && f.path == "" ==>
                var last := f.track[|f.track| - 1].path;
                (err <==> last in stuck || last !in old(disk) || exists k :: 0 <= k < |f.track| - 1 && f.track[k].path == last)
    {
      if |f.track| == 0 {
        return true;
      }
      err := false;
      var i := 0;
      while i < |f.track|
        invariant 0 <= i <= |f.track|
        invariant disk == old(disk) - (FirstTracks(f, i) - stuck)
        invariant i > 0 ==> var last := f.track[i - 1].path;
                            (err <==> last in stuck || last !in old(disk) || last in FirstTracks(f, i - 1))
      {
        assert FirstTracks(f, i + 1) == FirstTracks(f, i) + {f.track[i].path};
        err := OsRemove(f.track[i].path, stuck);
        i := i + 1;
      }
      assert FirstTracks(f, i) == TrackPaths(f);
      if f.path != "" {
        err := OsRemove(f.path, stuck);
      }
    }
  }
}
