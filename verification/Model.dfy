/** The records shared by the services (internal/model). */
module Model {

  datatype Option<+T> = None | Some(value: T)

  /** A file name under the temporary directory; "" stands for "no file yet". */
  type Path = string

  /** One recorded input of a session. */
  datatype MediaChannel = MediaChannel(path: Path, mimeType: string)

  datatype File = File(path: Path, track: seq<MediaChannel>, mimeType: string, startTime: int, endTime: int)

  /** The `type` column of a job: which listener the row belongs to. */
  datatype Stage = Transcoding | Upload

  datatype JobState = Idle | Active

  /** A job as the store hands it to a listener. */
  datatype Job = Job(id: nat, stage: Stage, file: File, retry: nat)

  function TrackPaths(f: File): set<Path> {
    set ch | ch in f.track :: ch.path
  }

  /** Every name a file record mentions. */
  function PathsOf(f: File): set<Path> {
    TrackPaths(f) + (if f.path == "" then {} else {f.path})
  }

  function Members(ids: seq<nat>): set<nat> {
    set id | id in ids
  }

  function Max(a: int, b: int): int {
    if a < b then b else a
  }
}
