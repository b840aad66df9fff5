/** The upload loop (internal/service/uploader.go:94-175): a temporary file is read into one reused
    buffer and sent chunk by chunk. */
module UploadStream {
  import opened Model

  const BUFFER_SIZE: nat := 262144

  datatype Properties = Properties(startTime: int, endTime: int)

  /** The part of the metadata message that depends on the job's file. */
  datatype Metadata = Metadata(mimeType: string, properties: Option<Properties>)

  datatype Message = Meta(metadata: Metadata) | Chunk(data: seq<bv8>)

  /** The type is the file's; the times are given if and only if the recording has a start. */
  predicate Describes(m: Metadata, f: File) {
    && m.mimeType == f.mimeType
    && (m.properties.Some? <==> f.startTime > 0)
    && (m.properties.Some? ==> m.properties.value.startTime == f.startTime)
    && (m.properties.Some? ==> m.properties.value.endTime == f.endTime)
  }

  function Payload(messages: seq<Message>): seq<bv8> {
    if messages == [] then []
    else Payload(messages[..|messages| - 1]) + (match messages[|messages| - 1] case Meta(_) => [] case Chunk(data) => data)
  }

  /** One metadata message, then non-empty chunks no longer than the buffer. */
  ghost predicate WellFormed(messages: seq<Message>, f: File) {
    && |messages| >= 1 && messages[0].Meta? && Describes(messages[0].metadata, f)
    && forall i :: 1 <= i < |messages| ==> messages[i].Chunk? && 0 < |messages[i].data| <= BUFFER_SIZE
  }

  datatype ReadError = NoError | Eof | Fault

  /** What the operating system makes of one read: how many bytes it is willing to hand over, or a fault. */
  datatype Answer = Answer(bytes: nat, fault: bool)

  /** An opened os.File: a read returns at least one byte, or (0, EOF) at the end, or (0, fault). */
  class Source {
    const content: seq<bv8>
    var pos: nat

    constructor (content: seq<bv8>)
      ensures this.content == content && pos == 0
    {
      this.content, pos := content, 0;
    }

    method Read(buf: array<bv8>, answer: Answer) returns (n: nat, err: ReadError)
      requires pos <= |content| && buf.Length > 0
      modifies this`pos, buf
      ensures old(pos) <= pos == old(pos) + n <= |content| && n <= buf.Length
      ensures buf[..n] == content[old(pos)..pos]
      ensures err == if answer.fault then Fault else if old(pos) == |content| then Eof else NoError
      ensures n == 0 <==> err != NoError
    {
      if answer.fault {
        return 0, Fault;
      }
      if pos == |content| {
        return 0, Eof;
      }
      n := answer.bytes;
      if n < 1 {
        n := 1;
      }
      if n > buf.Length {
        n := buf.Length;
      }
      if n > |content| - pos {
        n := |content| - pos;
      }
      forall i | 0 <= i < n {
        buf[i] := content[pos + i];
      }
      assert forall i :: 0 <= i < n ==> buf[i] == content[pos + i];
      pos := pos + n;
      err := NoError;
    }
  }

  /** The client side of the UploadFile stream. */
  class Stream {
    var sent: seq<Message>
    var closed: bool

    constructor ()
      ensures sent == [] && !closed
    {
      sent, closed := [], false;
    }

    method Send(m: Message, ok: bool) returns (err: bool)
      modifies this`sent
      ensures err == !ok && sent == if ok then old(sent) + [m] else old(sent)
    {
      if ok {
        sent := sent + [m];
      }
      err := !ok;
    }

    method CloseSend()
      modifies this`closed
      ensures closed
    {
      closed := true;
    }
  }

  lemma OneMoreChunk(messages: seq<Message>, f: File, content: seq<bv8>, from: nat, to: nat)
    requires from < to <= |content| && to - from <= BUFFER_SIZE
    requires WellFormed(messages, f) && Payload(messages) == content[..from]
    ensures WellFormed(messages + [Chunk(content[from..to])], f)
    ensures Payload(messages + [Chunk(content[from..to])]) == content[..to]
  {
    assert (messages + [Chunk(content[from..to])])[..|messages|] == messages;
  }

  /** `answers(i)` and `accepts(i)` are the answers to the i-th read and the i-th chunk.
      Without an error the receiver has been sent the metadata and then exactly the file. Whatever
      happens, it has been sent a beginning of that. If nothing refuses, there is no error. */
  method SendFile(src: Source, stream: Stream, f: File, connected: bool, greeted: bool,
                  answers: nat -> Answer, accepts: nat -> bool)
    returns (err: bool)
    requires src.pos == 0 && stream.sent == [] && !stream.closed
    modifies src, stream
    ensures !err ==> stream.closed && WellFormed(stream.sent, f) && Payload(stream.sent) == src.content
    ensures stream.sent == [] || (WellFormed(stream.sent, f) && Payload(stream.sent) <= src.content)
    ensures forall i :: 1 <= i < |stream.sent| ==> stream.sent[i].Chunk? && 0 < |stream.sent[i].data| <= 256 * 1024
    ensures stream.sent != [] ==>
              var m := stream.sent[0].metadata;
              && m.mimeType == f.mimeType && (m.properties.Some? <==> f.startTime > 0)
              && (f.startTime > 0 ==> m.properties.value.startTime == f.startTime && m.properties.value.endTime == f.endTime)
    ensures connected && greeted && (forall i: nat :: !answers(i).fault) && (forall i: nat :: accepts(i)) ==> !err
  {
    if !connected {
      return true;
    }
    var cp: Option<Properties> := None;
    if f.startTime > 0 {
      cp := Some(Properties(f.startTime, f.endTime));
    }
    err := stream.Send(Meta(Metadata(f.mimeType, cp)), greeted);
    if err {
      return;
    }
    assert stream.sent[..0] == [];
    var buf := new bv8[BUFFER_SIZE];
    var n: nat := 0;
    var i: nat := 0;
    while true
      invariant src.pos <= |src.content| && !err && !stream.closed
      invariant WellFormed(stream.sent, f)
      invariant Payload(stream.sent) == src.content[..src.pos]
      decreases |src.content| - src.pos
    {
      ghost var start := src.pos;
      var readErr;
      n, readErr := src.Read(buf, answers(i));
      err := readErr == Fault;
      if n == 0 {
        stream.CloseSend();
        break;
      }
      OneMoreChunk(stream.sent, f, src.content, start, src.pos);
      err := stream.Send(Chunk(buf[..n]), accepts(i));
      if err {
        break;
      }
      i := i + 1;
    }
  }
}
