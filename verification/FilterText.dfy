/** Reading the filter text back, and how the labels of the graph are wired
    (internal/utils/transcoding.go:95-185). */
module FilterText {
  import opened Arithmetic
  import opened Model
  import opened Text
  import opened Grid
  import opened FilterGraph
  import Pipeline

  /** A chain as ffmpeg reads it: input labels, a filter, output labels. */
  datatype TextChain = TextChain(inputs: seq<string>, filter: string, outputs: seq<string>)

  function Trimmed(part: string): string {
    if part != "" && part[0] == ' ' then part[1..] else part
  }

  function ParseChain(part: string): Option<TextChain> {
    ParseTrimmed(Trimmed(part))
  }

  function ParseTrimmed(s: string): Option<TextChain> {
    var (inputs, rest) := ReadLabels(s);
    var end := Until(rest, '[');
    var (outputs, left) := ReadLabels(rest[end..]);
    if end > 0 && left == "" then Some(TextChain(inputs, rest[..end], outputs)) else None
  }

  function Parse(text: string): seq<Option<TextChain>> {
    var parts := Split(text, ';');
    seq(|parts|, i requires 0 <= i < |parts| => ParseChain(parts[i]))
  }

  function TextOf(ch: Chain): TextChain {
    TextChain(Texts(ch.inputs), FilterText(ch.filter), Texts(ch.outputs))
  }

  /** Free of the characters that structure a filter graph. */
  predicate Plain(s: string) {
    Lacks(s, ';') && Lacks(s, '[') && Lacks(s, ']')
  }

  // ---- reading one chain

  lemma DecPlain(n: nat)
    ensures Plain(Dec(n)) && Dec(n) != ""
  {
    DecReadsBack(n);
  }

  lemma LabelPlain(l: Label)
    ensures Plain(LabelText(l))
  {
    match l
    case Stream(index, _) => DecPlain(index);
    case Scaled(i) => DecPlain(i);
    case Normed(i) => DecPlain(i);
    case VOut =>
    case AOut =>
  }

  lemma TextsPlain(ls: seq<Label>)
    ensures forall i :: 0 <= i < |ls| ==> Plain(Texts(ls)[i])
  {
    forall i | 0 <= i < |ls|
      ensures Plain(Texts(ls)[i])
    {
      LabelPlain(ls[i]);
    }
  }

  ghost predicate AllPlain(labels: seq<string>) {
    labels != [] && forall i :: 0 <= i < |labels| ==> Plain(labels[i])
  }

  lemma StartsWithBracket(labels: seq<string>)
    requires labels != []
    ensures Wraps(labels) != "" && Wraps(labels)[0] == '['
  {
    WrapsHead(labels);
  }

  lemma FilterEnds(filter: string, outs: string)
    requires Plain(filter) && outs != "" && outs[0] == '['
    ensures Until(filter + outs, '[') == |filter|
  {
    assert filter + outs == filter + ['['] + outs[1..];
    UntilStops(filter, '[', outs[1..]);
  }

  /** The reader takes the inputs, then the filter up to the next bracket, then the outputs. */
  lemma ReadsInTurn(ins: seq<string>, filter: string, outs: seq<string>)
    requires AllPlain(ins) && AllPlain(outs) && filter != "" && Plain(filter)
    ensures ReadLabels(Wraps(ins) + (filter + Wraps(outs))) == (ins, filter + Wraps(outs))
    ensures Until(filter + Wraps(outs), '[') == |filter|
    ensures ReadLabels(Wraps(outs)) == (outs, "")
  {
    ReadsWraps(ins, filter + Wraps(outs));
    ReadsWraps(outs, "");
    assert Wraps(outs) + "" == Wraps(outs);
    StartsWithBracket(outs);
    FilterEnds(filter, Wraps(outs));
  }

  lemma ReadsTrimmed(ins: seq<string>, filter: string, outs: seq<string>)
    requires AllPlain(ins) && AllPlain(outs) && filter != "" && Plain(filter)
    ensures ParseTrimmed(Wraps(ins) + filter + Wraps(outs)) == Some(TextChain(ins, filter, outs))
  {
    var rest := filter + Wraps(outs);
    ReadsInTurn(ins, filter, outs);
    Associates(Wraps(ins), filter, Wraps(outs));
    assert rest[..|filter|] == filter && rest[|filter|..] == Wraps(outs);
  }

  lemma TrimsOneSpace(text: string)
    requires text != "" && text[0] == '['
    ensures Trimmed(text) == text && Trimmed(" " + text) == text
  {
    assert (" " + text)[1..] == text;
  }

  lemma NoSemicolon(ins: seq<string>, filter: string, outs: seq<string>)
    requires AllPlain(ins) && AllPlain(outs) && Plain(filter)
    ensures var text := Wraps(ins) + filter + Wraps(outs); Lacks(text, ';') && Lacks(" " + text, ';')
  {
    WrapsLack(ins, ';');
    WrapsLack(outs, ';');
  }

  lemma ReadsPrinted(ins: seq<string>, filter: string, outs: seq<string>)
    requires AllPlain(ins) && AllPlain(outs) && filter != "" && Plain(filter)
    ensures var text := Wraps(ins) + filter + Wraps(outs);
            && ParseChain(text) == ParseChain(" " + text) == Some(TextChain(ins, filter, outs))
            && Lacks(text, ';') && Lacks(" " + text, ';')
  {
    ReadsTrimmed(ins, filter, outs);
    StartsWithBracket(ins);
    TrimsOneSpace(Wraps(ins) + filter + Wraps(outs));
    NoSemicolon(ins, filter, outs);
  }

  /** `part` is how the text writes `ch`. */
  predicate Writes(part: string, ch: Chain) {
    && (part == Print(ch) || part == " " + Print(ch))
    && ParseChain(part) == Some(TextOf(ch)) && Lacks(part, ';')
  }

  lemma PrintsReadBack(ch: Chain)
    requires ch.inputs != [] && ch.outputs != [] && FilterText(ch.filter) != "" && Plain(FilterText(ch.filter))
    ensures Writes(Print(ch), ch) && Writes(" " + Print(ch), ch)
  {
    TextsPlain(ch.inputs);
    TextsPlain(ch.outputs);
    ReadsPrinted(Texts(ch.inputs), FilterText(ch.filter), Texts(ch.outputs));
  }

  // ---- the filters are plain

  lemma SinglePlain(setPts: string)
    requires Plain(setPts)
    ensures Plain(FilterText(Single(setPts))) && FilterText(Single(setPts)) != ""
  {
    assert Plain("scale=1920:1080");
    assert Plain(":force_original_aspect_ratio=decrease");
    assert Plain(",pad=1920:1080:(ow-iw)/2:(oh-ih)/2");
  }

  lemma PlainSum(a: string, b: string)
    requires Plain(a) && Plain(b)
    ensures Plain(a + b)
  {
  }

  lemma PlainPair(name: string, a: nat, b: nat, tail: string)
    requires Plain(name) && Plain(tail) && name != ""
    ensures Plain(name + Dec(a) + ":" + Dec(b) + tail) && name + Dec(a) + ":" + Dec(b) + tail != ""
  {
    DecPlain(a);
    DecPlain(b);
    PlainSum(name, Dec(a));
    PlainSum(name + Dec(a), ":");
    PlainSum(name + Dec(a) + ":", Dec(b));
    PlainSum(name + Dec(a) + ":" + Dec(b), tail);
  }

  lemma ScalePlain(setPts: string, width: nat, height: nat)
    requires Plain(setPts)
    ensures Plain(FilterText(Scale(setPts, width, height))) && FilterText(Scale(setPts, width, height)) != ""
  {
    PlainSum(setPts, "scale=");
    PlainPair(setPts + "scale=", width, height, ":force_original_aspect_ratio=decrease");
  }

  lemma PadPlain(width: nat, height: nat)
    ensures Plain(FilterText(Pad(width, height))) && FilterText(Pad(width, height)) != ""
  {
    PlainPair("pad=", width, height, ":(ow-iw)/2:(oh-ih)/2");
  }

  lemma {:induction false} JoinPlain(parts: seq<string>)
    requires forall i :: 0 <= i < |parts| ==> Plain(parts[i])
    ensures Plain(Join(parts, '|'))
  {
    if |parts| > 1 {
      JoinPlain(parts[..|parts| - 1]);
    }
  }

  lemma CellsPlain(cells: seq<Cell>)
    ensures Plain(Join(CellTexts(cells), '|'))
  {
    forall i | 0 <= i < |cells|
      ensures Plain(CellTexts(cells)[i])
    {
      DecPlain(cells[i].x);
      DecPlain(cells[i].y);
    }
    JoinPlain(CellTexts(cells));
  }

  lemma StackPlain(n: nat, cells: seq<Cell>)
    ensures Plain(FilterText(Stack(n, cells))) && FilterText(Stack(n, cells)) != ""
  {
    CellsPlain(cells);
    DecPlain(n);
  }

  lemma MixPlain(n: nat)
    ensures Plain(FilterText(Mix(n))) && FilterText(Mix(n)) != ""
  {
    DecPlain(n);
  }

  // ---- the whole graph

  /** Part by part, `ok` relates the text to the chain. */
  ghost predicate AllOk(parts: seq<string>, chains: seq<Chain>, ok: (string, Chain) -> bool) {
    |parts| == |chains| && forall i :: 0 <= i < |chains| ==> ok(parts[i], chains[i])
  }

  ghost predicate AllWritten(parts: seq<string>, chains: seq<Chain>) {
    AllOk(parts, chains, Writes)
  }

  lemma TwoMoreOk(parts: seq<string>, chains: seq<Chain>, p: string, q: string, ch: Chain, ch': Chain,
                  ok: (string, Chain) -> bool)
    requires AllOk(parts, chains, ok) && ok(p, ch) && ok(q, ch')
    ensures AllOk(parts + [p, q], chains + [ch, ch'], ok)
  {
  }

  /** A property of every window's two parts holds of all windows. */
  lemma {:induction false} WindowsOk(vs: seq<nat>, k: nat, setPts: string, ps: seq<string>, qs: seq<string>,
                                     ok: (string, Chain) -> bool)
    requires k <= |vs| == |ps| == |qs|
    requires forall j :: 0 <= j < |vs| ==> ok(Space(j) + ps[j], ScaleChain(vs, j, setPts))
    requires forall j :: 0 <= j < |vs| ==> ok(" " + qs[j], PadChain(vs, j))
    ensures AllOk(PairParts(ps, qs, k), Windows(vs, k, setPts), ok) && |Windows(vs, k, setPts)| == 2 * k
  {
    if k > 0 {
      WindowsOk(vs, k - 1, setPts, ps, qs, ok);
      TwoMoreOk(PairParts(ps, qs, k - 1), Windows(vs, k - 1, setPts), Space(k - 1) + ps[k - 1], " " + qs[k - 1],
                ScaleChain(vs, k - 1, setPts), PadChain(vs, k - 1), ok);
    }
  }

  lemma WindowWritten(vs: seq<nat>, k: nat, setPts: string)
    requires k < |vs| && Plain(setPts)
    ensures Writes(Space(k) + ScaleTexts(vs, setPts)[k], ScaleChain(vs, k, setPts))
    ensures Writes(" " + PadTexts(vs)[k], PadChain(vs, k))
  {
    ScalePlain(setPts, WindowWidth(|vs|), WindowHeight(|vs|));
    PadPlain(WindowWidth(|vs|), WindowHeight(|vs|));
    PrintsReadBack(ScaleChain(vs, k, setPts));
    PrintsReadBack(PadChain(vs, k));
    assert "" + Print(ScaleChain(vs, k, setPts)) == Print(ScaleChain(vs, k, setPts));
  }

  lemma WindowsWritten(vs: seq<nat>, setPts: string)
    requires Plain(setPts)
    ensures AllWritten(WindowParts(vs, setPts), Windows(vs, |vs|, setPts)) && |Windows(vs, |vs|, setPts)| == 2 * |vs|
  {
    forall j | 0 <= j < |vs|
      ensures Writes(Space(j) + ScaleTexts(vs, setPts)[j], ScaleChain(vs, j, setPts))
      ensures Writes(" " + PadTexts(vs)[j], PadChain(vs, j))
    {
      WindowWritten(vs, j, setPts);
    }
    WindowsOk(vs, |vs|, setPts, ScaleTexts(vs, setPts), PadTexts(vs), Writes);
  }

  lemma OneMoreOk(parts: seq<string>, chains: seq<Chain>, p: string, ch: Chain, ok: (string, Chain) -> bool)
    requires AllOk(parts, chains, ok) && ok(p, ch)
    ensures AllOk(parts + [p], chains + [ch], ok)
  {
  }

  lemma VideoWritten(vs: seq<nat>, setPts: string)
    requires Plain(setPts)
    ensures AllWritten(VideoParts(vs, setPts), VideoChains(vs, setPts))
    ensures |VideoChains(vs, setPts)| == if |vs| >= 2 then 2 * |vs| + 1 else |vs|
  {
    if |vs| == 1 {
      SinglePlain(setPts);
      PrintsReadBack(VideoChains(vs, setPts)[0]);
    } else if |vs| >= 2 {
      WindowsWritten(vs, setPts);
      StackWritten(|vs|);
      OneMoreOk(WindowParts(vs, setPts), Windows(vs, |vs|, setPts), " " + Print(StackChain(|vs|)), StackChain(|vs|), Writes);
    }
  }

  lemma StackWritten(n: nat)
    requires n >= 1
    ensures Writes(" " + Print(StackChain(n)), StackChain(n))
  {
    assert Norms(n) != [];
    StackPlain(n, Cells(n));
    PrintsReadBack(StackChain(n));
  }

  lemma AudioWritten(aus: seq<nat>)
    ensures AllWritten(Prints(AudioChains(aus)), AudioChains(aus))
    ensures |AudioChains(aus)| == if aus == [] then 0 else 1
  {
    if aus != [] {
      MixPlain(|aus|);
      PrintsReadBack(AudioChains(aus)[0]);
    }
  }

  lemma ReadsAll(parts: seq<string>, chains: seq<Chain>)
    requires parts != [] && AllWritten(parts, chains)
    ensures |Parse(Join(parts, ';'))| == |chains|
    ensures forall i :: 0 <= i < |chains| ==> Parse(Join(parts, ';'))[i] == Some(TextOf(chains[i]))
  {
    assert forall i :: 0 <= i < |parts| ==> Writes(parts[i], chains[i]);
    SplitUndoesJoin(parts, ';');
  }

  /** The printed text, split at its semicolons and read chain by chain, is the intended graph: nothing
      is lost, merged or empty, for every list of channels and every time factor. */
  lemma PrintParsesBack(src: seq<MediaChannel>, setPts: string)
    requires Plain(setPts) && !Silent(src)
    ensures var g := Graph(src, setPts);
            && |Parse(FilterString(src, setPts))| == |g|
            && forall i :: 0 <= i < |g| ==> Parse(FilterString(src, setPts))[i] == Some(TextOf(g[i]))
  {
    VideoWritten(Picks(src, true), setPts);
    AudioWritten(Picks(src, false));
    assert AllWritten(Parts(src, setPts), Graph(src, setPts));
    ReadsAll(Parts(src, setPts), Graph(src, setPts));
  }

  /** Two chains a window and one to stack them, a single chain for a single video, one chain for all audio. */
  lemma GraphSize(src: seq<MediaChannel>, setPts: string)
    requires Plain(setPts)
    ensures var n, m := |Picks(src, true)|, |Picks(src, false)|;
            |Graph(src, setPts)| == (if n >= 2 then 2 * n + 1 else n) + (if m > 0 then 1 else 0)
  {
    VideoWritten(Picks(src, true), setPts);
    AudioWritten(Picks(src, false));
  }

  /** No arguments are built exactly for the recordings that have neither a video nor an audio channel,
      for which the machine's workers start no ffmpeg. */
  lemma NothingToEncode(f: File)
    ensures Pipeline.Playable(f) <==> !Silent(f.track)
  {
    PicksSome(f.track, true);
    PicksSome(f.track, false);
    if i :| 0 <= i < |f.track| && ("video" <= f.track[i].mimeType || "audio" <= f.track[i].mimeType) {
      assert IsKind(f.track[i], true) || IsKind(f.track[i], false);
    }
  }

  lemma {:induction false} PicksSome(src: seq<MediaChannel>, video: bool)
    ensures Picks(src, video) != [] <==> exists i :: 0 <= i < |src| && IsKind(src[i], video)
  {
    if src != [] {
      var init := src[..|src| - 1];
      PicksSome(init, video);
      assert forall i :: 0 <= i < |init| ==> init[i] == src[i];
    }
  }

  // ---- wiring

  lemma CountOne<T>(y: T, x: T)
    ensures Count([y], x) == One(y == x)
  {
    CountMore([], y, x);
    assert [] + [y] == [y];
  }

  /** How often a label is consumed, and how often it is produced. */
  function Uses(chains: seq<Chain>, l: Label): nat {
    if chains == [] then 0 else Uses(chains[..|chains| - 1], l) + Count(chains[|chains| - 1].inputs, l)
  }

  function Defs(chains: seq<Chain>, l: Label): nat {
    if chains == [] then 0 else Defs(chains[..|chains| - 1], l) + Count(chains[|chains| - 1].outputs, l)
  }

  lemma OneMoreChain(chains: seq<Chain>, ch: Chain, l: Label)
    ensures Uses(chains + [ch], l) == Uses(chains, l) + Count(ch.inputs, l)
    ensures Defs(chains + [ch], l) == Defs(chains, l) + Count(ch.outputs, l)
  {
    assert (chains + [ch])[..|chains + [ch]| - 1] == chains;
  }

  lemma TwoMoreChains(chains: seq<Chain>, ch: Chain, ch': Chain, l: Label)
    ensures Uses(chains + [ch, ch'], l) == Uses(chains, l) + Count(ch.inputs, l) + Count(ch'.inputs, l)
    ensures Defs(chains + [ch, ch'], l) == Defs(chains, l) + Count(ch.outputs, l) + Count(ch'.outputs, l)
  {
    OneMoreChain(chains, ch, l);
    OneMoreChain(chains + [ch], ch', l);
    assert chains + [ch] + [ch'] == chains + [ch, ch'];
  }

  /** The links between the chains of n windows. */
  predicate Internal(l: Label, n: nat) {
    n >= 2 && (l.Scaled? || l.Normed?) && l.i < n
  }

  function StreamCount(l: Label, positions: seq<nat>, video: bool): nat {
    if l.Stream? && l.video == video then Count(positions, l.index) else 0
  }

  lemma StreamCountMore(l: Label, positions: seq<nat>, v: nat)
    ensures StreamCount(l, positions + [v], true) == StreamCount(l, positions, true) + One(Stream(v, true) == l)
  {
    if l.Stream? {
      CountMore(positions, v, l.index);
    }
  }

  lemma {:induction false} WindowsWired(vs: seq<nat>, k: nat, setPts: string, l: Label)
    requires k <= |vs|
    ensures Uses(Windows(vs, k, setPts), l) == StreamCount(l, vs[..k], true) + One(l.Scaled? && l.i < k)
    ensures Defs(Windows(vs, k, setPts), l) == One((l.Scaled? || l.Normed?) && l.i < k)
  {
    if k > 0 {
      WindowsWired(vs, k - 1, setPts, l);
      TwoMoreChains(Windows(vs, k - 1, setPts), ScaleChain(vs, k - 1, setPts), PadChain(vs, k - 1), l);
      CountOne(Stream(vs[k - 1], true), l);
      CountOne(Scaled(k - 1), l);
      CountOne(Normed(k - 1), l);
      StreamCountMore(l, vs[..k - 1], vs[k - 1]);
      assert vs[..k] == vs[..k - 1] + [vs[k - 1]];
    }
  }

  lemma {:induction false} NormsOnce(k: nat, l: Label)
    ensures Count(Norms(k), l) == One(l.Normed? && l.i < k)
  {
    if k > 0 {
      NormsOnce(k - 1, l);
      CountMore(Norms(k - 1), Normed(k - 1), l);
    }
  }

  lemma {:induction false} AudioStreamsOnce(aus: seq<nat>, l: Label)
    ensures Count(AudioStreams(aus), l) == StreamCount(l, aus, false)
  {
    if aus != [] {
      var init, last := aus[..|aus| - 1], aus[|aus| - 1];
      AudioStreamsOnce(init, l);
      CountMore(AudioStreams(init), Stream(last, false), l);
    }
  }

  lemma {:induction false} PicksOnce(src: seq<MediaChannel>, video: bool, i: nat)
    ensures Count(Picks(src, video), i) == One(i < |src| && IsKind(src[i], video))
  {
    if src != [] {
      var init, last := src[..|src| - 1], src[|src| - 1];
      PicksOnce(init, video, i);
      CountMore(Picks(init, video), |src| - 1, i);
      if !IsKind(last, video) {
        assert Picks(init, video) + [] == Picks(init, video);
      }
    }
  }

  lemma VideoWired(vs: seq<nat>, setPts: string, l: Label)
    ensures Uses(VideoChains(vs, setPts), l) == StreamCount(l, vs, true) + One(Internal(l, |vs|))
    ensures Defs(VideoChains(vs, setPts), l) == One(Internal(l, |vs|) || (l.VOut? && vs != []))
  {
    if |vs| == 1 {
      SingleWired(vs[0], setPts, l);
      assert vs == [vs[0]];
    } else if |vs| >= 2 {
      StackWired(vs, setPts, l);
    }
  }

  lemma StackWired(vs: seq<nat>, setPts: string, l: Label)
    requires |vs| >= 2
    ensures Uses(Windows(vs, |vs|, setPts) + [StackChain(|vs|)], l) == StreamCount(l, vs, true) + One(Internal(l, |vs|))
    ensures Defs(Windows(vs, |vs|, setPts) + [StackChain(|vs|)], l) == One(Internal(l, |vs|) || l.VOut?)
  {
    WindowsWired(vs, |vs|, setPts, l);
    NormsOnce(|vs|, l);
    CountOne(VOut, l);
    OneMoreChain(Windows(vs, |vs|, setPts), StackChain(|vs|), l);
    assert vs[..|vs|] == vs;
  }

  lemma SingleWired(v: nat, setPts: string, l: Label)
    ensures Uses([Chain([Stream(v, true)], Single(setPts), [VOut])], l) == One(l == Stream(v, true)) == StreamCount(l, [v], true)
    ensures Defs([Chain([Stream(v, true)], Single(setPts), [VOut])], l) == One(l.VOut?)
  {
    var ch := Chain([Stream(v, true)], Single(setPts), [VOut]);
    OneMoreChain([], ch, l);
    assert [] + [ch] == [ch];
    CountOne(Stream(v, true), l);
    CountOne(VOut, l);
    if l.Stream? {
      CountOne(v, l.index);
    }
  }

  lemma AudioWired(chains: seq<Chain>, aus: seq<nat>, l: Label)
    ensures Uses(chains + AudioChains(aus), l) == Uses(chains, l) + StreamCount(l, aus, false)
    ensures Defs(chains + AudioChains(aus), l) == Defs(chains, l) + One(l.AOut? && aus != [])
  {
    if aus == [] {
      assert chains + [] == chains;
    } else {
      AudioStreamsOnce(aus, l);
      OneMoreChain(chains, AudioChains(aus)[0], l);
      CountOne(AOut, l);
    }
  }

  /** Each internal label is produced once and consumed once; each audio or video input is consumed exactly
      once, by its position, and no other; the outputs are produced once and never consumed. */
  lemma GraphWired(src: seq<MediaChannel>, setPts: string, l: Label)
    ensures var g, n, m := Graph(src, setPts), |Picks(src, true)|, |Picks(src, false)|;
            && Uses(g, l) == One(Internal(l, n) || (l.Stream? && l.index < |src| && IsKind(src[l.index], l.video)))
            && Defs(g, l) == One(Internal(l, n) || (l.VOut? && n >= 1) || (l.AOut? && m >= 1))
  {
    var vs, aus := Picks(src, true), Picks(src, false);
    VideoWired(vs, setPts, l);
    AudioWired(VideoChains(vs, setPts), aus, l);
    if l.Stream? {
      PicksOnce(src, l.video, l.index);
    }
  }

  /** In terms of the raw types: a channel is consumed as a video if and only if its type starts with "video",
      and as audio if and only if it starts with "audio", each once. */
  lemma StreamsByType(src: seq<MediaChannel>, setPts: string, i: nat)
    requires i < |src|
    ensures Uses(Graph(src, setPts), Stream(i, true)) == One("video" <= src[i].mimeType)
    ensures Uses(Graph(src, setPts), Stream(i, false)) == One("audio" <= src[i].mimeType)
  {
    GraphWired(src, setPts, Stream(i, true));
    GraphWired(src, setPts, Stream(i, false));
    assert "video"[0] == 'v' && "audio"[0] == 'a';
  }

  /** How many channels have a type that starts like this. */
  function HowMany(src: seq<MediaChannel>, prefix: string): nat {
    if src == [] then 0 else HowMany(src[..|src| - 1], prefix) + One(prefix <= src[|src| - 1].mimeType)
  }

  function Prefix(video: bool): string {
    if video then "video" else "audio"
  }

  lemma KindByType(ch: MediaChannel, video: bool)
    ensures IsKind(ch, video) <==> Prefix(video) <= ch.mimeType
  {
    assert "video"[0] == 'v' && "audio"[0] == 'a';
  }

  lemma {:induction false} PicksCounted(src: seq<MediaChannel>, video: bool)
    ensures |Picks(src, video)| == HowMany(src, Prefix(video))
  {
    if src != [] {
      PicksCounted(src[..|src| - 1], video);
      KindByType(src[|src| - 1], video);
    }
  }

  /** A channel of the kind stands among the picks after as many as come before it. */
  lemma {:induction false} PickedAt(src: seq<MediaChannel>, video: bool, i: nat)
    requires i < |src| && Prefix(video) <= src[i].mimeType
    ensures var k := HowMany(src[..i], Prefix(video)); k < |Picks(src, video)| && Picks(src, video)[k] == i
  {
    var init := src[..|src| - 1];
    if i == |init| {
      PicksCounted(init, video);
      KindByType(src[i], video);
    } else {
      PickedAt(init, video, i);
      assert init[..i] == src[..i];
    }
  }

  lemma {:induction false} WindowsAt(vs: seq<nat>, k: nat, setPts: string, j: nat)
    requires j < k <= |vs|
    ensures |Windows(vs, k, setPts)| == 2 * k
    ensures Windows(vs, k, setPts)[2 * j] == ScaleChain(vs, j, setPts) && Windows(vs, k, setPts)[2 * j + 1] == PadChain(vs, j)
  {
    if k > 1 {
      WindowsAt(vs, k - 1, setPts, if j < k - 1 then j else 0);
    }
  }

  lemma {:induction false} NormsAt(k: nat, j: nat)
    requires j < k
    ensures |Norms(k)| == k && Norms(k)[j] == Normed(j)
  {
    if k > 1 {
      NormsAt(k - 1, if j < k - 1 then j else 0);
    }
  }

  lemma {:induction false} AudioStreamsAt(aus: seq<nat>, j: nat)
    requires j < |aus|
    ensures |AudioStreams(aus)| == |aus| && AudioStreams(aus)[j] == Stream(aus[j], false)
  {
    if |aus| > 1 {
      AudioStreamsAt(aus[..|aus| - 1], if j < |aus| - 1 then j else 0);
    }
  }

  /** The only video of a recording is scaled into the whole frame. */
  lemma SingleShape(src: seq<MediaChannel>, setPts: string, i: nat)
    requires i < |src| && "video" <= src[i].mimeType && HowMany(src, "video") == 1
    ensures Graph(src, setPts) != [] && Graph(src, setPts)[0] == Chain([Stream(i, true)], Single(setPts), [VOut])
  {
    PicksCounted(src, true);
    PickedAt(src, true, i);
  }

  /** Of several videos the k-th is scaled and padded to one window of the grid. */
  lemma WindowShape(src: seq<MediaChannel>, setPts: string, i: nat, n: nat, k: nat)
    requires i < |src| && "video" <= src[i].mimeType
    requires n == HowMany(src, "video") && n >= 2 && k == HowMany(src[..i], "video")
    ensures k < n && |Graph(src, setPts)| > 2 * n
    ensures Graph(src, setPts)[2 * k] == Chain([Stream(i, true)], Scale(setPts, WindowWidth(n), WindowHeight(n)), [Scaled(k)])
    ensures Graph(src, setPts)[2 * k + 1] == Chain([Scaled(k)], Pad(WindowWidth(n), WindowHeight(n)), [Normed(k)])
  {
    PicksCounted(src, true);
    PickedAt(src, true, i);
    WindowsInGraph(src, setPts, k);
  }

  lemma WindowsInGraph(src: seq<MediaChannel>, setPts: string, k: nat)
    requires |Picks(src, true)| >= 2 && k < |Picks(src, true)|
    ensures var vs := Picks(src, true);
            && |Graph(src, setPts)| > 2 * |vs|
            && Graph(src, setPts)[2 * k] == ScaleChain(vs, k, setPts) && Graph(src, setPts)[2 * k + 1] == PadChain(vs, k)
            && Graph(src, setPts)[2 * |vs|] == StackChain(|vs|)
  {
    var vs := Picks(src, true);
    WindowsAt(vs, |vs|, setPts, k);
  }

  /** The windows are stacked in the order of the videos, each at its own cell. */
  lemma StackShape(src: seq<MediaChannel>, setPts: string, n: nat, k: nat)
    requires n == HowMany(src, "video") && n >= 2 && k < n
    ensures |Graph(src, setPts)| > 2 * n
    ensures var stack := Graph(src, setPts)[2 * n];
            && stack.outputs == [VOut] && |stack.inputs| == n && stack.inputs[k] == Normed(k)
            && stack.filter.Stack? && stack.filter.inputs == n
            && |stack.filter.cells| == n && stack.filter.cells[k] == CellAt(n, k)
  {
    PicksCounted(src, true);
    WindowsInGraph(src, setPts, k);
    NormsAt(n, k);
  }

  /** All audio channels are mixed, in order, by the last chain. */
  lemma MixShape(src: seq<MediaChannel>, setPts: string, i: nat)
    requires i < |src| && "audio" <= src[i].mimeType
    ensures Graph(src, setPts) != []
    ensures var m, j, mix := HowMany(src, "audio"), HowMany(src[..i], "audio"), Graph(src, setPts)[|Graph(src, setPts)| - 1];
            && mix.outputs == [AOut] && mix.filter == Mix(m) && |mix.inputs| == m && j < m && mix.inputs[j] == Stream(i, false)
  {
    PicksCounted(src, false);
    PickedAt(src, false, i);
    AudioStreamsAt(Picks(src, false), HowMany(src[..i], "audio"));
  }

  /** "-map" and the output's label, for the video if there is one and then for the audio if there is some. */
  lemma MapsByType(src: seq<MediaChannel>)
    ensures MapArgs(src) == (if HowMany(src, "video") > 0 then ["-map", "[v_out]"] else [])
                            + (if HowMany(src, "audio") > 0 then ["-map", "[a_out]"] else [])
  {
    PicksCounted(src, true);
    PicksCounted(src, false);
    OutputNames();
  }

  /** How the inputs are written. */
  lemma StreamNames(i: nat)
    ensures Bracket(Stream(i, true)) == "[" + Dec(i) + ":v]" && Bracket(Stream(i, false)) == "[" + Dec(i) + ":a]"
  {
  }

  /** How the links inside the graph are written. */
  lemma LinkNames(i: nat)
    ensures Bracket(Scaled(i)) == "[v_scaled_" + Dec(i) + "]" && Bracket(Normed(i)) == "[v_norm_" + Dec(i) + "]"
  {
  }

  /** The whole text for one video and one audio channel, wherever they stand. */
  lemma OneOfEachText(src: seq<MediaChannel>, setPts: string, i: nat, j: nat)
    requires i < |src| && "video" <= src[i].mimeType && HowMany(src, "video") == 1
    requires j < |src| && "audio" <= src[j].mimeType && HowMany(src, "audio") == 1
    ensures FilterString(src, setPts)
            == "[" + Dec(i) + ":v]"
               + (setPts + "scale=1920:1080" + ":force_original_aspect_ratio=decrease" + ",pad=1920:1080:(ow-iw)/2:(oh-ih)/2")
               + "[v_out]" + [';'] + ("[" + Dec(j) + ":a]" + "amix=inputs=1" + "[a_out]")
  {
    OnlyPick(src, true, i);
    OnlyPick(src, false, j);
    OneOfEachParts(src, setPts, i, j);
    SingleAndMixTexts(setPts, i, j);
  }

  lemma OnlyPick(src: seq<MediaChannel>, video: bool, i: nat)
    requires i < |src| && Prefix(video) <= src[i].mimeType && HowMany(src, Prefix(video)) == 1
    ensures Picks(src, video) == [i]
  {
    PicksCounted(src, video);
    PickedAt(src, video, i);
  }

  lemma OneOfEachParts(src: seq<MediaChannel>, setPts: string, i: nat, j: nat)
    requires Picks(src, true) == [i] && Picks(src, false) == [j]
    ensures FilterString(src, setPts)
            == Print(Chain([Stream(i, true)], Single(setPts), [VOut])) + [';']
               + Print(Chain([Stream(j, false)], Mix(1), [AOut]))
  {
    assert AudioStreams([j]) == [Stream(j, false)];
    var video, audio := Chain([Stream(i, true)], Single(setPts), [VOut]), Chain([Stream(j, false)], Mix(1), [AOut]);
    assert VideoParts([i], setPts) == [Print(video)] && Prints(AudioChains([j])) == [Print(audio)];
    JoinTwo(Parts(src, setPts), Print(video), Print(audio));
  }

  lemma JoinTwo(parts: seq<string>, a: string, b: string)
    requires parts == [a] + [b]
    ensures Join(parts, ';') == a + [';'] + b
  {
    assert parts[..1] == [a];
    assert Join([a], ';') == a;
  }

  lemma SingleAndMixTexts(setPts: string, i: nat, j: nat)
    ensures Print(Chain([Stream(i, true)], Single(setPts), [VOut]))
            == "[" + Dec(i) + ":v]"
               + (setPts + "scale=1920:1080" + ":force_original_aspect_ratio=decrease" + ",pad=1920:1080:(ow-iw)/2:(oh-ih)/2")
               + "[v_out]"
    ensures Print(Chain([Stream(j, false)], Mix(1), [AOut])) == "[" + Dec(j) + ":a]" + "amix=inputs=1" + "[a_out]"
  {
    StreamNames(i);
    StreamNames(j);
    OutputNames();
    OneBracket(Stream(i, true));
    OneBracket(Stream(j, false));
    OneBracket(VOut);
    OneBracket(AOut);
    MixOfOne();
  }

  lemma OutputNames()
    ensures Bracket(VOut) == "[v_out]" && Bracket(AOut) == "[a_out]"
  {
  }

  lemma MixOfOne()
    ensures FilterText(Mix(1)) == "amix=inputs=1"
  {
    assert Dec(1) == "1";
  }

  /** Different labels have different texts, so the wiring is that of the printed graph. */
  lemma LabelTextInjective(l: Label, l': Label)
    requires LabelText(l) == LabelText(l')
    ensures l == l'
  {
    var s := LabelText(l);
    if l.Stream? || l'.Stream? {
      StreamText(l);
      StreamText(l');
    } else {
      LinkText(l);
      LinkText(l');
    }
  }

  lemma LinkText(l: Label)
    requires !l.Stream?
    ensures var s := LabelText(l);
            && |s| >= 5 && (l.AOut? <==> s[0] == 'a')
            && (l.VOut? <==> s[0] == 'v' && s[2] == 'o')
            && (l.Scaled? <==> s[0] == 'v' && s[2] == 's')
            && (l.Normed? <==> s[0] == 'v' && s[2] == 'n')
            && (l.Scaled? ==> |s| >= 9 && AllDigits(s[9..]) && Value(s[9..]) == l.i)
            && (l.Normed? ==> |s| >= 7 && AllDigits(s[7..]) && Value(s[7..]) == l.i)
  {
    if l.Scaled? || l.Normed? {
      DecReadsBack(l.i);
      var s := LabelText(l);
      assert s[if l.Scaled? then 9 else 7..] == Dec(l.i);
    }
  }

  /** The text of a stream is its number and its kind; no other label starts with a digit. */
  lemma StreamText(l: Label)
    ensures LabelText(l) != "" && (l.Stream? <==> IsDigit(LabelText(l)[0]))
    ensures l.Stream? ==> var s := LabelText(l); var d := s[..|s| - 2];
            AllDigits(d) && Value(d) == l.index && (s[|s| - 1] == 'v' <==> l.video)
  {
    if l.Stream? {
      DecReadsBack(l.index);
      var s := LabelText(l);
      assert s[..|s| - 2] == Dec(l.index);
    }
  }

  /** The i-th `-i` is the i-th channel, and each mapped output is one that the graph produces. */
  lemma ArgsMatchGraph(src: seq<MediaChannel>, setPts: string, i: nat)
    requires i < |src|
    ensures |InputArgs(src)| == 2 * |src| && InputArgs(src)[2 * i] == "-i" && InputArgs(src)[2 * i + 1] == src[i].path
    ensures Bracket(VOut) in MapArgs(src) <==> Defs(Graph(src, setPts), VOut) == 1
    ensures Bracket(AOut) in MapArgs(src) <==> Defs(Graph(src, setPts), AOut) == 1
  {
    InputArgsAt(src, i);
    MapsMatchGraph(src, setPts);
  }

  lemma MapsMatchGraph(src: seq<MediaChannel>, setPts: string)
    ensures Bracket(VOut) in MapArgs(src) <==> Defs(Graph(src, setPts), VOut) == 1
    ensures Bracket(AOut) in MapArgs(src) <==> Defs(Graph(src, setPts), AOut) == 1
  {
    GraphWired(src, setPts, VOut);
    GraphWired(src, setPts, AOut);
    MapArgsListed(src);
  }

  lemma MapArgsListed(src: seq<MediaChannel>)
    ensures Bracket(VOut) in MapArgs(src) <==> Picks(src, true) != []
    ensures Bracket(AOut) in MapArgs(src) <==> Picks(src, false) != []
  {
    assert Bracket(VOut)[1] == 'v' && Bracket(AOut)[1] == 'a' && "-map"[1] == 'm';
    assert Bracket(VOut) in ["-map", Bracket(VOut)] && Bracket(AOut) in ["-map", Bracket(AOut)];
  }

  lemma {:induction false} InputArgsAt(src: seq<MediaChannel>, i: nat)
    requires i < |src|
    ensures |InputArgs(src)| == 2 * |src| && InputArgs(src)[2 * i] == "-i" && InputArgs(src)[2 * i + 1] == src[i].path
  {
    if |src| > 1 {
      var k := if i < |src| - 1 then i else 0;
      InputArgsAt(src[..|src| - 1], k);
    }
  }
}
