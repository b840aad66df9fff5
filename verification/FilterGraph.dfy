/** The ffmpeg filter graph of a recording (internal/utils/transcoding.go:86-186): what the graph is,
    and the arguments the code prints for it. `FilterText` reads the print back. */
module FilterGraph {
  import opened Model
  import opened Text
  import opened Grid

  /** A pad of the graph: an input stream of the i-th `-i`, an internal link, or a final output. */
  datatype Label = Stream(index: nat, video: bool) | Scaled(i: nat) | Normed(i: nat) | VOut | AOut

  /** The filters in use. `setPts` is the printed time factor, empty when the factor is close to one. */
  datatype Filter =
    | Single(setPts: string)
    | Scale(setPts: string, width: nat, height: nat)
    | Pad(width: nat, height: nat)
    | Stack(inputs: nat, cells: seq<Cell>)
    | Mix(inputs: nat)

  datatype Chain = Chain(inputs: seq<Label>, filter: Filter, outputs: seq<Label>)

  predicate IsKind(ch: MediaChannel, video: bool) {
    if video then "video" <= ch.mimeType else !("video" <= ch.mimeType) && "audio" <= ch.mimeType
  }

  /** The positions of the video (or audio) channels, in order. */
  function Picks(src: seq<MediaChannel>, video: bool): seq<nat> {
    if src == [] then []
    else Picks(src[..|src| - 1], video) + (if IsKind(src[|src| - 1], video) then [|src| - 1] else [])
  }

  // ---- the intended graph

  function ScaleChain(vs: seq<nat>, k: nat, setPts: string): Chain
    requires k < |vs|
  {
    Chain([Stream(vs[k], true)], Scale(setPts, WindowWidth(|vs|), WindowHeight(|vs|)), [Scaled(k)])
  }

  function PadChain(vs: seq<nat>, k: nat): Chain
    requires k < |vs|
  {
    Chain([Scaled(k)], Pad(WindowWidth(|vs|), WindowHeight(|vs|)), [Normed(k)])
  }

  function Windows(vs: seq<nat>, k: nat, setPts: string): seq<Chain>
    requires k <= |vs|
  {
    if k == 0 then [] else Windows(vs, k - 1, setPts) + [ScaleChain(vs, k - 1, setPts), PadChain(vs, k - 1)]
  }

  function Norms(k: nat): seq<Label> {
    if k == 0 then [] else Norms(k - 1) + [Normed(k - 1)]
  }

  function Cells(n: nat): seq<Cell>
    requires n >= 1
  {
    seq(n, k requires 0 <= k < n => CellAt(n, k))
  }

  function StackChain(n: nat): Chain
    requires n >= 1
  {
    Chain(Norms(n), Stack(n, Cells(n)), [VOut])
  }

  function VideoChains(vs: seq<nat>, setPts: string): seq<Chain> {
    if vs == [] then []
    else if |vs| == 1 then [Chain([Stream(vs[0], true)], Single(setPts), [VOut])]
    else Windows(vs, |vs|, setPts) + [StackChain(|vs|)]
  }

  function AudioStreams(aus: seq<nat>): seq<Label> {
    if aus == [] then [] else AudioStreams(aus[..|aus| - 1]) + [Stream(aus[|aus| - 1], false)]
  }

  function AudioChains(aus: seq<nat>): seq<Chain> {
    if aus == [] then [] else [Chain(AudioStreams(aus), Mix(|aus|), [AOut])]
  }

  function Graph(src: seq<MediaChannel>, setPts: string): seq<Chain> {
    VideoChains(Picks(src, true), setPts) + AudioChains(Picks(src, false))
  }

  // ---- its text

  function LabelText(l: Label): string {
    match l
    case Stream(index, video) => Dec(index) + (if video then ":v" else ":a")
    case Scaled(i) => "v_scaled_" + Dec(i)
    case Normed(i) => "v_norm_" + Dec(i)
    case VOut => "v_out"
    case AOut => "a_out"
  }

  function Texts(ls: seq<Label>): seq<string> {
    seq(|ls|, i requires 0 <= i < |ls| => LabelText(ls[i]))
  }

  function Bracket(l: Label): string {
    Wrap(LabelText(l))
  }

  function Brackets(ls: seq<Label>): string {
    Wraps(Texts(ls))
  }

  function CellTexts(cells: seq<Cell>): seq<string> {
    seq(|cells|, i requires 0 <= i < |cells| => CellText(cells[i]))
  }

  function FilterText(f: Filter): string {
    match f
    case Single(setPts) =>
      setPts + "scale=1920:1080" + ":force_original_aspect_ratio=decrease" + ",pad=1920:1080:(ow-iw)/2:(oh-ih)/2"
    case Scale(setPts, width, height) =>
      setPts + "scale=" + Dec(width) + ":" + Dec(height) + ":force_original_aspect_ratio=decrease"
    case Pad(width, height) => "pad=" + Dec(width) + ":" + Dec(height) + ":(ow-iw)/2:(oh-ih)/2"
    case Stack(inputs, cells) => "xstack=inputs=" + Dec(inputs) + ":layout=" + Join(CellTexts(cells), '|')
    case Mix(inputs) => "amix=inputs=" + Dec(inputs)
  }

  function Print(ch: Chain): string {
    Brackets(ch.inputs) + FilterText(ch.filter) + Brackets(ch.outputs)
  }

  function ScaleTexts(vs: seq<nat>, setPts: string): seq<string> {
    seq(|vs|, k requires 0 <= k < |vs| => Print(ScaleChain(vs, k, setPts)))
  }

  function PadTexts(vs: seq<nat>): seq<string> {
    seq(|vs|, k requires 0 <= k < |vs| => Print(PadChain(vs, k)))
  }

  /** The windows' chains as the text has them: a space before every chain but the first. */
  function WindowParts(vs: seq<nat>, setPts: string): seq<string> {
    PairParts(ScaleTexts(vs, setPts), PadTexts(vs), |vs|)
  }

  function VideoParts(vs: seq<nat>, setPts: string): seq<string> {
    if |vs| < 2 then Prints(VideoChains(vs, setPts))
    else WindowParts(vs, setPts) + [" " + Print(StackChain(|vs|))]
  }

  function Prints(chains: seq<Chain>): seq<string> {
    seq(|chains|, i requires 0 <= i < |chains| => Print(chains[i]))
  }

  function Parts(src: seq<MediaChannel>, setPts: string): seq<string> {
    VideoParts(Picks(src, true), setPts) + Prints(AudioChains(Picks(src, false)))
  }

  function FilterString(src: seq<MediaChannel>, setPts: string): string {
    Join(Parts(src, setPts), ';')
  }

  // ---- the arguments

  function InputArgs(src: seq<MediaChannel>): seq<string> {
    if src == [] then [] else InputArgs(src[..|src| - 1]) + ["-i", src[|src| - 1].path]
  }

  function MapArgs(src: seq<MediaChannel>): seq<string> {
    (if Picks(src, true) != [] then ["-map", Bracket(VOut)] else [])
    + (if Picks(src, false) != [] then ["-map", Bracket(AOut)] else [])
  }

  function TrimSuffix(s: string, c: char): string {
    if s != "" && s[|s| - 1] == c then s[..|s| - 1] else s
  }

  lemma OneBracket(l: Label)
    ensures Brackets([l]) == Bracket(l)
  {
    WrapsOne(LabelText(l));
    assert Texts([l]) == [LabelText(l)];
  }

  lemma OneMoreBracket(ls: seq<Label>, l: Label)
    ensures Brackets(ls + [l]) == Brackets(ls) + Bracket(l)
  {
    WrapsOneMore(Texts(ls), LabelText(l));
    assert Texts(ls + [l]) == Texts(ls) + [LabelText(l)];
  }

  lemma WindowTexts(vs: seq<nat>, k: nat, setPts: string)
    requires k < |vs|
    ensures ScaleTexts(vs, setPts)[k] ==
            Bracket(Stream(vs[k], true)) + FilterText(Scale(setPts, WindowWidth(|vs|), WindowHeight(|vs|))) + Bracket(Scaled(k))
    ensures PadTexts(vs)[k] == Bracket(Scaled(k)) + FilterText(Pad(WindowWidth(|vs|), WindowHeight(|vs|))) + Bracket(Normed(k))
  {
    OneBracket(Stream(vs[k], true));
    OneBracket(Scaled(k));
    OneBracket(Normed(k));
  }

  /** The loop over the windows: two chains for each video, and the streams for xstack. */
  method WindowFilters(videoChannels: seq<nat>, setPts: string) returns (text: string, inputStreams: string)
    requires |videoChannels| >= 2
    ensures text == PairText(ScaleTexts(videoChannels, setPts), PadTexts(videoChannels), |videoChannels|)
    ensures inputStreams == Brackets(Norms(|videoChannels|))
  {
    var windowWidth, windowHeight := WindowWidth(|videoChannels|), WindowHeight(|videoChannels|);
    text, inputStreams := "", "";
    var i := 0;
    while i < |videoChannels|
      invariant 0 <= i <= |videoChannels|
      invariant text == PairText(ScaleTexts(videoChannels, setPts), PadTexts(videoChannels), i)
      invariant inputStreams == Brackets(Norms(i))
    {
      var scale :=
        Bracket(Stream(videoChannels[i], true)) + FilterText(Scale(setPts, windowWidth, windowHeight)) + Bracket(Scaled(i));
      var pad := Bracket(Scaled(i)) + FilterText(Pad(windowWidth, windowHeight)) + Bracket(Normed(i));
      WindowTexts(videoChannels, i, setPts);
      text := text + (scale + "; " + pad + "; ");
      OneMoreBracket(Norms(i), Normed(i));
      inputStreams := inputStreams + Bracket(Normed(i));
      i := i + 1;
    }
  }

  /** The video part of the builder's text. */
  method VideoFilter(videoChannels: seq<nat>, setPts: string) returns (text: string)
    requires videoChannels != []
    ensures text == Ended(VideoParts(videoChannels, setPts), ';')
  {
    var videoCount := |videoChannels|;
    if videoCount == 1 {
      text := Bracket(Stream(videoChannels[0], true)) + FilterText(Single(setPts)) + Bracket(VOut) + [';'];
      SingleText(videoChannels, setPts);
      return;
    }
    var inputStreams;
    text, inputStreams := WindowFilters(videoChannels, setPts);
    var layout := Layout(videoCount);
    assert layout == Cells(videoCount);
    text := text + (inputStreams + FilterText(Stack(videoCount, layout)) + Bracket(VOut) + [';']);
    StackedText(videoChannels, setPts);
  }

  lemma StackedText(vs: seq<nat>, setPts: string)
    requires |vs| >= 2
    ensures PairText(ScaleTexts(vs, setPts), PadTexts(vs), |vs|)
            + (Brackets(Norms(|vs|)) + FilterText(Stack(|vs|, Cells(|vs|))) + Bracket(VOut) + [';'])
            == Ended(VideoParts(vs, setPts), ';')
  {
    PairsEnded(ScaleTexts(vs, setPts), PadTexts(vs), |vs|);
    OneBracket(VOut);
    LastEnded(WindowParts(vs, setPts), Print(StackChain(|vs|)));
  }

  lemma SingleText(vs: seq<nat>, setPts: string)
    requires |vs| == 1
    ensures Ended(VideoParts(vs, setPts), ';')
            == Bracket(Stream(vs[0], true)) + FilterText(Single(setPts)) + Bracket(VOut) + [';']
  {
    OneBracket(Stream(vs[0], true));
    OneBracket(VOut);
    LastOnly(Print(VideoChains(vs, setPts)[0]));
    assert VideoParts(vs, setPts) == [Print(VideoChains(vs, setPts)[0])];
  }

  lemma LastOnly(p: string)
    ensures Ended([p], ';') == p + [';']
  {
    EndedPlusPart([], p, ';');
    assert [] + [p] == [p];
    assert Ended([], ';') + p == p;
  }

  lemma PicksStep(src: seq<MediaChannel>, i: nat, video: bool)
    requires i < |src|
    ensures Picks(src[..i + 1], video) == Picks(src[..i], video) + (if IsKind(src[i], video) then [i] else [])
  {
    assert src[..i + 1][..i] == src[..i];
  }

  lemma InputArgsStep(src: seq<MediaChannel>, i: nat)
    requires i < |src|
    ensures InputArgs(src[..i + 1]) == InputArgs(src[..i]) + ["-i", src[i].path]
  {
    assert src[..i + 1][..i] == src[..i];
  }

  /** The first loop: the positions of the video and of the audio channels. */
  method Separate(src: seq<MediaChannel>) returns (videoChannels: seq<nat>, audioChannels: seq<nat>)
    ensures videoChannels == Picks(src, true) && audioChannels == Picks(src, false)
  {
    videoChannels, audioChannels := [], [];
    var i := 0;
    while i < |src|
      invariant 0 <= i <= |src|
      invariant videoChannels == Picks(src[..i], true) && audioChannels == Picks(src[..i], false)
    {
      PicksStep(src, i, true);
      PicksStep(src, i, false);
      if "video" <= src[i].mimeType {
        videoChannels := videoChannels + [i];
      } else if "audio" <= src[i].mimeType {
        audioChannels := audioChannels + [i];
      }
      i := i + 1;
    }
    assert src[..i] == src;
  }

  /** The audio part of the builder's text. */
  method AudioFilter(audioChannels: seq<nat>) returns (text: string)
    requires audioChannels != []
    ensures text == Print(AudioChains(audioChannels)[0])
  {
    text := "";
    var i := 0;
    while i < |audioChannels|
      invariant 0 <= i <= |audioChannels|
      invariant text == Brackets(AudioStreams(audioChannels[..i]))
    {
      assert audioChannels[..i + 1][..i] == audioChannels[..i];
      OneMoreBracket(AudioStreams(audioChannels[..i]), Stream(audioChannels[i], false));
      text := text + Bracket(Stream(audioChannels[i], false));
      i := i + 1;
    }
    assert audioChannels[..i] == audioChannels;
    OneBracket(AOut);
    text := text + FilterText(Mix(|audioChannels|)) + Bracket(AOut);
  }

  lemma LastChar(ch: Chain)
    requires ch.outputs != []
    ensures Print(ch) != "" && Print(ch)[|Print(ch)| - 1] == ']'
  {
    var ls := Texts(ch.outputs);
    assert Wraps(ls) == Wraps(ls[..|ls| - 1]) + Wrap(ls[|ls| - 1]);
  }

  lemma TrimsVideoOnly(parts: seq<string>)
    requires parts != []
    ensures TrimSuffix(Ended(parts, ';'), ';') == Join(parts, ';')
  {
    EndedIsJoin(parts, ';');
    var s := Join(parts, ';') + [';'];
    assert s[..|s| - 1] == Join(parts, ';');
  }

  lemma TrimsNothing(parts: seq<string>, ch: Chain)
    requires ch.outputs != []
    ensures TrimSuffix(Ended(parts, ';') + Print(ch), ';') == Join(parts + [Print(ch)], ';')
  {
    LastChar(ch);
    EndedPlusPart(parts, Print(ch), ';');
    var s := Ended(parts, ';') + Print(ch);
    assert s[|s| - 1] == Print(ch)[|Print(ch)| - 1];
  }

  /** The filter text: the builder's content without the terminator of the last chain. */
  method BuildFilter(videoChannels: seq<nat>, audioChannels: seq<nat>, setPts: string) returns (finalFilter: string)
    requires videoChannels != [] || audioChannels != []
    ensures finalFilter == Join(VideoParts(videoChannels, setPts) + Prints(AudioChains(audioChannels)), ';')
  {
    var filterComplex := "";
    if |videoChannels| > 0 {
      filterComplex := VideoFilter(videoChannels, setPts);
    }
    assert filterComplex == Ended(VideoParts(videoChannels, setPts), ';');
    if |audioChannels| > 0 {
      var text := AudioFilter(audioChannels);
      TrimsNothing(VideoParts(videoChannels, setPts), AudioChains(audioChannels)[0]);
      assert Prints(AudioChains(audioChannels)) == [text];
      filterComplex := filterComplex + text;
    } else {
      TrimsVideoOnly(VideoParts(videoChannels, setPts));
      assert VideoParts(videoChannels, setPts) + [] == VideoParts(videoChannels, setPts);
    }
    finalFilter := TrimSuffix(filterComplex, ';');
  }

  method ListInputs(src: seq<MediaChannel>) returns (inputArgs: seq<string>)
    ensures inputArgs == InputArgs(src)
  {
    inputArgs := [];
    var i := 0;
    while i < |src|
      invariant 0 <= i <= |src|
      invariant inputArgs == InputArgs(src[..i])
    {
      InputArgsStep(src, i);
      inputArgs := inputArgs + ["-i", src[i].path];
      i := i + 1;
    }
    assert src[..i] == src;
  }

  predicate Silent(src: seq<MediaChannel>) {
    Picks(src, true) == [] && Picks(src, false) == []
  }

  /** transcodingArgs. `setPts` is the printed time factor, empty when the factor is close to one. */
  method TranscodingArgs(src: seq<MediaChannel>, setPts: string) returns (inputArgs: seq<string>, finalArgs: seq<string>)
    ensures Silent(src) ==> inputArgs == [] && finalArgs == []
    ensures !Silent(src) ==>
              inputArgs == InputArgs(src) && finalArgs == ["-filter_complex", FilterString(src, setPts)] + MapArgs(src)
  {
    if |src| == 0 {
      return [], [];
    }
    var videoChannels, audioChannels := Separate(src);
    if |videoChannels| == 0 && |audioChannels| == 0 {
      return [], [];
    }
    inputArgs := ListInputs(src);
    var finalFilter := BuildFilter(videoChannels, audioChannels, setPts);
    var finalMapArgs := if |videoChannels| > 0 then ["-map", Bracket(VOut)] else [];
    if |audioChannels| > 0 {
      finalMapArgs := finalMapArgs + ["-map", Bracket(AOut)];
    }
    assert finalMapArgs == MapArgs(src);
    finalArgs := ["-filter_complex", finalFilter] + finalMapArgs;
  }
}
