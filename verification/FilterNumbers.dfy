/** The sizes, positions and counts that a filter's text gives to ffmpeg (internal/utils/transcoding.go:118-178). */
module FilterNumbers {
  import opened Model
  import opened Text
  import opened Grid
  import opened FilterGraph

  /** Reading from left to right: the numbers complete so far, and the one still being read. */
  datatype Reading = Reading(done: seq<nat>, current: Option<nat>) {
    function All(): seq<nat> {
      match current case Some(n) => done + [n] case None => done
    }

    function Char(c: char): Reading {
      if !IsDigit(c) then Reading(All(), None)
      else Reading(done, Some(c as nat - 48 + 10 * match current case Some(n) => n case None => 0))
    }
  }

  function Read(r: Reading, s: string): Reading {
    if s == "" then r else Read(r, s[..|s| - 1]).Char(s[|s| - 1])
  }

  const START := Reading([], None)

  /** The decimal numbers in a text, in order. */
  function Numbers(s: string): seq<nat> {
    Read(START, s).All()
  }

  lemma {:induction false} ReadConcat(r: Reading, a: string, b: string)
    ensures Read(r, a + b) == Read(Read(r, a), b)
    decreases |b|
  {
    if b == "" {
      assert a + b == a;
    } else {
      ReadConcat(r, a, b[..|b| - 1]);
      assert (a + b)[..|a + b| - 1] == a + b[..|b| - 1];
    }
  }

  lemma {:induction false} ReadDec(r: Reading, n: nat)
    requires r.current.None?
    ensures Read(r, Dec(n)) == Reading(r.done, Some(n))
  {
    if n >= 10 {
      ReadDec(r, n / 10);
      assert Dec(n)[..|Dec(n)| - 1] == Dec(n / 10);
    } else {
      assert Dec(n)[..0] == "";
      assert Read(r, "") == r;
    }
  }

  predicate NoDigits(s: string) {
    forall i :: 0 <= i < |s| ==> !IsDigit(s[i])
  }

  lemma {:induction false} ReadWord(r: Reading, word: string)
    requires NoDigits(word) && word != ""
    ensures Read(r, word) == Reading(r.All(), None)
  {
    if |word| > 1 {
      ReadWord(r, word[..|word| - 1]);
    } else {
      assert word[..0] == "" && Read(r, word[..0]) == r;
    }
  }

  /** A word and then a number. */
  lemma ReadPair(r: Reading, s: string, word: string, n: nat)
    requires NoDigits(word) && word != ""
    ensures Read(r, s + word + Dec(n)) == Reading(Read(r, s).All(), Some(n))
  {
    ReadConcat(r, s + word, Dec(n));
    ReadConcat(r, s, word);
    ReadWord(Read(r, s), word);
    ReadDec(Read(r, s + word), n);
  }

  lemma ReadFirst(word: string, n: nat)
    requires NoDigits(word) && word != ""
    ensures Read(START, word + Dec(n)) == Reading([], Some(n))
  {
    ReadPair(START, "", word, n);
    assert "" + word == word && Read(START, "") == START;
  }

  lemma ReadLast(r: Reading, s: string, word: string)
    requires NoDigits(word) && word != ""
    ensures Read(r, s + word) == Reading(Read(r, s).All(), None)
  {
    ReadConcat(r, s, word);
    ReadWord(Read(r, s), word);
  }

  // ---- the parameters of each filter

  function Flat(cells: seq<Cell>): seq<nat> {
    if cells == [] then [] else Flat(cells[..|cells| - 1]) + [cells[|cells| - 1].x, cells[|cells| - 1].y]
  }

  /** In the order of ffmpeg's options: width before height, x before y; the 2 centres a padded picture. */
  function Parameters(f: Filter): seq<nat> {
    match f
    case Single(_) => [1920, 1080, 1920, 1080, 2, 2]
    case Scale(_, width, height) => [width, height]
    case Pad(width, height) => [width, height, 2, 2]
    case Stack(inputs, cells) => [inputs] + Flat(cells)
    case Mix(inputs) => [inputs]
  }

  function SetPts(f: Filter): string {
    if f.Single? || f.Scale? then f.setPts else ""
  }

  /** Two numbers as `name=a:b`. */
  lemma SizeReads(name: string, a: nat, b: nat)
    requires NoDigits(name) && name != ""
    ensures Read(START, name + Dec(a) + ":" + Dec(b)) == Reading([a], Some(b))
  {
    ReadFirst(name, a);
    ReadPair(START, name + Dec(a), ":", b);
  }

  predicate IsWord(s: string) {
    s != "" && NoDigits(s)
  }

  lemma SizeThenWord(name: string, a: nat, b: nat, tail: string)
    requires IsWord(name) && IsWord(tail)
    ensures Read(START, name + Dec(a) + ":" + Dec(b) + tail) == Reading([a, b], None)
  {
    SizeReads(name, a, b);
    ReadLast(START, name + Dec(a) + ":" + Dec(b), tail);
  }

  lemma TwoSizes(name: string, a: nat, b: nat, tail: string, name': string, a': nat, b': nat)
    requires IsWord(name) && IsWord(tail) && IsWord(name')
    ensures Numbers(name + Dec(a) + ":" + Dec(b) + tail + name' + Dec(a') + ":" + Dec(b')) == [a, b, a', b']
  {
    var s := name + Dec(a) + ":" + Dec(b) + tail;
    SizeThenWord(name, a, b, tail);
    ReadPair(START, s, name', a');
    ReadPair(START, s + name' + Dec(a'), ":", b');
  }

  lemma ScaleReads(width: nat, height: nat)
    ensures Numbers("scale=" + Dec(width) + ":" + Dec(height) + ":force_original_aspect_ratio=decrease") == [width, height]
  {
    SizeThenWord("scale=", width, height, ":force_original_aspect_ratio=decrease");
  }

  lemma PadReads(width: nat, height: nat)
    ensures Numbers("pad=" + Dec(width) + ":" + Dec(height) + ":(ow-iw)/2:(oh-ih)/2") == [width, height, 2, 2]
  {
    SizeReads("pad=", width, height);
    CentredReads("pad=" + Dec(width) + ":" + Dec(height));
  }

  lemma Centred(s: string)
    ensures s + ":(ow-iw)/" + Dec(2) + ":(oh-ih)/" + Dec(2) == s + ":(ow-iw)/2:(oh-ih)/2"
  {
    assert Dec(2) == "2";
    assert ":(ow-iw)/2:(oh-ih)/2" == ":(ow-iw)/" + ("2" + (":(oh-ih)/" + "2"));
  }

  lemma {:induction false} CellsRead(r: Reading, cells: seq<Cell>)
    requires r.current.None? && cells != []
    ensures Read(r, Join(CellTexts(cells), '|')).All() == r.done + Flat(cells)
  {
    var init, last := cells[..|cells| - 1], cells[|cells| - 1];
    assert CellTexts(cells)[..|cells| - 1] == CellTexts(init);
    if init == [] {
      CellReads(r, last);
      assert Join(CellTexts(cells), '|') == CellText(last);
      assert Flat(init) == [];
    } else {
      CellsRead(r, init);
      var s := Join(CellTexts(init), '|');
      ReadLast(r, s, "|");
      ReadConcat(r, s + ['|'], CellText(last));
      CellReads(Read(r, s + "|"), last);
      assert Join(CellTexts(cells), '|') == s + ['|'] + CellText(last);
    }
  }

  lemma CellReads(r: Reading, cell: Cell)
    requires r.current.None?
    ensures Read(r, CellText(cell)).All() == r.done + [cell.x, cell.y]
  {
    ReadDec(r, cell.x);
    ReadPair(r, Dec(cell.x), "_", cell.y);
  }

  lemma CellsFollow(s: string, done: seq<nat>, cells: seq<Cell>)
    requires Read(START, s) == Reading(done, None) && cells != []
    ensures Numbers(s + Join(CellTexts(cells), '|')) == done + Flat(cells)
  {
    ReadConcat(START, s, Join(CellTexts(cells), '|'));
    CellsRead(Reading(done, None), cells);
  }

  lemma CellsAfter(name: string, n: nat, word: string, cells: seq<Cell>)
    requires IsWord(name) && IsWord(word) && cells != []
    ensures Numbers(name + Dec(n) + word + Join(CellTexts(cells), '|')) == [n] + Flat(cells)
  {
    ReadFirst(name, n);
    ReadLast(START, name + Dec(n), word);
    CellsFollow(name + Dec(n) + word, [n], cells);
  }

  lemma StackReads(n: nat, cells: seq<Cell>)
    requires cells != []
    ensures Numbers("xstack=inputs=" + Dec(n) + ":layout=" + Join(CellTexts(cells), '|')) == [n] + Flat(cells)
  {
    CellsAfter("xstack=inputs=", n, ":layout=", cells);
  }

  lemma ScaledAndPaddedReads(a: nat, b: nat)
    ensures Numbers("scale=" + Dec(a) + ":" + Dec(b) + ":force_original_aspect_ratio=decrease"
                    + ",pad=" + Dec(a) + ":" + Dec(b) + ":(ow-iw)/2:(oh-ih)/2") == [a, b, a, b, 2, 2]
  {
    TwoSizes("scale=", a, b, ":force_original_aspect_ratio=decrease", ",pad=", a, b);
    CentredReads("scale=" + Dec(a) + ":" + Dec(b) + ":force_original_aspect_ratio=decrease" + ",pad=" + Dec(a) + ":" + Dec(b));
  }

  lemma CentredReads(s: string)
    ensures Numbers(s + ":(ow-iw)/2:(oh-ih)/2") == Numbers(s) + [2, 2]
  {
    ReadPair(START, s, ":(ow-iw)/", 2);
    ReadPair(START, s + ":(ow-iw)/" + Dec(2), ":(oh-ih)/", 2);
    Centred(s);
  }

  lemma FullSize()
    ensures Dec(1920) == "1920" && Dec(1080) == "1080"
  {
    assert Dec(1) == "1" && Dec(19) == "19" && Dec(192) == "192";
    assert Dec(10) == "10" && Dec(108) == "108";
  }

  lemma Regrouped(s: string, w: string, h: string, ratio: string, pad: string, centre: string)
    ensures s + w + ":" + h + ratio + pad + w + ":" + h + centre == s + w + ":" + h + ratio + (pad + w + ":" + h + centre)
  {
  }

  lemma FullSizeText(w: string, h: string, ratio: string)
    requires w == "1920" && h == "1080"
    ensures "scale=" + w + ":" + h + ratio + ",pad=" + w + ":" + h + ":(ow-iw)/2:(oh-ih)/2"
            == "scale=1920:1080" + ratio + ",pad=1920:1080:(ow-iw)/2:(oh-ih)/2"
  {
    Regrouped("scale=", w, h, ratio, ",pad=", ":(ow-iw)/2:(oh-ih)/2");
    assert "scale=" + w + ":" + h == "scale=1920:1080";
    assert ",pad=" + w + ":" + h + ":(ow-iw)/2:(oh-ih)/2" == ",pad=1920:1080:(ow-iw)/2:(oh-ih)/2";
  }

  lemma SingleReads()
    ensures Numbers("scale=1920:1080" + ":force_original_aspect_ratio=decrease" + ",pad=1920:1080:(ow-iw)/2:(oh-ih)/2")
            == [1920, 1080, 1920, 1080, 2, 2]
  {
    FullSize();
    ScaledAndPaddedReads(1920, 1080);
    FullSizeText(Dec(1920), Dec(1080), ":force_original_aspect_ratio=decrease");
  }

  lemma MixReads(n: nat)
    ensures Numbers("amix=inputs=" + Dec(n)) == [n]
  {
    ReadFirst("amix=inputs=", n);
  }

  lemma AfterPrefix(p: string, a: string, b: string, c: string, d: string, e: string)
    ensures p <= p + a + b + c + d + e && (p + a + b + c + d + e)[|p|..] == a + b + c + d + e
  {
    assert p + a + b + c + d + e == p + (a + b + c + d + e);
  }

  lemma AfterPrefixOfThree(p: string, a: string, b: string, c: string)
    ensures p <= p + a + b + c && (p + a + b + c)[|p|..] == a + b + c
  {
    assert p + a + b + c == p + (a + b + c);
  }

  /** The numbers in a printed filter, after its time factor, are the filter's parameters in their order. */
  lemma FilterReadsBack(f: Filter)
    requires f.Stack? ==> f.cells != []
    ensures SetPts(f) <= FilterText(f) && Numbers(FilterText(f)[|SetPts(f)|..]) == Parameters(f)
  {
    match f
    case Single(p) =>
      SingleReads();
      AfterPrefixOfThree(p, "scale=1920:1080", ":force_original_aspect_ratio=decrease", ",pad=1920:1080:(ow-iw)/2:(oh-ih)/2");
    case Scale(p, width, height) =>
      ScaleReads(width, height);
      AfterPrefix(p, "scale=", Dec(width), ":", Dec(height), ":force_original_aspect_ratio=decrease");
    case Pad(width, height) => PadReads(width, height);
    case Stack(n, cells) => StackReads(n, cells);
    case Mix(n) => MixReads(n);
  }

  /** After the time factor comes the name of the filter. */
  lemma FilterNamed(f: Filter)
    ensures SetPts(f) <= FilterText(f)
    ensures var text := FilterText(f)[|SetPts(f)|..];
            && (f.Single? || f.Scale? ==> "scale=" <= text)
            && (f.Pad? ==> "pad=" <= text)
            && (f.Stack? ==> "xstack=inputs=" <= text)
            && (f.Mix? ==> "amix=inputs=" <= text)
  {
    match f
    case Single(p) =>
      AfterPrefixOfThree(p, "scale=1920:1080", ":force_original_aspect_ratio=decrease", ",pad=1920:1080:(ow-iw)/2:(oh-ih)/2");
    case Scale(p, width, height) =>
      AfterPrefix(p, "scale=", Dec(width), ":", Dec(height), ":force_original_aspect_ratio=decrease");
    case _ =>
  }

  /** How the filters of a recording with two videos read. */
  lemma FilterSamples(setPts: string)
    ensures FilterText(Scale(setPts, 960, 1080)) == setPts + "scale=960:1080" + ":force_original_aspect_ratio=decrease"
    ensures FilterText(Pad(960, 1080)) == "pad=960:1080:(ow-iw)/2:(oh-ih)/2"
    ensures FilterText(Stack(2, [Cell(0, 0), Cell(960, 0)])) == "xstack=inputs=2:layout=0_0|960_0"
    ensures FilterText(Mix(2)) == "amix=inputs=2"
  {
    Sizes();
    ScaleSample(setPts, Dec(960), Dec(1080));
    PadSample(Dec(960), Dec(1080));
    StackSample();
  }

  lemma Sizes()
    ensures Dec(960) == "960" && Dec(1080) == "1080" && Dec(0) == "0" && Dec(2) == "2"
  {
    assert Dec(9) == "9" && Dec(96) == "96";
    assert Dec(1) == "1" && Dec(10) == "10" && Dec(108) == "108";
  }

  lemma ScaleSample(setPts: string, w: string, h: string)
    requires w == "960" && h == "1080"
    ensures setPts + "scale=" + w + ":" + h + ":force_original_aspect_ratio=decrease"
            == setPts + "scale=960:1080" + ":force_original_aspect_ratio=decrease"
  {
    assert setPts + "scale=" + w + ":" + h == setPts + "scale=960:1080";
  }

  lemma PadSample(w: string, h: string)
    requires w == "960" && h == "1080"
    ensures "pad=" + w + ":" + h + ":(ow-iw)/2:(oh-ih)/2" == "pad=960:1080:(ow-iw)/2:(oh-ih)/2"
  {
  }

  lemma StackSample()
    ensures "xstack=inputs=" + Dec(2) + ":layout=" + Join(CellTexts([Cell(0, 0), Cell(960, 0)]), '|')
            == "xstack=inputs=2:layout=0_0|960_0"
  {
    Sizes();
    var texts := CellTexts([Cell(0, 0), Cell(960, 0)]);
    assert "960" + "_" + "0" == "960_0" && "0" + "_" + "0" == "0_0";
    assert CellText(Cell(0, 0)) == "0_0" && CellText(Cell(960, 0)) == "960_0";
    assert texts == ["0_0", "960_0"];
    assert texts[..1] == ["0_0"];
    assert Join(texts[..1], '|') == "0_0";
    assert Join(texts, '|') == "0_0|960_0";
  }
}
