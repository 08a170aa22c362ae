/**
 * Nodes of the audio graph (include/audiolib/Node.h, src/audiolib/Node.cpp):
 * their settings, their identity, their text forms, and the two concrete
 * nodes, `DummyNode` and `AudioAdder`.
 */
module Nodes {
  import opened Decimal
  import opened Utils
  import opened Iframes

  /** `NodeSettings`: the sample rate is a `float` in the source, modelled as `real`. */
  datatype NodeSettings = NodeSettings(
    sampleRate: real,
    blockSize: int,
    numAudioInputs: int,
    numAudioOutputs: int,
    numMessageInputs: int,
    numMessageOutputs: int)

  /** The default-constructed `NodeSettings`. */
  function DefaultSettings(): (s: NodeSettings)
    ensures s.sampleRate == 1.0 && s.blockSize == 0
    ensures s.numAudioInputs == 0 && s.numAudioOutputs == 0
    ensures s.numMessageInputs == 0 && s.numMessageOutputs == 0
  {
    NodeSettings(1.0, 0, 0, 0, 0, 0)
  }

  /** The `float` to `int` conversion of `getSampleRate`: truncation toward zero. */
  function TruncateToInt(r: real): (i: int)
    ensures r >= 0.0 ==> 0 <= i && i as real <= r < i as real + 1.0
    ensures r < 0.0 ==> i <= 0 && i as real - 1.0 < r <= i as real
  {
    if r >= 0.0 then r.Floor else -((-r).Floor)
  }

  /** `Node::getSampleRate()`. */
  function GetSampleRate(s: NodeSettings): int
  {
    TruncateToInt(s.sampleRate)
  }

  /** `Node::toString()`: the class name, `" #"`, and the decimal id. */
  function NodeToString(className: string, id: int): (r: string)
    ensures |r| > |className| + 2 && r[..|className|] == className
    ensures r[|className|..|className| + 2] == " #"
  {
    className + " #" + IntToString(id)
  }

  /** The id can be read back from the end of `toString()`. */
  lemma NodeToStringGivesId(className: string, id: int)
    ensures ParseInt(NodeToString(className, id)[|className| + 2..]) == id
  {
    assert NodeToString(className, id)[|className| + 2..] == IntToString(id);
    IntToStringRoundTrip(id);
  }

  /** One optional `"  <caption>: <value>"` line of the description. */
  datatype Item = Item(present: bool, caption: string, value: int)

  /** The optional lines of the description, in the order the source writes them. */
  function DescriptionItems(s: NodeSettings): seq<Item>
  {
    var anyAudio := s.numAudioInputs > 0 || s.numAudioOutputs > 0;
    [ Item(s.numAudioInputs > 0, "Audio Inputs", s.numAudioInputs),
      Item(s.numAudioOutputs > 0, "Audio Outputs", s.numAudioOutputs),
      Item(anyAudio, "Sample Rate", GetSampleRate(s)),
      Item(anyAudio, "Block Size", s.blockSize),
      Item(s.numMessageInputs > 0, "Message Inputs", s.numMessageInputs),
      Item(s.numMessageOutputs > 0, "Message Outputs", s.numMessageOutputs) ]
  }

  /** What the stream receives for each item: its line and a newline, or nothing. */
  function Streamed(items: seq<Item>): string
  {
    if items == [] then ""
    else
      var it := items[0];
      (if it.present then "  " + it.caption + ": " + IntToString(it.value) + "\n" else "")
        + Streamed(items[1..])
  }

  /** `Node::toDescriptionString()`: the heading, then each item whose condition holds. */
  function ToDescriptionString(s: NodeSettings): string
  {
    "Settings:\n" + Streamed(DescriptionItems(s))
  }

  /** The lines the items contribute. */
  function ItemLines(items: seq<Item>): seq<string>
  {
    if items == [] then []
    else
      var it := items[0];
      (if it.present then ["  " + it.caption + ": " + IntToString(it.value)] else [])
        + ItemLines(items[1..])
  }

  /**
   * The description as a list of lines: a heading, one line per non-zero
   * port count, and the rate and block size only when the node has audio
   * ports.
   */
  function DescriptionLines(s: NodeSettings): seq<string>
  {
    ["Settings:"] + ItemLines(DescriptionItems(s))
  }

  lemma {:induction false} StreamedIsUnlines(items: seq<Item>)
    ensures Streamed(items) == Unlines(ItemLines(items))
  {
    if items != [] {
      var it := items[0];
      StreamedIsUnlines(items[1..]);
      var first := if it.present then ["  " + it.caption + ": " + IntToString(it.value)] else [];
      UnlinesAppend(first, ItemLines(items[1..]));
    }
  }

  lemma {:induction false} ItemLinesHaveNoNewline(items: seq<Item>)
    requires forall k :: 0 <= k < |items| ==> NoNewline(items[k].caption)
    ensures forall k :: 0 <= k < |ItemLines(items)| ==> NoNewline(ItemLines(items)[k])
  {
    if items != [] {
      var it := items[0];
      IntToStringHasNoNewline(it.value);
      ItemLinesHaveNoNewline(items[1..]);
    }
  }

  /**
   * Split into lines, the description is exactly `DescriptionLines`: it
   * starts with the heading and each optional line appears under its
   * condition.
   */
  lemma DescriptionLinesOf(s: NodeSettings)
    ensures Lines(ToDescriptionString(s)) == DescriptionLines(s)
    ensures Lines(ToDescriptionString(s))[0] == "Settings:"
  {
    var items := DescriptionItems(s);
    var body := Streamed(items);
    CaptionsHaveNoNewline(s);
    ItemLinesHaveNoNewline(items);
    StreamedIsUnlines(items);
    LinesOfUnlines(ItemLines(items));
    CaptionsAreOneLine();
    LinesOfLineThen("Settings:", body);
    assert ToDescriptionString(s) == "Settings:" + "\n" + body;
  }

  lemma CaptionsHaveNoNewline(s: NodeSettings)
    ensures forall k :: 0 <= k < |DescriptionItems(s)| ==> NoNewline(DescriptionItems(s)[k].caption)
  {
    var items := DescriptionItems(s);
    CaptionsAreOneLine();
    forall k | 0 <= k < |items|
      ensures NoNewline(items[k].caption)
    {
      if k == 0 {
      } else if k == 1 {
      } else if k == 2 {
      } else if k == 3 {
      } else if k == 4 {
      } else {
        assert k == 5;
      }
    }
  }

  lemma CaptionsAreOneLine()
    ensures NoNewline("Audio Inputs") && NoNewline("Audio Outputs")
    ensures NoNewline("Sample Rate") && NoNewline("Block Size")
    ensures NoNewline("Message Inputs") && NoNewline("Message Outputs")
    ensures NoNewline("Settings:")
  {
  }

  /** `Node::toDebugString()`: the name line, then the description indented by two spaces. */
  function ToDebugString(className: string, id: int, s: NodeSettings): string
  {
    NodeToString(className, id) + "\n" + Indented(ToDescriptionString(s), 2, ' ')
  }

  /** The debug text is the name line followed by every description line indented by two spaces. */
  lemma DebugStringLines(className: string, id: int, s: NodeSettings)
    requires NoNewline(className)
    ensures Lines(ToDebugString(className, id, s)) ==
              [NodeToString(className, id)] + Prefixed("  ", DescriptionLines(s))
  {
    IntToStringHasNoNewline(id);
    LinesOfLineThen(NodeToString(className, id), Indented(ToDescriptionString(s), 2, ' '));
    IndentedLines(ToDescriptionString(s), 2, ' ');
    DescriptionLinesOf(s);
    assert Repeat(2, ' ') == "  ";
  }

  /**
   * The static `Node::id_counter_`: starts at 0 and is post-incremented
   * by every node constructor.
   */
  class IdCounter {
    var next: int

    constructor ()
      ensures next == 0
    {
      next := 0;
    }

    /** `id_counter_++`. */
    method Take() returns (id: int)
      modifies this
      ensures id == old(next) && next == old(next) + 1
    {
      id := next;
      next := next + 1;
    }
  }

  /**
   * `DummyNode`: every output is the same silent buffer, whatever the
   * inputs.
   */
  class DummyNode {
    const id: int
    const settings: NodeSettings
    const nullAudioFrames: Frames
    const outputBuffer: seq<Frames>

    ghost predicate Valid()
      reads nullAudioFrames
    {
      && |outputBuffer| == settings.numAudioOutputs
      && (forall k :: 0 <= k < |outputBuffer| ==> outputBuffer[k] == nullAudioFrames)
      && nullAudioFrames.Length == settings.blockSize
      && Silent(nullAudioFrames)
    }

    constructor (ps: NodeSettings, ids: IdCounter)
      requires ps.blockSize >= 0 && ps.numAudioOutputs >= 0
      modifies ids
      ensures id == old(ids.next) && ids.next == old(ids.next) + 1
      ensures settings == ps
      ensures fresh(nullAudioFrames) && Valid()
    {
      var n := ids.Take();
      var f := NewFrames(ps.blockSize);
      id := n;
      settings := ps;
      nullAudioFrames := f;
      outputBuffer := Fill(ps.numAudioOutputs, f);
    }

    /** Returns the same vector of `getNumAudioOutputs()` aliases of the silent buffer on every call. */
    method ComputeAudio(inputs: seq<Frames>) returns (out: seq<Frames>)
      requires Valid()
      requires |inputs| == settings.numAudioInputs
      ensures out == outputBuffer
      ensures |out| == settings.numAudioOutputs
      ensures forall k :: 0 <= k < |out| ==> out[k] == nullAudioFrames && Silent(out[k])
    {
      out := outputBuffer;
    }
  }

  /** `AudioAdder::filterNodeSettings`: an adder always has exactly one output and no message ports. */
  function FilterAdderSettings(ps: NodeSettings): (s: NodeSettings)
    ensures s.sampleRate == ps.sampleRate && s.blockSize == ps.blockSize
    ensures s.numAudioInputs == ps.numAudioInputs
    ensures s.numAudioOutputs == 1
    ensures s.numMessageInputs == 0 && s.numMessageOutputs == 0
  {
    DefaultSettings().(sampleRate := ps.sampleRate, blockSize := ps.blockSize,
                       numAudioInputs := ps.numAudioInputs, numAudioOutputs := 1)
  }

  /** The sum, over all inputs, of the samples at index `i`. */
  function ColumnSum(vals: seq<seq<real>>, i: nat): real
    requires forall j :: 0 <= j < |vals| ==> i < |vals[j]|
  {
    if vals == [] then 0.0 else ColumnSum(vals[..|vals| - 1], i) + vals[|vals| - 1][i]
  }

  /** What the adder outputs: per index below `n`, the sum of the inputs' samples at that index. */
  function Mix(vals: seq<seq<real>>, n: nat): (r: seq<real>)
    requires forall j :: 0 <= j < |vals| ==> n <= |vals[j]|
    ensures |r| == n
    ensures forall i :: 0 <= i < n ==> r[i] == ColumnSum(vals, i)
  {
    seq(n, i requires 0 <= i < n => ColumnSum(vals, i))
  }

  /** The samples held by each input buffer. */
  function Samples(inputs: seq<Frames>): (vals: seq<seq<real>>)
    reads inputs
    ensures |vals| == |inputs|
    ensures forall j :: 0 <= j < |inputs| ==> vals[j] == inputs[j][..]
  {
    if inputs == [] then [] else Samples(inputs[..|inputs| - 1]) + [inputs[|inputs| - 1][..]]
  }

  /** Mixing the inputs of two groups is adding the two groups' mixes, sample by sample. */
  lemma {:induction false} ColumnSumAppend(a: seq<seq<real>>, b: seq<seq<real>>, i: nat)
    requires forall j :: 0 <= j < |a| ==> i < |a[j]|
    requires forall j :: 0 <= j < |b| ==> i < |b[j]|
    ensures ColumnSum(a + b, i) == ColumnSum(a, i) + ColumnSum(b, i)
    decreases |b|
  {
    if b == [] {
      assert a + b == a;
    } else {
      var b' := b[..|b| - 1];
      assert (a + b)[..|a + b| - 1] == a + b';
      ColumnSumAppend(a, b', i);
    }
  }

  /** The mix does not depend on the order in which the inputs are wired. */
  lemma {:induction false} ColumnSumSwap(vals: seq<seq<real>>, j: nat, i: nat)
    requires j + 1 < |vals|
    requires forall k :: 0 <= k < |vals| ==> i < |vals[k]|
    ensures ColumnSum(vals[..j] + [vals[j + 1], vals[j]] + vals[j + 2..], i) == ColumnSum(vals, i)
  {
    var pre, post := vals[..j], vals[j + 2..];
    assert vals == pre + [vals[j], vals[j + 1]] + post;
    ColumnSumAppend(pre + [vals[j + 1], vals[j]], post, i);
    ColumnSumAppend(pre + [vals[j], vals[j + 1]], post, i);
    ColumnSumAppend(pre, [vals[j + 1], vals[j]], i);
    ColumnSumAppend(pre, [vals[j], vals[j + 1]], i);
    assert [vals[j + 1], vals[j]][..1] == [vals[j + 1]];
    assert [vals[j], vals[j + 1]][..1] == [vals[j]];
  }

  /** With no inputs the adder outputs silence; with one input it copies it. */
  lemma MixOfNoneOrOne(v: seq<real>, n: nat)
    requires n <= |v|
    ensures forall i :: 0 <= i < n ==> Mix([], n)[i] == 0.0
    ensures Mix([v], n) == v[..n]
  {
    forall i | 0 <= i < n
      ensures Mix([v], n)[i] == v[i]
    {
      assert [v][..0] == [];
      assert ColumnSum([v], i) == ColumnSum([], i) + v[i];
    }
  }

  /** Which inputs are the buffer `out` itself. */
  function FedBack(inputs: seq<Frames>, out: Frames): (fed: seq<bool>)
    ensures |fed| == |inputs|
    ensures forall j :: 0 <= j < |inputs| ==> (fed[j] <==> inputs[j] == out)
  {
    seq(|inputs|, j requires 0 <= j < |inputs| => inputs[j] == out)
  }

  /**
   * The sample at index `i` as the adder's in-place loop leaves it when the
   * inputs marked in `fed` are its own output buffer: such an input is read
   * while it is being written, so it adds the running sum so far instead of
   * a sample of its own.
   */
  function FeedbackSum(vals: seq<seq<real>>, fed: seq<bool>, i: nat): real
    requires |fed| == |vals|
    requires forall j :: 0 <= j < |vals| ==> i < |vals[j]|
  {
    if vals == [] then 0.0
    else
      var sum := FeedbackSum(vals[..|vals| - 1], fed[..|fed| - 1], i);
      sum + (if fed[|fed| - 1] then sum else vals[|vals| - 1][i])
  }

  /** `FeedbackSum` at every index below `n`. */
  function FeedbackMix(vals: seq<seq<real>>, fed: seq<bool>, n: nat): (r: seq<real>)
    requires |fed| == |vals|
    requires forall j :: 0 <= j < |vals| ==> n <= |vals[j]|
    ensures |r| == n
    ensures forall i :: 0 <= i < n ==> r[i] == FeedbackSum(vals, fed, i)
  {
    seq(n, i requires 0 <= i < n => FeedbackSum(vals, fed, i))
  }

  /** When no input is the output buffer, the in-place loop computes the plain sum of the inputs. */
  lemma {:induction false} FeedbackFreeSum(vals: seq<seq<real>>, fed: seq<bool>, i: nat)
    requires |fed| == |vals|
    requires forall j :: 0 <= j < |vals| ==> i < |vals[j]| && !fed[j]
    ensures FeedbackSum(vals, fed, i) == ColumnSum(vals, i)
    decreases |vals|
  {
    if vals != [] {
      FeedbackFreeSum(vals[..|vals| - 1], fed[..|fed| - 1], i);
    }
  }

  lemma FeedbackFreeMix(vals: seq<seq<real>>, fed: seq<bool>, n: nat)
    requires |fed| == |vals|
    requires forall j :: 0 <= j < |vals| ==> n <= |vals[j]| && !fed[j]
    ensures FeedbackMix(vals, fed, n) == Mix(vals, n)
  {
    forall i | 0 <= i < n
      ensures FeedbackMix(vals, fed, n)[i] == Mix(vals, n)[i]
    {
      FeedbackFreeSum(vals, fed, i);
    }
  }

  /**
   * An adder whose every input is its own output buffer outputs silence:
   * each sample is zeroed and then only ever doubled.
   */
  lemma {:induction false} SelfFedIsSilent(vals: seq<seq<real>>, fed: seq<bool>, i: nat)
    requires |fed| == |vals|
    requires forall j :: 0 <= j < |vals| ==> i < |vals[j]| && fed[j]
    ensures FeedbackSum(vals, fed, i) == 0.0
    decreases |vals|
  {
    if vals != [] {
      SelfFedIsSilent(vals[..|vals| - 1], fed[..|fed| - 1], i);
    }
  }

  /**
   * `AudioAdder`: one output buffer, allocated once and overwritten in
   * place by every `computeAudio`.
   */
  class AudioAdder {
    const id: int
    const settings: NodeSettings
    const internalOutputBuffer: seq<Frames>
    const externalOutputBuffer: seq<Frames>

    ghost predicate Valid()
    {
      && settings.blockSize >= 0
      && settings.numAudioOutputs == 1
      && |internalOutputBuffer| == 1
      && internalOutputBuffer[0].Length == settings.blockSize
      && externalOutputBuffer == ConstView(internalOutputBuffer)
    }

    constructor (ps: NodeSettings, ids: IdCounter)
      requires ps.blockSize >= 0
      modifies ids
      ensures id == old(ids.next) && ids.next == old(ids.next) + 1
      ensures settings == FilterAdderSettings(ps)
      ensures Valid() && fresh(internalOutputBuffer[0]) && Silent(internalOutputBuffer[0])
    {
      var n := ids.Take();
      var s := FilterAdderSettings(ps);
      var buffers := NewIframesVector(1, s.blockSize, s.sampleRate);
      id := n;
      settings := s;
      internalOutputBuffer := buffers;
      externalOutputBuffer := ConstView(buffers);
    }

    /**
     * `AudioAdder::computeAudio`: for every index below the block size,
     * zero the output sample and add each input's sample to it. The
     * result is the same persistent buffer every time.
     */
    method ComputeAudio(inputs: seq<Frames>) returns (out: seq<Frames>)
      requires Valid()
      requires |inputs| == settings.numAudioInputs
      requires forall j :: 0 <= j < |inputs| ==> inputs[j].Length >= settings.blockSize
      modifies internalOutputBuffer[0]
      ensures out == externalOutputBuffer && |out| == settings.numAudioOutputs
      ensures out[0][..] ==
                FeedbackMix(old(Samples(inputs)), FedBack(inputs, internalOutputBuffer[0]), settings.blockSize)
      ensures (forall j :: 0 <= j < |inputs| ==> inputs[j] != internalOutputBuffer[0]) ==>
                out[0][..] == Mix(old(Samples(inputs)), settings.blockSize)
      ensures settings.numAudioInputs == 0 ==> Silent(out[0])
    {
      var frames := internalOutputBuffer[0];
      var blockSize := settings.blockSize;
      ghost var vals := Samples(inputs);
      ghost var fed := FedBack(inputs, frames);
      var i := 0;
      while i < blockSize
        invariant 0 <= i <= blockSize
        invariant forall j :: 0 <= j < |inputs| && !fed[j] ==> vals[j] == inputs[j][..]
        invariant forall k :: 0 <= k < i ==> frames[k] == FeedbackSum(vals, fed, k)
      {
        AddColumn(frames, inputs, i, vals, fed);
        i := i + 1;
      }
      out := externalOutputBuffer;
      assert frames[..] == FeedbackMix(vals, fed, blockSize);
      if forall j :: 0 <= j < |inputs| ==> inputs[j] != frames {
        FeedbackFreeMix(vals, fed, blockSize);
      }
    }
  }

  /**
   * One turn of the outer loop of `AudioAdder::computeAudio`: zero the
   * output sample at `i`, then add each input's sample at `i` to it. An
   * input that is `frames` itself is read as it is being written.
   */
  method AddColumn(frames: Frames, inputs: seq<Frames>, i: nat, ghost vals: seq<seq<real>>, ghost fed: seq<bool>)
    requires i < frames.Length && |vals| == |inputs| && fed == FedBack(inputs, frames)
    requires forall j :: 0 <= j < |inputs| ==> i < inputs[j].Length && i < |vals[j]|
    requires forall j :: 0 <= j < |inputs| && !fed[j] ==> vals[j] == inputs[j][..]
    modifies frames
    ensures frames[i] == FeedbackSum(vals, fed, i)
    ensures forall k :: 0 <= k < frames.Length && k != i ==> frames[k] == old(frames[k])
  {
    frames[i] := 0.0;
    var j := 0;
    while j < |inputs|
      invariant 0 <= j <= |inputs|
      invariant frames[i] == FeedbackSum(vals[..j], fed[..j], i)
      invariant forall k :: 0 <= k < frames.Length && k != i ==> frames[k] == old(frames[k])
    {
      FeedbackSumStep(vals, fed, j, i);
      frames[i] := frames[i] + inputs[j][i];
      j := j + 1;
    }
    assert vals[..|inputs|] == vals && fed[..|inputs|] == fed;
  }

  lemma FeedbackSumStep(vals: seq<seq<real>>, fed: seq<bool>, j: nat, i: nat)
    requires j < |vals| == |fed|
    requires forall k :: 0 <= k < |vals| ==> i < |vals[k]|
    ensures var sum := FeedbackSum(vals[..j], fed[..j], i);
            FeedbackSum(vals[..j + 1], fed[..j + 1], i) == sum + (if fed[j] then sum else vals[j][i])
  {
    assert vals[..j + 1][..j] == vals[..j];
    assert fed[..j + 1][..j] == fed[..j];
  }

  /** A node of either concrete kind, as the graph holds it. */
  datatype NodeRef = DummyRef(dummy: DummyNode) | AdderRef(adder: AudioAdder) {

    function Id(): int {
      match this
      case DummyRef(d) => d.id
      case AdderRef(a) => a.id
    }

    function Settings(): NodeSettings {
      match this
      case DummyRef(d) => d.settings
      case AdderRef(a) => a.settings
    }

    /** `className()` of each kind. */
    function ClassName(): string {
      match this
      case DummyRef(_) => "DummyNode"
      case AdderRef(_) => "AudioAdder"
    }
  }

  /**
   * Two nodes built one after the other get strictly increasing ids,
   * whatever their kinds.
   */
  method BuildTwoNodes(ps: NodeSettings, ids: IdCounter) returns (first: DummyNode, second: AudioAdder)
    requires ps.blockSize >= 0 && ps.numAudioOutputs >= 0
    modifies ids
    ensures first.id < second.id && second.id + 1 == ids.next
  {
    first := new DummyNode(ps, ids);
    second := new AudioAdder(ps, ids);
  }
}
