# moo-synth audio library core, modelled in Dafny

This project models the core of the moo-synth audio library (`audiolib`):

- **Nodes.** A node is a block of audio computation. It has settings (sample rate, block size, port counts) and a graph-scoped id taken from a global counter. `DummyNode` outputs silence. `AudioAdder` mixes all of its inputs into one output by summing them sample by sample.
- **Frame buffers** (`Iframes`). These are fixed-size arrays of samples. Vectors of them are allocated per node, and read-only views are taken of them.
- **The node graph** (`Graph`). It holds each registered node in a `NodeWrapper`, together with two connection tables (`PortConnections`, a multimap from local port to remote node and port) and the node's input buffer.
- **The legacy audio patches** (`AudioPatch`). Each patch has input, output, source and sink ports. Inputs and outputs are wired to the sources and sinks of other patches. Lock flags keep each source and each sink feeding at most one slot, and every failed check throws a runtime error with a fixed text.
- **Messages and message patches** (`Message`, `Patch`, `FunctionalPatch`, `PassthroughPatch`, `JunctionPatch`). A message is a typed value. Patches wire numbered message output ports to the input ports of other patches. A received message is processed by the patch's kind and forwarded along the wiring, with a time-to-live (TTL) that drops by one per hop and stops an endless loop with an error.
- **The text helpers.** These are `indentString` and the textual descriptions of nodes and messages.

Objects that the library updates in place are classes with `modifies` frames:

- `IdCounter`, `DummyNode`, `AudioAdder`, `PortConnections`, `NodeWrapper`, `Graph`, `AudioPatch` and `Patch`;
- frame buffers are `array<real>`.

The pure parts are functions with lemmas about them:

- decimal rendering;
- line splitting and indentation;
- mixing;
- the order of the connection checks;
- what each kind of message patch sends;
- message routing.

A thrown exception is an `Outcome.Fail` or `Option.None` carrying the error and its text. For code the library's authors would not write, the model says what they evidently meant and records the as-written behaviour under "## Findings".

The message router is modelled by a ghost specification and an imperative implementation:

- `Patches.Route` gives the trace of deliveries that `receiveMessage` causes.
- The methods `ReceiveMessage` / `ProcessMessage` / `SendMessage` walk the wiring and are proved to produce exactly that trace.
- Lemmas bound the TTLs along any route and show that a self-loop ends with the TTL error.
- `MainExample` replays the demo program's wiring (one passthrough patch, one junction and one functional patch) and proves the four deliveries it makes.

## Model

| member | source | states |
|---|---|---|
| Decimal.IntToString | include/audiolib/Node.h:55 | the decimal text of an id starts with '-' exactly when the id is negative |
| Decimal.IntToStringRoundTrip | include/audiolib/Node.h:55 | parsing the decimal text of any integer gives that integer back |
| Decimal.IntToStringInjective | include/audiolib/Node.h:55 | different integers have different decimal texts |
| Decimal.IntToStringHasNoNewline | src/audiolib/Node.cpp:23-40 | a rendered number never contains a line break, so it cannot split a description line |
| Utils.IndentString | src/audiolib/Utils.cpp:12-21 | a negative width fails (the `std::string(n, ch)` length error); otherwise the result is the input with every line prefixed by n copies of ch and ended by a newline |
| Utils.Repeat | src/audiolib/Utils.cpp:16 | the indent is exactly n copies of the fill character |
| Utils.LineEnd | src/audiolib/Utils.cpp:17 | `getline` stops at the first newline at or after the position, or at the end |
| Utils.LinesOfUnlines | src/audiolib/Utils.cpp:17-19 | splitting newline-terminated lines that have no newline inside gives those lines back |
| Utils.UnlinesOfLines | src/audiolib/Utils.cpp:17-19 | joining the lines `getline` reads gives the input back, with a final newline added if missing |
| Utils.IndentedEmpty | src/audiolib/Utils.cpp:17-20 | indenting empty text gives empty text |
| Utils.IndentedEndsWithNewline | src/audiolib/Utils.cpp:18 | indented non-empty text always ends with a newline |
| Utils.IndentedByZero | src/audiolib/Utils.cpp:12-21 | indenting by zero only adds the missing final newline |
| Utils.IndentedLines | src/audiolib/Utils.cpp:17-19 | when the fill is not a newline, the lines of the result are exactly the input's lines, each prefixed by the indent |
| Utils.StripIndentRecoversLines | src/audiolib/Utils.cpp:18 | removing the first n characters of each result line recovers the input's lines |
| Utils.IndentedLength | src/audiolib/Utils.cpp:12-21 | the result's length is the input's line lengths plus n+1 per line |
| Iframes.NewFrames | src/audiolib/Iframes.cpp:14 | a new frame buffer is fresh, has the block size and is silent |
| Iframes.NewIframesVectorAsWritten | src/audiolib/Iframes.cpp:10-16 | as written: 2·size entries, the first size null, the rest fresh, distinct and silent buffers |
| Iframes.NewIframesVector | src/audiolib/Iframes.cpp:10-16 | as intended: size entries, each a fresh silent buffer of the block size, no two the same buffer |
| Iframes.AdderBufferAsWritten | src/audiolib/Node.cpp:62-66 | the adder's one-entry output vector, as written, holds null at index 0, which `computeAudio` then dereferences |
| Iframes.ConstView | src/audiolib/Iframes.cpp:28-29 | a read-only view has the same buffers in the same order |
| Iframes.Fill | src/audiolib/Iframes.cpp:30-31 | size entries, every one the given buffer |
| Nodes.DefaultSettings | include/audiolib/Node.h:22-23 | default settings: sample rate 1.0 and every size and count 0 |
| Nodes.TruncateToInt | include/audiolib/Node.h:52 | the float sample rate is truncated toward zero: the result is at most the rate in absolute value and off by less than one |
| Nodes.NodeToString | include/audiolib/Node.h:55 | a node's text is its class name, " #" and its id |
| Nodes.NodeToStringGivesId | include/audiolib/Node.h:55 | the id can be read back from a node's text, so nodes of one class with different ids print differently |
| Nodes.DescriptionLinesOf | src/audiolib/Node.cpp:23-40 | the description's first line is "Settings:", followed by one line per setting, the port counts only when they are positive |
| Nodes.DebugStringLines | include/audiolib/Node.h:56-58 | the debug text is the node's text on one line followed by the description lines indented by two spaces |
| Nodes.IdCounter.Take | src/audiolib/Node.cpp:14-18 | each node gets the counter's value and the counter moves on by one |
| Nodes.DummyNode.constructor | src/audiolib/Node.cpp:45-51 | the node takes the next id, its settings, one silent null buffer, and one output entry per audio output, all that null buffer |
| Nodes.DummyNode.ComputeAudio | src/audiolib/Node.cpp:53-56 | whatever the inputs, the output is the stored vector: every output is the silent null buffer |
| Nodes.FilterAdderSettings | src/audiolib/Node.cpp:68-76 | an adder keeps the rate, block size and input count, has exactly one audio output and no message ports |
| Nodes.ColumnSumAppend | src/audiolib/Node.cpp:86-88 | mixing a concatenation of inputs is the sum of mixing each part |
| Nodes.ColumnSumSwap | src/audiolib/Node.cpp:86-88 | over reals, the mix does not depend on the order of the inputs (swapping two neighbouring inputs leaves it unchanged, so any reordering does) |
| Nodes.MixOfNoneOrOne | src/audiolib/Node.cpp:83-89 | mixing no inputs is silence; mixing one input copies it |
| Nodes.AudioAdder.constructor | src/audiolib/Node.cpp:62-66 | the adder takes the next id and the filtered settings, and its external output is one fresh buffer of the block size |
| Nodes.AudioAdder.ComputeAudio | src/audiolib/Node.cpp:78-91 | output 0 holds, sample by sample, the running sum the in-place loop leaves, in which an input that is the output buffer itself adds the sum so far; when no input is the output buffer this is the sum over all inputs; the returned vector is the external output buffer; with no inputs it is silent |
| Nodes.FeedbackFreeSum | src/audiolib/Node.cpp:85-88 | when no input is the output buffer, the in-place running sum is the plain sum of the inputs' samples |
| Nodes.FeedbackFreeMix | src/audiolib/Node.cpp:83-89 | when no input is the output buffer, the whole output block is the mix of the inputs |
| Nodes.SelfFedIsSilent | src/audiolib/Node.cpp:85-88 | an adder whose every input is its own output buffer outputs silence, because each sample is zeroed and then only doubled |
| Nodes.AddColumn | src/audiolib/Node.cpp:85-88 | one turn of the outer loop sets output sample i to the running sum over the inputs at i, an input that is the output buffer adding the sum so far, and leaves every other output sample as it was |
| Nodes.BuildTwoNodes | src/audiolib/Node.cpp:14-18 | nodes built one after the other get increasing ids |
| Graphs.SamePort | include/audiolib/Graph.h:17-22 | two port pairs are equal exactly when node id and port agree |
| Graphs.RemoveFirstMultiset | include/audiolib/Graph.h:26 | removing one connection removes one copy of it and nothing else |
| Graphs.WithoutNodeMultiset | include/audiolib/Graph.h:25 | purging a node leaves no connection to it and keeps every other connection with its multiplicity |
| Graphs.WithoutNodeShrinks | include/audiolib/Graph.h:25 | purging shrinks the table exactly when some connection goes to that node |
| Graphs.PortConnections.Connect | include/audiolib/Graph.h:29 | a connection is added once more to the multimap, after which the port is connected to that remote |
| Graphs.PortConnections.RemoveConnection | include/audiolib/Graph.h:26 | reports true exactly when the connection was present, and removes one copy of it |
| Graphs.PortConnections.RemoveConnectionToNode | include/audiolib/Graph.h:25 | reports true exactly when some connection went to the node, and removes all of those |
| Graphs.ConnectThenRemove | include/audiolib/Graph.h:26-29 | removing a connection just made succeeds and restores the table's contents |
| Graphs.NodeWrapper.constructor | include/audiolib/Graph.h:32-38 | the wrapper holds the node, two fresh empty connection tables, and one input buffer entry per audio input, each the default frames |
| Graphs.MkNodeSettings | src/audiolib/Graph.cpp:26-35 | the settings carry the given rate, block size and audio port counts, and no message ports |
| Graphs.Graph.constructor | src/audiolib/Graph.cpp:42-48 | the graph takes the next id, gets a silent null buffer and one fresh distinct silent output buffer per output, and its external output is its internal output. The output vector is built as the corrected `IframesVector` of the Findings row; as written it would hold 2·n_outputs entries, the first n_outputs null |
| Graphs.Graph.Validate | src/audiolib/Graph.cpp:57-59 | validation never fails |
| Graphs.Graph.RegisterNode | src/audiolib/Graph.cpp:62-67 | returns the node's own id. A new id gains exactly one fresh wrapper; an id already present leaves the map unchanged, as `emplace` does |
| AudioPatches.SettingsEqual | src/audiolib/AudioPatch.cpp:10-16 | settings compare equal exactly when all three fields agree |
| AudioPatches.ErrorText | src/audiolib/AudioPatch.cpp:94-118 | each runtime error's text opens with its family's wording: out of range, already connected, already disconnected, settings mismatch |
| AudioPatches.ConnectFailure | src/audiolib/AudioPatch.cpp:18-28 | a connection passes exactly when the local port is in range with an empty slot, the remote port is in range and unlocked, and the settings match; the range errors come first, local before remote |
| AudioPatches.ConnectionHoldsLock | src/audiolib/AudioPatch.cpp:23-26 | a successful connection takes the remote lock, and a taken lock or an occupied slot refuses every connection |
| AudioPatches.MismatchKeepsLock | src/audiolib/AudioPatch.cpp:25-28 | with the lock free but the settings different, the attempt fails with a settings mismatch after the lock was taken |
| AudioPatches.NegativePortIsNotRejected | src/audiolib/AudioPatch.cpp:21-25 | a negative remote port passes the range check and reaches the unchecked lock lookup |
| AudioPatches.DisconnectFailure | src/audiolib/AudioPatch.cpp:33-39 | disconnecting passes exactly when the slot is in range and occupied (and its remote port is a real lock); otherwise out of range or already disconnected |
| AudioPatches.AudioPatch.constructor | include/audiolib/AudioPatch.h:65-66 | a new patch has the given name, rate and block size, compute cycle 0, one empty slot per declared input and output, and no sources or sinks |
| AudioPatches.AudioPatch.WithDefaults | include/audiolib/AudioPatch.h:65-66 | the default arguments are 44100 Hz and 64 frames |
| AudioPatches.AudioPatch.ConnectAudioInput | src/audiolib/AudioPatch.cpp:18-31 | the result is the first failing check; the remote source lock is set exactly when every check before it passed; the slot records the source only on success |
| AudioPatches.AudioPatch.ConnectAudioOutput | src/audiolib/AudioPatch.cpp:43-56 | the same for an output and a remote sink, with the slot count as the output bound |
| AudioPatches.AudioPatch.DisconnectAudioInput | src/audiolib/AudioPatch.cpp:33-40 | fails when out of range or empty; on success the remote source is unlocked, and the slot itself is left as it was |
| AudioPatches.AudioPatch.DisconnectAudioOutput | src/audiolib/AudioPatch.cpp:58-65 | the same for outputs and remote sinks |
| AudioPatches.AudioPatch.AddInput | src/audiolib/AudioPatch.cpp:68-70 | appends one input setting |
| AudioPatches.AudioPatch.AddOutput | src/audiolib/AudioPatch.cpp:71-73 | appends one output setting |
| AudioPatches.AudioPatch.AddSource | src/audiolib/AudioPatch.cpp:74-77 | appends one source setting with a free lock |
| AudioPatches.AudioPatch.AddSink | src/audiolib/AudioPatch.cpp:78-81 | appends one sink setting with a free lock |
| AudioPatches.AudioPatch.LockAudioSource | src/audiolib/AudioPatch.cpp:122-126 | reports true exactly when the lock was free, and leaves it taken |
| AudioPatches.AudioPatch.LockAudioSink | src/audiolib/AudioPatch.cpp:127-131 | the same for a sink lock |
| AudioPatches.AudioPatch.UnlockAudioSource | src/audiolib/AudioPatch.cpp:132-134 | frees one source lock, no other |
| AudioPatches.AudioPatch.UnlockAudioSink | src/audiolib/AudioPatch.cpp:135-137 | frees one sink lock, no other |
| AudioPatches.AudioPatch.SetSampleRate | include/audiolib/AudioPatch.h:146 | sets the sample rate |
| AudioPatches.AudioPatch.SetBlockSize | include/audiolib/AudioPatch.h:148 | sets the block size |
| AudioPatches.SecondInputIsRefused | src/audiolib/AudioPatch.cpp:25-26 | once one input is wired to a source, wiring a second input to that source fails |
| AudioPatches.ReconnectAfterDisconnect | src/audiolib/AudioPatch.cpp:33-40 | after connecting and disconnecting an input, connecting it again fails with "already connected", because disconnection never clears the slot |
| Messages.TagsAreDistinct | include/audiolib/Message.h:12-29 | all message type tags are pairwise different |
| Messages.ConstructorsSetTags | include/audiolib/Message.h:39-67 | each typed message carries its own tag and exactly one of the int, float and string tests holds of it |
| Messages.AsWrittenPredicatesNeverHold | include/audiolib/Message.h:37-38 | as written, `isMidi` and `isNumber` are false for every tag, a note-on included |
| Messages.TagPredicates | include/audiolib/Message.h:37-38 | as intended, `isMidi` picks out exactly the MIDI tags and `isNumber` exactly the int and float tags |
| Messages.ToString | src/audiolib/Message.cpp:10-26 | an int or string message's text is its class name, ": " and its value |
| Messages.ToStringGivesValue | src/audiolib/Message.cpp:10-26 | the class and the value can be read back from the text |
| Messages.ToStringInjective | src/audiolib/Message.cpp:10-26 | different int or string messages have different texts |
| OrderedSets.Insert | src/audiolib/Patch.cpp:26 | inserting into the ascending port set keeps it ascending and adds exactly that port (nothing when already present) |
| OrderedSets.Remove | src/audiolib/Patch.cpp:38 | erasing keeps the set ascending and removes exactly that port (nothing when absent) |
| OrderedSets.RemoveInsert | src/audiolib/Patch.cpp:26-38 | erasing a port just inserted restores the set |
| PatchUtils.SendAll | src/audiolib/PatchUtils.cpp:32-34 | one send per port, in order, each with the same message |
| PatchUtils.JunctionProcess | src/audiolib/PatchUtils.cpp:31-35 | the loop over the connected output ports makes one send of the message per port, in the port set's order |
| PatchUtils.SendAllToPortSet | include/audiolib/PatchUtils.h:56-70 | a junction sends the message once to every connected output port and to no other, low to high |
| PatchUtils.ProcessSends | src/audiolib/PatchUtils.cpp:14-35 | each kind of patch makes the sends its processing specifies |
| PatchUtils.PlainAndFunctional | include/audiolib/Patch.h:89 | the base patch sends nothing, and a functional patch makes exactly its callback's sends |
| PatchUtils.JunctionIgnoresInPort | src/audiolib/PatchUtils.cpp:31-35 | a junction's sends do not depend on the input port, and it sends nothing with no output connected |
| PatchUtils.PassthroughForwards | src/audiolib/PatchUtils.cpp:22-24 | a passthrough sends the received message on the output port numbered like the input |
| Patches.Patch.constructor | src/audiolib/Patch.cpp:11 | a new patch has its name and no message wiring |
| Patches.Patch.ConnectMessagePort | src/audiolib/Patch.cpp:13-27 | fails with the "already connected" text exactly when the port is wired, changing nothing; otherwise records the destination and adds the port to the set |
| Patches.Patch.UnconnectMessagePort | src/audiolib/Patch.cpp:29-39 | fails with the "not connected" text exactly when the port is not wired, changing nothing; otherwise drops the port from the map and the set |
| Patches.ConnectThenUnconnect | src/audiolib/Patch.cpp:13-39 | connecting a free port and disconnecting it again succeeds and restores the wiring |
| Patches.Patch.ReceiveMessage | src/audiolib/Patch.cpp:51-70 | the deliveries that receiving a message causes are exactly the route that the routing specification gives, with the corrected TTL guard of the Findings row |
| Patches.Patch.ProcessMessage | src/audiolib/Patch.cpp:62-69 | the patch's sends are forwarded in order with the lowered TTL, until one ends with the TTL error |
| Patches.Patch.SendMessage | src/audiolib/Patch.cpp:42-49 | an unwired output port delivers nothing; a wired one hands the message to the destination's input port |
| Patches.RouteBounds | src/audiolib/Patch.cpp:51-70 | a used-up TTL delivers nothing and fails; otherwise the first delivery is the received message with its TTL, and every later delivery has a positive TTL below it |
| Patches.RouteSendsBounds | src/audiolib/Patch.cpp:62-66 | every delivery caused by forwarded sends has a TTL between 1 and the forwarded TTL |
| Patches.PassthroughLoopExpires | src/audiolib/Patch.cpp:51-70 | a passthrough wired to itself delivers the message once per TTL unit, with TTL counting down, then fails with the TTL error |
| Patches.MainRoute | src/main/main.cpp:24-29 | in the demo wiring, a message into the passthrough reaches the junction and then the functional patch on ports 3 and 4, four deliveries in all, with TTL 2048, 2047, 2046, 2046 |
| Patches.MainExample | src/main/main.cpp:8-29 | building the demo's three patches, wiring them and sending "moo" makes exactly those four deliveries with no TTL error |
| Patches.BuildDemo | src/main/main.cpp:16-27 | the demo's three patches end up wired as written: passthrough port 1 to junction input 2, junction ports 1 and 2 to the functional patch's inputs 3 and 4 |
| Patches.SendThroughWiring | src/main/main.cpp:29 | receiving a message on the wired demo patches gives the demo trace |
| Patches.HopAsWritten | src/audiolib/Patch.cpp:54-60 | as written, the TTL check stops only at exactly 0 |
| Patches.Hop | src/audiolib/Patch.cpp:54-60 | as intended, any TTL at or below 0 stops |
| Patches.NegativeTtlNeverExpires | src/audiolib/Patch.cpp:54-60 | as written, a message with a negative TTL in a loop never stops: after k hops it is still going, at ttl − k |
| Patches.LoopExpires | src/audiolib/Patch.cpp:54-60 | as intended, a message in a loop makes exactly max(ttl, 0) hops, with the TTL counting down, and is stopped at the next |

## Left out

- `Graph::connectAudio`, `disconnectAudio`, `deregisterNode`, `computeAudio`, `toDescriptionString`, the `registerNode(Node*)` overload and the `Graph(const NodeSettings&)` constructor are declared in include/audiolib/Graph.h with no body in the library, so there is nothing to model. The graph's id counter and sorted node list are never read by any shown body.
- The node map is keyed by id; the `std::unordered_map` bucket order is not modelled.
- The reserved ids `INPUT_ID`, `OUTPUT_ID` and `FIRST_EXTERNAL_NODE_ID` are declared without values. The model gives them the chosen values 0, 1 and 2, and nothing in the model depends on them.
- Graphs.NodeWrapper.constructor: follows the header's constructor at include/audiolib/Graph.h:38 (node plus default input frames). The definition at src/audiolib/Graph.cpp:15-19 takes only the node and builds the input vector from a count, a block size and a rate, which no `ConstIframesVector` constructor accepts.
- `PortPair::operator==`, `isConnected` and the `PortConnections` methods are declared only. They are modelled by their names' meaning over a sequence of (local port, remote) entries that stands for the multimap; multimap key order is not modelled.
- Memory management is not modelled: destructors, `delete`, `unique_ptr` ownership transfer, and the leak of a slot's `AudioPortPair` that disconnection never frees.
- Buffers are Dafny arrays that are never freed; a destroyed `IframesVector` is not modelled.
- `AudioPatch::validate`, `compute`, `recomputeParents`, `fetchAudioInput`, `pushAudioOutput`, `setAudioOutput`, `sourceAudioFrames` and `sinkAudioFrames` are declared only or work on frames through callbacks the library does not define. They are not modelled.
- `getAudioInputSettings`, `getAudioSourceSettings` and their output/sink counterparts have no shown body. The model reads them as indexing the settings vectors with an unchecked index: an index outside the vector is `UndefinedIndex`.
- The number of sources and sinks is read as the length of their settings vectors.
- The source never declares or sizes the slot vectors `external_audio_sources_` and `external_audio_sinks_`. include/audiolib/AudioPatch.h declares only `external_audio_outputs_`, and no constructor or `add*` function touches the slots. The model sizes them from constructor arguments that stand for the subclass's `numAudioInputs()` and `numAudioOutputs()` overrides. The base class has none, so `WithDefaults` has empty slot vectors.
- Messages.ToString: models only the int and string forms. The float form prints through a stream's default float formatting, which is not modelled.
- `FloatMessage` values are modelled as reals; 32-bit float rounding is not modelled.
- `StringMessage` is not declared a subclass of `Message` in the header, although its constructors initialise the `Message` base. It is modelled as a message with the string tag.
- The `FunctionalPatch` callback is modelled as a pure function from input port and message to the list of sends it makes. A callback with other effects, such as the demo's console output, is reduced to its sends.
- The copy constructors of `FunctionalPatch` are not modelled.
- `MidiReaderPatch`, the MIDI helpers, the RtAudio glue in AudioPatchUtils, the `DEBUG` switch and the `sleep` in main are I/O and are not modelled.
- The warning that `processMessage` can run on several threads at once is not modelled; the model is single-threaded.
- Patches.Patch.ProcessMessage: a junction's sends are computed from the port set before any is forwarded. A forward can reach the same patch again, but the routing never rewires a patch, so the set cannot change while a junction walks it.
- Integers are unbounded. The model does not capture 32-bit overflow of `int`, wrap-around in the unsigned sample rate and block size of `AudioPatch` (so `SetSampleRate` and `SetBlockSize` take naturals), or the `unsigned int`-to-`int` conversion of the constructor.
- Nodes.TruncateToInt: truncates a real; the float value of `sample_rate_` and its rounding on the way in are not modelled.
- Nodes.DummyNode.constructor, Nodes.AudioAdder.constructor and Graphs.Graph.constructor: require a non-negative block size. The DummyNode and Graph constructors also require a non-negative output count. A negative size makes the source's vectors throw `length_error` or allocate huge amounts of memory, which the model does not follow.
- Nodes.AudioAdder.ComputeAudio: requires every input to have at least the block size of samples. A shorter buffer is an out-of-bounds read in the source.
- Nodes.AudioAdder.ComputeAudio: requires as many inputs as the adder's input count. An adder built with a negative input count therefore cannot be run in the model, whereas the source's inner loop does not run and the output is silence.
- Graphs.NodeWrapper.constructor and Graphs.Graph.RegisterNode: require a non-negative audio input count. With a negative count the source's `ConstIframesVector(size, d)` (src/audiolib/Iframes.cpp:30-31) throws `length_error`; that error path is not modelled.
- Nodes.ColumnSumSwap: audio samples are reals. The float rounding of the adder's running sum, and so its dependence on input order, is not modelled; the same holds for Nodes.ColumnSumAppend and Nodes.AudioAdder.ComputeAudio.
- Patches.Patch.ReceiveMessage and Patches.Route: use the corrected `ttl <= 0` guard of the Findings row. A negative TTL therefore stops at once even on acyclic wiring, where the source as written delivers normally: on the demo wiring, `receiveMessage(1, m, -1)` delivers four times, at TTL -1, -2, -3 and -3, and returns.

## Findings

| source | as written | input that shows it | evidently intended | confidence | as-written member | corrected member |
|---|---|---|---|---|---|---|
| src/audiolib/Iframes.cpp:10-16 | the vector is first constructed with `size` null entries and then `size` new buffers are pushed after them, giving 2·size entries with nulls first | `AudioAdder`'s constructor builds an output vector of size 1, and `computeAudio` writes through entry 0, which is null; `Graph`'s constructor with 2 outputs gets 4 entries, the first 2 null | exactly `size` entries, each a new buffer | high (not executed) | Iframes.AdderBufferAsWritten | Iframes.NewIframesVector |
| include/audiolib/Message.h:37-38 | `type_&0xFFF0 == 0` parses as `type_ & (0xFFF0 == 0)`, that is `type_ & 0`; `isNumber` likewise masks with `0xFFF0 == 1` | a note-on message (tag 0x9): `isMidi()` is false; an int message (tag 0x10): `isNumber()` is false | `(type_ & 0xFFF0) == 0` and `(type_ & 0xFFF0) == 0x10` | high (not executed) | Messages.AsWrittenPredicatesNeverHold | Messages.TagPredicates |
| src/audiolib/Patch.cpp:54 | the loop guard tests `ttl == 0` only | `receiveMessage(1, m, -1)` on a passthrough patch wired to itself: the TTL goes -2, -3, … and never reaches 0, so the error never fires | stop at any `ttl <= 0` | medium (not executed) | Patches.NegativeTtlNeverExpires | Patches.LoopExpires |
