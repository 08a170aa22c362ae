/**
 * The legacy `AudioPatch` connection tables (include/audiolib/AudioPatch.h,
 * src/audiolib/AudioPatch.cpp). A patch has four kinds of audio port. An
 * input or an output of one patch is wired to a source or a sink of another
 * by recording the remote port in a slot; each source and sink carries a
 * lock flag so that it feeds at most one slot. Every check that throws a
 * `std::runtime_error` in the source is an `Outcome.Fail` here.
 */
module AudioPatches {
  import opened Wrappers
  import opened Decimal

  /** `AudioSettings`: frames per block, channel count and sample rate. */
  datatype AudioSettings = AudioSettings(nFrames: int, nChannels: int, sampleRate: int)

  /** `AudioSettings::operator==`: field by field. */
  function SettingsEqual(a: AudioSettings, b: AudioSettings): (r: bool)
    ensures r <==> a == b
  {
    a.nFrames == b.nFrames && a.nChannels == b.nChannels && a.sampleRate == b.sampleRate
  }

  /** The four kinds of audio port, named in error messages by the strings of `KindName`. */
  datatype PortKind = AudioInput | AudioOutput | AudioSource | AudioSink

  function KindName(k: PortKind): string
  {
    match k
    case AudioInput => "AudioInput"
    case AudioOutput => "AudioOutput"
    case AudioSource => "AudioSource"
    case AudioSink => "AudioSink"
  }

  /**
   * Why an operation stopped. The first four are the runtime errors the
   * patch throws, each naming the patch that throws it. `IndexOutOfRange`
   * is the `std::out_of_range` of `vector::at`. `UndefinedIndex` marks an
   * unchecked `operator[]` with an index outside the vector: the source's
   * behaviour there is undefined, and the model stops.
   */
  datatype AudioError =
    | PortOutOfRange(kind: PortKind, n: int, patchName: string)
    | PortOccupied(kind: PortKind, n: int, patchName: string)
    | PortEmpty(kind: PortKind, n: int, patchName: string)
    | SettingsDontMatch(localKind: PortKind, n: int, localName: string,
                        remoteKind: PortKind, m: int, remoteName: string)
    | IndexOutOfRange(n: int)
    | UndefinedIndex(n: int)

  /** The errors that the patch itself throws as `std::runtime_error`. */
  predicate IsRuntimeError(e: AudioError)
  {
    e.PortOutOfRange? || e.PortOccupied? || e.PortEmpty? || e.SettingsDontMatch?
  }

  /** How each family of runtime error opens. */
  const OUT_OF_RANGE_OPENING: string := "Port index out of range. "
  const CONNECT_OPENING: string := "Cannot make connection. "
  const DISCONNECT_OPENING: string := "Cannot disconnect. "
  const MISMATCH_OPENING: string := "Cannot make connection. Audio settings don't match. From "

  /**
   * The text of each thrown runtime error (the `throw_*` helpers): each
   * family has its own opening, followed by the port it is about.
   */
  function ErrorText(e: AudioError): (r: string)
    requires IsRuntimeError(e)
    ensures e.PortOutOfRange? ==>
              |r| > |OUT_OF_RANGE_OPENING| && r[..|OUT_OF_RANGE_OPENING|] == OUT_OF_RANGE_OPENING
    ensures e.PortOccupied? ==> |r| > |CONNECT_OPENING| && r[..|CONNECT_OPENING|] == CONNECT_OPENING
    ensures e.PortEmpty? ==> |r| > |DISCONNECT_OPENING| && r[..|DISCONNECT_OPENING|] == DISCONNECT_OPENING
    ensures e.SettingsDontMatch? ==> |r| > |MISMATCH_OPENING| && r[..|MISMATCH_OPENING|] == MISMATCH_OPENING
  {
    match e
    case PortOutOfRange(k, n, p) =>
      OUT_OF_RANGE_OPENING + PortText(k, n, p)
    case PortOccupied(k, n, p) =>
      CONNECT_OPENING + (PortText(k, n, p) + " is already connected to something.")
    case PortEmpty(k, n, p) =>
      DISCONNECT_OPENING + (PortText(k, n, p) + " is already disconnected.")
    case SettingsDontMatch(k1, n, p1, k2, m, p2) =>
      MISMATCH_OPENING + (PortText(k1, n, p1) + " to " + PortText(k2, m, p2))
  }

  /** How an error names a port: its kind, `" #"`, its number, and the patch it is on. */
  function PortText(k: PortKind, n: int, patchName: string): (r: string)
    ensures |r| > 0
  {
    KindName(k) + " #" + IntToString(n) + " on AudioPatch " + patchName
  }

  /** `AudioPortPair`: a port of another patch, held by reference. */
  datatype AudioPortPair = AudioPortPair(patch: AudioPatch, port: int)

  /** The side of a connection that records it in a slot: an input or an output. */
  datatype SlotSide = SlotSide(name: string, kind: PortKind, count: int,
                               slots: seq<Option<AudioPortPair>>, settings: seq<AudioSettings>)

  /** The side of a connection that is locked by it: a source or a sink. */
  datatype LockSide = LockSide(name: string, kind: PortKind,
                               locks: seq<bool>, settings: seq<AudioSettings>)

  /**
   * The first check of `connectAudioInput` / `connectAudioOutput` that
   * fails, in the order the source runs them: the local index against the
   * local port count, the remote index against the remote port count, the
   * slot lookup with `at`, the slot's occupancy, the remote lock (an
   * unchecked index), and the settings comparison. `None` when all pass.
   */
  function ConnectFailure(local: SlotSide, n: int, remote: LockSide, m: int): (r: Option<AudioError>)
    requires |remote.locks| == |remote.settings|
    ensures r.None? <==>
              && n < local.count && 0 <= n < |local.slots| && local.slots[n].None?
              && 0 <= m < |remote.locks| && !remote.locks[m]
              && n < |local.settings| && remote.settings[m] == local.settings[n]
    ensures n >= local.count ==> r == Some(PortOutOfRange(local.kind, n, local.name))
    ensures n < local.count && m >= |remote.locks| ==> r == Some(PortOutOfRange(remote.kind, m, remote.name))
  {
    if n >= local.count then Some(PortOutOfRange(local.kind, n, local.name))
    else if m >= |remote.settings| then Some(PortOutOfRange(remote.kind, m, remote.name))
    else if !(0 <= n < |local.slots|) then Some(IndexOutOfRange(n))
    else if local.slots[n].Some? then Some(PortOccupied(local.kind, n, local.name))
    else if m < 0 then Some(UndefinedIndex(m))
    else if remote.locks[m] then Some(PortOccupied(remote.kind, m, remote.name))
    else if !(n < |local.settings|) then Some(UndefinedIndex(n))
    else if !SettingsEqual(remote.settings[m], local.settings[n])
    then Some(SettingsDontMatch(local.kind, n, local.name, remote.kind, m, remote.name))
    else None
  }

  /**
   * Whether a connection attempt sets the remote lock: every check before
   * the lock has passed and the lock was free. This holds even when a
   * later check then fails.
   */
  predicate TakesLock(local: SlotSide, n: int, remote: LockSide, m: int)
  {
    && n < local.count && m < |remote.settings| && 0 <= n < |local.slots| && local.slots[n].None?
    && 0 <= m < |remote.locks| && !remote.locks[m]
  }

  /** A successful connection took the lock; a lock once held refuses every further connection to it. */
  lemma ConnectionHoldsLock(local: SlotSide, n: int, remote: LockSide, m: int)
    requires |remote.locks| == |remote.settings|
    ensures ConnectFailure(local, n, remote, m).None? ==> TakesLock(local, n, remote, m)
    ensures 0 <= m < |remote.locks| && remote.locks[m] ==> ConnectFailure(local, n, remote, m).Some?
    ensures 0 <= n < |local.slots| && local.slots[n].Some? ==> ConnectFailure(local, n, remote, m).Some?
  {
  }

  /**
   * The lock is taken and kept when the settings then fail to match: the
   * attempt fails and yet the source is no longer free.
   */
  lemma MismatchKeepsLock(local: SlotSide, n: int, remote: LockSide, m: int)
    requires |remote.locks| == |remote.settings|
    requires TakesLock(local, n, remote, m)
    requires 0 <= n < |local.settings| && remote.settings[m] != local.settings[n]
    ensures ConnectFailure(local, n, remote, m) ==
              Some(SettingsDontMatch(local.kind, n, local.name, remote.kind, m, remote.name))
  {
  }

  /** Only upper bounds are checked: a negative remote port passes the range check and reaches the lock. */
  lemma NegativePortIsNotRejected(local: SlotSide, n: int, remote: LockSide, m: int)
    requires |remote.locks| == |remote.settings|
    requires n < local.count && 0 <= n < |local.slots| && local.slots[n].None? && m < 0
    ensures ConnectFailure(local, n, remote, m) == Some(UndefinedIndex(m))
  {
  }

  /**
   * The first check of `disconnectAudioInput` / `disconnectAudioOutput`
   * that fails: the index against the slot count, the `at` lookup, the
   * slot's occupancy, then the remote unlock (an unchecked index).
   */
  function DisconnectFailure(kind: PortKind, name: string, slots: seq<Option<AudioPortPair>>, n: int,
                             remoteLocks: int): (r: Option<AudioError>)
    requires 0 <= n < |slots| && slots[n].Some? ==> remoteLocks >= 0
    ensures r.None? <==> 0 <= n < |slots| && slots[n].Some? && 0 <= slots[n].value.port < remoteLocks
    ensures n >= |slots| ==> r == Some(PortOutOfRange(kind, n, name))
    ensures 0 <= n < |slots| && slots[n].None? ==> r == Some(PortEmpty(kind, n, name))
  {
    if n >= |slots| then Some(PortOutOfRange(kind, n, name))
    else if n < 0 then Some(IndexOutOfRange(n))
    else if slots[n].None? then Some(PortEmpty(kind, n, name))
    else if !(0 <= slots[n].value.port < remoteLocks) then Some(UndefinedIndex(slots[n].value.port))
    else None
  }

  /** An `Outcome` from the first failing check. */
  function OutcomeOf(f: Option<AudioError>): (r: Outcome<AudioError>)
    ensures r.Pass? <==> f.None?
    ensures f.Some? ==> r.error == f.value
  {
    if f.None? then Pass else Fail(f.value)
  }

  class AudioPatch {
    const name: string
    /** The overridable `numAudioInputs()` / `numAudioOutputs()`. */
    const numAudioInputs: int
    const numAudioOutputs: int
    var sampleRate: int
    var blockSize: int
    var lastComputeCycle: int
    var inputSettings: seq<AudioSettings>
    var outputSettings: seq<AudioSettings>
    var sourceSettings: seq<AudioSettings>
    var sinkSettings: seq<AudioSettings>
    var sourceLocks: seq<bool>
    var sinkLocks: seq<bool>
    /** Slot `n` holds the source wired to input `n`, or nothing. */
    var externalAudioSources: seq<Option<AudioPortPair>>
    /** Slot `n` holds the sink wired to output `n`, or nothing. */
    var externalAudioSinks: seq<Option<AudioPortPair>>

    /** Each source and each sink has exactly one lock flag. */
    ghost predicate Valid()
      reads this
    {
      |sourceLocks| == |sourceSettings| && |sinkLocks| == |sinkSettings|
    }

    /**
     * `AudioPatch(name, sample_rate, block_size)` of a subclass that
     * declares the given numbers of inputs and outputs: one empty slot per
     * input and per output, no sources, sinks or settings yet.
     */
    constructor (name: string, numInputs: nat, numOutputs: nat, sampleRate: nat, blockSize: nat)
      ensures this.name == name && numAudioInputs == numInputs && numAudioOutputs == numOutputs
      ensures this.sampleRate == sampleRate && this.blockSize == blockSize && lastComputeCycle == 0
      ensures inputSettings == [] && outputSettings == [] && sourceSettings == [] && sinkSettings == []
      ensures sourceLocks == [] && sinkLocks == []
      ensures |externalAudioSources| == numInputs && (forall k :: 0 <= k < numInputs ==> externalAudioSources[k].None?)
      ensures |externalAudioSinks| == numOutputs && (forall k :: 0 <= k < numOutputs ==> externalAudioSinks[k].None?)
      ensures Valid()
    {
      this.name := name;
      numAudioInputs := numInputs;
      numAudioOutputs := numOutputs;
      this.sampleRate := sampleRate;
      this.blockSize := blockSize;
      lastComputeCycle := 0;
      inputSettings, outputSettings, sourceSettings, sinkSettings := [], [], [], [];
      sourceLocks, sinkLocks := [], [];
      externalAudioSources := seq(numInputs, _ => None);
      externalAudioSinks := seq(numOutputs, _ => None);
    }

    /** The base class with its default arguments: 44100 Hz, 64 frames, no ports. */
    constructor WithDefaults(name: string)
      ensures this.name == name && numAudioInputs == 0 && numAudioOutputs == 0
      ensures sampleRate == 44100 && blockSize == 64 && lastComputeCycle == 0
      ensures externalAudioSources == [] && externalAudioSinks == []
      ensures sourceSettings == [] && sinkSettings == [] && Valid()
    {
      this.name := name;
      numAudioInputs := 0;
      numAudioOutputs := 0;
      sampleRate := 44100;
      blockSize := 64;
      lastComputeCycle := 0;
      inputSettings, outputSettings, sourceSettings, sinkSettings := [], [], [], [];
      sourceLocks, sinkLocks := [], [];
      externalAudioSources := [];
      externalAudioSinks := [];
    }

    /** The number of sources and of sinks: one per `addSource` / `addSink`. */
    function NumAudioSources(): int
      reads this
    {
      |sourceSettings|
    }

    function NumAudioSinks(): int
      reads this
    {
      |sinkSettings|
    }

    /** This patch's inputs as seen by `connectAudioInput`: bounded by `numAudioInputs()`. */
    function InputSide(): SlotSide
      reads this
    {
      SlotSide(name, AudioInput, numAudioInputs, externalAudioSources, inputSettings)
    }

    /** This patch's outputs as seen by `connectAudioOutput`: bounded by the slot count itself. */
    function OutputSide(): SlotSide
      reads this
    {
      SlotSide(name, AudioOutput, |externalAudioSinks|, externalAudioSinks, outputSettings)
    }

    function SourceSide(): LockSide
      reads this
    {
      LockSide(name, AudioSource, sourceLocks, sourceSettings)
    }

    function SinkSide(): LockSide
      reads this
    {
      LockSide(name, AudioSink, sinkLocks, sinkSettings)
    }

    /**
     * `connectAudioInput(n, other, m)`: wires input `n` of this patch to
     * source `m` of `other`. The checks run in order and the first failure
     * stops it. The source's lock is set before the settings are compared,
     * so it stays set when they differ; the slot is written only on success.
     */
    method ConnectAudioInput(n: int, other: AudioPatch, m: int) returns (r: Outcome<AudioError>)
      requires other.Valid()
      modifies this`externalAudioSources, other`sourceLocks
      ensures other.Valid()
      ensures r == OutcomeOf(ConnectFailure(old(InputSide()), n, old(other.SourceSide()), m))
      ensures other.sourceLocks ==
                if TakesLock(old(InputSide()), n, old(other.SourceSide()), m)
                then old(other.sourceLocks)[m := true] else old(other.sourceLocks)
      ensures externalAudioSources ==
                if r.Pass? then old(externalAudioSources)[n := Some(AudioPortPair(other, m))]
                else old(externalAudioSources)
    {
      if n >= numAudioInputs {
        return Fail(PortOutOfRange(AudioInput, n, name));
      }
      if m >= other.NumAudioSources() {
        return Fail(PortOutOfRange(AudioSource, m, other.name));
      }
      if !(0 <= n < |externalAudioSources|) {
        return Fail(IndexOutOfRange(n));
      }
      if externalAudioSources[n].Some? {
        return Fail(PortOccupied(AudioInput, n, name));
      }
      if m < 0 {
        return Fail(UndefinedIndex(m));
      }
      var locked := other.LockAudioSource(m);
      if !locked {
        return Fail(PortOccupied(AudioSource, m, other.name));
      }
      if !(n < |inputSettings|) {
        return Fail(UndefinedIndex(n));
      }
      if !SettingsEqual(other.sourceSettings[m], inputSettings[n]) {
        return Fail(SettingsDontMatch(AudioInput, n, name, AudioSource, m, other.name));
      }
      externalAudioSources := externalAudioSources[n := Some(AudioPortPair(other, m))];
      r := Pass;
    }

    /**
     * `connectAudioOutput(n, other, m)`: wires output `n` of this patch to
     * sink `m` of `other`, with the same checks in the same order; the first
     * is against the number of output slots rather than a declared count.
     */
    method ConnectAudioOutput(n: int, other: AudioPatch, m: int) returns (r: Outcome<AudioError>)
      requires other.Valid()
      modifies this`externalAudioSinks, other`sinkLocks
      ensures other.Valid()
      ensures r == OutcomeOf(ConnectFailure(old(OutputSide()), n, old(other.SinkSide()), m))
      ensures other.sinkLocks ==
                if TakesLock(old(OutputSide()), n, old(other.SinkSide()), m)
                then old(other.sinkLocks)[m := true] else old(other.sinkLocks)
      ensures externalAudioSinks ==
                if r.Pass? then old(externalAudioSinks)[n := Some(AudioPortPair(other, m))]
                else old(externalAudioSinks)
    {
      if n >= |externalAudioSinks| {
        return Fail(PortOutOfRange(AudioOutput, n, name));
      }
      if m >= other.NumAudioSinks() {
        return Fail(PortOutOfRange(AudioSink, m, other.name));
      }
      if !(0 <= n < |externalAudioSinks|) {
        return Fail(IndexOutOfRange(n));
      }
      if externalAudioSinks[n].Some? {
        return Fail(PortOccupied(AudioOutput, n, name));
      }
      if m < 0 {
        return Fail(UndefinedIndex(m));
      }
      var locked := other.LockAudioSink(m);
      if !locked {
        return Fail(PortOccupied(AudioSink, m, other.name));
      }
      if !(n < |outputSettings|) {
        return Fail(UndefinedIndex(n));
      }
      if !SettingsEqual(other.sinkSettings[m], outputSettings[n]) {
        return Fail(SettingsDontMatch(AudioOutput, n, name, AudioSink, m, other.name));
      }
      externalAudioSinks := externalAudioSinks[n := Some(AudioPortPair(other, m))];
      r := Pass;
    }

    /** The patches whose sources are recorded in input slots. */
    function SourceOwners(): set<AudioPatch>
      reads this
    {
      set k | 0 <= k < |externalAudioSources| && externalAudioSources[k].Some? :: externalAudioSources[k].value.patch
    }

    /** The patches whose sinks are recorded in output slots. */
    function SinkOwners(): set<AudioPatch>
      reads this
    {
      set k | 0 <= k < |externalAudioSinks| && externalAudioSinks[k].Some? :: externalAudioSinks[k].value.patch
    }

    /**
     * `disconnectAudioInput(n)`: frees the source wired to input `n`. The
     * slot itself is left as it is, so the input still counts as occupied.
     * Only that one lock changes, and only on success.
     */
    method DisconnectAudioInput(n: int) returns (r: Outcome<AudioError>)
      requires forall p :: p in SourceOwners() ==> p.Valid()
      modifies SourceOwners()`sourceLocks
      ensures unchanged(this`externalAudioSources)
      ensures 0 <= n < |externalAudioSources| && externalAudioSources[n].Some? ==>
                var pp := externalAudioSources[n].value;
                && r == OutcomeOf(DisconnectFailure(AudioInput, name, externalAudioSources, n, old(|pp.patch.sourceLocks|)))
                && pp.patch.sourceLocks ==
                     if r.Pass? then old(pp.patch.sourceLocks)[pp.port := false] else old(pp.patch.sourceLocks)
      ensures !(0 <= n < |externalAudioSources| && externalAudioSources[n].Some?) ==>
                r == OutcomeOf(DisconnectFailure(AudioInput, name, externalAudioSources, n, 0))
      ensures forall p :: p in SourceOwners() ==> p.Valid()
      ensures r.Pass? ==> 0 <= n < |externalAudioSources| && externalAudioSources[n].Some?
      ensures forall p :: p in SourceOwners() && !(r.Pass? && p == externalAudioSources[n].value.patch) ==>
                p.sourceLocks == old(p.sourceLocks)
    {
      if n >= |externalAudioSources| {
        return Fail(PortOutOfRange(AudioInput, n, name));
      }
      if n < 0 {
        return Fail(IndexOutOfRange(n));
      }
      if externalAudioSources[n].None? {
        return Fail(PortEmpty(AudioInput, n, name));
      }
      var pp := externalAudioSources[n].value;
      if !(0 <= pp.port < |pp.patch.sourceLocks|) {
        return Fail(UndefinedIndex(pp.port));
      }
      pp.patch.UnlockAudioSource(pp.port);
      r := Pass;
    }

    /** `disconnectAudioOutput(n)`: frees the sink wired to output `n`; the slot is left as it is. */
    method DisconnectAudioOutput(n: int) returns (r: Outcome<AudioError>)
      requires forall p :: p in SinkOwners() ==> p.Valid()
      modifies SinkOwners()`sinkLocks
      ensures unchanged(this`externalAudioSinks)
      ensures 0 <= n < |externalAudioSinks| && externalAudioSinks[n].Some? ==>
                var pp := externalAudioSinks[n].value;
                && r == OutcomeOf(DisconnectFailure(AudioOutput, name, externalAudioSinks, n, old(|pp.patch.sinkLocks|)))
                && pp.patch.sinkLocks ==
                     if r.Pass? then old(pp.patch.sinkLocks)[pp.port := false] else old(pp.patch.sinkLocks)
      ensures !(0 <= n < |externalAudioSinks| && externalAudioSinks[n].Some?) ==>
                r == OutcomeOf(DisconnectFailure(AudioOutput, name, externalAudioSinks, n, 0))
      ensures forall p :: p in SinkOwners() ==> p.Valid()
      ensures r.Pass? ==> 0 <= n < |externalAudioSinks| && externalAudioSinks[n].Some?
      ensures forall p :: p in SinkOwners() && !(r.Pass? && p == externalAudioSinks[n].value.patch) ==>
                p.sinkLocks == old(p.sinkLocks)
    {
      if n >= |externalAudioSinks| {
        return Fail(PortOutOfRange(AudioOutput, n, name));
      }
      if n < 0 {
        return Fail(IndexOutOfRange(n));
      }
      if externalAudioSinks[n].None? {
        return Fail(PortEmpty(AudioOutput, n, name));
      }
      var pp := externalAudioSinks[n].value;
      if !(0 <= pp.port < |pp.patch.sinkLocks|) {
        return Fail(UndefinedIndex(pp.port));
      }
      pp.patch.UnlockAudioSink(pp.port);
      r := Pass;
    }

    /** `addInput(s)`: one more input settings entry. */
    method AddInput(s: AudioSettings)
      modifies this`inputSettings
      ensures inputSettings == old(inputSettings) + [s]
    {
      inputSettings := inputSettings + [s];
    }

    /** `addOutput(s)`: one more output settings entry. */
    method AddOutput(s: AudioSettings)
      modifies this`outputSettings
      ensures outputSettings == old(outputSettings) + [s]
    {
      outputSettings := outputSettings + [s];
    }

    /** `addSource(s)`: one more source, unlocked. */
    method AddSource(s: AudioSettings)
      requires Valid()
      modifies this`sourceSettings, this`sourceLocks
      ensures Valid()
      ensures sourceSettings == old(sourceSettings) + [s] && sourceLocks == old(sourceLocks) + [false]
      ensures NumAudioSources() == old(NumAudioSources()) + 1
    {
      sourceSettings := sourceSettings + [s];
      sourceLocks := sourceLocks + [false];
    }

    /** `addSink(s)`: one more sink, unlocked. */
    method AddSink(s: AudioSettings)
      requires Valid()
      modifies this`sinkSettings, this`sinkLocks
      ensures Valid()
      ensures sinkSettings == old(sinkSettings) + [s] && sinkLocks == old(sinkLocks) + [false]
      ensures NumAudioSinks() == old(NumAudioSinks()) + 1
    {
      sinkSettings := sinkSettings + [s];
      sinkLocks := sinkLocks + [false];
    }

    /** `lockAudioSource(n)`: takes the lock and answers true iff it was free. */
    method LockAudioSource(n: int) returns (taken: bool)
      requires 0 <= n < |sourceLocks|
      modifies this`sourceLocks
      ensures taken <==> !old(sourceLocks[n])
      ensures sourceLocks == old(sourceLocks)[n := true]
    {
      if sourceLocks[n] == false {
        sourceLocks := sourceLocks[n := true];
        return true;
      }
      return false;
    }

    /** `lockAudioSink(n)`: takes the lock and answers true iff it was free. */
    method LockAudioSink(n: int) returns (taken: bool)
      requires 0 <= n < |sinkLocks|
      modifies this`sinkLocks
      ensures taken <==> !old(sinkLocks[n])
      ensures sinkLocks == old(sinkLocks)[n := true]
    {
      if sinkLocks[n] == false {
        sinkLocks := sinkLocks[n := true];
        return true;
      }
      return false;
    }

    /** `unlockAudioSource(n)`: frees the lock whatever its state. */
    method UnlockAudioSource(n: int)
      requires 0 <= n < |sourceLocks|
      modifies this`sourceLocks
      ensures sourceLocks == old(sourceLocks)[n := false]
    {
      sourceLocks := sourceLocks[n := false];
    }

    /** `unlockAudioSink(n)`: frees the lock whatever its state. */
    method UnlockAudioSink(n: int)
      requires 0 <= n < |sinkLocks|
      modifies this`sinkLocks
      ensures sinkLocks == old(sinkLocks)[n := false]
    {
      sinkLocks := sinkLocks[n := false];
    }

    method SetSampleRate(n: nat)
      modifies this`sampleRate
      ensures sampleRate == n
    {
      sampleRate := n;
    }

    method SetBlockSize(n: nat)
      modifies this`blockSize
      ensures blockSize == n
    {
      blockSize := n;
    }
  }

  /**
   * A source feeds at most one input: once one input has been wired to it,
   * wiring a second input to the same source is refused.
   */
  method SecondInputIsRefused(a: AudioPatch, b: AudioPatch, other: AudioPatch, m: int)
    returns (first: Outcome<AudioError>, second: Outcome<AudioError>)
    requires other.Valid()
    modifies a`externalAudioSources, b`externalAudioSources, other`sourceLocks
    ensures first.Pass? ==> second.Fail?
  {
    first := a.ConnectAudioInput(0, other, m);
    second := b.ConnectAudioInput(0, other, m);
  }

  /**
   * Disconnecting an input does not empty its slot: after a successful
   * connection and disconnection, connecting the same input again fails
   * with the input reported as occupied.
   */
  method ReconnectAfterDisconnect(a: AudioPatch, n: int, other: AudioPatch, m: int)
    returns (connect: Outcome<AudioError>, disconnect: Outcome<AudioError>, again: Outcome<AudioError>)
    requires other.Valid() && forall p :: p in a.SourceOwners() ==> p.Valid()
    modifies a`externalAudioSources, other`sourceLocks, a.SourceOwners()`sourceLocks
    ensures connect.Pass? ==> disconnect.Pass? && again == Fail(PortOccupied(AudioInput, n, a.name))
  {
    connect := a.ConnectAudioInput(n, other, m);
    if connect.Fail? {
      return connect, connect, connect;
    }
    assert a.externalAudioSources[n] == Some(AudioPortPair(other, m));
    assert other in a.SourceOwners();
    disconnect := a.DisconnectAudioInput(n);
    again := a.ConnectAudioInput(n, other, m);
  }
}
