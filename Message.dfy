/**
 * Messages passed between patches (include/audiolib/Message.h,
 * src/audiolib/Message.cpp): an integer type tag, typed payloads, the tag
 * predicates and the text forms.
 */
module Messages {
  import opened Decimal

  /** A type tag. The source's tags are `int` enumerators combined with `&`; 32 bits are kept. */
  type MessageType = bv32

  /**
   * The MIDI tags are the status nibbles of the channel voice messages in
   * the MIDI 1.0 Detailed Specification ("Summary of MIDI Messages"):
   * note off 0x8, note on 0x9, polyphonic key pressure 0xA, control change
   * 0xB, program change 0xC, channel pressure 0xD, pitch bend 0xE.
   */
  const NoteOff: MessageType := 0x8
  const NoteOn: MessageType := 0x9
  const AfterTouch: MessageType := 0xA
  const ControlChange: MessageType := 0xB
  const ProgramChange: MessageType := 0xC
  const ChannelPressure: MessageType := 0xD
  const PitchWheel: MessageType := 0xE
  /** Number tags have 1 in their second nibble, string tags 2. */
  const IntData: MessageType := 0x10
  const FloatData: MessageType := 0x11
  const StringData: MessageType := 0x20

  function MidiTags(): seq<MessageType>
  {
    [NoteOff, NoteOn, AfterTouch, ControlChange, ProgramChange, ChannelPressure, PitchWheel]
  }

  function AllTags(): seq<MessageType>
  {
    MidiTags() + [IntData, FloatData, StringData]
  }

  /** The MIDI tags are consecutive from 0x8, and no two tags coincide. */
  lemma TagsAreDistinct()
    ensures forall k :: 0 <= k < |MidiTags()| ==> MidiTags()[k] as int == 0x8 + k
    ensures forall i, j :: 0 <= i < j < |AllTags()| ==> AllTags()[i] != AllTags()[j]
  {
  }

  /**
   * A message: the base `Message` with just its tag, or one of the three
   * typed subclasses, whose constructors fix the tag and store the value.
   */
  datatype Message =
    | Untyped(tag: MessageType)
    | IntMessage(intValue: int)
    | FloatMessage(floatValue: real)
    | StringMessage(stringValue: string)
  {
    /** `type_`, fixed when the message is built. */
    function Type(): MessageType
    {
      match this
      case Untyped(t) => t
      case IntMessage(_) => IntData
      case FloatMessage(_) => FloatData
      case StringMessage(_) => StringData
    }

    predicate IsInt() { Type() == IntData }
    predicate IsFloat() { Type() == FloatData }
    predicate IsString() { Type() == StringData }
  }

  /** Each typed constructor sets its own tag and keeps its value; the base constructor keeps the tag it is given. */
  lemma ConstructorsSetTags(t: MessageType, n: int, x: real, s: string)
    ensures Untyped(t).Type() == t
    ensures IntMessage(n).IsInt() && !IntMessage(n).IsFloat() && !IntMessage(n).IsString()
    ensures FloatMessage(x).IsFloat() && !FloatMessage(x).IsInt() && !FloatMessage(x).IsString()
    ensures StringMessage(s).IsString() && !StringMessage(s).IsInt() && !StringMessage(s).IsFloat()
  {
  }

  /** A C++ `bool` used as an integer operand. */
  function BoolAsInt(b: bool): MessageType
  {
    if b then 1 else 0
  }

  /**
   * `isMidi()` as written: `==` binds tighter than `&`, so the tag is
   * masked with the value of `0xFFF0 == 0`, which is false.
   */
  predicate IsMidiAsWritten(t: MessageType)
  {
    t & BoolAsInt(0xFFF0 == 0) != 0
  }

  /** `isNumber()` as written: the tag masked with the value of `0xFFF0 == 1`. */
  predicate IsNumberAsWritten(t: MessageType)
  {
    t & BoolAsInt(0xFFF0 == 1) != 0
  }

  /** As written, neither predicate holds of any tag, a note-on included. */
  lemma AsWrittenPredicatesNeverHold(t: MessageType)
    ensures !IsMidiAsWritten(t) && !IsNumberAsWritten(t)
    ensures !IsMidiAsWritten(NoteOn) && !IsNumberAsWritten(IntData)
  {
  }

  /** `isMidi()` as intended: no bits above the low nibble among the tag's low 16 bits. */
  predicate IsMidi(t: MessageType)
  {
    t & 0xFFF0 == 0
  }

  /** `isNumber()` as intended: the second nibble is 1. */
  predicate IsNumber(t: MessageType)
  {
    t & 0xFFF0 == 0x10
  }

  /** Over the declared tags, the intended predicates pick out exactly the MIDI tags and the number tags. */
  lemma TagPredicates()
    ensures forall t :: t in AllTags() ==> (IsMidi(t) <==> t in MidiTags())
    ensures forall t :: t in AllTags() ==> (IsNumber(t) <==> t == IntData || t == FloatData)
    ensures IsMidi(NoteOn) && !IsMidiAsWritten(NoteOn)
  {
  }

  /** The name each typed message's text starts with. */
  function ClassName(m: Message): string
  {
    match m
    case Untyped(_) => "Message"
    case IntMessage(_) => "IntMessage"
    case FloatMessage(_) => "FloatMessage"
    case StringMessage(_) => "StringMessage"
  }

  /** `toString()` of an `IntMessage` (the value in decimal) and of a `StringMessage` (the value verbatim). */
  function ToString(m: Message): (r: string)
    requires m.IntMessage? || m.StringMessage?
    ensures |r| >= |ClassName(m)| + 2
    ensures r[..|ClassName(m)| + 2] == ClassName(m) + ": "
  {
    match m
    case IntMessage(n) => "IntMessage: " + IntToString(n)
    case StringMessage(s) => "StringMessage: " + s
  }

  /** The value can be read back from the text after the class name and `": "`. */
  lemma ToStringGivesValue(m: Message)
    requires m.IntMessage? || m.StringMessage?
    ensures m.IntMessage? ==> ParseInt(ToString(m)[12..]) == m.intValue
    ensures m.StringMessage? ==> ToString(m)[15..] == m.stringValue
  {
    if m.IntMessage? {
      assert ToString(m)[12..] == IntToString(m.intValue);
      IntToStringRoundTrip(m.intValue);
    } else {
      assert ToString(m)[15..] == m.stringValue;
    }
  }

  /** Different messages have different texts. */
  lemma ToStringInjective(a: Message, b: Message)
    requires a.IntMessage? || a.StringMessage?
    requires b.IntMessage? || b.StringMessage?
    requires ToString(a) == ToString(b)
    ensures a == b
  {
    if a.IntMessage? == b.IntMessage? {
      ToStringGivesValue(a);
      ToStringGivesValue(b);
    }
  }
}
