/**
 * The bitmap-data record: six fields read and written through property accessors,
 * of which only the pixel-format setter validates its argument.
 *
 * `Fields` is the record's value and `Apply` the meaning of one accessor call on
 * it; the class `BitmapData` is the mutable record itself, each of whose setters
 * is proved to perform `Apply`.  `Replay` runs a caller's sequence of setter calls
 * (a rejected call's exception caught by the caller), so that the invariant on the
 * pixel-format field can be stated for every history of the record.
 */
module Imaging {
  import opened Interop
  import opened PixelFormats

  /** The record's six fields, in declaration order. */
  datatype Fields = Fields(
    width: Int32,
    height: Int32,
    stride: Int32,
    pixelFormat: PixelFormat,
    scan0: IntPtr,
    reserved: Int32)

  /** A freshly allocated record: every field zero, which for the format is `DontCare`. */
  const Default: Fields := Fields(0, 0, 0, DontCare, Zero, 0)

  /** The record's invariant: the stored format is one of the accepted tags. */
  predicate WellFormed(f: Fields)
  {
    IsValidPixelFormat(f.pixelFormat)
  }

  /** One setter call with its argument. */
  datatype Access =
    | SetWidth(width: Int32)
    | SetHeight(height: Int32)
    | SetStride(stride: Int32)
    | SetPixelFormat(format: PixelFormat)
    | SetScan0(scan0: IntPtr)
    | SetReserved(reserved: Int32)

  /** The record after a setter call, and whether the call returned or threw. */
  datatype Step = Step(after: Fields, outcome: Outcome)

  /** The effect of one setter call on the record. */
  function Apply(f: Fields, a: Access): (s: Step)
    // Only the pixel-format setter can throw, and only for a value outside the set.
    ensures s.outcome.Fail? <==> a.SetPixelFormat? && a.format !in ValidFormats
    // A throw carries the rejected value and leaves the record untouched.
    ensures s.outcome.Fail? ==> s.after == f && a.format == Raw(s.outcome.error.invalidValue)
    ensures s.outcome.Fail? ==> s.outcome.error.argumentName == "value" && s.outcome.error.enumClass == "PixelFormat"
    // Every other call replaces its own field and no other.
    ensures a.SetWidth? ==> s.after == f.(width := a.width)
    ensures a.SetHeight? ==> s.after == f.(height := a.height)
    ensures a.SetStride? ==> s.after == f.(stride := a.stride)
    ensures a.SetPixelFormat? && s.outcome.Pass? ==> s.after == f.(pixelFormat := a.format)
    ensures a.SetScan0? ==> s.after == f.(scan0 := a.scan0)
    ensures a.SetReserved? ==> s.after == f.(reserved := a.reserved)
    // The invariant is kept, and an accepted format establishes it.
    ensures WellFormed(s.after) <==> WellFormed(f) || (a.SetPixelFormat? && s.outcome.Pass?)
  {
    match a
    case SetWidth(v) => Step(f.(width := v), Pass)
    case SetHeight(v) => Step(f.(height := v), Pass)
    case SetStride(v) => Step(f.(stride := v), Pass)
    case SetPixelFormat(v) =>
      var check := CheckPixelFormat(v);
      if check.Fail? then Step(f, check) else Step(f.(pixelFormat := v), Pass)
    case SetScan0(v) => Step(f.(scan0 := v), Pass)
    case SetReserved(v) => Step(f.(reserved := v), Pass)
  }

  /** The record after a caller's setter calls in order, each thrown error caught. */
  function Replay(f: Fields, calls: seq<Access>): Fields
    decreases |calls|
  {
    if calls == [] then f else Replay(Apply(f, calls[0]).after, calls[1..])
  }

  /** No sequence of setter calls breaks the invariant. */
  lemma {:induction false} ReplayKeepsWellFormed(f: Fields, calls: seq<Access>)
    requires WellFormed(f)
    ensures WellFormed(Replay(f, calls))
    decreases |calls|
  {
    if calls != [] {
      ReplayKeepsWellFormed(Apply(f, calls[0]).after, calls[1..]);
    }
  }

  /** From allocation on, the stored format is always an accepted tag. */
  lemma ReplayFromDefault(calls: seq<Access>)
    ensures Replay(Default, calls).pixelFormat in ValidFormats
  {
    ReplayKeepsWellFormed(Default, calls);
  }

  /**
   * The stored format is the one the record started with, or an accepted tag that
   * some call passed to the pixel-format setter.
   */
  lemma {:induction false} ReplayStoresOnlyAccepted(f: Fields, calls: seq<Access>)
    ensures var p := Replay(f, calls).pixelFormat;
      p == f.pixelFormat || (p in ValidFormats && SetPixelFormat(p) in calls)
    decreases |calls|
  {
    if calls != [] {
      var g := Apply(f, calls[0]).after;
      ReplayStoresOnlyAccepted(g, calls[1..]);
      assert calls == [calls[0]] + calls[1..];
    }
  }

  /** Calls that are all rejected leave the record exactly as it was. */
  lemma {:induction false} ReplayRejectedOnly(f: Fields, calls: seq<Access>)
    requires forall i :: 0 <= i < |calls| ==> calls[i].SetPixelFormat? && calls[i].format !in ValidFormats
    ensures Replay(f, calls) == f
    decreases |calls|
  {
    if calls != [] {
      ReplayRejectedOnly(Apply(f, calls[0]).after, calls[1..]);
    }
  }

  /** Setting `Undefined` is setting `DontCare`, and is accepted. */
  lemma UndefinedAccepted(f: Fields)
    ensures Apply(f, SetPixelFormat(Undefined)) == Step(f.(pixelFormat := DontCare), Pass)
  {
  }

  /** The mutable record. */
  class BitmapData {
    var width: Int32
    var height: Int32
    var stride: Int32
    var pixelFormat: PixelFormat
    var scan0: IntPtr
    var reserved: Int32

    /** The record's current value. */
    function Snapshot(): Fields
      reads this
    {
      Fields(width, height, stride, pixelFormat, scan0, reserved)
    }

    /** The object invariant: the stored format is an accepted tag. */
    predicate Valid()
      reads this
    {
      WellFormed(Snapshot())
    }

    /** The implicit parameterless constructor: every field zero. */
    constructor ()
      ensures Snapshot() == Default
      ensures Valid()
    {
      width, height, stride := 0, 0, 0;
      pixelFormat := DontCare;
      scan0 := Zero;
      reserved := 0;
    }

    function Width(): Int32 reads this { width }
    function Height(): Int32 reads this { height }
    function Stride(): Int32 reads this { stride }
    function Format(): PixelFormat reads this { pixelFormat }
    function Scan0(): IntPtr reads this { scan0 }
    function Reserved(): Int32 reads this { reserved }

    method SetWidth(value: Int32)
      modifies this
      ensures Step(Snapshot(), Pass) == Apply(old(Snapshot()), Access.SetWidth(value))
      ensures Width() == value
    {
      width := value;
    }

    method SetHeight(value: Int32)
      modifies this
      ensures Step(Snapshot(), Pass) == Apply(old(Snapshot()), Access.SetHeight(value))
      ensures Height() == value
    {
      height := value;
    }

    method SetStride(value: Int32)
      modifies this
      ensures Step(Snapshot(), Pass) == Apply(old(Snapshot()), Access.SetStride(value))
      ensures Stride() == value
    {
      stride := value;
    }

    /** Stores `value` if it is an accepted tag; otherwise throws and stores nothing. */
    method SetPixelFormat(value: PixelFormat) returns (outcome: Outcome)
      modifies this
      ensures Step(Snapshot(), outcome) == Apply(old(Snapshot()), Access.SetPixelFormat(value))
      ensures outcome.Pass? <==> value in ValidFormats
      ensures outcome.Pass? ==> Format() == value && Valid()
      ensures outcome.Fail? ==> Snapshot() == old(Snapshot())
      ensures old(Valid()) ==> Valid()
    {
      outcome := CheckPixelFormat(value);
      if outcome.Fail? {
        return;
      }
      pixelFormat := value;
    }

    method SetScan0(value: IntPtr)
      modifies this
      ensures Step(Snapshot(), Pass) == Apply(old(Snapshot()), Access.SetScan0(value))
      ensures Scan0() == value
    {
      scan0 := value;
    }

    method SetReserved(value: Int32)
      modifies this
      ensures Step(Snapshot(), Pass) == Apply(old(Snapshot()), Access.SetReserved(value))
      ensures Reserved() == value
    {
      reserved := value;
    }
  }

  /**
   * A caller fills a fresh record, with a bottom-up (negative) stride, and reads
   * every field back unchanged.
   */
  method FillAndReadBack() returns (read: Fields, outcome: Outcome)
    ensures outcome == Pass
    ensures read == Fields(4, 2, -16, Format32bppArgb, 0x1000, 0)
  {
    var d := new BitmapData();
    d.SetWidth(4);
    d.SetHeight(2);
    d.SetStride(-16);
    outcome := d.SetPixelFormat(Format32bppArgb);
    d.SetScan0(0x1000);
    d.SetReserved(0);
    read := Fields(d.Width(), d.Height(), d.Stride(), d.Format(), d.Scan0(), d.Reserved());
  }

  /** A caller sets an unnamed code on a fresh record: it throws, and the format stays. */
  method RejectUnnamedCode() returns (outcome: Outcome, format: PixelFormat)
    ensures outcome == Fail(InvalidEnumArgument("value", 9999, "PixelFormat"))
    ensures format == DontCare
  {
    var d := new BitmapData();
    outcome := d.SetPixelFormat(Raw(9999));
    format := d.Format();
  }
}
