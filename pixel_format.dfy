/**
 * The pixel-format tags and the membership test that guards the record's
 * `PixelFormat` field.  The tags are opaque: their numeric codes are not part of
 * this model, so every value of the enumeration that is none of the named tags is
 * represented by `Raw` carrying the value's 32-bit code.
 */
module PixelFormats {
  import opened Interop

  /** The named pixel-format tags accepted by the validator, plus any other enum value. */
  datatype PixelFormat =
    | DontCare
    | Max
    | Indexed
    | Gdi
    | Format16bppRgb555
    | Format16bppRgb565
    | Format24bppRgb
    | Format32bppRgb
    | Format1bppIndexed
    | Format4bppIndexed
    | Format8bppIndexed
    | Alpha
    | Format16bppArgb1555
    | PAlpha
    | Format32bppPArgb
    | Extended
    | Format16bppGrayScale
    | Format48bppRgb
    | Format64bppPArgb
    | Canonical
    | Format32bppArgb
    | Format64bppArgb
      /** An enumeration value outside the named tags, known only by its code. */
    | Raw(code: Int32)

  /** `Undefined` is a second name for the same tag as `DontCare`. */
  const Undefined: PixelFormat := DontCare

  /** The accepted tags in the order of the case list, written apart from the check. */
  const ValidFormatTable: seq<PixelFormat> := [
    DontCare, Max, Indexed, Gdi,
    Format16bppRgb555, Format16bppRgb565, Format24bppRgb, Format32bppRgb,
    Format1bppIndexed, Format4bppIndexed, Format8bppIndexed,
    Alpha, Format16bppArgb1555, PAlpha, Format32bppPArgb, Extended,
    Format16bppGrayScale, Format48bppRgb, Format64bppPArgb, Canonical,
    Format32bppArgb, Format64bppArgb
  ]

  /** The closed set of accepted tags. */
  const ValidFormats: set<PixelFormat> := set f | f in ValidFormatTable

  /**
   * The case list of the `PixelFormat` setter: every listed tag falls through to
   * the assignment, everything else reaches the default branch.
   */
  predicate IsValidPixelFormat(value: PixelFormat): (b: bool)
    ensures b <==> value in ValidFormats
    ensures b <==> !value.Raw?
  {
    match value
    case DontCare | Max | Indexed | Gdi
       | Format16bppRgb555 | Format16bppRgb565 | Format24bppRgb | Format32bppRgb
       | Format1bppIndexed | Format4bppIndexed | Format8bppIndexed
       | Alpha | Format16bppArgb1555 | PAlpha | Format32bppPArgb | Extended
       | Format16bppGrayScale | Format48bppRgb | Format64bppPArgb | Canonical
       | Format32bppArgb | Format64bppArgb => true
    case Raw(_) => false
  }

  /** No tag appears twice in `s`. */
  predicate Distinct(s: seq<PixelFormat>)
  {
    forall i, j :: 0 <= i < j < |s| ==> s[i] != s[j]
  }

  /** A sequence without repetitions has as many members as elements. */
  lemma {:induction false} DistinctCardinality(s: seq<PixelFormat>)
    requires Distinct(s)
    ensures |set f | f in s| == |s|
  {
    if s != [] {
      DistinctCardinality(s[1..]);
      assert (set f | f in s) == {s[0]} + (set f | f in s[1..]);
      assert s[0] !in (set f | f in s[1..]);
    }
  }

  /** The position of a named tag in the case list; -1 for an unnamed value. */
  ghost function CasePosition(f: PixelFormat): int
  {
    match f
    case DontCare => 0
    case Max => 1
    case Indexed => 2
    case Gdi => 3
    case Format16bppRgb555 => 4
    case Format16bppRgb565 => 5
    case Format24bppRgb => 6
    case Format32bppRgb => 7
    case Format1bppIndexed => 8
    case Format4bppIndexed => 9
    case Format8bppIndexed => 10
    case Alpha => 11
    case Format16bppArgb1555 => 12
    case PAlpha => 13
    case Format32bppPArgb => 14
    case Extended => 15
    case Format16bppGrayScale => 16
    case Format48bppRgb => 17
    case Format64bppPArgb => 18
    case Canonical => 19
    case Format32bppArgb => 20
    case Format64bppArgb => 21
    case Raw(_) => -1
  }

  /** Each entry of the table sits at its own case-list position, so none repeats. */
  lemma TableDistinct()
    ensures Distinct(ValidFormatTable)
  {
    forall k | 0 <= k < |ValidFormatTable|
      ensures CasePosition(ValidFormatTable[k]) == k
    {
    }
  }

  /** The case list names 22 distinct tags (`Undefined` adds none). */
  lemma ValidFormatsCount()
    ensures |ValidFormats| == 22
    ensures Undefined in ValidFormats
  {
    TableDistinct();
    DistinctCardinality(ValidFormatTable);
  }

  /**
   * The error thrown for a rejected value: the parameter's name, the rejected
   * value as a 32-bit integer, and the name of the enumeration.
   */
  datatype InvalidEnumArgument = InvalidEnumArgument(argumentName: string, invalidValue: Int32, enumClass: string)

  /** What the validating switch does: fall through, or throw. */
  datatype Outcome = Pass | Fail(error: InvalidEnumArgument)

  /** The validating switch together with its default-branch throw. */
  function CheckPixelFormat(value: PixelFormat): (r: Outcome)
    ensures r.Pass? <==> value in ValidFormats
    ensures r.Fail? ==> value == Raw(r.error.invalidValue)
    ensures r.Fail? ==> r.error.argumentName == "value" && r.error.enumClass == "PixelFormat"
  {
    if IsValidPixelFormat(value) then Pass
    else Fail(InvalidEnumArgument("value", value.code, "PixelFormat"))
  }
}
