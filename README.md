# BitmapData: the locked-bitmap descriptor of System.Drawing.Imaging

`BitmapData` describes one block of pixel memory handed to and from the native
imaging library when a bitmap is locked. It has six fields: width, height, stride,
pixel format, the address of the first scan line (`Scan0`) and a reserved slot.
Each field is read and written through a property.

Five of the setters store any value they are given. This includes negative
dimensions, a negative (bottom-up) stride and a non-zero reserved slot. The
`PixelFormat` setter is the exception: it accepts only the 22 tags named in its
case list. For any other value it throws `InvalidEnumArgumentException`, which
carries the parameter name `value`, the rejected value as an `int`, and the
enumeration type. The throw comes before the assignment, so a rejected value
leaves the record as it was.

The model has three modules:

- `Interop` (`interop.dfy`) gives the field types. `Int32` is the 32-bit `int`. `IntPtr` is a 64-bit address.
- `PixelFormats` (`pixel_format.dfy`) holds the tags as a datatype. It has one constructor per named tag, plus `Raw(code)` for every other value of the enumeration. `Undefined` is a constant equal to `DontCare`. The module also holds the table of accepted tags, the case-list predicate, and the check that either passes or produces the error.
- `Imaging` (`bitmap_data.dfy`) holds the record. `Fields` is its value. `Apply` gives the effect of one setter call. `Replay` runs a sequence of setter calls, where the caller catches every thrown error. The class `BitmapData` is the mutable record. Each of its setters is proved to perform `Apply` on the record's value.

## Model

| member | source | states |
|---|---|---|
| `PixelFormats.IsValidPixelFormat` | src/System.Drawing.Common/src/System/Drawing/Imaging/BitmapData.cs:60-85 | The case list accepts a value exactly when it is in the table of accepted tags, and exactly when it is one of the named tags. Only unnamed enum values are rejected. |
| `PixelFormats.ValidFormatsCount` | src/System.Drawing.Common/src/System/Drawing/Imaging/BitmapData.cs:62-84 | The case list names exactly 22 distinct tags. `Undefined` is among them: it is the same tag as `DontCare`. |
| `PixelFormats.CheckPixelFormat` | src/System.Drawing.Common/src/System/Drawing/Imaging/BitmapData.cs:60-88 | The switch falls through exactly for the accepted tags. Otherwise it throws an error naming parameter `value` and enumeration `PixelFormat`, and the error carries the rejected value's own code. |
| `Imaging.Apply` | src/System.Drawing.Common/src/System/Drawing/Imaging/BitmapData.cs:28-110 | Only the pixel-format setter can throw, and only for a value outside the set. A throw carries the rejected code and changes nothing. Any other call replaces its own field and leaves the other five alone. The format invariant is kept, and an accepted format establishes it. |
| `Imaging.ReplayKeepsWellFormed` | src/System.Drawing.Common/src/System/Drawing/Imaging/BitmapData.cs:58-91 | No sequence of setter calls, including rejected ones, can store a format outside the accepted set in a record whose format was valid. |
| `Imaging.ReplayFromDefault` | src/System.Drawing.Common/src/System/Drawing/Imaging/BitmapData.cs:21-90 | Starting from a freshly allocated record (format zero, that is `DontCare`), the stored format is an accepted tag after any sequence of setter calls. |
| `Imaging.ReplayStoresOnlyAccepted` | src/System.Drawing.Common/src/System/Drawing/Imaging/BitmapData.cs:58-91 | After any sequence of calls, the stored format is either the initial one or an accepted tag that some call passed to the pixel-format setter. |
| `Imaging.ReplayRejectedOnly` | src/System.Drawing.Common/src/System/Drawing/Imaging/BitmapData.cs:86-90 | Any number of rejected pixel-format calls leaves the whole record unchanged, because the throw precedes the assignment. |
| `Imaging.UndefinedAccepted` | src/System.Drawing.Common/src/System/Drawing/Imaging/BitmapData.cs:62-63 | Setting `Undefined` succeeds and stores `DontCare`, the same tag. |
| `Imaging.BitmapData.constructor` | src/System.Drawing.Common/src/System/Drawing/Imaging/BitmapData.cs:16-23 | A new record has every field zero, with format `DontCare`, so the invariant holds from allocation. |
| `Imaging.BitmapData.SetWidth` | src/System.Drawing.Common/src/System/Drawing/Imaging/BitmapData.cs:28-32 | Performs `Apply` with any `int`, without failing. The getter then returns the value, and the other fields are unchanged. |
| `Imaging.BitmapData.SetHeight` | src/System.Drawing.Common/src/System/Drawing/Imaging/BitmapData.cs:37-41 | The same as `SetWidth`, for the height. |
| `Imaging.BitmapData.SetStride` | src/System.Drawing.Common/src/System/Drawing/Imaging/BitmapData.cs:46-50 | The same as `SetWidth`, for the stride. A negative stride is stored as given. |
| `Imaging.BitmapData.SetPixelFormat` | src/System.Drawing.Common/src/System/Drawing/Imaging/BitmapData.cs:55-91 | Performs `Apply`. It succeeds exactly for accepted tags, and the getter then returns the value. On a throw the record is unchanged. A valid record stays valid, and a successful call makes it valid. |
| `Imaging.BitmapData.SetScan0` | src/System.Drawing.Common/src/System/Drawing/Imaging/BitmapData.cs:97-101 | Stores any address, treated as opaque. The getter returns it unchanged, and the other fields are unchanged. |
| `Imaging.BitmapData.SetReserved` | src/System.Drawing.Common/src/System/Drawing/Imaging/BitmapData.cs:106-110 | The same as `SetWidth`, for the reserved slot. |
| `Imaging.FillAndReadBack` | src/System.Drawing.Common/src/System/Drawing/Imaging/BitmapData.cs:28-110 | A caller fills a fresh record (negative stride, format `Format32bppArgb`) through the setters. No call throws, and every getter returns exactly what was set. |
| `Imaging.RejectUnnamedCode` | src/System.Drawing.Common/src/System/Drawing/Imaging/BitmapData.cs:58-91 | Setting an unnamed code (9999) on a fresh record throws an error carrying 9999. The getter still returns `DontCare`. |

## Left out

- `GetPinnableReference` and the `PinningMarshaller` struct (lines 112-128) are left out. They pin the object for native calls with unsafe references and pointers, and nothing of them can be expressed in Dafny's memory model.
- The sequential layout of the fields (line 15) is left out: field offsets and alignment are a marshalling concern.
- The numeric codes of the `PixelFormat` tags are left out, because `PixelFormat.cs` is not part of this model. Tags are opaque constructors. An unnamed enum value is `Raw(code)`, and its code is assumed to differ from every named tag's code. The model does not relate a `Raw` code to a named tag with the same number.
- The error's `typeof(PixelFormat)` payload is modelled as the string `"PixelFormat"`. The exception's message text is not modelled.
- `Interop.IntPtr` is 64 bits wide. The narrower pointer of a 32-bit process is not modelled; the record treats `Scan0` as opaque either way.
- The native lock and unlock routines that fill and read this record are not part of this model.
- Exceptions are modelled as a returned `Outcome`. `Replay` assumes the caller catches every thrown error and goes on with the next call.
