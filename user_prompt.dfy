/**
 * The user prompt's file badges: one badge per attached file, and for an
 * image whose value holds its bytes (an object such as `{0: 137, 1: 80,
 * ...}`), a hover preview whose source is a PNG data URL carrying the
 * base64 encoding of those bytes.
 */
module UserPrompt {
  import opened Js
  import opened Strings
  import opened Blocks
  import opened Base64

  const DataUrlPrefix := "data:image/png;base64,"

  /** One element of `new Uint8Array(values)`: the value as a number (a
    * string through `toNumber`, which also gives 0 for NaN), reduced
    * modulo 256. */
  function ToUint8(v: JValue, toNumber: string -> int): (r: Byte)
    ensures v.JNum? ==> r == v.n % 256
    ensures v.JNull? ==> r == 0
    ensures v.JBool? ==> r == if v.b then 1 else 0
  {
    match v
    case JNull => 0
    case JBool(b) => if b then 1 else 0
    case JNum(n) => n % 256
    case _ => toNumber(ValueToStr(v)) % 256
  }

  /** The bytes of an image value. */
  function ImageBytes(v: JValue, toNumber: string -> int): (r: seq<Byte>)
    ensures |r| == |ObjectValues(v)|
    ensures forall i :: 0 <= i < |r| ==> r[i] == ToUint8(ObjectValues(v)[i], toNumber)
  {
    ToBytes(ObjectValues(v), toNumber)
  }

  function ToBytes(values: seq<JValue>, toNumber: string -> int): (r: seq<Byte>)
    ensures |r| == |values|
    ensures forall i :: 0 <= i < |r| ==> r[i] == ToUint8(values[i], toNumber)
  {
    if |values| == 0 then [] else [ToUint8(values[0], toNumber)] + ToBytes(values[1..], toNumber)
  }

  /** `String.fromCharCode` of each byte. */
  function Chars(bytes: seq<Byte>): (r: string)
    ensures |r| == |bytes|
    ensures forall i :: 0 <= i < |r| ==> r[i] as int == bytes[i]
    decreases |bytes|
  {
    if |bytes| == 0 then "" else Chars(bytes[..|bytes| - 1]) + [bytes[|bytes| - 1] as char]
  }

  /** A binary string of bytes has its bytes as its codes. */
  lemma CharsCodes(bytes: seq<Byte>)
    ensures Codes(Chars(bytes)) == bytes
  {
  }

  /** `getFileContent`: the data URL of an image file with a value; `None`
    * for any other file, and where `btoa` throws. */
  function FileContentOf(file: FileRef, toNumber: string -> int): (r: Option<string>)
    ensures r.Some? <==> IsStr(file.kind, "image") && Truthy(file.value)
    ensures r.Some? ==> (StartsWith(r.value, DataUrlPrefix) &&
      Decode(r.value[|DataUrlPrefix|..]) == Some(ImageBytes(file.value.value, toNumber)))
  {
    if IsStr(file.kind, "image") && Truthy(file.value) then
      var bytes := ImageBytes(file.value.value, toNumber);
      CharsCodes(bytes);
      match Btoa(Chars(bytes))
      case None => None
      case Some(base64) =>
        assert (DataUrlPrefix + base64)[|DataUrlPrefix|..] == base64;
        Some(DataUrlPrefix + base64)
    else None
  }

  /** The function's body: the binary string built character by
    * character, then encoded. */
  method FileContent(file: FileRef, toNumber: string -> int) returns (r: Option<string>)
    ensures r == FileContentOf(file, toNumber)
  {
    if !(IsStr(file.kind, "image") && Truthy(file.value)) {
      return None;
    }
    var bytes := ImageBytes(file.value.value, toNumber);
    var binary := "";
    var i := 0;
    while i < |bytes|
      invariant 0 <= i <= |bytes|
      invariant binary == Chars(bytes[..i])
    {
      assert bytes[..i + 1][..i] == bytes[..i];
      binary := binary + [bytes[i] as char];
      i := i + 1;
    }
    assert bytes[..i] == bytes;
    var base64 := Btoa(binary);
    if base64.None? {
      return None;
    }
    r := Some(DataUrlPrefix + base64.value);
  }

  /** The data URL carries exactly `4 * ceil(n / 3)` base64 characters for
    * `n` bytes, and `btoa` never throws on bytes. */
  lemma ImageUrlLength(file: FileRef, toNumber: string -> int)
    requires IsStr(file.kind, "image") && Truthy(file.value)
    ensures var url := FileContentOf(file, toNumber).value;
      |url| == |DataUrlPrefix| + 4 * ((|ObjectValues(file.value.value)| + 2) / 3)
  {
    var bytes := ImageBytes(file.value.value, toNumber);
    CharsCodes(bytes);
    EncodeLength(bytes);
  }

  // ----- Badges -----

  datatype Icon = ImageIcon | FileIcon

  /** A badge: the file's name, its icon, and the preview image if any. */
  datatype Badge = Badge(name: Prop, icon: Option<Icon>, preview: Option<string>)

  function BadgeOf(file: FileRef, toNumber: string -> int): (r: Badge)
    ensures r.name == file.name
    ensures r.icon == Some(ImageIcon) <==> IsStr(file.kind, "image")
    ensures r.icon == Some(FileIcon) <==> IsStr(file.kind, "file")
    ensures r.preview == FileContentOf(file, toNumber)
  {
    var icon := if IsStr(file.kind, "image") then Some(ImageIcon) else if IsStr(file.kind, "file") then Some(FileIcon) else None;
    Badge(file.name, icon, FileContentOf(file, toNumber))
  }

  /** One badge per file, in order; a preview only for an image with a value. */
  function Badges(files: seq<FileRef>, toNumber: string -> int): (r: seq<Badge>)
    ensures |r| == |files|
    ensures forall i :: 0 <= i < |files| ==> r[i] == BadgeOf(files[i], toNumber)
    ensures forall i :: 0 <= i < |files| ==> (r[i].preview.Some? <==> IsStr(files[i].kind, "image") && Truthy(files[i].value))
  {
    if |files| == 0 then [] else [BadgeOf(files[0], toNumber)] + Badges(files[1..], toNumber)
  }
}
