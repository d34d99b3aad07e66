/**
 * Random temporary file names of the `util` package. The bytes `rand.Read`
 * produces are a nondeterministic choice, returned as a ghost record; whether
 * the read fails is a parameter.
 */
module UtilFile {
  import opened Wrappers

  /** Panic messages. */
  const NEGATIVE_LENGTH: string := "makeslice: len out of range"
  const READ_FAILED: string := "Unable to generate random string"

  newtype byte = x: int | 0 <= x < 256

  const RANDOM_NAME_LENGTH: int := 64
  const RANDOM_CHARS: string := "0123456789ABCDEFGHIJKLMNOPQRSTUVWXYZabcdefghijklmnopqrstuvwxyz"

  /** `RANDOM_CHARS[int(val) % len(RANDOM_CHARS)]`: the character a random byte selects. */
  function CharOf(val: byte): (c: char)
    ensures c in RANDOM_CHARS
    ensures c == RANDOM_CHARS[val as int % |RANDOM_CHARS|]
  {
    RANDOM_CHARS[val as int % |RANDOM_CHARS|]
  }

  /** The string the byte buffer becomes, one character per byte. */
  function Encode(bytes: seq<byte>): (s: string)
    ensures |s| == |bytes|
    ensures forall i :: 0 <= i < |s| ==> s[i] == CharOf(bytes[i])
  {
    seq(|bytes|, i requires 0 <= i < |bytes| => CharOf(bytes[i]))
  }

  /**
   * `RandomString(length)`: a negative length panics in `make`, a failed read panics,
   * and otherwise the result has `length` characters, each from RANDOM_CHARS, namely
   * the encoding of the bytes read.
   */
  method RandomString(length: int, readFails: bool) returns (r: Result<string>, ghost bytesRead: seq<byte>)
    ensures r.Panic? <==> length < 0 || readFails
    ensures r.Ok? ==> |bytesRead| == length && r.value == Encode(bytesRead)
    ensures r.Ok? ==> |r.value| == length && forall i :: 0 <= i < |r.value| ==> r.value[i] in RANDOM_CHARS
  {
    bytesRead := [];
    if length < 0 {
      return Panic(NEGATIVE_LENGTH), bytesRead;
    }
    var bytes := new byte[length];
    var k := 0;
    while k < length
      invariant 0 <= k <= length
    {
      var b: byte :| true;
      bytes[k] := b;
      k := k + 1;
    }
    if readFails {
      return Panic(READ_FAILED), bytesRead;
    }
    bytesRead := bytes[..];
    var out := new char[length];
    var i := 0;
    while i < length
      invariant 0 <= i <= length
      invariant bytes[..] == bytesRead
      invariant forall j :: 0 <= j < i ==> out[j] == CharOf(bytesRead[j])
    {
      out[i] := CharOf(bytes[i]);
      i := i + 1;
    }
    return Ok(out[..]), bytesRead;
  }

  /** An empty extension defaults to `temp`. */
  function Extension(extension: string): (e: string)
    ensures e != []
    ensures extension != [] ==> e == extension
    ensures extension == [] ==> e == "temp"
  {
    if extension == [] then "temp" else extension
  }

  /**
   * The file name of `TempFilePath`: `prefix + random + suffix + "." + extension` with
   * a 64-character random part; joining it to the system temporary directory is not
   * part of this model.
   */
  method TempFileName(extension: string, prefix: string, suffix: string, readFails: bool)
    returns (r: Result<string>, ghost random: string)
    ensures r.Panic? <==> readFails
    ensures r.Ok? ==> |random| == RANDOM_NAME_LENGTH && forall i :: 0 <= i < |random| ==> random[i] in RANDOM_CHARS
    ensures r.Ok? ==> r.value == prefix + random + suffix + "." + Extension(extension)
  {
    var ext := Extension(extension);
    var randomPart;
    ghost var bytesRead;
    randomPart, bytesRead := RandomString(RANDOM_NAME_LENGTH, readFails);
    if randomPart.Panic? {
      return Panic(randomPart.reason), [];
    }
    return Ok(prefix + randomPart.value + suffix + "." + ext), randomPart.value;
  }

  /** The name splits back into its parts: it starts with the prefix and ends with `.` and the extension. */
  lemma TempFileNameParts(prefix: string, random: string, suffix: string, extension: string)
    requires |random| == RANDOM_NAME_LENGTH
    ensures var name := prefix + random + suffix + "." + Extension(extension);
            && |name| == |prefix| + RANDOM_NAME_LENGTH + |suffix| + 1 + |Extension(extension)|
            && name[..|prefix|] == prefix
            && name[|prefix|..|prefix| + RANDOM_NAME_LENGTH] == random
            && name[|name| - |Extension(extension)| - 1..] == "." + Extension(extension)
  {
    var ext := Extension(extension);
    var name := prefix + random + suffix + "." + ext;
    assert name == prefix + (random + (suffix + ("." + ext)));
    assert name[|name| - |ext| - 1..] == "." + ext;
  }
}
