/**
 * The library's version query: four 32-bit build-time constants and the
 * dot-joined version string built from them.
 */
module Version {
  import NumberText

  type uint32 = n: int | 0 <= n < 0x1_0000_0000

  /** The four constants the build system defines (major, minor, patch and the hexadecimal tag). */
  datatype BuildConstants = BuildConstants(major: uint32, minor: uint32, patch: uint32, tagHex: uint32)

  /** Each getter returns its build-time constant unchanged. */
  function GetMajor(build: BuildConstants): (r: uint32)
    ensures r == build.major
  {
    build.major
  }

  function GetMinor(build: BuildConstants): (r: uint32)
    ensures r == build.minor
  {
    build.minor
  }

  function GetPatch(build: BuildConstants): (r: uint32)
    ensures r == build.patch
  {
    build.patch
  }

  function GetTag(build: BuildConstants): (r: uint32)
    ensures r == build.tagHex
  {
    build.tagHex
  }

  /**
   * `GetVersion`: major, minor and the tag in decimal, then the tag in
   * hexadecimal, joined by dots. The result splits at its dots into exactly
   * those four renderings, none of them empty.
   */
  function GetVersion(build: BuildConstants): (v: string)
    ensures Split(v, '.') == [
      NumberText.Decimal(build.major), NumberText.Decimal(build.minor),
      NumberText.Decimal(build.tagHex), NumberText.Hex(build.tagHex)]
    ensures forall i :: 0 <= i < 4 ==> Split(v, '.')[i] != []
  {
    var a := NumberText.Decimal(GetMajor(build));
    var b := NumberText.Decimal(GetMinor(build));
    var c := NumberText.Decimal(GetTag(build));
    var d := NumberText.Hex(GetTag(build));
    NumberText.DigitsHaveNoPunctuation(build.major, 10);
    NumberText.DigitsHaveNoPunctuation(build.minor, 10);
    NumberText.DigitsHaveNoPunctuation(build.tagHex, 10);
    NumberText.DigitsHaveNoPunctuation(build.tagHex, 16);
    SplitFour(a, b, c, d);
    a + "." + b + "." + c + "." + d
  }

  /** Four pieces without dots, joined by dots, split back into those four pieces. */
  lemma SplitFour(a: string, b: string, c: string, d: string)
    requires '.' !in a && '.' !in b && '.' !in c && '.' !in d
    ensures Split(a + "." + b + "." + c + "." + d, '.') == [a, b, c, d]
  {
    assert a + "." + b + "." + c + "." + d == a + ['.'] + (b + ['.'] + (c + ['.'] + d));
    SplitAfterPiece(a, '.', b + ['.'] + (c + ['.'] + d));
    SplitAfterPiece(b, '.', c + ['.'] + d);
    SplitAfterPiece(c, '.', d);
    SplitWhole(d, '.');
  }

  /** The pieces of `s` between occurrences of `sep`, in order; n separators give n + 1 pieces. */
  function Split(s: string, sep: char): (parts: seq<string>)
    ensures |parts| > 0
    decreases |s|
  {
    if s == [] then [""]
    else
      var rest := Split(s[1..], sep);
      if s[0] == sep then [""] + rest else [[s[0]] + rest[0]] + rest[1..]
  }

  /** Splitting a piece that holds no separator, followed by the separator, peels that piece off. */
  lemma {:induction false} SplitAfterPiece(piece: string, sep: char, rest: string)
    requires sep !in piece
    ensures Split(piece + [sep] + rest, sep) == [piece] + Split(rest, sep)
    decreases |piece|
  {
    if piece == [] {
      assert piece + [sep] + rest == [sep] + rest;
      assert ([sep] + rest)[1..] == rest;
    } else {
      var s := piece + [sep] + rest;
      assert s[0] == piece[0];
      assert s[1..] == piece[1..] + [sep] + rest;
      SplitAfterPiece(piece[1..], sep, rest);
      assert [piece[0]] + piece[1..] == piece;
    }
  }

  /** A string without the separator is one piece. */
  lemma {:induction false} SplitWhole(s: string, sep: char)
    requires sep !in s
    ensures Split(s, sep) == [s]
    decreases |s|
  {
    if s != [] {
      SplitWhole(s[1..], sep);
      assert [s[0]] + s[1..] == s;
    }
  }

  /**
   * The components read back as the build constants: the third one is the
   * tag in decimal, never the patch, and the fourth is the tag again in
   * lower-case hexadecimal.
   */
  lemma VersionReadsBack(build: BuildConstants)
    ensures var parts := Split(GetVersion(build), '.');
      |parts| == 4 &&
      NumberText.AllDecimal(parts[0]) && NumberText.DecimalValue(parts[0]) == GetMajor(build) &&
      NumberText.AllDecimal(parts[1]) && NumberText.DecimalValue(parts[1]) == GetMinor(build) &&
      NumberText.AllDecimal(parts[2]) && NumberText.DecimalValue(parts[2]) == GetTag(build) &&
      (forall i :: 0 <= i < |parts[3]| ==> '0' <= parts[3][i] <= '9' || 'a' <= parts[3][i] <= 'f') &&
      NumberText.DigitsValue(parts[3], 16) == GetTag(build)
  {
  }

  /** The patch constant has no influence on the version string. */
  lemma VersionIgnoresPatch(build: BuildConstants, patch: uint32)
    ensures GetVersion(build.(patch := patch)) == GetVersion(build)
  {
  }
}
