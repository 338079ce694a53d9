/** The data colour space and profile connection space fields of the profile header
    (sections 7.2.6 and 7.2.7 of ICC.1:2010). */
module ProfileColorSpaces {
  import opened Wrappers
  import opened JavaNum
  import opened SignatureUtils

  /** The 25 colour space constants, in declaration order. */
  datatype ProfileColorSpaceType =
      CsXyz
    | CsLab
    | CsLuv
    | CsYcc
    | CsYxy
    | CsRgb
    | CsGray
    | CsHsv
    | CsHls
    | CsCmyk
    | CsCmy
    | Cs2Clr
    | Cs3Clr
    | Cs4Clr
    | Cs5Clr
    | Cs6Clr
    | Cs7Clr
    | Cs8Clr
    | Cs9Clr
    | CsAClr
    | CsBClr
    | CsCClr
    | CsDClr
    | CsEClr
    | CsFClr

  /** The 32-bit value each constant is declared with. */
  function Value(c: ProfileColorSpaceType): int
  {
    match c
    case CsXyz => 0x58595A20
    case CsLab => 0x4C616220
    case CsLuv => 0x4C757620
    case CsYcc => 0x59436272
    case CsYxy => 0x59787920
    case CsRgb => 0x52474220
    case CsGray => 0x47524159
    case CsHsv => 0x48535620
    case CsHls => 0x484C5320
    case CsCmyk => 0x434D594B
    case CsCmy => 0x434D5920
    case Cs2Clr => 0x32434C52
    case Cs3Clr => 0x33434C52
    case Cs4Clr => 0x34434C52
    case Cs5Clr => 0x35434C52
    case Cs6Clr => 0x36434C52
    case Cs7Clr => 0x37434C52
    case Cs8Clr => 0x38434C52
    case Cs9Clr => 0x39434C52
    case CsAClr => 0x41434C52
    case CsBClr => 0x42434C52
    case CsCClr => 0x43434C52
    case CsDClr => 0x44434C52
    case CsEClr => 0x45434C52
    case CsFClr => 0x46434C52
  }

  /** The four-character signature each constant is declared with. */
  function Signature(c: ProfileColorSpaceType): string
  {
    match c
    case CsXyz => "XYZ "
    case CsLab => "Lab "
    case CsLuv => "Luv "
    case CsYcc => "YCbr"
    case CsYxy => "Yxy "
    case CsRgb => "RGB "
    case CsGray => "GRAY"
    case CsHsv => "HSV "
    case CsHls => "HLS "
    case CsCmyk => "CMYK"
    case CsCmy => "CMY "
    case Cs2Clr => "2CLR"
    case Cs3Clr => "3CLR"
    case Cs4Clr => "4CLR"
    case Cs5Clr => "5CLR"
    case Cs6Clr => "6CLR"
    case Cs7Clr => "7CLR"
    case Cs8Clr => "8CLR"
    case Cs9Clr => "9CLR"
    case CsAClr => "ACLR"
    case CsBClr => "BCLR"
    case CsCClr => "CCLR"
    case CsDClr => "DCLR"
    case CsEClr => "ECLR"
    case CsFClr => "FCLR"
  }

  /** The constant's Java name, the key `valueOf` looks up. */
  function Name(c: ProfileColorSpaceType): string
  {
    match c
    case CsXyz => "CS_XYZ"
    case CsLab => "CS_LAB"
    case CsLuv => "CS_LUV"
    case CsYcc => "CS_YCC"
    case CsYxy => "CS_YXY"
    case CsRgb => "CS_RGB"
    case CsGray => "CS_GRAY"
    case CsHsv => "CS_HSV"
    case CsHls => "CS_HLS"
    case CsCmyk => "CS_CMYK"
    case CsCmy => "CS_CMY"
    case Cs2Clr => "CS_2CLR"
    case Cs3Clr => "CS_3CLR"
    case Cs4Clr => "CS_4CLR"
    case Cs5Clr => "CS_5CLR"
    case Cs6Clr => "CS_6CLR"
    case Cs7Clr => "CS_7CLR"
    case Cs8Clr => "CS_8CLR"
    case Cs9Clr => "CS_9CLR"
    case CsAClr => "CS_ACLR"
    case CsBClr => "CS_BCLR"
    case CsCClr => "CS_CCLR"
    case CsDClr => "CS_DCLR"
    case CsEClr => "CS_ECLR"
    case CsFClr => "CS_FCLR"
  }

  /** The `java.awt.color.ColorSpace` type each constant is declared with. */
  function JavaColorSpace(c: ProfileColorSpaceType): int
  {
    match c
    case CsXyz => 0
    case CsLab => 1
    case CsLuv => 2
    case CsYcc => 3
    case CsYxy => 4
    case CsRgb => 5
    case CsGray => 6
    case CsHsv => 7
    case CsHls => 8
    case CsCmyk => 9
    case CsCmy => 11
    case Cs2Clr => 12
    case Cs3Clr => 13
    case Cs4Clr => 14
    case Cs5Clr => 15
    case Cs6Clr => 16
    case Cs7Clr => 17
    case Cs8Clr => 18
    case Cs9Clr => 19
    case CsAClr => 20
    case CsBClr => 21
    case CsCClr => 22
    case CsDClr => 23
    case CsEClr => 24
    case CsFClr => 25
  }

  /** `getNumComponents`: the number of colour channels. */
  function NumComponents(c: ProfileColorSpaceType): int
  {
    match c
    case CsXyz => 3
    case CsLab => 3
    case CsLuv => 3
    case CsYcc => 3
    case CsYxy => 3
    case CsRgb => 3
    case CsGray => 1
    case CsHsv => 3
    case CsHls => 3
    case CsCmyk => 4
    case CsCmy => 3
    case Cs2Clr => 2
    case Cs3Clr => 3
    case Cs4Clr => 4
    case Cs5Clr => 5
    case Cs6Clr => 6
    case Cs7Clr => 7
    case Cs8Clr => 8
    case Cs9Clr => 9
    case CsAClr => 10
    case CsBClr => 11
    case CsCClr => 12
    case CsDClr => 13
    case CsEClr => 14
    case CsFClr => 15
  }

  /** The constant whose name has this length and these characters after "CS_", if there is one: the names
      differ in these three alone, so this is the hash `valueOf` starts from. */
  function Candidate(length: int, c3: char, c4: char): Option<ProfileColorSpaceType>
  {
    if length == 6 && c3 == 'X' && c4 == 'Y' then Some(CsXyz)
    else if length == 6 && c3 == 'L' && c4 == 'A' then Some(CsLab)
    else if length == 6 && c3 == 'L' && c4 == 'U' then Some(CsLuv)
    else if length == 6 && c3 == 'Y' && c4 == 'C' then Some(CsYcc)
    else if length == 6 && c3 == 'Y' && c4 == 'X' then Some(CsYxy)
    else if length == 6 && c3 == 'R' && c4 == 'G' then Some(CsRgb)
    else if length == 7 && c3 == 'G' && c4 == 'R' then Some(CsGray)
    else if length == 6 && c3 == 'H' && c4 == 'S' then Some(CsHsv)
    else if length == 6 && c3 == 'H' && c4 == 'L' then Some(CsHls)
    else if length == 7 && c3 == 'C' && c4 == 'M' then Some(CsCmyk)
    else if length == 6 && c3 == 'C' && c4 == 'M' then Some(CsCmy)
    else if length == 7 && c3 == '2' && c4 == 'C' then Some(Cs2Clr)
    else if length == 7 && c3 == '3' && c4 == 'C' then Some(Cs3Clr)
    else if length == 7 && c3 == '4' && c4 == 'C' then Some(Cs4Clr)
    else if length == 7 && c3 == '5' && c4 == 'C' then Some(Cs5Clr)
    else if length == 7 && c3 == '6' && c4 == 'C' then Some(Cs6Clr)
    else if length == 7 && c3 == '7' && c4 == 'C' then Some(Cs7Clr)
    else if length == 7 && c3 == '8' && c4 == 'C' then Some(Cs8Clr)
    else if length == 7 && c3 == '9' && c4 == 'C' then Some(Cs9Clr)
    else if length == 7 && c3 == 'A' && c4 == 'C' then Some(CsAClr)
    else if length == 7 && c3 == 'B' && c4 == 'C' then Some(CsBClr)
    else if length == 7 && c3 == 'C' && c4 == 'C' then Some(CsCClr)
    else if length == 7 && c3 == 'D' && c4 == 'C' then Some(CsDClr)
    else if length == 7 && c3 == 'E' && c4 == 'C' then Some(CsEClr)
    else if length == 7 && c3 == 'F' && c4 == 'C' then Some(CsFClr)
    else None
  }

  /** `valueOf(name)`: the constant with that Java name; an unknown name is an `IllegalArgumentException`. */
  function ValueOf(name: string): (r: Result<ProfileColorSpaceType>)
    ensures r.Ok? ==> Name(r.value) == name
    ensures r.Err? ==> r == Err(IllegalArgument)
  {
    if |name| < 5 then Err(IllegalArgument)
    else
      match Candidate(|name|, name[3], name[4])
      case Some(c) => if Name(c) == name then Ok(c) else Err(IllegalArgument)
      case None => Err(IllegalArgument)
  }

  /** Each constant is found under its own name. */
  lemma CandidateOfName(c: ProfileColorSpaceType)
    ensures |Name(c)| >= 5 && Candidate(|Name(c)|, Name(c)[3], Name(c)[4]) == Some(c)
  {
  }

  /** `valueOf` finds each constant under its own name. */
  lemma ValueOfName(c: ProfileColorSpaceType)
    ensures ValueOf(Name(c)) == Ok(c)
  {
    CandidateOfName(c);
  }

  /** `valueOf` refuses exactly the names no constant has. */
  lemma ValueOfUnknown(name: string)
    ensures ValueOf(name).Err? <==> forall c :: Name(c) != name
  {
    if c :| Name(c) == name {
      ValueOfName(c);
    }
  }

  /** `String.trim`: drops the leading characters up to ' ' (code 0x20 or less). */
  function TrimStart(s: string): (r: string)
    ensures |r| <= |s| && r == s[|s| - |r|..]
    ensures r != [] ==> r[0] > ' '
    ensures forall i :: 0 <= i < |s| - |r| ==> s[i] <= ' '
  {
    if s != [] && s[0] <= ' ' then TrimStart(s[1..]) else s
  }

  /** `String.trim`: drops the trailing characters up to ' ' (code 0x20 or less). */
  function TrimEnd(s: string): (r: string)
    ensures |r| <= |s| && r == s[..|r|]
    ensures r != [] ==> r[|r| - 1] > ' '
    ensures forall i :: |r| <= i < |s| ==> s[i] <= ' '
  {
    if s != [] && s[|s| - 1] <= ' ' then TrimEnd(s[..|s| - 1]) else s
  }

  /** `String.trim`. */
  function Trim(s: string): string
  {
    TrimEnd(TrimStart(s))
  }

  /** `Character.toUpperCase` on the characters a signature can hold: 'a'..'z' become 'A'..'Z'. */
  function UpperChar(ch: char): (r: char)
    ensures 'a' <= ch <= 'z' ==> r as int == ch as int - 32
    ensures !('a' <= ch <= 'z') ==> r == ch
  {
    if 'a' <= ch <= 'z' then (ch as int - 32) as char else ch
  }

  /** `String.toUpperCase`, character by character. */
  function UpperAscii(s: string): (r: string)
    ensures |r| == |s| && forall i :: 0 <= i < |s| ==> r[i] == UpperChar(s[i])
  {
    seq(|s|, i requires 0 <= i < |s| => UpperChar(s[i]))
  }

  /** `get(long)`: looks up "CS_" followed by the trimmed, upper-cased signature string. */
  function Get(signature: int): (r: Result<ProfileColorSpaceType>)
    ensures r.Ok? ==> Name(r.value) == "CS_" + UpperAscii(Trim(SignatureString(signature)))
    ensures r.Err? ==> r == Err(IllegalArgument)
  {
    ValueOf("CS_" + UpperAscii(Trim(SignatureString(signature))))
  }

  /** The constructor's check: each declared value encodes its declared signature, so no constant throws. */
  lemma ConstructorCheck(c: ProfileColorSpaceType)
    ensures SignatureString(Value(c)) == Signature(c)
  {
    match c
    case CsXyz => SignatureOf(0x58595A20, 'X', 'Y', 'Z', ' ');
    case CsLab => SignatureOf(0x4C616220, 'L', 'a', 'b', ' ');
    case CsLuv => SignatureOf(0x4C757620, 'L', 'u', 'v', ' ');
    case CsYcc => SignatureOf(0x59436272, 'Y', 'C', 'b', 'r');
    case CsYxy => SignatureOf(0x59787920, 'Y', 'x', 'y', ' ');
    case CsRgb => SignatureOf(0x52474220, 'R', 'G', 'B', ' ');
    case CsGray => SignatureOf(0x47524159, 'G', 'R', 'A', 'Y');
    case CsHsv => SignatureOf(0x48535620, 'H', 'S', 'V', ' ');
    case CsHls => SignatureOf(0x484C5320, 'H', 'L', 'S', ' ');
    case CsCmyk => SignatureOf(0x434D594B, 'C', 'M', 'Y', 'K');
    case CsCmy => SignatureOf(0x434D5920, 'C', 'M', 'Y', ' ');
    case Cs2Clr => SignatureOf(0x32434C52, '2', 'C', 'L', 'R');
    case Cs3Clr => SignatureOf(0x33434C52, '3', 'C', 'L', 'R');
    case Cs4Clr => SignatureOf(0x34434C52, '4', 'C', 'L', 'R');
    case Cs5Clr => SignatureOf(0x35434C52, '5', 'C', 'L', 'R');
    case Cs6Clr => SignatureOf(0x36434C52, '6', 'C', 'L', 'R');
    case Cs7Clr => SignatureOf(0x37434C52, '7', 'C', 'L', 'R');
    case Cs8Clr => SignatureOf(0x38434C52, '8', 'C', 'L', 'R');
    case Cs9Clr => SignatureOf(0x39434C52, '9', 'C', 'L', 'R');
    case CsAClr => SignatureOf(0x41434C52, 'A', 'C', 'L', 'R');
    case CsBClr => SignatureOf(0x42434C52, 'B', 'C', 'L', 'R');
    case CsCClr => SignatureOf(0x43434C52, 'C', 'C', 'L', 'R');
    case CsDClr => SignatureOf(0x44434C52, 'D', 'C', 'L', 'R');
    case CsEClr => SignatureOf(0x45434C52, 'E', 'C', 'L', 'R');
    case CsFClr => SignatureOf(0x46434C52, 'F', 'C', 'L', 'R');
  }

  /** `get` on a signature of three visible characters and a trailing space looks up their upper-case forms. */
  lemma GetThree(v: int, a: char, b: char, c: char)
    requires ' ' < a && ' ' < b && ' ' < c && a as int < 256 && b as int < 256 && c as int < 256
    requires v == a as int * 0x100_0000 + b as int * 0x1_0000 + c as int * 0x100 + ' ' as int
    ensures Get(v) == ValueOf(['C', 'S', '_', UpperChar(a), UpperChar(b), UpperChar(c)])
  {
    SignatureOf(v, a, b, c, ' ');
    assert TrimStart([a, b, c, ' ']) == [a, b, c, ' '];
    assert TrimEnd([a, b, c, ' ']) == TrimEnd([a, b, c]) == [a, b, c];
  }

  /** `get` on a signature of four visible characters looks up their upper-case forms. */
  lemma GetFour(v: int, a: char, b: char, c: char, d: char)
    requires ' ' < a && ' ' < b && ' ' < c && ' ' < d
    requires a as int < 256 && b as int < 256 && c as int < 256 && d as int < 256
    requires v == a as int * 0x100_0000 + b as int * 0x1_0000 + c as int * 0x100 + d as int
    ensures Get(v) == ValueOf(['C', 'S', '_', UpperChar(a), UpperChar(b), UpperChar(c), UpperChar(d)])
  {
    SignatureOf(v, a, b, c, d);
    assert TrimStart([a, b, c, d]) == [a, b, c, d];
    assert TrimEnd([a, b, c, d]) == [a, b, c, d];
  }

  /** A constant whose signature is three visible characters and a space is found by `get` when its name is
      "CS_" and their upper-case forms. */
  lemma GetConstThree(k: ProfileColorSpaceType, a: char, b: char, c: char)
    requires ' ' < a && ' ' < b && ' ' < c && a as int < 256 && b as int < 256 && c as int < 256
    requires Value(k) == a as int * 0x100_0000 + b as int * 0x1_0000 + c as int * 0x100 + ' ' as int
    requires Name(k) == ['C', 'S', '_', UpperChar(a), UpperChar(b), UpperChar(c)]
    ensures Get(Value(k)) == Ok(k)
  {
    GetThree(Value(k), a, b, c);
    ValueOfName(k);
  }

  /** The same for a signature of four visible characters. */
  lemma GetConstFour(k: ProfileColorSpaceType, a: char, b: char, c: char, d: char)
    requires ' ' < a && ' ' < b && ' ' < c && ' ' < d
    requires a as int < 256 && b as int < 256 && c as int < 256 && d as int < 256
    requires Value(k) == a as int * 0x100_0000 + b as int * 0x1_0000 + c as int * 0x100 + d as int
    requires Name(k) == ['C', 'S', '_', UpperChar(a), UpperChar(b), UpperChar(c), UpperChar(d)]
    ensures Get(Value(k)) == Ok(k)
  {
    GetFour(Value(k), a, b, c, d);
    ValueOfName(k);
  }

  /** `get` on a constant's declared value gives that constant back, except for `CS_YCC`: its signature "YCbr"
      upper-cases to "CS_YCBR", a name no constant has, so `get` throws for it. */
  lemma GetValue(c: ProfileColorSpaceType)
    ensures c != CsYcc ==> Get(Value(c)) == Ok(c)
    ensures c == CsYcc ==> Get(Value(c)) == Err(IllegalArgument)
  {
    if c == CsXyz || c == CsLab || c == CsLuv || c == CsYcc || c == CsYxy || c == CsRgb {
      GetValueTristimulus(c);
    } else if c == CsGray || c == CsHsv || c == CsHls || c == CsCmyk || c == CsCmy {
      GetValueNamed(c);
    } else if c == Cs2Clr || c == Cs3Clr || c == Cs4Clr || c == Cs5Clr || c == Cs6Clr || c == Cs7Clr || c == Cs8Clr {
      GetValueLowColours(c);
    } else {
      GetValueHighColours(c);
    }
  }

  /** `GetValue` for the first six constants. */
  lemma GetValueTristimulus(c: ProfileColorSpaceType)
    requires c == CsXyz || c == CsLab || c == CsLuv || c == CsYcc || c == CsYxy || c == CsRgb
    ensures c != CsYcc ==> Get(Value(c)) == Ok(c)
    ensures c == CsYcc ==> Get(Value(c)) == Err(IllegalArgument)
  {
    if c == CsXyz {
      GetConstThree(CsXyz, 'X', 'Y', 'Z');
    } else if c == CsLab {
      GetConstThree(CsLab, 'L', 'a', 'b');
    } else if c == CsLuv {
      GetConstThree(CsLuv, 'L', 'u', 'v');
    } else if c == CsYcc {
      GetYcc();
    } else if c == CsYxy {
      GetConstThree(CsYxy, 'Y', 'x', 'y');
    } else {
      GetConstThree(CsRgb, 'R', 'G', 'B');
    }
  }

  /** "YCbr" upper-cases to "YCBR", so `get` on the value of `CS_YCC` looks up "CS_YCBR" and throws. */
  lemma GetYcc()
    ensures Get(Value(CsYcc)) == Err(IllegalArgument)
  {
    var name := ['C', 'S', '_', UpperChar('Y'), UpperChar('C'), UpperChar('b'), UpperChar('r')];
    GetFour(Value(CsYcc), 'Y', 'C', 'b', 'r');
    assert |name| == 7 && name[3] == 'Y' && name[4] == 'C';
    assert Candidate(7, 'Y', 'C') == None;
  }

  /** `get` as evidently intended: the same lookup, except that the YCbCr signature, whose upper-cased form names
      no constant, gives `CS_YCC`. */
  function CorrectedGet(signature: int): Result<ProfileColorSpaceType>
  {
    if SignatureString(signature) == Signature(CsYcc) then Ok(CsYcc) else Get(signature)
  }

  /** The corrected lookup gives every constant back from its declared value, `CS_YCC` included, and agrees with
      `get` on the value of every other constant. */
  lemma CorrectedGetValue(c: ProfileColorSpaceType)
    ensures CorrectedGet(Value(c)) == Ok(c)
    ensures c != CsYcc ==> CorrectedGet(Value(c)) == Get(Value(c))
  {
    ConstructorCheck(c);
    ConstructorCheck(CsYcc);
    GetValue(c);
    GetValue(CsYcc);
  }

  /** `GetValue` for the grey, hue and ink constants. */
  lemma GetValueNamed(c: ProfileColorSpaceType)
    requires c == CsGray || c == CsHsv || c == CsHls || c == CsCmyk || c == CsCmy
    ensures Get(Value(c)) == Ok(c)
  {
    if c == CsGray {
      GetConstFour(CsGray, 'G', 'R', 'A', 'Y');
    } else if c == CsHsv {
      GetConstThree(CsHsv, 'H', 'S', 'V');
    } else if c == CsHls {
      GetConstThree(CsHls, 'H', 'L', 'S');
    } else if c == CsCmyk {
      GetConstFour(CsCmyk, 'C', 'M', 'Y', 'K');
    } else {
      GetConstThree(CsCmy, 'C', 'M', 'Y');
    }
  }

  /** `GetValue` for the two- to eight-colour constants. */
  lemma GetValueLowColours(c: ProfileColorSpaceType)
    requires c == Cs2Clr || c == Cs3Clr || c == Cs4Clr || c == Cs5Clr || c == Cs6Clr || c == Cs7Clr || c == Cs8Clr
    ensures Get(Value(c)) == Ok(c)
  {
    if c == Cs2Clr {
      GetConstFour(Cs2Clr, '2', 'C', 'L', 'R');
    } else if c == Cs3Clr {
      GetConstFour(Cs3Clr, '3', 'C', 'L', 'R');
    } else if c == Cs4Clr {
      GetConstFour(Cs4Clr, '4', 'C', 'L', 'R');
    } else if c == Cs5Clr {
      GetConstFour(Cs5Clr, '5', 'C', 'L', 'R');
    } else if c == Cs6Clr {
      GetConstFour(Cs6Clr, '6', 'C', 'L', 'R');
    } else if c == Cs7Clr {
      GetConstFour(Cs7Clr, '7', 'C', 'L', 'R');
    } else {
      GetConstFour(Cs8Clr, '8', 'C', 'L', 'R');
    }
  }

  /** `GetValue` for the nine- to fifteen-colour constants. */
  lemma GetValueHighColours(c: ProfileColorSpaceType)
    requires c == Cs9Clr || c == CsAClr || c == CsBClr || c == CsCClr || c == CsDClr || c == CsEClr || c == CsFClr
    ensures Get(Value(c)) == Ok(c)
  {
    if c == Cs9Clr {
      GetConstFour(Cs9Clr, '9', 'C', 'L', 'R');
    } else if c == CsAClr {
      GetConstFour(CsAClr, 'A', 'C', 'L', 'R');
    } else if c == CsBClr {
      GetConstFour(CsBClr, 'B', 'C', 'L', 'R');
    } else if c == CsCClr {
      GetConstFour(CsCClr, 'C', 'C', 'L', 'R');
    } else if c == CsDClr {
      GetConstFour(CsDClr, 'D', 'C', 'L', 'R');
    } else if c == CsEClr {
      GetConstFour(CsEClr, 'E', 'C', 'L', 'R');
    } else {
      GetConstFour(CsFClr, 'F', 'C', 'L', 'R');
    }
  }

  /** Upper-casing keeps spaces and visible characters apart, so it commutes with trimming the front. */
  lemma {:induction false} UpperTrimStart(s: string)
    ensures UpperAscii(TrimStart(s)) == TrimStart(UpperAscii(s))
    decreases |s|
  {
    if s == [] {
      assert UpperAscii(s) == [];
    } else if s[0] <= ' ' {
      var u := UpperAscii(s);
      assert u[0] == s[0];
      assert u[1..] == UpperAscii(s[1..]);
      assert TrimStart(u) == TrimStart(u[1..]);
      UpperTrimStart(s[1..]);
    } else {
      var u := UpperAscii(s);
      assert u[0] > ' ';
      assert TrimStart(u) == u;
    }
  }

  /** Likewise for trimming the end. */
  lemma {:induction false} UpperTrimEnd(s: string)
    ensures UpperAscii(TrimEnd(s)) == TrimEnd(UpperAscii(s))
    decreases |s|
  {
    if s != [] && s[|s| - 1] <= ' ' {
      assert UpperAscii(s)[..|s| - 1] == UpperAscii(s[..|s| - 1]);
      UpperTrimEnd(s[..|s| - 1]);
    }
  }

  /** The lookup ignores case: two signatures that upper-case alike ("rgb " and "RGB ") give the same result. */
  lemma GetIgnoresCase(v: int, w: int)
    requires UpperAscii(SignatureString(v)) == UpperAscii(SignatureString(w))
    ensures Get(v) == Get(w)
  {
    UpperTrimStart(SignatureString(v));
    UpperTrimEnd(TrimStart(SignatureString(v)));
    UpperTrimStart(SignatureString(w));
    UpperTrimEnd(TrimStart(SignatureString(w)));
  }

  /** A leading or a trailing space trims away alike. */
  lemma TrimPadding(a: char, b: char, c: char)
    requires ' ' < a && ' ' < b && ' ' < c && a as int < 256 && b as int < 256 && c as int < 256
    ensures Trim(SignatureString(' ' as int * 0x100_0000 + a as int * 0x1_0000 + b as int * 0x100 + c as int))
         == [a, b, c]
    ensures Trim(SignatureString(a as int * 0x100_0000 + b as int * 0x1_0000 + c as int * 0x100 + ' ' as int))
         == [a, b, c]
  {
    SignatureOf(' ' as int * 0x100_0000 + a as int * 0x1_0000 + b as int * 0x100 + c as int, ' ', a, b, c);
    SignatureOf(a as int * 0x100_0000 + b as int * 0x1_0000 + c as int * 0x100 + ' ' as int, a, b, c, ' ');
    assert [' ', a, b, c][1..] == [a, b, c];
    assert [a, b, c, ' '][..3] == [a, b, c];
    assert TrimStart([a, b, c]) == [a, b, c] == TrimEnd([a, b, c]);
    assert TrimStart([' ', a, b, c]) == [a, b, c];
    assert TrimEnd([a, b, c, ' ']) == [a, b, c];
  }

  /** The lookup ignores surrounding spaces: " RGB" gives the same result as "RGB ". */
  lemma GetIgnoresPadding(a: char, b: char, c: char)
    requires ' ' < a && ' ' < b && ' ' < c && a as int < 256 && b as int < 256 && c as int < 256
    ensures Get(' ' as int * 0x100_0000 + a as int * 0x1_0000 + b as int * 0x100 + c as int) ==
            Get(a as int * 0x100_0000 + b as int * 0x1_0000 + c as int * 0x100 + ' ' as int)
  {
    TrimPadding(a, b, c);
  }
}
