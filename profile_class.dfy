/** The profile/device class field of the profile header (section 7.2.5 of ICC.1:2010). */
module ProfileClasses {
  import opened Wrappers
  import opened JavaNum
  import opened SignatureUtils

  /** The seven profile classes, in declaration order. */
  datatype ProfileClass =
    | InputDeviceProfile | DisplayDeviceProfile | OutputDeviceProfile | DeviceLinkProfile
    | ColorSpaceConversionProfile | AbstractProfile | NamedColourProfile

  /** The 32-bit value each class is declared with. */
  function Value(pc: ProfileClass): int
  {
    match pc
    case InputDeviceProfile => 0x73636E72
    case DisplayDeviceProfile => 0x6D6E7472
    case OutputDeviceProfile => 0x70727472
    case DeviceLinkProfile => 0x6C696E6B
    case ColorSpaceConversionProfile => 0x73706163
    case AbstractProfile => 0x61627374
    case NamedColourProfile => 0x6E6D636C
  }

  /** The four-character signature each class is declared with. */
  function Signature(pc: ProfileClass): string
  {
    match pc
    case InputDeviceProfile => "scnr"
    case DisplayDeviceProfile => "mntr"
    case OutputDeviceProfile => "prtr"
    case DeviceLinkProfile => "link"
    case ColorSpaceConversionProfile => "spac"
    case AbstractProfile => "abst"
    case NamedColourProfile => "nmcl"
  }

  /** `values()`. */
  const AllClasses: seq<ProfileClass> :=
    [InputDeviceProfile, DisplayDeviceProfile, OutputDeviceProfile, DeviceLinkProfile,
     ColorSpaceConversionProfile, AbstractProfile, NamedColourProfile]

  /** The constructor's check: each declared value encodes its declared signature, so no constant throws. */
  lemma ConstructorCheck(pc: ProfileClass)
    ensures SignatureString(Value(pc)) == Signature(pc)
  {
    match pc
    case InputDeviceProfile => SignatureOf(0x73636E72, 's', 'c', 'n', 'r');
    case DisplayDeviceProfile => SignatureOf(0x6D6E7472, 'm', 'n', 't', 'r');
    case OutputDeviceProfile => SignatureOf(0x70727472, 'p', 'r', 't', 'r');
    case DeviceLinkProfile => SignatureOf(0x6C696E6B, 'l', 'i', 'n', 'k');
    case ColorSpaceConversionProfile => SignatureOf(0x73706163, 's', 'p', 'a', 'c');
    case AbstractProfile => SignatureOf(0x61627374, 'a', 'b', 's', 't');
    case NamedColourProfile => SignatureOf(0x6E6D636C, 'n', 'm', 'c', 'l');
  }

  /** The map obtained by putting each class of `classes` under its signature, in order. */
  function MapOf(classes: seq<ProfileClass>): map<string, ProfileClass>
  {
    if classes == [] then map[]
    else MapOf(classes[..|classes| - 1])[Signature(classes[|classes| - 1]) := classes[|classes| - 1]]
  }

  /** Extending the prefix by one class adds that class under its signature. */
  lemma MapOfPrefix(classes: seq<ProfileClass>, i: nat)
    requires i < |classes|
    ensures MapOf(classes[..i + 1]) == MapOf(classes[..i])[Signature(classes[i]) := classes[i]]
  {
    assert classes[..i + 1][..i] == classes[..i];
  }

  /** The map the static initialiser builds. */
  function SignatureMap(): map<string, ProfileClass>
  {
    MapOf(AllClasses)
  }

  /** The map the static initialiser builds, written out. */
  lemma SignatureMapContents()
    ensures SignatureMap() == map["scnr" := InputDeviceProfile, "mntr" := DisplayDeviceProfile,
      "prtr" := OutputDeviceProfile, "link" := DeviceLinkProfile, "spac" := ColorSpaceConversionProfile,
      "abst" := AbstractProfile, "nmcl" := NamedColourProfile]
  {
    var c := AllClasses;
    MapOfPrefix(c, 0);
    MapOfPrefix(c, 1);
    MapOfPrefix(c, 2);
    MapOfPrefix(c, 3);
    MapOfPrefix(c, 4);
    MapOfPrefix(c, 5);
    MapOfPrefix(c, 6);
    assert c[..7] == c;
    assert c[..0] == [];
  }

  /** The seven signatures are distinct: the map holds seven entries. */
  lemma SignatureMapSize()
    ensures |SignatureMap()| == 7
  {
    SignatureMapContents();
    assert SignatureMap().Keys == {"scnr", "mntr", "prtr", "link", "spac", "abst", "nmcl"};
  }

  /** Each class is stored under its own signature, and each key holds the class with that signature. */
  lemma SignatureMapEntries()
    ensures forall pc :: Signature(pc) in SignatureMap() && SignatureMap()[Signature(pc)] == pc
    ensures forall key :: key in SignatureMap() ==> Signature(SignatureMap()[key]) == key
  {
    SignatureMapContents();
  }

  /** The static initialiser: puts every class under its signature, in declaration order. */
  method BuildMap() returns (m: map<string, ProfileClass>)
    ensures m == SignatureMap()
  {
    m := map[];
    for i := 0 to |AllClasses|
      invariant m == MapOf(AllClasses[..i])
    {
      m := m[Signature(AllClasses[i]) := AllClasses[i]];
      MapOfPrefix(AllClasses, i);
    }
    assert AllClasses[..|AllClasses|] == AllClasses;
  }

  /** `get(long)`: the class stored under `toString(signature)`, or null. */
  function Get(signature: int): (r: Option<ProfileClass>)
    ensures r.Some? ==> Signature(r.value) == SignatureString(signature)
  {
    var key := SignatureString(signature);
    SignatureMapEntries();
    if key in SignatureMap() then Some(SignatureMap()[key]) else None
  }

  /** Every class is found from its own value. */
  lemma GetValue(pc: ProfileClass)
    ensures Get(Value(pc)) == Some(pc)
  {
    ConstructorCheck(pc);
    SignatureMapEntries();
  }

  /** get finds a class exactly when the low 32 bits of the signature are that class's value. */
  lemma GetIffValue(signature: int, pc: ProfileClass)
    ensures Get(signature) == Some(pc) <==> U32(signature) == Value(pc)
  {
    ConstructorCheck(pc);
    if Get(signature) == Some(pc) {
      assert SignatureString(signature) == SignatureString(Value(pc));
      ToStringToLong(signature);
      ToStringToLong(Value(pc));
      assert U32(Value(pc)) == Value(pc);
    }
    if U32(signature) == Value(pc) {
      ToStringLow32(signature);
      GetValue(pc);
    }
  }
}
