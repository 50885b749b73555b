/**
 * `parse_metadata` and `_extract_value` of the factor-conversion parser: the
 * metadata block, the Image / Lens / Shooting sections, and the fields of the
 * catalogue, with the IEEE 754 fields marked by a `*` on their key.
 */
module ConversionParser {
  import opened Optional
  import opened Text
  import opened Patterns
  import opened Catalogue

  /** `_extract_value`: a leaf value `<tag ...>text</tag>` (or `text` of a `<subtag ...>`
      inside `<tag ...>`), optionally looked up inside the first `<search_in ...>`
      block only; the value is whitespace-stripped and never holds markup. */
  function ExtractValue(data: string, tag: string, subtag: Option<string>, searchIn: Option<string>): (r: Option<string>)
    ensures r.Some? ==> forall j :: 0 <= j < |r.value| ==> r.value[j] != '<'
    ensures r.Some? && r.value != [] ==> !IsSpace(r.value[0]) && !IsSpace(r.value[|r.value| - 1])
    ensures Given(searchIn) && !HasBlock(data, searchIn.value) ==> r.None?
    ensures !Given(searchIn) && !Given(subtag) ==>
      (r.Some? <==> exists i, lo, hi :: LeafAt(data, tag, i, lo, hi))
    ensures !Given(searchIn) && Given(subtag) ==>
      (r.Some? <==> exists i, p, lo, hi :: NestedLeafAt(data, tag, subtag.value, i, p, lo, hi))
  {
    match Scope(data, searchIn)
    case None => None
    case Some(region) =>
      if Given(subtag) then
        match FindNestedLeaf(region, tag, subtag.value)
        case None => None
        case Some(m) => Some(StripLeaf(region, m.lo, m.hi))
      else
        match FindLeafFrom(region, tag, 0)
        case None => None
        case Some(m) => Some(StripLeaf(region, m.lo, m.hi))
  }

  /** `.strip()` of a `[^<]*` capture: still free of `<`. */
  function StripLeaf(s: string, lo: nat, hi: nat): (r: string)
    requires lo <= hi <= |s|
    requires forall j :: lo <= j < hi ==> s[j] != '<'
    ensures r == Strip(s[lo..hi])
    ensures forall j :: 0 <= j < |r| ==> r[j] != '<'
  {
    LtFreeSlice(s, lo, hi);
    Strip(s[lo..hi])
  }

  lemma LtFreeSlice(s: string, lo: nat, hi: nat)
    requires lo <= hi <= |s|
    requires forall j :: lo <= j < hi ==> s[j] != '<'
    ensures '<' !in s[lo..hi]
  {
  }

  /** The inner `extract_and_mark`: the key is the tag, with `*` appended when the
      stored value is the bit pattern of an IEEE 754 double. */
  function ExtractAndMark(data: string, tag: string, subtag: Option<string>, searchIn: Option<string>,
                          isDouble: bool): (kv: (string, Option<string>))
    ensures isDouble ==> EndsWithStar(kv.0) && kv.0[..|kv.0| - 1] == tag
    ensures !isDouble ==> kv.0 == tag
    ensures kv.1 == ExtractValue(data, tag, subtag, searchIn)
  {
    var key := if isDouble then tag + "*" else tag;
    (key, ExtractValue(data, tag, subtag, searchIn))
  }

  // ---------------------------------------------------------------------------
  // The catalogue, in the order `parse_metadata` assigns the keys.

  const ImageFields: seq<Field> := [
    Value("Comment", "Comment", None, None),
    Value("OriginalImageSize_Width", "OriginalImageSize", Some("Width"), None),
    Value("OriginalImageSize_Height", "OriginalImageSize", Some("Height"), None),
    Value("SavingImageSize_Width", "SavingImageSize", Some("Width"), None),
    Value("SavingImageSize_Height", "SavingImageSize", Some("Height"), None),
    Value("DigitalZoom", "DigitalZoom", None, None),
    Marked("Calibration"),
    Marked("Focus"),
    Value("PatchNumber", "PatchNumber", None, None)
  ]

  const LensFields: seq<Field> := [
    Value("LensName", "LensName", None, None),
    Value("Magnification", "Magnification", None, None),
    Marked("NumericalAperture"),
    Marked("WorkingDistance"),
    Value("LiquidImmersion", "LiquidImmersion", None, None),
    Value("RevolverPosition", "RevolverPosition", None, None)
  ]

  const ShootingFields: seq<Field> := [
    Value("StageLocationX", "StageLocationX", None, None),
    Value("StageLocationY", "StageLocationY", None, None),
    Value("StageLocationZ", "StageLocationZ", None, None),
    Value("Channel", "Channel", None, None),
    Value("Observation", "Observation", None, None),
    Value("PseudoColor", "PseudoColor", None, Some("Parameter")),
    Value("Binning", "Binnin", None, Some("Parameter")),
    Value("ExposureTime_Numerator", "ExposureTime", Some("Numerator"), None),
    Value("ExposureTime_Denominator", "ExposureTime", Some("Denominator"), None),
    Value("PixelMode", "PixelMode", None, Some("Parameter")),
    Value("CameraGain", "CameraGain", None, Some("Parameter")),
    Value("CameraHardwareGain", "CameraHardwareGain", None, Some("Parameter"))
  ]

  /** The keys each section writes, as `parse_metadata` spells them out. */
  const ImageKeys: seq<string> := [
    "Comment", "OriginalImageSize_Width", "OriginalImageSize_Height", "SavingImageSize_Width",
    "SavingImageSize_Height", "DigitalZoom", "Calibration*", "Focus*", "PatchNumber"]
  const LensKeys: seq<string> := [
    "LensName", "Magnification", "NumericalAperture*", "WorkingDistance*", "LiquidImmersion",
    "RevolverPosition"]
  const ShootingKeys: seq<string> := [
    "StageLocationX", "StageLocationY", "StageLocationZ", "Channel", "Observation", "PseudoColor",
    "Binning", "ExposureTime_Numerator", "ExposureTime_Denominator", "PixelMode", "CameraGain",
    "CameraHardwareGain"]

  /** The only keys whose values are IEEE 754 bit patterns. */
  const StarKeys: seq<string> := ["Calibration*", "Focus*", "NumericalAperture*", "WorkingDistance*"]

  /** One catalogue line applied to a section body. */
  function Entry(body: string, f: Field): (string, Option<string>)
  {
    match f
    case Value(key, tag, subtag, searchIn) => (key, ExtractValue(body, tag, subtag, searchIn))
    case Marked(tag) => ExtractAndMark(body, tag, None, None, true)
  }

  function Entries(body: string, fields: seq<Field>): (m: Metadata)
    ensures |m| == |fields|
    ensures forall j :: 0 <= j < |fields| ==> m[j] == Entry(body, fields[j])
  {
    if fields == [] then [] else [Entry(body, fields[0])] + Entries(body, fields[1..])
  }

  /** A section's share of the result: its catalogue lines when its block is present. */
  function Section(data: string, name: string, fields: seq<Field>): Metadata
  {
    match BlockBody(data, name)
    case None => []
    case Some(body) => Entries(body, fields)
  }

  /** The catalogue view of `parse_metadata`: every section in turn. */
  function Assemble(content: string): Metadata
  {
    match DataBody(content)
    case None => []
    case Some(data) =>
      Section(data, "Image", ImageFields) + Section(data, "Lens", LensFields)
        + Section(data, "Shooting", ShootingFields)
  }

  /** `parse_metadata`: fills the dict one assignment at a time, section by section. */
  method ParseMetadata(content: string) returns (metadata: Metadata)
    ensures metadata == Assemble(content)
  {
    var dataStr := DataBody(content);
    if dataStr.None? {
      return [];
    }
    ghost var data := dataStr.value;
    metadata := [];
    var imageData := BlockBody(dataStr.value, "Image");
    if imageData.Some? {
      metadata := AssignImage(metadata, imageData.value);
    }
    ghost var image := Section(data, "Image", ImageFields);
    assert metadata == image;
    var lensData := BlockBody(dataStr.value, "Lens");
    if lensData.Some? {
      metadata := AssignLens(metadata, lensData.value);
    } else {
      AppendNothing(metadata);
    }
    ghost var lens := Section(data, "Lens", LensFields);
    assert metadata == image + lens;
    var shootingData := BlockBody(dataStr.value, "Shooting");
    if shootingData.Some? {
      metadata := AssignShooting(metadata, shootingData.value);
    } else {
      AppendNothing(metadata);
    }
    assert metadata == image + lens + Section(data, "Shooting", ShootingFields);
  }

  /** The `--- Image Section ---` assignments. */
  method AssignImage(before: Metadata, data: string) returns (metadata: Metadata)
    ensures metadata == before + Entries(data, ImageFields)
  {
    metadata := before;
    metadata := metadata + [("Comment", ExtractValue(data, "Comment", None, None))];
    metadata := metadata + [("OriginalImageSize_Width", ExtractValue(data, "OriginalImageSize", Some("Width"), None))];
    metadata := metadata + [("OriginalImageSize_Height", ExtractValue(data, "OriginalImageSize", Some("Height"), None))];
    metadata := metadata + [("SavingImageSize_Width", ExtractValue(data, "SavingImageSize", Some("Width"), None))];
    metadata := metadata + [("SavingImageSize_Height", ExtractValue(data, "SavingImageSize", Some("Height"), None))];
    metadata := metadata + [("DigitalZoom", ExtractValue(data, "DigitalZoom", None, None))];
    var kv := ExtractAndMark(data, "Calibration", None, None, true);
    metadata := metadata + [kv];
    kv := ExtractAndMark(data, "Focus", None, None, true);
    metadata := metadata + [kv];
    metadata := metadata + [("PatchNumber", ExtractValue(data, "PatchNumber", None, None))];
    ImageLiteral(before, data);
  }

  /** The `--- Lens Section ---` assignments. */
  method AssignLens(before: Metadata, data: string) returns (metadata: Metadata)
    ensures metadata == before + Entries(data, LensFields)
  {
    metadata := before;
    metadata := metadata + [("LensName", ExtractValue(data, "LensName", None, None))];
    metadata := metadata + [("Magnification", ExtractValue(data, "Magnification", None, None))];
    var kv := ExtractAndMark(data, "NumericalAperture", None, None, true);
    metadata := metadata + [kv];
    kv := ExtractAndMark(data, "WorkingDistance", None, None, true);
    metadata := metadata + [kv];
    metadata := metadata + [("LiquidImmersion", ExtractValue(data, "LiquidImmersion", None, None))];
    metadata := metadata + [("RevolverPosition", ExtractValue(data, "RevolverPosition", None, None))];
    LensLiteral(before, data);
  }

  /** The `--- Shooting Section ---` assignments; `Binning` is read from the tag `Binnin`. */
  method AssignShooting(before: Metadata, data: string) returns (metadata: Metadata)
    ensures metadata == before + Entries(data, ShootingFields)
  {
    metadata := before;
    metadata := metadata + [("StageLocationX", ExtractValue(data, "StageLocationX", None, None))];
    metadata := metadata + [("StageLocationY", ExtractValue(data, "StageLocationY", None, None))];
    metadata := metadata + [("StageLocationZ", ExtractValue(data, "StageLocationZ", None, None))];
    metadata := metadata + [("Channel", ExtractValue(data, "Channel", None, None))];
    metadata := metadata + [("Observation", ExtractValue(data, "Observation", None, None))];
    metadata := metadata + [("PseudoColor", ExtractValue(data, "PseudoColor", None, Some("Parameter")))];
    metadata := metadata + [("Binning", ExtractValue(data, "Binnin", None, Some("Parameter")))];
    metadata := metadata + [("ExposureTime_Numerator", ExtractValue(data, "ExposureTime", Some("Numerator"), None))];
    metadata := metadata + [("ExposureTime_Denominator", ExtractValue(data, "ExposureTime", Some("Denominator"), None))];
    metadata := metadata + [("PixelMode", ExtractValue(data, "PixelMode", None, Some("Parameter")))];
    metadata := metadata + [("CameraGain", ExtractValue(data, "CameraGain", None, Some("Parameter")))];
    metadata := metadata + [("CameraHardwareGain", ExtractValue(data, "CameraHardwareGain", None, Some("Parameter")))];
    ShootingLiteral(before, data);
  }

  lemma ImageLiteral(before: Metadata, data: string)
    ensures before + Entries(data, ImageFields) == before
      + [("Comment", ExtractValue(data, "Comment", None, None))]
      + [("OriginalImageSize_Width", ExtractValue(data, "OriginalImageSize", Some("Width"), None))]
      + [("OriginalImageSize_Height", ExtractValue(data, "OriginalImageSize", Some("Height"), None))]
      + [("SavingImageSize_Width", ExtractValue(data, "SavingImageSize", Some("Width"), None))]
      + [("SavingImageSize_Height", ExtractValue(data, "SavingImageSize", Some("Height"), None))]
      + [("DigitalZoom", ExtractValue(data, "DigitalZoom", None, None))]
      + [ExtractAndMark(data, "Calibration", None, None, true)]
      + [ExtractAndMark(data, "Focus", None, None, true)]
      + [("PatchNumber", ExtractValue(data, "PatchNumber", None, None))]
  {
    Appended9(before, Entries(data, ImageFields));
  }

  lemma LensLiteral(before: Metadata, data: string)
    ensures before + Entries(data, LensFields) == before
      + [("LensName", ExtractValue(data, "LensName", None, None))]
      + [("Magnification", ExtractValue(data, "Magnification", None, None))]
      + [ExtractAndMark(data, "NumericalAperture", None, None, true)]
      + [ExtractAndMark(data, "WorkingDistance", None, None, true)]
      + [("LiquidImmersion", ExtractValue(data, "LiquidImmersion", None, None))]
      + [("RevolverPosition", ExtractValue(data, "RevolverPosition", None, None))]
  {
    Appended6(before, Entries(data, LensFields));
  }

  lemma ShootingLiteral(before: Metadata, data: string)
    ensures before + Entries(data, ShootingFields) == before
      + [("StageLocationX", ExtractValue(data, "StageLocationX", None, None))]
      + [("StageLocationY", ExtractValue(data, "StageLocationY", None, None))]
      + [("StageLocationZ", ExtractValue(data, "StageLocationZ", None, None))]
      + [("Channel", ExtractValue(data, "Channel", None, None))]
      + [("Observation", ExtractValue(data, "Observation", None, None))]
      + [("PseudoColor", ExtractValue(data, "PseudoColor", None, Some("Parameter")))]
      + [("Binning", ExtractValue(data, "Binnin", None, Some("Parameter")))]
      + [("ExposureTime_Numerator", ExtractValue(data, "ExposureTime", Some("Numerator"), None))]
      + [("ExposureTime_Denominator", ExtractValue(data, "ExposureTime", Some("Denominator"), None))]
      + [("PixelMode", ExtractValue(data, "PixelMode", None, Some("Parameter")))]
      + [("CameraGain", ExtractValue(data, "CameraGain", None, Some("Parameter")))]
      + [("CameraHardwareGain", ExtractValue(data, "CameraHardwareGain", None, Some("Parameter")))]
  {
    Appended12(before, Entries(data, ShootingFields));
  }

  // ---------------------------------------------------------------------------
  // What `_extract_value` returns.

  /** A flat tag: the stripped capture of the leftmost `<tag ...>` whose text runs
      straight into `</tag>`. */
  lemma FlatValueIsFirstLeaf(data: string, tag: string, i: int, lo: int, hi: int)
    requires LeafAt(data, tag, i, lo, hi)
    requires forall i', lo', hi' :: i' < i ==> !LeafAt(data, tag, i', lo', hi')
    ensures ExtractValue(data, tag, None, None) == Some(Strip(data[lo..hi]))
  {
    var r := FindLeafFrom(data, tag, 0);
    assert r.Some?;
  }

  /** A subtag: the stripped capture of the first well-formed `<subtag ...>` leaf inside
      the first `<tag ...>` that a `</tag>` follows. */
  lemma NestedValueIsFirstLeaf(data: string, tag: string, sub: string, i: int, p: int, lo: int, hi: int)
    requires sub != ""
    requires NestedLeafAt(data, tag, sub, i, p, lo, hi)
    requires forall i', p', lo', hi' :: NestedLeafAt(data, tag, sub, i', p', lo', hi') ==>
      i < i' || (i == i' && p <= p')
    ensures ExtractValue(data, tag, Some(sub), None) == Some(Strip(data[lo..hi]))
  {
    var r := FindNestedLeaf(data, tag, sub);
    assert r.Some?;
  }

  /** With `search_in` given, only the body of the first container block is searched,
      and no container means no value. */
  lemma ScopedValue(data: string, tag: string, subtag: Option<string>, container: string)
    requires container != ""
    ensures ExtractValue(data, tag, subtag, Some(container)) ==
      match BlockBody(data, container)
      case None => None
      case Some(body) => ExtractValue(body, tag, subtag, None)
  {
  }

  /** `<Binning ...>` is not an opening tag `<Binnin `: the `g` is where the space must be. */
  lemma BinningIsNotBinnin(s: string, i: int)
    requires Occurs(s, "<Binning", i)
    ensures !Occurs(s, OpenOf("Binnin"), i)
  {
    assert s[i + 7] == "<Binning"[7];
  }

  /** No `<Binnin ` opening tag anywhere in a slice of a text whose `<Binnin` are all `<Binning`. */
  lemma NoBinninTagIn(data: string, lo: int, hi: int)
    requires 0 <= lo <= hi <= |data|
    requires forall i :: Occurs(data, "<Binnin", i) ==> Occurs(data, "<Binning", i)
    ensures forall i :: !Occurs(data[lo..hi], OpenOf("Binnin"), i)
  {
    forall i | Occurs(data[lo..hi], OpenOf("Binnin"), i)
      ensures false
    {
      OccursInSlice(data, lo, hi, OpenOf("Binnin"), i);
      assert data[lo + i..lo + i + 7] == data[lo + i..lo + i + 8][..7];
      BinningIsNotBinnin(data, lo + i);
    }
  }

  /** The `Binning` entry reads the tag `Binnin`: a section whose `Binnin`-prefixed tags
      are all spelled `<Binning` yields no Binning value. */
  lemma BinningNeedsBinninTag(data: string)
    requires forall i :: Occurs(data, "<Binnin", i) ==> Occurs(data, "<Binning", i)
    ensures ExtractValue(data, "Binnin", None, Some("Parameter")) == None
  {
    ScopedValue(data, "Binnin", None, "Parameter");
    var body := BlockBody(data, "Parameter");
    if body.Some? {
      var i0, lo, hi :| FirstBlock(data, "Parameter", i0, lo, hi) && body.value == data[lo..hi];
      NoBinninTagIn(data, lo, hi);
      assert forall i, l, h :: !LeafAt(body.value, "Binnin", i, l, h);
    }
  }

  // ---------------------------------------------------------------------------
  // The keys `parse_metadata` writes.

  /** The key a catalogue line writes. */
  function FieldKey(f: Field): string
  {
    match f
    case Value(key, _, _, _) => key
    case Marked(tag) => tag + "*"
  }

  function FieldKeys(fields: seq<Field>): (ks: seq<string>)
  {
    seq(|fields|, j requires 0 <= j < |fields| => FieldKey(fields[j]))
  }

  /** Whatever the section holds, its catalogue lines write their keys in order. */
  lemma EntriesKeys(body: string, fields: seq<Field>)
    ensures Keys(Entries(body, fields)) == FieldKeys(fields)
  {
  }

  lemma ImageKeysListed()
    ensures FieldKeys(ImageFields) == ImageKeys
  {
    assert FieldKeys(ImageFields)[0] == ImageKeys[0];
    assert FieldKeys(ImageFields)[1] == ImageKeys[1];
    assert FieldKeys(ImageFields)[2] == ImageKeys[2];
    assert FieldKeys(ImageFields)[3] == ImageKeys[3];
    assert FieldKeys(ImageFields)[4] == ImageKeys[4];
    assert FieldKeys(ImageFields)[5] == ImageKeys[5];
    assert FieldKeys(ImageFields)[6] == "Calibration" + "*" == ImageKeys[6];
    assert FieldKeys(ImageFields)[7] == "Focus" + "*" == ImageKeys[7];
    assert FieldKeys(ImageFields)[8] == ImageKeys[8];
  }

  lemma LensKeysListed()
    ensures FieldKeys(LensFields) == LensKeys
  {
    assert FieldKeys(LensFields)[0] == LensKeys[0];
    assert FieldKeys(LensFields)[1] == LensKeys[1];
    assert FieldKeys(LensFields)[2] == "NumericalAperture" + "*" == LensKeys[2];
    assert FieldKeys(LensFields)[3] == "WorkingDistance" + "*" == LensKeys[3];
    assert FieldKeys(LensFields)[4] == LensKeys[4];
    assert FieldKeys(LensFields)[5] == LensKeys[5];
  }

  lemma ShootingKeysListed()
    ensures FieldKeys(ShootingFields) == ShootingKeys
  {
    assert FieldKeys(ShootingFields)[0] == ShootingKeys[0];
    assert FieldKeys(ShootingFields)[1] == ShootingKeys[1];
    assert FieldKeys(ShootingFields)[2] == ShootingKeys[2];
    assert FieldKeys(ShootingFields)[3] == ShootingKeys[3];
    assert FieldKeys(ShootingFields)[4] == ShootingKeys[4];
    assert FieldKeys(ShootingFields)[5] == ShootingKeys[5];
    assert FieldKeys(ShootingFields)[6] == ShootingKeys[6];
    assert FieldKeys(ShootingFields)[7] == ShootingKeys[7];
    assert FieldKeys(ShootingFields)[8] == ShootingKeys[8];
    assert FieldKeys(ShootingFields)[9] == ShootingKeys[9];
    assert FieldKeys(ShootingFields)[10] == ShootingKeys[10];
    assert FieldKeys(ShootingFields)[11] == ShootingKeys[11];
  }

  /** A missing section writes no key; a present one writes all of its keys. */
  lemma SectionKeys(data: string, name: string, fields: seq<Field>)
    ensures Keys(Section(data, name, fields)) == KeysIf(HasBlock(data, name), FieldKeys(fields))
  {
    match BlockBody(data, name)
    case None =>
    case Some(body) => EntriesKeys(body, fields);
  }

  /** No `<Data>...</Data>` block: the result is empty. */
  lemma NoDataNoMetadata(content: string)
    requires !HasData(content)
    ensures Assemble(content) == []
  {
  }

  /** The keys of the result, section by section: 9 for Image, 6 for Lens, 12 for Shooting. */
  lemma AssembleKeys(content: string)
    requires HasData(content)
    ensures var data := DataBody(content).value;
      Keys(Assemble(content)) ==
        KeysIf(HasBlock(data, "Image"), ImageKeys) + KeysIf(HasBlock(data, "Lens"), LensKeys)
          + KeysIf(HasBlock(data, "Shooting"), ShootingKeys)
  {
    var data := DataBody(content).value;
    ImageKeysListed();
    LensKeysListed();
    ShootingKeysListed();
    SectionKeys(data, "Image", ImageFields);
    SectionKeys(data, "Lens", LensFields);
    SectionKeys(data, "Shooting", ShootingFields);
    KeysAppend(Section(data, "Image", ImageFields), Section(data, "Lens", LensFields));
    KeysAppend(Section(data, "Image", ImageFields) + Section(data, "Lens", LensFields),
      Section(data, "Shooting", ShootingFields));
  }

  lemma ImageKeysDistinct() ensures Distinct(ImageKeys) { }
  lemma LensKeysDistinct() ensures Distinct(LensKeys) { }
  lemma ShootingKeysDistinct() ensures Distinct(ShootingKeys) { }
  lemma ImageLensDisjoint() ensures Disjoint(ImageKeys, LensKeys) { }
  lemma ImageShootingDisjoint() ensures Disjoint(ImageKeys, ShootingKeys) { }
  lemma LensShootingDisjoint() ensures Disjoint(LensKeys, ShootingKeys) { }

  /** Keys are never written twice: the dict holds one entry per assignment. */
  lemma AssembleKeysDistinct(content: string)
    ensures Distinct(Keys(Assemble(content)))
  {
    if HasData(content) {
      var data := DataBody(content).value;
      AssembleKeys(content);
      ImageKeysDistinct();
      LensKeysDistinct();
      ShootingKeysDistinct();
      ImageLensDisjoint();
      ImageShootingDisjoint();
      LensShootingDisjoint();
      var image := KeysIf(HasBlock(data, "Image"), ImageKeys);
      var lens := KeysIf(HasBlock(data, "Lens"), LensKeys);
      var shooting := KeysIf(HasBlock(data, "Shooting"), ShootingKeys);
      DistinctConcat(image, lens);
      DisjointConcat(image, lens, shooting);
      DistinctConcat(image + lens, shooting);
    }
  }

  /** The four IEEE 754 fields are the only starred keys of the catalogue. */
  lemma CatalogueStars()
    ensures forall k :: k in ImageKeys + LensKeys + ShootingKeys ==> (EndsWithStar(k) <==> k in StarKeys)
    ensures forall k :: k in StarKeys ==> k in ImageKeys + LensKeys + ShootingKeys
  {
  }

  /** A key of the result ends in `*` exactly when it is one of the four IEEE 754 keys,
      and with every section present all four are there. */
  lemma AssembleStars(content: string)
    ensures forall k :: k in Keys(Assemble(content)) ==> (EndsWithStar(k) <==> k in StarKeys)
    ensures (HasData(content) && HasBlock(DataBody(content).value, "Image")
             && HasBlock(DataBody(content).value, "Lens")) ==>
      forall k :: k in StarKeys ==> k in Keys(Assemble(content))
  {
    CatalogueStars();
    if HasData(content) {
      AssembleKeys(content);
    }
  }
}
