/**
 * The older `parse_metadata.py`: the same metadata block and sections, a
 * shorter catalogue, no `*` marking, and a laxer `_extract_value` whose capture
 * is the lazy `(.*?)` up to the first closing tag, kept as it is (not stripped,
 * markup included).
 */
module PlainParser {
  import opened Optional
  import opened Text
  import opened Patterns
  import opened Catalogue

  /** `_extract_value`: the untrimmed body of the first `<tag ...>` block (or of the first
      `<subtag ...>` block inside `<tag ...>`), optionally inside the first `<search_in ...>`
      block only. */
  function ExtractValue(data: string, tag: string, subtag: Option<string>, searchIn: Option<string>): (r: Option<string>)
    ensures Given(searchIn) && !HasBlock(data, searchIn.value) ==> r.None?
    ensures !Given(searchIn) && !Given(subtag) ==> r == BlockBody(data, tag)
    ensures !Given(searchIn) && Given(subtag) ==>
      (r.Some? <==> exists i, p, lo, hi :: NestedBlockAt(data, tag, subtag.value, i, p, lo, hi))
  {
    match Scope(data, searchIn)
    case None => None
    case Some(region) =>
      if Given(subtag) then
        match FindNestedBlock(region, tag, subtag.value)
        case None => None
        case Some(m) => Some(region[m.lo..m.hi])
      else
        match FindBlockFrom(region, tag, 0)
        case None => None
        case Some(m) => Some(region[m.lo..m.hi])
  }

  // ---------------------------------------------------------------------------
  // The catalogue, in the order `parse_metadata` assigns the keys.

  /** Every line of this catalogue is a plain assignment; nothing is marked. */
  type PlainField = f: Field | f.Value? witness Value("", "", None, None)

  const ImageFields: seq<PlainField> := [
    Value("Comment", "Comment", None, None),
    Value("OriginalImageSize_Width", "OriginalImageSize", Some("Width"), None),
    Value("OriginalImageSize_Height", "OriginalImageSize", Some("Height"), None),
    Value("DigitalZoom", "DigitalZoom", None, None),
    Value("Calibration", "Calibration", None, None)
  ]

  const LensFields: seq<PlainField> := [
    Value("LensName", "LensName", None, None),
    Value("Magnification", "Magnification", None, None),
    Value("NumericalAperture", "NumericalAperture", None, None),
    Value("WorkingDistance", "WorkingDistance", None, None)
  ]

  const ShootingFields: seq<PlainField> := [
    Value("StageLocationX", "StageLocationX", None, None),
    Value("StageLocationY", "StageLocationY", None, None),
    Value("StageLocationZ", "StageLocationZ", None, None),
    Value("Channel", "Channel", None, None),
    Value("Observation", "Observation", None, None)
  ]

  const ImageKeys: seq<string> :=
    ["Comment", "OriginalImageSize_Width", "OriginalImageSize_Height", "DigitalZoom", "Calibration"]
  const LensKeys: seq<string> := ["LensName", "Magnification", "NumericalAperture", "WorkingDistance"]
  const ShootingKeys: seq<string> :=
    ["StageLocationX", "StageLocationY", "StageLocationZ", "Channel", "Observation"]

  function Entry(body: string, f: PlainField): (string, Option<string>)
  {
    (f.key, ExtractValue(body, f.tag, f.subtag, f.searchIn))
  }

  function Entries(body: string, fields: seq<PlainField>): (m: Metadata)
    ensures |m| == |fields|
    ensures forall j :: 0 <= j < |fields| ==> m[j] == Entry(body, fields[j])
  {
    if fields == [] then [] else [Entry(body, fields[0])] + Entries(body, fields[1..])
  }

  /** A section's share of the result: its catalogue lines when its block is present. */
  function Section(data: string, name: string, fields: seq<PlainField>): Metadata
  {
    match BlockBody(data, name)
    case None => []
    case Some(body) => Entries(body, fields)
  }

  /** The catalogue view of `parse_metadata`: every section in turn. */
  function Assemble(content: string): Metadata
  {
    match DataBody(content)
    case None => []
    case Some(data) =>
      Section(data, "Image", ImageFields) + Section(data, "Lens", LensFields)
        + Section(data, "Shooting", ShootingFields)
  }

  /** `parse_metadata` after the file has been read: fills the dict one assignment at a
      time, section by section. */
  method ParseMetadata(content: string) returns (metadata: Metadata)
    ensures metadata == Assemble(content)
  {
    var dataStr := DataBody(content);
    if dataStr.None? {
      return [];
    }
    ghost var data := dataStr.value;
    metadata := [];
    var imageData := BlockBody(dataStr.value, "Image");
    if imageData.Some? {
      metadata := AssignImage(metadata, imageData.value);
    }
    ghost var image := Section(data, "Image", ImageFields);
    assert metadata == image;
    var lensData := BlockBody(dataStr.value, "Lens");
    if lensData.Some? {
      metadata := AssignLens(metadata, lensData.value);
    } else {
      AppendNothing(metadata);
    }
    ghost var lens := Section(data, "Lens", LensFields);
    assert metadata == image + lens;
    var shootingData := BlockBody(dataStr.value, "Shooting");
    if shootingData.Some? {
      metadata := AssignShooting(metadata, shootingData.value);
    } else {
      AppendNothing(metadata);
    }
    assert metadata == image + lens + Section(data, "Shooting", ShootingFields);
  }

  /** The `--- Image Section ---` assignments. */
  method AssignImage(before: Metadata, data: string) returns (metadata: Metadata)
    ensures metadata == before + Entries(data, ImageFields)
  {
    metadata := before;
    metadata := metadata + [("Comment", ExtractValue(data, "Comment", None, None))];
    metadata := metadata + [("OriginalImageSize_Width", ExtractValue(data, "OriginalImageSize", Some("Width"), None))];
    metadata := metadata + [("OriginalImageSize_Height", ExtractValue(data, "OriginalImageSize", Some("Height"), None))];
    metadata := metadata + [("DigitalZoom", ExtractValue(data, "DigitalZoom", None, None))];
    metadata := metadata + [("Calibration", ExtractValue(data, "Calibration", None, None))];
    Appended5(before, Entries(data, ImageFields));
  }

  /** The `--- Lens Section ---` assignments. */
  method AssignLens(before: Metadata, data: string) returns (metadata: Metadata)
    ensures metadata == before + Entries(data, LensFields)
  {
    metadata := before;
    metadata := metadata + [("LensName", ExtractValue(data, "LensName", None, None))];
    metadata := metadata + [("Magnification", ExtractValue(data, "Magnification", None, None))];
    metadata := metadata + [("NumericalAperture", ExtractValue(data, "NumericalAperture", None, None))];
    metadata := metadata + [("WorkingDistance", ExtractValue(data, "WorkingDistance", None, None))];
    Appended4(before, Entries(data, LensFields));
  }

  /** The `--- Shooting Section ---` assignments. */
  method AssignShooting(before: Metadata, data: string) returns (metadata: Metadata)
    ensures metadata == before + Entries(data, ShootingFields)
  {
    metadata := before;
    metadata := metadata + [("StageLocationX", ExtractValue(data, "StageLocationX", None, None))];
    metadata := metadata + [("StageLocationY", ExtractValue(data, "StageLocationY", None, None))];
    metadata := metadata + [("StageLocationZ", ExtractValue(data, "StageLocationZ", None, None))];
    metadata := metadata + [("Channel", ExtractValue(data, "Channel", None, None))];
    metadata := metadata + [("Observation", ExtractValue(data, "Observation", None, None))];
    Appended5(before, Entries(data, ShootingFields));
  }

  // ---------------------------------------------------------------------------
  // What `_extract_value` returns.

  /** A flat tag: the text from the `>` of the first `<tag ` up to the first `</tag>` after
      it, exactly as it stands. */
  lemma FlatValueIsFirstBlock(data: string, tag: string, i: int, lo: int, hi: int)
    requires BlockAt(data, tag, i, lo, hi)
    requires forall j :: 0 <= j < i ==> !Occurs(data, OpenOf(tag), j)
    requires forall j :: lo <= j < hi ==> !Occurs(data, CloseOf(tag), j)
    ensures ExtractValue(data, tag, None, None) == Some(data[lo..hi])
  {
    var r := FindBlockFrom(data, tag, 0);
    assert r.Some?;
    var m := r.value;
    assert Occurs(data, OpenOf(tag), m.start);
    assert i <= m.start;
    assert Occurs(data, CloseOf(tag), m.hi);
    assert hi <= m.hi;
  }

  /** A subtag: the untrimmed lazy body of the first `<subtag ...>` block inside the first
      `<tag ...>` that a `</tag>` follows. */
  lemma NestedValueIsFirstBlock(data: string, tag: string, sub: string, i: int, p: int, lo: int, hi: int)
    requires sub != ""
    requires NestedBlockAt(data, tag, sub, i, p, lo, hi)
    requires forall i', p', lo', hi' :: NestedBlockAt(data, tag, sub, i', p', lo', hi') ==>
      i < i' || (i == i' && (p < p' || (p == p' && hi <= hi')))
    ensures ExtractValue(data, tag, Some(sub), None) == Some(data[lo..hi])
  {
    var r := FindNestedBlock(data, tag, sub);
    assert r.Some?;
    var m := r.value;
    assert NestedBlockAt(data, tag, sub, m.start, m.inner, m.lo, m.hi);
    assert m.start == i && m.inner == p && m.lo == lo && m.hi == hi;
  }

  /** Unlike the factor-conversion parser, the capture keeps markup: `<A x><b>1</b></A>`
      gives `<b>1</b>` for the tag `A`. */
  lemma ValueMayHoldMarkup(s: string)
    requires s == "<A x><b>1</b></A>"
    ensures ExtractValue(s, "A", None, None) == Some("<b>1</b>")
  {
    assert s[0..3] == OpenOf("A");
    assert s[13..17] == CloseOf("A");
    assert OpenTagAt(s, "A", 0, 4);
    forall j | 5 <= j < 13
      ensures !Occurs(s, CloseOf("A"), j)
    {
      assert s[j + 2] != 'A';
      assert s[j..j + 4][2] == s[j + 2];
    }
    FlatValueIsFirstBlock(s, "A", 0, 5, 13);
    assert s[5..13] == "<b>1</b>";
  }

  // ---------------------------------------------------------------------------
  // The keys `parse_metadata` writes.

  function FieldKeys(fields: seq<PlainField>): (ks: seq<string>)
  {
    seq(|fields|, j requires 0 <= j < |fields| => fields[j].key)
  }

  lemma EntriesKeys(body: string, fields: seq<PlainField>)
    ensures Keys(Entries(body, fields)) == FieldKeys(fields)
  {
  }

  lemma CatalogueKeys()
    ensures FieldKeys(ImageFields) == ImageKeys
    ensures FieldKeys(LensFields) == LensKeys
    ensures FieldKeys(ShootingFields) == ShootingKeys
  {
  }

  lemma SectionKeys(data: string, name: string, fields: seq<PlainField>)
    ensures Keys(Section(data, name, fields)) == KeysIf(HasBlock(data, name), FieldKeys(fields))
  {
    match BlockBody(data, name)
    case None =>
    case Some(body) => EntriesKeys(body, fields);
  }

  /** No `<Data>...</Data>` block: the result is empty. */
  lemma NoDataNoMetadata(content: string)
    requires !HasData(content)
    ensures Assemble(content) == []
  {
  }

  /** The keys of the result, section by section: 5 for Image, 4 for Lens, 5 for Shooting. */
  lemma AssembleKeys(content: string)
    requires HasData(content)
    ensures var data := DataBody(content).value;
      Keys(Assemble(content)) ==
        KeysIf(HasBlock(data, "Image"), ImageKeys) + KeysIf(HasBlock(data, "Lens"), LensKeys)
          + KeysIf(HasBlock(data, "Shooting"), ShootingKeys)
  {
    var data := DataBody(content).value;
    CatalogueKeys();
    SectionKeys(data, "Image", ImageFields);
    SectionKeys(data, "Lens", LensFields);
    SectionKeys(data, "Shooting", ShootingFields);
    KeysAppend(Section(data, "Image", ImageFields), Section(data, "Lens", LensFields));
    KeysAppend(Section(data, "Image", ImageFields) + Section(data, "Lens", LensFields),
      Section(data, "Shooting", ShootingFields));
  }

  lemma CatalogueKeysDistinct()
    ensures Distinct(ImageKeys) && Distinct(LensKeys) && Distinct(ShootingKeys)
    ensures Disjoint(ImageKeys, LensKeys) && Disjoint(ImageKeys, ShootingKeys)
    ensures Disjoint(LensKeys, ShootingKeys)
  {
  }

  /** Keys are never written twice. */
  lemma AssembleKeysDistinct(content: string)
    ensures Distinct(Keys(Assemble(content)))
  {
    if HasData(content) {
      var data := DataBody(content).value;
      AssembleKeys(content);
      CatalogueKeysDistinct();
      var image := KeysIf(HasBlock(data, "Image"), ImageKeys);
      var lens := KeysIf(HasBlock(data, "Lens"), LensKeys);
      var shooting := KeysIf(HasBlock(data, "Shooting"), ShootingKeys);
      DistinctConcat(image, lens);
      DisjointConcat(image, lens, shooting);
      DistinctConcat(image + lens, shooting);
    }
  }

  /** Nothing is marked: no key of the result ends in `*`. */
  lemma NoStarKeys(content: string)
    ensures forall k :: k in Keys(Assemble(content)) ==> !EndsWithStar(k)
  {
    assert forall k :: k in ImageKeys + LensKeys + ShootingKeys ==> !EndsWithStar(k);
    if HasData(content) {
      AssembleKeys(content);
    }
  }

  /** The IEEE 754 fields are stored as the raw captured text, under their bare tag names. */
  lemma FloatFieldsStayRaw(body: string)
    ensures Entries(body, ImageFields)[4] == ("Calibration", BlockBody(body, "Calibration"))
    ensures Entries(body, LensFields)[2] == ("NumericalAperture", BlockBody(body, "NumericalAperture"))
    ensures Entries(body, LensFields)[3] == ("WorkingDistance", BlockBody(body, "WorkingDistance"))
  {
  }
}
