# Keyence metadata parser, modelled in Dafny

Keyence microscopes write their acquisition settings into a TIFF file as
XML-like text. The repository's two scripts find that text's `<Data>...</Data>`
block and, inside it, the `Image`, `Lens` and `Shooting` sections. They read a
fixed catalogue of fields from those sections into a dict of name → value-or-None.

- `parse_metadata_with_factor_conversion.py` strips every value and refuses
  captures that contain markup. It marks the four IEEE 754 fields with a `*` on
  their key. Its `format_metadata` decodes those fields and renders a table or a dict.
- `parse_metadata.py` is the older script. It has a shorter catalogue and no
  marking, and it keeps the lazy capture `(.*?)` exactly as found.

The model works on text that is already in memory (`string` = `seq<char>`). It has these parts:

- `Patterns` states each regular-expression shape (`<Data>(.*?)</Data>`,
  `<Name [^>]*>(.*?)</Name>`, the leaf `<tag [^>]*>([^<]*)</tag>` and the two
  nested forms) as a predicate over positions. It proves that deterministic
  first-occurrence scanners return exactly the match Python's `re.search`
  returns: the leftmost start wins, and at that start the shortest lazy span wins.
- `Text` models substring search and Python's `str.strip()`, using the Unicode
  whitespace set that `str.isspace()` accepts.
- `Catalogue` holds what both scripts share: the dict as a sequence of
  (key, `Option<string>`) pairs in insertion order, the field descriptors, and the
  section/container narrowing.
- `ConversionParser` and `PlainParser` each hold one `_extract_value`. Each also has
  a `ParseMetadata` method that assigns the entries one by one, exactly as the script
  does. That method is proved equal to a catalogue-driven function `Assemble`, and the
  lemmas about keys, markers and values are stated over `Assemble`.
- `ConversionFormat` models `format_metadata` as a method with the script's two loops.
  The method is proved equal to a function `Format`, and lemmas state what filtering,
  decoding and rendering keep. The float work is passed in as a parameter `FloatOps`:
  `decode_double`, the division by 1000 and `%.6f`.

The model follows the code as written:

- Absent fields are stored with a `None` value; they are not left out of the dict.
- `search_in` narrows to the first container block.
- `format_metadata` keeps insertion order; there is no timestamp field.
- The `Binning` entry is read from the tag `Binnin`, exactly as written. The pattern
  needs a space after the name, so a `<Binning ...>` element never fills it
  (`ConversionParser.BinningIsNotBinnin`, `ConversionParser.BinningNeedsBinninTag`).

## Model

| member | source | states |
|---|---|---|
| Text.Strip | parse_metadata_with_factor_conversion.py:92 | the result is the input with the maximal leading and trailing whitespace runs removed, has no whitespace at either end, and holds only characters of the input |
| Text.StripIdempotent | parse_metadata_with_factor_conversion.py:92 | stripping a stripped value changes nothing |
| Patterns.FindData | parse_metadata_with_factor_conversion.py:16-20 | the match of `<Data>(.*?)</Data>`: the leftmost `<Data>`, then the nearest `</Data>` after it; None exactly when no `<Data>` is followed by a `</Data>` |
| Patterns.BlockMonotone | parse_metadata_with_factor_conversion.py:32 | a later `<Name ` start never closes its block earlier, so only the first opening tag can give the match |
| Patterns.FindBlockFrom | parse_metadata_with_factor_conversion.py:32-34 | the match of `<Name [^>]*>(.*?)</Name>`: a block match, the leftmost start and shortest body among all matches, with no `</Name>` inside the capture; None exactly when no block matches |
| Patterns.LeafMonotone | parse_metadata_with_factor_conversion.py:89 | a later leaf start never captures a leaf that ends earlier |
| Patterns.FindLeafFrom | parse_metadata_with_factor_conversion.py:89-91 | the match of `<tag [^>]*>([^<]*)</tag>`: the leftmost start whose markup-free text runs straight into `</tag>`, unique at that start; None exactly when no start matches |
| Patterns.FindNestedLeaf | parse_metadata_with_factor_conversion.py:86-87 | the match of the nested leaf pattern: a nested match, minimal in (outer start, inner start); None exactly when there is none |
| Patterns.FindNestedBlock | parse_metadata.py:71-72 | the match of the lazy nested pattern: a nested match, minimal in (outer start, inner start, end); None exactly when there is none |
| Catalogue.DataBody | parse_metadata_with_factor_conversion.py:16-20 | the body of the first `<Data>...</Data>`; None exactly when there is no such block |
| Catalogue.BlockBody | parse_metadata_with_factor_conversion.py:32-34 | the body of the first `<Name ...>...</Name>` block; None exactly when there is no such block |
| Catalogue.Scope | parse_metadata_with_factor_conversion.py:80-84 | with a non-empty `search_in`, the first container's body (None when it is missing); otherwise the text unchanged |
| Catalogue.KeysAppend | parse_metadata_with_factor_conversion.py:35-75 | assigning two runs of entries one after the other writes the keys of the first run, then those of the second |
| ConversionParser.ExtractValue | parse_metadata_with_factor_conversion.py:78-92 | a value never contains `<` and has no whitespace at either end; it is None when the given container is absent; it is Some exactly when some flat (resp. nested) leaf matches |
| ConversionParser.StripLeaf | parse_metadata_with_factor_conversion.py:92 | the stripped capture of `[^<]*` is still free of `<` |
| ConversionParser.ExtractAndMark | parse_metadata_with_factor_conversion.py:23-29 | with `is_double` the key is the tag followed by one `*`, otherwise the tag; the value is `_extract_value`'s result for the same arguments |
| ConversionParser.ParseMetadata | parse_metadata_with_factor_conversion.py:14-76 | the dict built by the successive assignments equals `Assemble`: empty without a Data block, then each present section's catalogue lines in order |
| ConversionParser.AssignImage | parse_metadata_with_factor_conversion.py:31-45 | the nine Image assignments append exactly the Image catalogue entries |
| ConversionParser.AssignLens | parse_metadata_with_factor_conversion.py:47-58 | the six Lens assignments append exactly the Lens catalogue entries |
| ConversionParser.AssignShooting | parse_metadata_with_factor_conversion.py:60-75 | the twelve Shooting assignments append exactly the Shooting catalogue entries |
| ConversionParser.FlatValueIsFirstLeaf | parse_metadata_with_factor_conversion.py:89-92 | a flat field's value is the stripped text of the leftmost leaf match |
| ConversionParser.NestedValueIsFirstLeaf | parse_metadata_with_factor_conversion.py:86-92 | a subtag field's value is the stripped text of the first inner leaf after the first outer opening tag that a `</tag>` follows |
| ConversionParser.ScopedValue | parse_metadata_with_factor_conversion.py:80-84 | with `search_in`, the value is None without the container, even if the tag exists outside it; otherwise it is the value looked up in the first container's body only |
| ConversionParser.BinningIsNotBinnin | parse_metadata_with_factor_conversion.py:70 | a `<Binning` element is never an opening `<Binnin ` tag |
| ConversionParser.NoBinninTagIn | parse_metadata_with_factor_conversion.py:70 | no slice of a text whose `<Binnin` are all `<Binning` holds an opening `<Binnin ` tag |
| ConversionParser.BinningNeedsBinninTag | parse_metadata_with_factor_conversion.py:70 | if every `<Binnin` in the section is `<Binning`, the Binning entry is None |
| ConversionParser.Entries | parse_metadata_with_factor_conversion.py:35-75 | one entry per catalogue line, in catalogue order |
| ConversionParser.EntriesKeys | parse_metadata_with_factor_conversion.py:35-75 | a section's entries carry its catalogue keys in order, whatever the values |
| ConversionParser.ImageKeysListed | parse_metadata_with_factor_conversion.py:35-45 | the Image lines write Comment, …, `Calibration*`, `Focus*`, PatchNumber |
| ConversionParser.LensKeysListed | parse_metadata_with_factor_conversion.py:51-58 | the Lens lines write LensName, Magnification, `NumericalAperture*`, `WorkingDistance*`, LiquidImmersion, RevolverPosition |
| ConversionParser.ShootingKeysListed | parse_metadata_with_factor_conversion.py:64-75 | the Shooting lines write the twelve Shooting keys, Binning included |
| ConversionParser.SectionKeys | parse_metadata_with_factor_conversion.py:32-34 | a missing section writes no key; a present one writes all its keys |
| ConversionParser.NoDataNoMetadata | parse_metadata_with_factor_conversion.py:16-18 | no `<Data>...</Data>` block gives the empty dict |
| ConversionParser.AssembleKeys | parse_metadata_with_factor_conversion.py:31-75 | the result's keys are the Image (9), Lens (6) and Shooting (12) keys, each list present exactly when its section is |
| ConversionParser.AssembleKeysDistinct | parse_metadata_with_factor_conversion.py:31-75 | no key is written twice |
| ConversionParser.CatalogueStars | parse_metadata_with_factor_conversion.py:41-44 | among the catalogue's keys exactly `Calibration*`, `Focus*`, `NumericalAperture*` and `WorkingDistance*` end in `*` |
| ConversionParser.AssembleStars | parse_metadata_with_factor_conversion.py:23-29 | a result key ends in `*` exactly when it is one of those four; with Image and Lens present all four are there |
| ConversionFormat.Render | parse_metadata_with_factor_conversion.py:100-110 | a key without `*` shows its value unchanged; a starred key shows "Could not decode" when the decode fails; `Calibration*` shows the decoded value / 1000 with " um/pixel", other starred keys show the decoded value |
| ConversionFormat.FormatMetadata | parse_metadata_with_factor_conversion.py:94-122 | the two loops compute `Format`: the decoded dict, then the legend, header and one row per entry |
| ConversionFormat.PresentSnoc | parse_metadata_with_factor_conversion.py:99-100 | one more entry adds its key to the present keys exactly when its value is not None |
| ConversionFormat.DecodedKeys | parse_metadata_with_factor_conversion.py:99-111 | the decoded dict keeps exactly the keys whose value is not None, in input order |
| ConversionFormat.DecodedHasEveryValue | parse_metadata_with_factor_conversion.py:99-111 | every present entry appears under its own key with its rendered value |
| ConversionFormat.DecodedOnlyFromValues | parse_metadata_with_factor_conversion.py:99-111 | every decoded entry comes from a present entry of the input |
| ConversionFormat.PresentKeysAreKeys | parse_metadata_with_factor_conversion.py:99-100 | a key that carries a value is a key of the dict |
| ConversionFormat.PresentDistinct | parse_metadata_with_factor_conversion.py:99-111 | dropping the None entries keeps the keys distinct |
| ConversionFormat.DecodedKeysDistinct | parse_metadata_with_factor_conversion.py:98-111 | the decoded dict has distinct keys when its input does |
| ConversionFormat.PlainValuePassesThrough | parse_metadata_with_factor_conversion.py:100-111 | a present value under a key without `*` reaches the decoded dict unchanged |
| ConversionFormat.UndecodableStarValue | parse_metadata_with_factor_conversion.py:102-110 | a starred value that does not decode shows as "Could not decode" |
| ConversionFormat.AbsentValueDropped | parse_metadata_with_factor_conversion.py:100 | a key stored with None is absent from the decoded dict |
| ConversionFormat.LinesAppend | parse_metadata_with_factor_conversion.py:115-116 | the table rows of two runs of entries are the rows of the first run followed by those of the second |
| ConversionFormat.FormatCases | parse_metadata_with_factor_conversion.py:95-96 | "No metadata found." exactly for the empty dict; a ValueError exactly for a non-empty dict with a format other than `table` or `dict`; a dict of only None values gives the bare legend and header, or an empty dict |
| ConversionFormat.ParsedThenDecoded | parse_metadata_with_factor_conversion.py:98-111 | formatting a parsed dict keeps one entry per present key, with no key twice |
| PlainParser.ExtractValue | parse_metadata.py:62-77 | None when the given container is absent; a flat value is the first block body, untrimmed; a subtag value exists exactly when a lazy nested match does |
| PlainParser.Entries | parse_metadata.py:31-54 | one entry per catalogue line, in catalogue order |
| PlainParser.ParseMetadata | parse_metadata.py:18-56 | the dict built by the successive assignments equals `Assemble` |
| PlainParser.AssignImage | parse_metadata.py:27-35 | the five Image assignments append exactly the Image catalogue entries |
| PlainParser.AssignLens | parse_metadata.py:37-44 | the four Lens assignments append exactly the Lens catalogue entries |
| PlainParser.AssignShooting | parse_metadata.py:46-54 | the five Shooting assignments append exactly the Shooting catalogue entries |
| PlainParser.FlatValueIsFirstBlock | parse_metadata.py:74-77 | a flat value is the untrimmed text from the `>` of the first `<tag ` to the first `</tag>` after it |
| PlainParser.NestedValueIsFirstBlock | parse_metadata.py:71-77 | a subtag value is the untrimmed lazy body of the first `<subtag ...>` block after the first outer opening tag |
| PlainParser.ValueMayHoldMarkup | parse_metadata.py:74-77 | the capture may contain markup: `<A x><b>1</b></A>` gives `<b>1</b>` |
| PlainParser.EntriesKeys | parse_metadata.py:31-54 | a section's entries carry its catalogue keys in order |
| PlainParser.CatalogueKeys | parse_metadata.py:31-54 | the catalogue writes the listed Image, Lens and Shooting keys |
| PlainParser.SectionKeys | parse_metadata.py:28-30 | a missing section writes no key; a present one writes all its keys |
| PlainParser.NoDataNoMetadata | parse_metadata.py:19-22 | no `<Data>...</Data>` block gives the empty dict |
| PlainParser.AssembleKeys | parse_metadata.py:27-54 | the result's keys are the Image (5), Lens (4) and Shooting (5) keys, each list present exactly when its section is |
| PlainParser.CatalogueKeysDistinct | parse_metadata.py:31-54 | the section key lists have no duplicates and share no key |
| PlainParser.AssembleKeysDistinct | parse_metadata.py:27-54 | no key is written twice |
| PlainParser.NoStarKeys | parse_metadata.py:31-54 | no key is marked: none ends in `*` |
| PlainParser.FloatFieldsStayRaw | parse_metadata.py:35 | Calibration, NumericalAperture and WorkingDistance hold the raw captured text under their bare names |

## Left out

- Reading the file, and the encoding fallback (`read_tiff_content`, and `open` in `parse_metadata.py`): this is I/O. The model starts from the text in memory.
- `main`, argument parsing, writing the output file, printing, and `print_metadata_table`: command-line and presentation I/O.
- The "No <Data> block found" message that `parse_metadata.py` prints: output only. The empty result is modelled.
- `decode_double`, `x / 1000` and `%.6f`: they reinterpret IEEE 754 bits and format floats, so they are the parameters of `ConversionFormat.FloatOps`. `decode` returning None stands for the `ValueError`/`TypeError` that `decode_double` catches.
- `ConversionFormat.FormatMetadata`: the `struct.error` that `struct.pack('Q', …)` raises for an integer outside 64 bits escapes `decode_double` uncaught. The model's `decode` is total, so this exception path is not represented.
- The `try`/`except Exception` handlers of `parse_metadata.py`: every modelled function is total, so nothing reaches them.
- `decode_calibration_scale.py`: a stand-alone script that decodes bit patterns and prints them.
- The vendor timestamp decode: no such code exists in the scripts.
- `ConversionParser.ParseMetadata`, `PlainParser.ParseMetadata`: Python dict assignment overwrites a repeated key; the model appends. The two agree because no key is written twice (`AssembleKeysDistinct`).
- Regular-expression escaping of tag names: every tag name in the catalogues is a plain identifier, so none arises.
