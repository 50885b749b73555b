/**
 * `format_metadata` of the factor-conversion parser: drop the absent values,
 * decode the starred IEEE 754 fields, and render a tab-separated table or
 * return the decoded dict.  The bit-pattern decode, the division by 1000 and
 * the `%.6f` rendering are floating-point work; they are parameters here.
 */
module ConversionFormat {
  import opened Optional
  import opened Text
  import opened Catalogue
  import ConversionParser

  /** `decode_double` (None when `int(value)` fails), `x / 1000` and `f"{x:.6f}"`. */
  datatype FloatOps<!D> = FloatOps(decode: string -> Option<D>, milli: D -> D, fixed6: D -> string)

  /** What `format_metadata` returns: the table text, or the decoded dict. */
  datatype Formatted = Table(text: string) | Dict(entries: seq<(string, string)>)

  const NoMetadata := "No metadata found."
  const Legend := "* Indicates an IEEE 754 double-precision value that has been converted.\n"
  const Header := "Parameter\tValue\n"
  const InvalidFormat := "Invalid output_format. Choose 'table' or 'dict'."

  /** The value shown for one present entry. */
  function Render<D>(key: string, raw: string, ops: FloatOps<D>): (v: string)
    ensures !EndsWithStar(key) ==> v == raw
    ensures EndsWithStar(key) && ops.decode(raw).None? ==> v == "Could not decode"
    ensures EndsWithStar(key) && ops.decode(raw).Some? ==>
      v == if key == "Calibration*" then ops.fixed6(ops.milli(ops.decode(raw).value)) + " um/pixel"
           else ops.fixed6(ops.decode(raw).value)
  {
    if EndsWithStar(key) then
      match ops.decode(raw)
      case None => "Could not decode"
      case Some(d) => if key == "Calibration*" then ops.fixed6(ops.milli(d)) + " um/pixel" else ops.fixed6(d)
    else raw
  }

  /** `decoded_metadata` after the loop has seen the entries of `m`. */
  function DecodeAll<D>(m: Metadata, ops: FloatOps<D>): seq<(string, string)>
  {
    if m == [] then []
    else
      var (key, value) := m[|m| - 1];
      DecodeAll(m[..|m| - 1], ops) + if value.None? then [] else [(key, Render(key, value.value, ops))]
  }

  /** One table row, `f"{key}\t{value}\n"`. */
  function Row(e: (string, string)): string
  {
    e.0 + "\t" + e.1 + "\n"
  }

  /** The table rows after the legend and the header line. */
  function Lines(d: seq<(string, string)>): string
  {
    if d == [] then "" else Lines(d[..|d| - 1]) + Row(d[|d| - 1])
  }

  /** `format_metadata(metadata, output_format)`; Err is the ValueError. */
  function Format<D>(m: Metadata, outputFormat: string, ops: FloatOps<D>): Result<Formatted>
  {
    if m == [] then Ok(Table(NoMetadata))
    else if outputFormat == "table" then Ok(Table(Legend + Header + Lines(DecodeAll(m, ops))))
    else if outputFormat == "dict" then Ok(Dict(DecodeAll(m, ops)))
    else Err(InvalidFormat)
  }

  method FormatMetadata<D>(metadata: Metadata, outputFormat: string, ops: FloatOps<D>)
    returns (r: Result<Formatted>)
    ensures r == Format(metadata, outputFormat, ops)
  {
    if metadata == [] {
      return Ok(Table(NoMetadata));
    }
    var decoded: seq<(string, string)> := [];
    var i := 0;
    while i < |metadata|
      invariant 0 <= i <= |metadata|
      invariant decoded == DecodeAll(metadata[..i], ops)
    {
      var (key, value) := metadata[i];
      if value.Some? {
        var shown := value.value;
        if EndsWithStar(key) {
          var decodedValue := ops.decode(shown);
          if decodedValue.Some? {
            if key == "Calibration*" {
              shown := ops.fixed6(ops.milli(decodedValue.value)) + " um/pixel";
            } else {
              shown := ops.fixed6(decodedValue.value);
            }
          } else {
            shown := "Could not decode";
          }
        }
        decoded := decoded + [(key, shown)];
      }
      assert metadata[..i + 1][..i] == metadata[..i];
      i := i + 1;
    }
    assert metadata[..i] == metadata;
    if outputFormat == "table" {
      var output := Legend;
      output := output + Header;
      var j := 0;
      while j < |decoded|
        invariant 0 <= j <= |decoded|
        invariant output == Legend + Header + Lines(decoded[..j])
      {
        assert decoded[..j + 1][..j] == decoded[..j];
        output := output + Row(decoded[j]);
        j := j + 1;
      }
      assert decoded[..j] == decoded;
      return Ok(Table(output));
    } else if outputFormat == "dict" {
      return Ok(Dict(decoded));
    } else {
      return Err(InvalidFormat);
    }
  }

  // ---------------------------------------------------------------------------
  // What `format_metadata` promises.

  /** The keys that carry a value, in dict order: an independent reference for the loop. */
  function Present(m: Metadata): (ks: seq<string>)
  {
    if m == [] then [] else (if m[0].1.Some? then [m[0].0] else []) + Present(m[1..])
  }

  lemma {:induction false} PresentSnoc(m: Metadata, e: (string, Option<string>))
    ensures Present(m + [e]) == Present(m) + if e.1.Some? then [e.0] else []
    decreases |m|
  {
    if m == [] {
      assert [e][1..] == [];
    } else {
      assert (m + [e])[1..] == m[1..] + [e];
      PresentSnoc(m[1..], e);
    }
  }

  /** The decoded dict keeps exactly the keys whose value is not None, in input order. */
  lemma {:induction false} DecodedKeys<D>(m: Metadata, ops: FloatOps<D>)
    ensures Keys(DecodeAll(m, ops)) == Present(m)
    decreases |m|
  {
    if m != [] {
      var init := m[..|m| - 1];
      assert m == init + [m[|m| - 1]];
      DecodedKeys(init, ops);
      PresentSnoc(init, m[|m| - 1]);
      var (key, value) := m[|m| - 1];
      KeysAppend(DecodeAll(init, ops),
        if value.None? then [] else [(key, Render(key, value.value, ops))]);
    }
  }

  /** Every present entry is in the decoded dict under its own key, with its rendered value. */
  lemma {:induction false} DecodedHasEveryValue<D>(m: Metadata, ops: FloatOps<D>, i: int)
    requires 0 <= i < |m| && m[i].1.Some?
    ensures (m[i].0, Render(m[i].0, m[i].1.value, ops)) in DecodeAll(m, ops)
    decreases |m|
  {
    if i < |m| - 1 {
      DecodedHasEveryValue(m[..|m| - 1], ops, i);
    }
  }

  /** Every decoded entry comes from a present entry of the input. */
  lemma {:induction false} DecodedOnlyFromValues<D>(m: Metadata, ops: FloatOps<D>, e: (string, string))
    requires e in DecodeAll(m, ops)
    ensures exists i :: 0 <= i < |m| && m[i].1.Some? && e == (m[i].0, Render(m[i].0, m[i].1.value, ops))
    decreases |m|
  {
    var init := m[..|m| - 1];
    var (key, value) := m[|m| - 1];
    if e in DecodeAll(init, ops) {
      DecodedOnlyFromValues(init, ops, e);
      var i :| 0 <= i < |init| && init[i].1.Some? && e == (init[i].0, Render(init[i].0, init[i].1.value, ops));
      assert m[i] == init[i];
    } else {
      assert m[|m| - 1].1.Some? && e == (key, Render(key, value.value, ops));
    }
  }

  lemma PresentKeysAreKeys(m: Metadata, k: string)
    requires k in Present(m)
    ensures k in Keys(m)
  {
  }

  lemma {:induction false} PresentDistinct(m: Metadata)
    requires Distinct(Keys(m))
    ensures Distinct(Present(m))
    decreases |m|
  {
    if m != [] {
      assert Keys(m[1..]) == Keys(m)[1..];
      PresentDistinct(m[1..]);
      if m[0].0 in Present(m[1..]) {
        PresentKeysAreKeys(m[1..], m[0].0);
      }
    }
  }

  /** A dict has distinct keys, and so does its decoded form. */
  lemma DecodedKeysDistinct<D>(m: Metadata, ops: FloatOps<D>)
    requires Distinct(Keys(m))
    ensures Distinct(Keys(DecodeAll(m, ops)))
  {
    DecodedKeys(m, ops);
    PresentDistinct(m);
  }

  /** A value under a key without `*` is passed through unchanged. */
  lemma PlainValuePassesThrough<D>(m: Metadata, ops: FloatOps<D>, i: int)
    requires 0 <= i < |m| && m[i].1.Some? && !EndsWithStar(m[i].0)
    ensures (m[i].0, m[i].1.value) in DecodeAll(m, ops)
  {
    DecodedHasEveryValue(m, ops, i);
  }

  /** A starred value that is not an integer bit pattern is shown as "Could not decode". */
  lemma UndecodableStarValue<D>(m: Metadata, ops: FloatOps<D>, i: int)
    requires 0 <= i < |m| && m[i].1.Some? && EndsWithStar(m[i].0) && ops.decode(m[i].1.value).None?
    ensures (m[i].0, "Could not decode") in DecodeAll(m, ops)
  {
    DecodedHasEveryValue(m, ops, i);
  }

  /** A key stored with None is left out of the decoded dict. */
  lemma AbsentValueDropped<D>(m: Metadata, ops: FloatOps<D>, i: int)
    requires Distinct(Keys(m))
    requires 0 <= i < |m| && m[i].1.None?
    ensures m[i].0 !in Keys(DecodeAll(m, ops))
  {
    DecodedKeys(m, ops);
    if m[i].0 in Keys(DecodeAll(m, ops)) {
      var e :| e in DecodeAll(m, ops) && e.0 == m[i].0;
      DecodedOnlyFromValues(m, ops, e);
    }
  }

  /** The table rows are the rows of the entries, one after another. */
  lemma {:induction false} LinesAppend(a: seq<(string, string)>, b: seq<(string, string)>)
    ensures Lines(a + b) == Lines(a) + Lines(b)
    decreases |b|
  {
    if b == [] {
      assert a + b == a;
    } else {
      var b' := b[..|b| - 1];
      assert (a + b)[..|a + b| - 1] == a + b';
      assert (a + b)[|a + b| - 1] == b[|b| - 1];
      calc {
        Lines(a + b);
        Lines(a + b') + Row(b[|b| - 1]);
        { LinesAppend(a, b'); }
        Lines(a) + Lines(b') + Row(b[|b| - 1]);
        Lines(a) + Lines(b);
      }
    }
  }

  /** Only an empty dict gives "No metadata found."; a dict of None values gives the bare
      table, or an empty dict; any other format is a ValueError. */
  lemma FormatCases<D>(m: Metadata, outputFormat: string, ops: FloatOps<D>)
    ensures Format(m, outputFormat, ops) == Ok(Table(NoMetadata)) <==> m == []
    ensures Format(m, outputFormat, ops).Err? <==> m != [] && outputFormat != "table" && outputFormat != "dict"
    ensures m != [] && Present(m) == [] && outputFormat == "table" ==>
      Format(m, outputFormat, ops) == Ok(Table(Legend + Header))
    ensures m != [] && Present(m) == [] && outputFormat == "dict" ==> Format(m, outputFormat, ops) == Ok(Dict([]))
  {
    DecodedKeys(m, ops);
    if Present(m) == [] {
      assert Legend + Header + Lines([]) == Legend + Header;
    }
    if m != [] && outputFormat == "table" {
      assert Legend + Header + Lines(DecodeAll(m, ops)) != NoMetadata by {
        assert |Legend + Header + Lines(DecodeAll(m, ops))| >= |Legend| > |NoMetadata|;
      }
    }
  }

  /** What `parse_metadata` produces formats to a dict with one entry per present key. */
  lemma ParsedThenDecoded<D>(content: string, ops: FloatOps<D>)
    ensures Keys(DecodeAll(ConversionParser.Assemble(content), ops)) == Present(ConversionParser.Assemble(content))
    ensures Distinct(Keys(DecodeAll(ConversionParser.Assemble(content), ops)))
  {
    ConversionParser.AssembleKeysDistinct(content);
    DecodedKeysDistinct(ConversionParser.Assemble(content), ops);
    DecodedKeys(ConversionParser.Assemble(content), ops);
  }
}
