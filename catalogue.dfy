/**
 * What both parsers share: the result mapping, the descriptor of one catalogue
 * field, and the container narrowing that `_extract_value` performs first.
 */
module Catalogue {
  import opened Optional
  import opened Text
  import opened Patterns

  /** The `metadata` dict: (key, value-or-None) pairs in insertion order. */
  type Metadata = seq<(string, Option<string>)>

  /** One catalogue line of `parse_metadata`. */
  datatype Field =
    /** `metadata[key] = _extract_value(section, tag, subtag, search_in)` */
    | Value(key: string, tag: string, subtag: Option<string>, searchIn: Option<string>)
    /** `k, v = extract_and_mark(section, tag, is_double=True); metadata[k] = v` */
    | Marked(tag: string)

  /** The keys of a dict, in insertion order. */
  function Keys<V>(m: seq<(string, V)>): (ks: seq<string>)
    ensures |ks| == |m| && forall j :: 0 <= j < |m| ==> ks[j] == m[j].0
  {
    if m == [] then [] else [m[0].0] + Keys(m[1..])
  }

  lemma KeysAppend<V>(a: seq<(string, V)>, b: seq<(string, V)>)
    ensures Keys(a + b) == Keys(a) + Keys(b)
  {
  }

  predicate Distinct(ks: seq<string>)
  {
    forall a, b :: 0 <= a < b < |ks| ==> ks[a] != ks[b]
  }

  /** A section contributes its keys only when its block is present. */
  function KeysIf(present: bool, ks: seq<string>): seq<string>
  {
    if present then ks else []
  }

  /** Python truthiness of the optional `subtag` / `search_in` argument: None and "" are false. */
  predicate Given(o: Option<string>)
  {
    o.Some? && o.value != ""
  }

  /** `s[lo..hi]` is the capture of `re.search(rf'<{name} [^>]*>(.*?)</{name}>', s, re.DOTALL)`. */
  ghost predicate FirstBlock(s: string, name: string, i: int, lo: int, hi: int)
  {
    && BlockAt(s, name, i, lo, hi)
    && forall i', lo', hi' :: BlockAt(s, name, i', lo', hi') ==> i < i' || (i == i' && hi <= hi')
  }

  /** The text a section or a field is looked up in: the body of the first block
      `<name ...>...</name>`, or None when there is no such block. */
  function BlockBody(s: string, name: string): (r: Option<string>)
    ensures r.None? <==> !HasBlock(s, name)
    ensures r.Some? ==> exists i, lo, hi :: FirstBlock(s, name, i, lo, hi) && r.value == s[lo..hi]
  {
    match FindBlockFrom(s, name, 0)
    case None => None
    case Some(m) =>
      assert FirstBlock(s, name, m.start, m.lo, m.hi);
      Some(s[m.lo..m.hi])
  }

  /** The first step of `_extract_value`: with `search_in` given, narrow to the first
      container block, and give up when there is none. */
  function Scope(data: string, searchIn: Option<string>): (r: Option<string>)
    ensures !Given(searchIn) ==> r == Some(data)
    ensures Given(searchIn) ==> r == BlockBody(data, searchIn.value)
  {
    if Given(searchIn) then BlockBody(data, searchIn.value) else Some(data)
  }

  /** The body of the first `<Data>...</Data>` block, or None. */
  function DataBody(content: string): (r: Option<string>)
    ensures r.None? <==> !HasData(content)
    ensures r.Some? ==> exists i, hi ::
      && DataAt(content, i, hi)
      && r.value == content[i + 6..hi]
      && (forall i', hi' :: DataAt(content, i', hi') ==> i < i' || (i == i' && hi <= hi'))
  {
    match FindData(content)
    case None => None
    case Some(m) => Some(content[m.lo..m.hi])
  }

  /** Two key lists with no key in common. */
  predicate Disjoint(xs: seq<string>, ys: seq<string>)
  {
    forall a, b :: 0 <= a < |xs| && 0 <= b < |ys| ==> xs[a] != ys[b]
  }

  lemma DistinctConcat(xs: seq<string>, ys: seq<string>)
    requires Distinct(xs) && Distinct(ys) && Disjoint(xs, ys)
    ensures Distinct(xs + ys)
  {
  }

  lemma DisjointConcat(xs: seq<string>, ys: seq<string>, zs: seq<string>)
    requires Disjoint(xs, zs) && Disjoint(ys, zs)
    ensures Disjoint(xs + ys, zs)
  {
  }

  // Appending a section entry by entry is appending the section.

  lemma AppendNothing(s: Metadata)
    ensures s + [] == s
  {
  }

  lemma Appended4(before: Metadata, s: Metadata)
    requires |s| == 4
    ensures before + s ==
      before + [s[0]] + [s[1]] + [s[2]] + [s[3]]
  {
  }

  lemma Appended5(before: Metadata, s: Metadata)
    requires |s| == 5
    ensures before + s ==
      before + [s[0]] + [s[1]] + [s[2]] + [s[3]] + [s[4]]
  {
  }

  lemma Appended6(before: Metadata, s: Metadata)
    requires |s| == 6
    ensures before + s ==
      before + [s[0]] + [s[1]] + [s[2]] + [s[3]] + [s[4]] + [s[5]]
  {
  }

  lemma Appended9(before: Metadata, s: Metadata)
    requires |s| == 9
    ensures before + s ==
      before + [s[0]] + [s[1]] + [s[2]] + [s[3]] + [s[4]] + [s[5]] + [s[6]] + [s[7]]
      + [s[8]]
  {
  }

  lemma Appended12(before: Metadata, s: Metadata)
    requires |s| == 12
    ensures before + s ==
      before + [s[0]] + [s[1]] + [s[2]] + [s[3]] + [s[4]] + [s[5]] + [s[6]] + [s[7]]
      + [s[8]] + [s[9]] + [s[10]] + [s[11]]
  {
  }
}
