/**
 * The regular expressions of the parser, as Python's `re.search` runs them with
 * `re.DOTALL`: the match that starts leftmost wins, and at that start the
 * backtracking order decides (a lazy `.*?` takes the shortest span that lets the
 * rest match).  Each pattern shape is stated as a predicate over positions, and
 * each scanner below is proved to return exactly the match `re.search` returns.
 * Tag names are plain identifiers, so no regular-expression escaping arises.
 */
module Patterns {
  import opened Optional
  import opened Text

  /** The opening `<name ` of a tag: the space after the name is part of the pattern. */
  function OpenOf(name: string): string { "<" + name + " " }

  /** The closing `</name>` of a tag. */
  function CloseOf(name: string): string { "</" + name + ">" }

  /** A match: it starts at `start` and its capture group is `s[lo..hi]`. */
  datatype Span = Span(start: nat, lo: nat, hi: nat)

  /** A two-level match: the outer tag starts at `start`, the inner one at `inner`. */
  datatype NestedSpan = NestedSpan(start: nat, inner: nat, lo: nat, hi: nat)

  /** `<name [^>]*>` matches `s[i..gt + 1]`: `s[gt]` is the first `>` after `<name `. */
  predicate OpenTagAt(s: string, name: string, i: int, gt: int)
  {
    && Occurs(s, OpenOf(name), i)
    && i + |name| + 2 <= gt < |s|
    && s[gt] == '>'
    && forall j :: i + |name| + 2 <= j < gt ==> s[j] != '>'
  }

  /** `<Data>(.*?)</Data>` can match from `i` with the capture `s[i + 6..hi]`. */
  predicate DataAt(s: string, i: int, hi: int)
  {
    Occurs(s, "<Data>", i) && i + 6 <= hi && Occurs(s, "</Data>", hi)
  }

  /** `<name [^>]*>(.*?)</name>` can match from `i` with the capture `s[lo..hi]`. */
  predicate BlockAt(s: string, name: string, i: int, lo: int, hi: int)
  {
    OpenTagAt(s, name, i, lo - 1) && lo <= hi && Occurs(s, CloseOf(name), hi)
  }

  /** `<name [^>]*>([^<]*)</name>` can match from `i` with the capture `s[lo..hi]`. */
  predicate LeafAt(s: string, name: string, i: int, lo: int, hi: int)
  {
    BlockAt(s, name, i, lo, hi) && forall j :: lo <= j < hi ==> s[j] != '<'
  }

  /** The `<tag ...>` opened at `i` has been closed by its `>` before index `p`. */
  ghost predicate OpenedBefore(s: string, tag: string, i: int, p: int)
  {
    exists gt :: OpenTagAt(s, tag, i, gt) && gt < p
  }

  /** Some `</tag>` starts at or after `from`. */
  ghost predicate ClosedFrom(s: string, tag: string, from: int)
  {
    exists e :: from <= e && Occurs(s, CloseOf(tag), e)
  }

  /** `<tag [^>]*>.*?<sub [^>]*>([^<]*)</sub>.*?</tag>` can match from `i`, the inner tag at `p`. */
  ghost predicate NestedLeafAt(s: string, tag: string, sub: string, i: int, p: int, lo: int, hi: int)
  {
    OpenedBefore(s, tag, i, p) && LeafAt(s, sub, p, lo, hi) && ClosedFrom(s, tag, hi + |CloseOf(sub)|)
  }

  /** `<tag [^>]*>.*?<sub [^>]*>(.*?)</sub>.*?</tag>` can match from `i`, the inner tag at `p`. */
  ghost predicate NestedBlockAt(s: string, tag: string, sub: string, i: int, p: int, lo: int, hi: int)
  {
    OpenedBefore(s, tag, i, p) && BlockAt(s, sub, p, lo, hi) && ClosedFrom(s, tag, hi + |CloseOf(sub)|)
  }

  ghost predicate HasData(s: string)
  {
    exists i, hi :: DataAt(s, i, hi)
  }

  ghost predicate HasBlock(s: string, name: string)
  {
    exists i, lo, hi :: BlockAt(s, name, i, lo, hi)
  }

  // ---------------------------------------------------------------------------
  // Facts about the pieces.

  lemma CloseStartsWithLt(s: string, name: string, hi: int)
    requires Occurs(s, CloseOf(name), hi)
    ensures hi < |s| && s[hi] == '<'
  {
    assert s[hi..hi + |CloseOf(name)|][0] == CloseOf(name)[0];
  }

  /** `[^>]*>` has one way to match: a later start never ends its opening tag earlier. */
  lemma OpenTagMonotone(s: string, tag: string, tag': string, i: int, gt: int, i': int, gt': int)
    requires OpenTagAt(s, tag, i, gt) && OpenTagAt(s, tag', i', gt')
    requires i + |tag| <= i' + |tag'|
    ensures gt <= gt'
  {
  }

  /** A later `<name ` start never captures a block that closes earlier. */
  lemma BlockMonotone(s: string, name: string, i: int, lo: int, hi: int, i': int, lo': int, hi': int)
    requires BlockAt(s, name, i, lo, hi) && BlockAt(s, name, i', lo', hi')
    requires i <= i'
    requires forall j :: lo <= j < hi ==> !Occurs(s, CloseOf(name), j)
    ensures lo <= lo' && hi <= hi'
  {
    OpenTagMonotone(s, name, name, i, lo - 1, i', lo' - 1);
  }

  /** A later `<name ` start of a leaf never captures a leaf that ends earlier. */
  lemma LeafMonotone(s: string, name: string, i: int, lo: int, hi: int, i': int, lo': int, hi': int)
    requires LeafAt(s, name, i, lo, hi) && LeafAt(s, name, i', lo', hi')
    requires i <= i'
    ensures lo <= lo' && hi <= hi'
  {
    OpenTagMonotone(s, name, name, i, lo - 1, i', lo' - 1);
    CloseStartsWithLt(s, name, hi');
  }

  // ---------------------------------------------------------------------------
  // The scanners.

  /** `re.search(r'<Data>(.*?)</Data>', s, re.DOTALL)`. */
  function FindData(s: string): (r: Option<Span>)
    ensures r.Some? ==> r.value.lo == r.value.start + 6 && DataAt(s, r.value.start, r.value.hi)
    ensures r.Some? ==> forall i, hi :: DataAt(s, i, hi) ==>
      r.value.start < i || (r.value.start == i && r.value.hi <= hi)
    ensures r.None? <==> !HasData(s)
  {
    match IndexOf(s, "<Data>", 0)
    case None => None
    case Some(i) =>
      match IndexOf(s, "</Data>", i + 6)
      case None => None
      case Some(hi) =>
        assert DataAt(s, i, hi);
        Some(Span(i, i + 6, hi))
  }

  /** `re.search(rf'<{name} [^>]*>(.*?)</{name}>', s[from..], re.DOTALL)`, in the
      coordinates of `s`: the first opening tag decides, because a later one can
      only end later and close later. */
  function FindBlockFrom(s: string, name: string, from: nat): (r: Option<Span>)
    ensures r.Some? ==> from <= r.value.start && BlockAt(s, name, r.value.start, r.value.lo, r.value.hi)
    ensures r.Some? ==> forall j :: r.value.lo <= j < r.value.hi ==> !Occurs(s, CloseOf(name), j)
    ensures r.Some? ==> forall i, lo, hi :: from <= i && BlockAt(s, name, i, lo, hi) ==>
      r.value.start < i || (r.value.start == i && r.value.lo == lo && r.value.hi <= hi)
    ensures r.None? <==> forall i, lo, hi :: from <= i ==> !BlockAt(s, name, i, lo, hi)
  {
    match IndexOf(s, OpenOf(name), from)
    case None => None
    case Some(i) =>
      match IndexOfChar(s, '>', i + |name| + 2)
      case None => None
      case Some(gt) =>
        match IndexOf(s, CloseOf(name), gt + 1)
        case None => None
        case Some(hi) =>
          assert BlockAt(s, name, i, gt + 1, hi);
          Some(Span(i, gt + 1, hi))
  }

  /** Whether `<name [^>]*>([^<]*)</name>` matches from the opening tag at `i`:
      the capture must run from the `>` up to the next `<`, which must open `</name>`. */
  function LeafFrom(s: string, name: string, i: nat): (r: Option<Span>)
    requires Occurs(s, OpenOf(name), i)
    ensures r.Some? ==> r.value.start == i && LeafAt(s, name, i, r.value.lo, r.value.hi)
    ensures r.Some? ==> forall lo, hi :: LeafAt(s, name, i, lo, hi) ==> lo == r.value.lo && hi == r.value.hi
    ensures r.None? ==> forall lo, hi :: !LeafAt(s, name, i, lo, hi)
  {
    match IndexOfChar(s, '>', i + |name| + 2)
    case None => None
    case Some(gt) =>
      match IndexOfChar(s, '<', gt + 1)
      case None =>
        LeafNeedsLt(s, name, i, gt);
        None
      case Some(lt) =>
        LeafNeedsLt(s, name, i, gt);
        if Occurs(s, CloseOf(name), lt) then Some(Span(i, gt + 1, lt)) else None
  }

  lemma LeafNeedsLt(s: string, name: string, i: int, gt: int)
    requires OpenTagAt(s, name, i, gt)
    ensures forall lo, hi :: LeafAt(s, name, i, lo, hi) ==>
      lo == gt + 1 && hi < |s| && s[hi] == '<' && forall j :: lo <= j < hi ==> s[j] != '<'
  {
    forall lo, hi | LeafAt(s, name, i, lo, hi)
      ensures lo == gt + 1 && hi < |s| && s[hi] == '<'
    {
      CloseStartsWithLt(s, name, hi);
    }
  }

  /** `re.search(rf'<{name} [^>]*>([^<]*)</{name}>', s[from..], re.DOTALL)`, in the
      coordinates of `s`: every opening tag is tried in turn, since a start whose
      capture meets another `<` first fails while a later one may succeed. */
  function FindLeafFrom(s: string, name: string, from: nat): (r: Option<Span>)
    ensures r.Some? ==> from <= r.value.start && LeafAt(s, name, r.value.start, r.value.lo, r.value.hi)
    ensures r.Some? ==> forall i, lo, hi :: from <= i && LeafAt(s, name, i, lo, hi) ==>
      r.value.start < i || (r.value.start == i && r.value.lo == lo && r.value.hi == hi)
    ensures r.None? <==> forall i, lo, hi :: from <= i ==> !LeafAt(s, name, i, lo, hi)
    decreases |s| - from
  {
    match IndexOf(s, OpenOf(name), from)
    case None => None
    case Some(i) =>
      match LeafFrom(s, name, i)
      case Some(m) => Some(m)
      case None =>
        var r := FindLeafFrom(s, name, i + 1);
        assert forall i', lo, hi :: from <= i' <= i ==> !LeafAt(s, name, i', lo, hi);
        r
  }

  /** The factor-conversion parser's subtag pattern
      `<tag [^>]*>.*?<sub [^>]*>([^<]*)</sub>.*?</tag>`: the first well-formed
      `<sub ...>` leaf after the first outer opening tag, provided a `</tag>`
      follows it. */
  function FindNestedLeaf(s: string, tag: string, sub: string): (r: Option<NestedSpan>)
    ensures r.Some? ==> NestedLeafAt(s, tag, sub, r.value.start, r.value.inner, r.value.lo, r.value.hi)
    ensures r.Some? ==> forall i, p, lo, hi :: NestedLeafAt(s, tag, sub, i, p, lo, hi) ==>
      r.value.start < i || (r.value.start == i && (r.value.inner < p ||
        (r.value.inner == p && r.value.lo == lo && r.value.hi == hi)))
    ensures r.None? <==> forall i, p, lo, hi :: !NestedLeafAt(s, tag, sub, i, p, lo, hi)
  {
    match IndexOf(s, OpenOf(tag), 0)
    case None => None
    case Some(i) =>
      match IndexOfChar(s, '>', i + |tag| + 2)
      case None => None
      case Some(gt) =>
        assert OpenTagAt(s, tag, i, gt);
        match FindLeafFrom(s, sub, gt + 1)
        case None =>
          NestedStartsAfterOuterTag(s, tag, sub, i, gt);
          None
        case Some(m) =>
          var from := m.hi + |CloseOf(sub)|;
          NestedStartsAfterOuterTag(s, tag, sub, i, gt);
          NestedLeafClosesAfter(s, tag, sub, m, from);
          match IndexOf(s, CloseOf(tag), from)
          case None => None
          case Some(e) =>
            assert OpenedBefore(s, tag, i, m.start) by { assert OpenTagAt(s, tag, i, gt); }
            assert ClosedFrom(s, tag, from) by { assert from <= e && Occurs(s, CloseOf(tag), e); }
            assert NestedLeafAt(s, tag, sub, i, m.start, m.lo, m.hi);
            Some(NestedSpan(i, m.start, m.lo, m.hi))
  }

  /** Every two-level match starts its inner tag after the `>` of the first outer opening tag. */
  lemma NestedStartsAfterOuterTag(s: string, tag: string, sub: string, i: nat, gt: nat)
    requires OpenTagAt(s, tag, i, gt)
    requires forall j :: 0 <= j < i ==> !Occurs(s, OpenOf(tag), j)
    ensures forall i', p, lo, hi :: NestedLeafAt(s, tag, sub, i', p, lo, hi) ==> i <= i' && gt < p
    ensures forall i', p, lo, hi :: NestedBlockAt(s, tag, sub, i', p, lo, hi) ==> i <= i' && gt < p
  {
    forall i': int, p: int | OpenedBefore(s, tag, i', p)
      ensures i <= i' && gt < p
    {
      var gt' :| OpenTagAt(s, tag, i', gt') && gt' < p;
      OpenTagMonotone(s, tag, tag, i, gt, i', gt');
    }
  }

  /** The leaf found first closes no later than any other candidate inner leaf. */
  lemma NestedLeafClosesAfter(s: string, tag: string, sub: string, m: Span, from: int)
    requires LeafAt(s, sub, m.start, m.lo, m.hi)
    requires from == m.hi + |CloseOf(sub)|
    requires forall i, lo, hi :: m.start <= i && LeafAt(s, sub, i, lo, hi) ==>
      m.start < i || (m.start == i && m.lo == lo && m.hi == hi)
    ensures forall i', p, lo, hi :: NestedLeafAt(s, tag, sub, i', p, lo, hi) && m.start <= p ==>
      exists e :: from <= e && Occurs(s, CloseOf(tag), e)
  {
    forall i', p, lo, hi | NestedLeafAt(s, tag, sub, i', p, lo, hi) && m.start <= p
      ensures exists e :: from <= e && Occurs(s, CloseOf(tag), e)
    {
      LeafMonotone(s, sub, m.start, m.lo, m.hi, p, lo, hi);
      var e :| hi + |CloseOf(sub)| <= e && Occurs(s, CloseOf(tag), e);
    }
  }

  /** The plain parser's subtag pattern
      `<tag [^>]*>.*?<sub [^>]*>(.*?)</sub>.*?</tag>`: the first `<sub ...>` after the
      first outer opening tag, up to the first `</sub>` after it, provided a `</tag>`
      follows that. */
  function FindNestedBlock(s: string, tag: string, sub: string): (r: Option<NestedSpan>)
    ensures r.Some? ==> NestedBlockAt(s, tag, sub, r.value.start, r.value.inner, r.value.lo, r.value.hi)
    ensures r.Some? ==> forall i, p, lo, hi :: NestedBlockAt(s, tag, sub, i, p, lo, hi) ==>
      r.value.start < i || (r.value.start == i && (r.value.inner < p ||
        (r.value.inner == p && r.value.lo == lo && r.value.hi <= hi)))
    ensures r.None? <==> forall i, p, lo, hi :: !NestedBlockAt(s, tag, sub, i, p, lo, hi)
  {
    match IndexOf(s, OpenOf(tag), 0)
    case None => None
    case Some(i) =>
      match IndexOfChar(s, '>', i + |tag| + 2)
      case None => None
      case Some(gt) =>
        assert OpenTagAt(s, tag, i, gt);
        match FindBlockFrom(s, sub, gt + 1)
        case None =>
          NestedStartsAfterOuterTag(s, tag, sub, i, gt);
          None
        case Some(m) =>
          var from := m.hi + |CloseOf(sub)|;
          NestedStartsAfterOuterTag(s, tag, sub, i, gt);
          NestedBlockClosesAfter(s, tag, sub, m, from);
          match IndexOf(s, CloseOf(tag), from)
          case None => None
          case Some(e) =>
            assert OpenedBefore(s, tag, i, m.start) by { assert OpenTagAt(s, tag, i, gt); }
            assert ClosedFrom(s, tag, from) by { assert from <= e && Occurs(s, CloseOf(tag), e); }
            assert NestedBlockAt(s, tag, sub, i, m.start, m.lo, m.hi);
            Some(NestedSpan(i, m.start, m.lo, m.hi))
  }

  /** The first `</sub>` after the first candidate closes no later than any other candidate. */
  lemma NestedBlockClosesAfter(s: string, tag: string, sub: string, m: Span, from: int)
    requires BlockAt(s, sub, m.start, m.lo, m.hi)
    requires from == m.hi + |CloseOf(sub)|
    requires forall j :: m.lo <= j < m.hi ==> !Occurs(s, CloseOf(sub), j)
    ensures forall i', p, lo, hi :: NestedBlockAt(s, tag, sub, i', p, lo, hi) && m.start <= p ==>
      exists e :: from <= e && Occurs(s, CloseOf(tag), e)
  {
    forall i', p, lo, hi | NestedBlockAt(s, tag, sub, i', p, lo, hi) && m.start <= p
      ensures exists e :: from <= e && Occurs(s, CloseOf(tag), e)
    {
      BlockMonotone(s, sub, m.start, m.lo, m.hi, p, lo, hi);
      var e :| hi + |CloseOf(sub)| <= e && Occurs(s, CloseOf(tag), e);
    }
  }
}
