/** The two POSIX path helpers of the Node.js runtime that name generation
    uses: `path.extname(p)` and `path.basename(p, path.extname(p))`. They are
    not part of the adapter, but the object key depends on their edge cases
    (dot files, "..", trailing separators), so they are modelled here.
 */
module NodePath {
  import opened JsText

  predicate NoSlash(s: JsString) {
    forall i :: 0 <= i < |s| ==> s[i] != Slash
  }

  /** `p` without its trailing separators. */
  function StripTrailingSlashes(p: JsString): (q: JsString)
    ensures |q| <= |p| && q == p[..|q|]
    ensures q == [] || q[|q| - 1] != Slash
    ensures forall i :: |q| <= i < |p| ==> p[i] == Slash
  {
    if p != [] && p[|p| - 1] == Slash then StripTrailingSlashes(p[..|p| - 1]) else p
  }

  /** The last segment of `p`, trailing separators ignored: what
      `path.basename(p)` returns. A name without separators is its own segment. */
  function LastSegment(p: JsString): (c: JsString)
    ensures NoSlash(c)
    ensures NoSlash(p) ==> c == p
  {
    var q := StripTrailingSlashes(p);
    q[LastIndexOf(q, Slash) + 1..]
  }

  /** The last segment is what follows the last separator once the trailing
      separators are stripped, or the whole stripped path when it has none. */
  lemma LastSegmentIsTail(p: JsString)
    ensures var q := StripTrailingSlashes(p);
      var c := LastSegment(p);
      && |c| <= |q| && c == q[|q| - |c|..]
      && (|c| < |q| ==> q[|q| - |c| - 1] == Slash)
  {
    var q := StripTrailingSlashes(p);
    var k := LastIndexOf(q, Slash);
    assert LastSegment(p) == q[k + 1..];
  }

  /** `path.extname` of a single segment: from the last '.' to the end, unless
      that '.' is the segment's first unit or the segment is "..", in which
      case the extension is empty. */
  function SegmentExtname(c: JsString): (r: JsString)
    requires NoSlash(c)
    ensures |r| <= |c| && r == c[|c| - |r|..]
    ensures r != [] ==> r[0] == Dot && |r| < |c| && forall i :: 1 <= i < |r| ==> r[i] != Dot
    ensures r == [] <==> (c == Lit("..") || forall i :: 1 <= i < |c| ==> c[i] != Dot)
  {
    var d := LastIndexOf(c, Dot);
    if d <= 0 || c == Lit("..") then [] else c[d..]
  }

  /** `path.extname(p)`. */
  function Extname(p: JsString): (r: JsString)
    ensures NoSlash(r)
    ensures r == [] || (r[0] == Dot && forall i :: 1 <= i < |r| ==> r[i] != Dot)
  {
    SegmentExtname(LastSegment(p))
  }

  /** `path.basename(p, path.extname(p))`: the last segment without its extension. */
  function Stem(p: JsString): (r: JsString)
    ensures NoSlash(r)
    ensures r + Extname(p) == LastSegment(p)
    ensures Extname(p) != [] ==> r != []
  {
    var c := LastSegment(p);
    var ext := SegmentExtname(c);
    assert c[..|c| - |ext|] + ext == c;
    c[..|c| - |ext|]
  }

  /** A file name split as the adapter splits it: the extension is the part
      from the last '.' on, and never the whole name. */
  lemma {:induction false} NameSplit(name: JsString)
    requires NoSlash(name)
    ensures Stem(name) + Extname(name) == name
    ensures Extname(name) == [] || (Extname(name)[0] == Dot && Stem(name) != [])
    ensures forall i :: 1 <= i < |Extname(name)| ==> Extname(name)[i] != Dot
  {
    assert LastSegment(name) == name;
  }
}
