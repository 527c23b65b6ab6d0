/**
 * The part of `PathBuf::push` the resolver relies on, under Unix rules: an
 * absolute segment replaces the base; a relative one is appended with exactly
 * one `/` between them.
 */
module Paths {

  const Sep: char := '/'

  /** True when `s` is empty or already ends in a separator. */
  predicate EndsInSep(s: string) {
    s == [] || s[|s| - 1] == Sep
  }

  /** A path that starts at the root. */
  predicate Absolute(s: string) {
    s != [] && s[0] == Sep
  }

  /**
   * `base` with `seg` pushed onto it. An absolute segment replaces the base.
   * Otherwise a separator is inserted only when the base is non-empty and
   * does not already end in one.
   */
  function Push(base: string, seg: string): (r: string)
    ensures |r| >= |seg| && r[|r| - |seg|..] == seg
    ensures Absolute(seg) ==> r == seg
    ensures !Absolute(seg) ==> |base| + |seg| <= |r| <= |base| + |seg| + 1
    ensures !Absolute(seg) ==> r[..|base|] == base
    ensures !Absolute(seg) && base == [] ==> r == seg
    ensures !Absolute(seg) && base != [] ==> r[|r| - |seg| - 1] == Sep
    ensures !Absolute(seg) ==> (|r| == |base| + |seg| <==> EndsInSep(base))
  {
    if Absolute(seg) then seg
    else if EndsInSep(base) then base + seg
    else base + [Sep] + seg
  }

  /** No two separators stand next to each other. */
  predicate NoDoubleSep(s: string) {
    forall i :: 0 < i < |s| ==> !(s[i - 1] == Sep && s[i] == Sep)
  }

  /**
   * Pushing never creates `//`: a relative segment is joined with a single
   * separator whether or not the base already ends in one, and an absolute
   * segment stands alone.
   */
  lemma PushNoDoubleSep(base: string, seg: string)
    requires NoDoubleSep(base) && NoDoubleSep(seg)
    ensures NoDoubleSep(Push(base, seg))
  {
    if Absolute(seg) {
      return;
    }
    var r := Push(base, seg);
    var k := |r| - |seg|;
    forall i | 0 < i < |r|
      ensures !(r[i - 1] == Sep && r[i] == Sep)
    {
      if i < |base| {
        assert r[i - 1] == base[i - 1] && r[i] == base[i];
      } else if i > k {
        assert r[i - 1] == seg[i - 1 - k] && r[i] == seg[i - k];
      } else if i == k {
        assert r[i] == seg[0];
      } else {
        // i == |base| and a separator was inserted at |base|
        assert i == |base| && k == |base| + 1 && !EndsInSep(base);
        assert r[i - 1] == base[|base| - 1];
      }
    }
  }

  /**
   * Pushing a relative segment onto a path that already ends in a separator
   * is plain concatenation: `.config/` followed by `test` gives
   * `.config/test`.
   */
  lemma PushAfterSep(base: string, seg: string)
    requires base != [] && base[|base| - 1] == Sep
    ensures Push(base, seg) == if Absolute(seg) then seg else base + seg
  {
  }

  /**
   * Pushing a relative `h` that ends in a separator and then `s` places a
   * single separator between base and `h` and none between `h` and `s`;
   * an absolute `s` replaces the whole path.
   */
  lemma PushTwice(base: string, h: string, s: string)
    requires base != [] && !EndsInSep(base)
    requires !Absolute(h) && h != [] && h[|h| - 1] == Sep
    ensures Push(Push(base, h), s) == if Absolute(s) then s else base + [Sep] + h + s
  {
    var p := Push(base, h);
    assert p == base + [Sep] + h;
    assert p[|p| - 1] == h[|h| - 1];
  }
}
