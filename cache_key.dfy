/** The cache key of `cacheMW` (index.js:47-49): the original URL cut at the
    first literal "&id", behind the namespace tag "__express__". */
module CacheKey {
  import opened JsValues

  /** The separator given to `split`. It is matched as raw text, so "&idx=" holds it too. */
  const Marker: string := "&id"

  /** The tag every key starts with. */
  const Namespace: string := "__express__"

  /** `s` holds Marker starting at index `i`. */
  predicate MarkerAt(s: string, i: int) {
    0 <= i && i + |Marker| <= |s| && s[i..i + |Marker|] == Marker
  }

  predicate HasMarker(s: string) {
    exists i :: 0 <= i < |s| && MarkerAt(s, i)
  }

  /** The index of the first Marker in `s` at or after `from`, or |s| when there is none. */
  function FirstMarker(s: string, from: nat): (r: nat)
    requires from <= |s|
    ensures from <= r <= |s|
    ensures r == |s| || MarkerAt(s, r)
    ensures forall j :: from <= j < r ==> !MarkerAt(s, j)
    decreases |s| - from
  {
    if from == |s| || MarkerAt(s, from) then from
    else FirstMarker(s, from + 1)
  }

  /** `s.split('&id')[0]`: the text of `s` before its first "&id", or all of `s`. */
  function BeforeMarker(s: string): (h: string)
    ensures h <= s
    ensures !HasMarker(h)
    ensures |h| == |s| || MarkerAt(s, |h|)
  {
    var k := FirstMarker(s, 0);
    assert forall j :: MarkerAt(s[..k], j) ==> MarkerAt(s, j) by {
      forall j | MarkerAt(s[..k], j) ensures MarkerAt(s, j) {
        assert s[..k][j..j + |Marker|] == s[j..j + |Marker|];
      }
    }
    s[..k]
  }

  /** The key built at index.js:49: `"__express__" + oUrl || rUrl`. `+` binds
      tighter than `||`, and the left operand is never empty, so `url` never
      contributes. */
  function Key(originalUrl: string, url: string): (k: string)
    ensures k == Namespace + BeforeMarker(originalUrl)
  {
    Or(Namespace + BeforeMarker(originalUrl), BeforeMarker(url))
  }

  /** Two occurrences of "&id" never overlap. */
  lemma {:induction false} MarkersApart(s: string, i: int, j: int)
    requires MarkerAt(s, i) && MarkerAt(s, j) && i < j
    ensures i + |Marker| <= j
  {
    assert s[i + 1] == s[i..i + |Marker|][1] == 'i';
    assert s[i + 2] == s[i..i + |Marker|][2] == 'd';
    assert s[j] == s[j..j + |Marker|][0] == '&';
  }

  /** An "&id" of `s` that starts inside a candidate prefix `h` lies wholly inside `h`. */
  lemma {:induction false} MarkerInsidePrefix(s: string, h: string, a: int)
    requires h <= s
    requires |h| == |s| || MarkerAt(s, |h|)
    ensures 0 <= a < |h| && MarkerAt(s, a) ==> MarkerAt(h, a)
  {
    if 0 <= a < |h| && MarkerAt(s, a) {
      if |h| < |s| {
        MarkersApart(s, a, |h|);
      }
      assert h[a..a + |Marker|] == s[a..a + |Marker|];
    }
  }

  /** BeforeMarker is characterised by its contract: the only prefix of `s`
      without "&id" that ends at the end of `s` or at an "&id" of `s`. */
  lemma {:induction false} BeforeMarkerUnique(s: string, h: string)
    requires h <= s && !HasMarker(h)
    requires |h| == |s| || MarkerAt(s, |h|)
    ensures BeforeMarker(s) == h
  {
    var r := BeforeMarker(s);
    assert |r| == FirstMarker(s, 0);
    assert |r| <= |h|;
    MarkerInsidePrefix(s, h, |r|);
    assert |h| <= |r|;
    assert r == s[..|r|] == h;
  }

  /** A URL without "&id" is used whole. */
  lemma NoMarkerWholeUrl(s: string)
    requires !HasMarker(s)
    ensures BeforeMarker(s) == s
  {
    BeforeMarkerUnique(s, s);
  }

  /** Whatever follows the first "&id" does not reach the key. */
  lemma {:induction false} AfterMarkerIgnored(h: string, tail: string)
    requires !HasMarker(h)
    ensures BeforeMarker(h + Marker + tail) == h
  {
    var s := h + Marker + tail;
    assert s[|h|..|h| + |Marker|] == Marker;
    assert h <= s;
    BeforeMarkerUnique(s, h);
  }

  /** The request's post-routing `url` never affects the key. */
  lemma KeyIgnoresUrl(originalUrl: string, url1: string, url2: string)
    ensures Key(originalUrl, url1) == Key(originalUrl, url2)
  {
  }

  /** Two requests share a key exactly when their original URLs agree up to the first "&id". */
  lemma {:induction false} SameKeyIff(o1: string, u1: string, o2: string, u2: string)
    ensures Key(o1, u1) == Key(o2, u2) <==> BeforeMarker(o1) == BeforeMarker(o2)
  {
    var a, b := BeforeMarker(o1), BeforeMarker(o2);
    if Key(o1, u1) == Key(o2, u2) {
      assert a == (Namespace + a)[|Namespace|..];
      assert b == (Namespace + b)[|Namespace|..];
    }
  }

  /** Requests that differ only after an "&id" share a key, whatever their `url`. */
  lemma {:induction false} TrailingIdShareKey(h: string, t1: string, t2: string, u1: string, u2: string)
    requires !HasMarker(h)
    ensures Key(h + Marker + t1, u1) == Key(h + Marker + t2, u2)
  {
    AfterMarkerIgnored(h, t1);
    AfterMarkerIgnored(h, t2);
  }

  /** A string without '&' holds no "&id". */
  lemma {:induction false} NoAmpersandNoMarker(s: string)
    requires forall i :: 0 <= i < |s| ==> s[i] != '&'
    ensures !HasMarker(s)
  {
    forall i | 0 <= i < |s| ensures !MarkerAt(s, i) {
      if i + |Marker| <= |s| {
        assert s[i..i + |Marker|][0] == s[i];
      }
    }
  }

  /** "/weather?q=Paris&id=1" and "/weather?q=Paris&id=2" collide. */
  lemma ParisIdsCollide(u1: string, u2: string)
    ensures Key("/weather?q=Paris&id=1", u1) == Key("/weather?q=Paris&id=2", u2)
  {
    var h := "/weather?q=Paris";
    NoAmpersandNoMarker(h);
    assert "/weather?q=Paris&id=1" == h + Marker + "=1";
    assert "/weather?q=Paris&id=2" == h + Marker + "=2";
    TrailingIdShareKey(h, "=1", "=2", u1, u2);
  }

  /** The split is on raw text: "&idx=" is cut too, so "/weather?q=Paris&idx=7"
      has the key of "/weather?q=Paris". */
  lemma IdxPrefixAlsoCut(u1: string, u2: string)
    ensures Key("/weather?q=Paris&idx=7", u1) == Key("/weather?q=Paris", u2)
  {
    var h := "/weather?q=Paris";
    NoAmpersandNoMarker(h);
    assert "/weather?q=Paris&idx=7" == h + Marker + "x=7";
    AfterMarkerIgnored(h, "x=7");
    NoMarkerWholeUrl(h);
  }

  /** "/weather?q=Paris" and "/weather?q=Rome" get different keys. */
  lemma ParisRomeDiffer(u1: string, u2: string)
    ensures Key("/weather?q=Paris", u1) != Key("/weather?q=Rome", u2)
  {
    var p, r := "/weather?q=Paris", "/weather?q=Rome";
    NoAmpersandNoMarker(p);
    NoAmpersandNoMarker(r);
    NoMarkerWholeUrl(p);
    NoMarkerWholeUrl(r);
    assert p[11] != r[11];
    SameKeyIff(p, u1, r, u2);
  }
}
