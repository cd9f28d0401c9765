/**
 * The path computation of the language switcher: the current path is cut at '/',
 * the locale segment (index 1) is replaced or inserted, and the pieces are joined again.
 * `locales` is the configured locale list; navigation itself (`router.push`) is not modelled.
 */
module LanguageSwitcher {
  import opened Strings

  /** The segments after a switch to `newLocale`. */
  function Relocalized(segments: seq<string>, newLocale: string, locales: seq<string>): (r: seq<string>)
    requires |segments| >= 1
    ensures |r| >= 2 && r[0] == segments[0] && r[1] == newLocale
    ensures |segments| > 1 && segments[1] in locales ==>
      |r| == |segments| && forall i :: 0 <= i < |r| && i != 1 ==> r[i] == segments[i]
    ensures !(|segments| > 1 && segments[1] in locales) ==>
      |r| == |segments| + 1 && r[2..] == segments[1..]
  {
    if |segments| > 1 && segments[1] in locales then segments[1 := newLocale]
    else segments[..1] + [newLocale] + segments[1..]
  }

  /**
   * The path `switchLocale` navigates to: the relocalised segments joined by '/'. That join has
   * at least two segments, so it holds a '/' and the `|| "/"` fallback never applies.
   */
  function SwitchedPath(pathname: string, newLocale: string, locales: seq<string>): (r: string)
    ensures r == Join(Relocalized(Split(pathname, '/'), newLocale, locales), '/')
    ensures '/' in r
  {
    var joined := Join(Relocalized(Split(pathname, '/'), newLocale, locales), '/');
    if joined == "" then "/" else joined
  }

  /** `switchLocale(newLocale)`: edits the segment array in place, then joins it. */
  method SwitchLocale(pathname: string, newLocale: string, locales: seq<string>) returns (target: string)
    ensures target == SwitchedPath(pathname, newLocale, locales)
    ensures target == Join(Relocalized(Split(pathname, '/'), newLocale, locales), '/')
  {
    var segments := Split(pathname, '/');
    if |segments| > 1 && segments[1] in locales {
      segments := segments[1 := newLocale];
    } else {
      segments := segments[..1] + [newLocale] + segments[1..];
    }
    target := Join(segments, '/');
    if target == "" {
      target := "/";
    }
  }

  /**
   * Reading the switched path back into segments: segment 1 is the new locale, the others are
   * the old ones (replaced in place or shifted by one), so the count grows by at most one.
   */
  lemma SwitchedSegments(pathname: string, newLocale: string, locales: seq<string>)
    requires '/' !in newLocale
    ensures Split(SwitchedPath(pathname, newLocale, locales), '/') ==
            Relocalized(Split(pathname, '/'), newLocale, locales)
    ensures |Split(SwitchedPath(pathname, newLocale, locales), '/')| <= |Split(pathname, '/')| + 1
    ensures Split(SwitchedPath(pathname, newLocale, locales), '/')[1] == newLocale
  {
    var segs := Relocalized(Split(pathname, '/'), newLocale, locales);
    assert forall i :: 0 <= i < |segs| ==> '/' !in segs[i];
    SplitJoin(segs, '/');
  }

  /** On segments: relocalising to `a` and then to `b` is relocalising straight to `b`. */
  lemma RelocalizedTwice(segments: seq<string>, a: string, b: string, locales: seq<string>)
    requires |segments| >= 1 && a in locales
    ensures Relocalized(Relocalized(segments, a, locales), b, locales) == Relocalized(segments, b, locales)
  {
    var once := Relocalized(segments, a, locales);
    assert Relocalized(once, b, locales) == once[1 := b];
    if |segments| > 1 && segments[1] in locales {
      assert once[1 := b] == segments[1 := b];
    } else {
      assert once[1 := b] == segments[..1] + [b] + segments[1..];
    }
  }

  /** Switching to `a` and then to `b` lands where switching straight to `b` does. */
  lemma LastSwitchWins(pathname: string, a: string, b: string, locales: seq<string>)
    requires a in locales && '/' !in a
    ensures SwitchedPath(SwitchedPath(pathname, a, locales), b, locales) == SwitchedPath(pathname, b, locales)
  {
    SwitchedSegments(pathname, a, locales);
    RelocalizedTwice(Split(pathname, '/'), a, b, locales);
  }

  /** Switching twice to the same locale is switching once. */
  lemma SwitchIdempotent(pathname: string, a: string, locales: seq<string>)
    requires a in locales && '/' !in a
    ensures SwitchedPath(SwitchedPath(pathname, a, locales), a, locales) == SwitchedPath(pathname, a, locales)
  {
    LastSwitchWins(pathname, a, a, locales);
  }
}
