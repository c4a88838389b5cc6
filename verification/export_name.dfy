/**
 * The name of the exported quote file: the part name with every maximal run
 * of whitespace replaced by one underscore, followed by "_cotizacion.txt".
 */
module ExportName {
  import Pricing

  const Suffix: string := "_cotizacion.txt"

  /**
   * The characters matched by `\s` in a JavaScript regular expression: the
   * ECMAScript WhiteSpace and LineTerminator code points (tab, line feed,
   * vertical tab, form feed, carriage return, the Unicode space separators,
   * the line and paragraph separators and the byte order mark).
   */
  predicate IsWs(c: char) {
    || '\t' <= c <= '\r'
    || c == ' ' || c == '\U{00A0}' || c == '\U{1680}'
    || '\U{2000}' <= c <= '\U{200A}'
    || c == '\U{2028}' || c == '\U{2029}' || c == '\U{202F}' || c == '\U{205F}'
    || c == '\U{3000}' || c == '\U{FEFF}'
  }

  /**
   * `IsWs` is exactly membership in the list of code points that `\s` matches,
   * written out one by one; in particular '_' is not whitespace, so the
   * replacement character is never matched again.
   */
  lemma IsWsMatchesListedCodePoints(c: char)
    ensures IsWs(c) <==> c in {
      '\U{0009}', '\U{000A}', '\U{000B}', '\U{000C}', '\U{000D}', '\U{0020}',
      '\U{00A0}', '\U{1680}', '\U{2000}', '\U{2001}', '\U{2002}', '\U{2003}',
      '\U{2004}', '\U{2005}', '\U{2006}', '\U{2007}', '\U{2008}', '\U{2009}',
      '\U{200A}', '\U{2028}', '\U{2029}', '\U{202F}', '\U{205F}', '\U{3000}',
      '\U{FEFF}'}
    ensures !IsWs('_')
  {
  }

  predicate NoWs(s: string) {
    forall i :: 0 <= i < |s| ==> !IsWs(s[i])
  }

  /** Every character of `w` is whitespace. */
  predicate AllWs(w: string) {
    forall i :: 0 <= i < |w| ==> IsWs(w[i])
  }

  /**
   * `s.replace(/\s+/g, '_')`, one character at a time: a whitespace character
   * followed by more whitespace is dropped, the last one of its run becomes '_'.
   */
  function Sanitize(s: string): (r: string)
    ensures |r| <= |s|
  {
    if s == [] then []
    else if IsWs(s[0]) && |s| > 1 && IsWs(s[1]) then Sanitize(s[1..])
    else [if IsWs(s[0]) then '_' else s[0]] + Sanitize(s[1..])
  }

  /** The download name given to the exported quote of `b`. */
  function FileName(b: Pricing.Breakdown): (r: string)
    ensures |r| >= |Suffix| && r[|r| - |Suffix|..] == Suffix
    ensures NoWs(r)
  {
    SanitizeRemovesWs(b.part);
    SuffixHasNoWs();
    NoWsConcat(Sanitize(b.part), Suffix);
    Sanitize(b.part) + Suffix
  }

  lemma SuffixHasNoWs()
    ensures NoWs(Suffix)
  {
    forall i | 0 <= i < |Suffix|
      ensures !IsWs(Suffix[i])
    {
      assert Suffix[i] in {'_', 'c', 'o', 't', 'i', 'z', 'a', 'n', '.', 'x'};
    }
  }

  lemma NoWsConcat(a: string, b: string)
    requires NoWs(a) && NoWs(b)
    ensures NoWs(a + b)
  {
    forall i | 0 <= i < |a + b|
      ensures !IsWs((a + b)[i])
    {
      if i >= |a| {
        assert (a + b)[i] == b[i - |a|];
      }
    }
  }

  /** A part name without whitespace is used as it is; the default part name gives "Pieza_cotizacion.txt". */
  lemma FileNameOfCleanPart(b: Pricing.Breakdown)
    requires NoWs(b.part)
    ensures FileName(b) == b.part + Suffix
    ensures b.part == Pricing.DefaultPartName ==> FileName(b) == "Pieza_cotizacion.txt"
  {
    SanitizeKeepsCleanText(b.part);
    assert FileName(b) == Sanitize(b.part) + Suffix;
    if b.part == Pricing.DefaultPartName {
      assert Pricing.DefaultPartName + Suffix == "Pieza_cotizacion.txt";
    }
  }

  /** The rewritten text contains no whitespace. */
  lemma {:induction false} SanitizeRemovesWs(s: string)
    ensures NoWs(Sanitize(s))
  {
    if s != [] {
      SanitizeRemovesWs(s[1..]);
    }
  }

  /** Text without whitespace passes through unchanged. */
  lemma {:induction false} SanitizeKeepsCleanText(s: string)
    requires NoWs(s)
    ensures Sanitize(s) == s
  {
    if s != [] {
      SanitizeKeepsCleanText(s[1..]);
    }
  }

  /** Sanitising a sanitised name changes nothing. */
  lemma SanitizeIdempotent(s: string)
    ensures Sanitize(Sanitize(s)) == Sanitize(s)
  {
    SanitizeRemovesWs(s);
    SanitizeKeepsCleanText(Sanitize(s));
  }

  /** Text that ends in a non-whitespace character is sanitised independently of what follows it. */
  lemma {:induction false} SanitizeSplitsAfterText(a: string, t: string)
    requires a == [] || !IsWs(a[|a| - 1])
    ensures Sanitize(a + t) == Sanitize(a) + Sanitize(t)
  {
    if a == [] {
      assert a + t == t;
    } else {
      assert (a + t)[0] == a[0] && (a + t)[1..] == a[1..] + t;
      SanitizeSplitsAfterText(a[1..], t);
      if |a| == 1 {
        assert a[1..] == [];
      } else {
        assert (a + t)[1] == a[1];
      }
    }
  }

  /** A whitespace run at the head, before text that does not start with whitespace, becomes one '_'. */
  lemma {:induction false} SanitizeRunHead(w: string, b: string)
    requires w != [] && AllWs(w)
    requires b == [] || !IsWs(b[0])
    ensures Sanitize(w + b) == "_" + Sanitize(b)
  {
    assert (w + b)[0] == w[0] && (w + b)[1..] == w[1..] + b;
    if |w| == 1 {
      assert w[1..] + b == b;
    } else {
      assert (w + b)[1] == w[1];
      SanitizeRunHead(w[1..], b);
    }
  }

  /**
   * Each maximal whitespace run becomes exactly one underscore: a run `w`
   * between text `a` that does not end in whitespace and text `b` that does
   * not start with it is replaced by a single '_'.
   */
  lemma RunBecomesOneUnderscore(a: string, w: string, b: string)
    requires a == [] || !IsWs(a[|a| - 1])
    requires w != [] && AllWs(w)
    requires b == [] || !IsWs(b[0])
    ensures Sanitize(a + w + b) == Sanitize(a) + "_" + Sanitize(b)
  {
    ConcatAssociates(a, w, b);
    ConcatAssociates(Sanitize(a), "_", Sanitize(b));
    SanitizeSplitsAfterText(a, w + b);
    SanitizeRunHead(w, b);
  }

  lemma ConcatAssociates(x: string, y: string, z: string)
    ensures x + y + z == x + (y + z)
  {
  }

  // ---------------------------------------------------------------------------
  // What the rewrite keeps and what it adds

  /** The characters of `s` that are neither whitespace nor '_', in order. */
  function Erase(s: string): string {
    if s == [] then []
    else (if IsWs(s[0]) || s[0] == '_' then [] else [s[0]]) + Erase(s[1..])
  }

  /** The number of '_' in `s`. */
  function Underscores(s: string): nat {
    if s == [] then 0 else (if s[0] == '_' then 1 else 0) + Underscores(s[1..])
  }

  /** The number of maximal whitespace runs in `s`, counted at the last character of each run. */
  function RunEnds(s: string): nat {
    if s == [] then 0
    else (if IsWs(s[0]) && (|s| == 1 || !IsWs(s[1])) then 1 else 0) + RunEnds(s[1..])
  }

  /** Every character other than whitespace and '_' is kept, in order. */
  lemma {:induction false} SanitizeKeepsOtherCharacters(s: string)
    ensures Erase(Sanitize(s)) == Erase(s)
  {
    if s != [] {
      SanitizeKeepsOtherCharacters(s[1..]);
      var r := Sanitize(s);
      if !(IsWs(s[0]) && |s| > 1 && IsWs(s[1])) {
        assert r[1..] == Sanitize(s[1..]);
      }
    }
  }

  /** Exactly one '_' is added per maximal whitespace run. */
  lemma {:induction false} SanitizeAddsOneUnderscorePerRun(s: string)
    ensures Underscores(Sanitize(s)) == Underscores(s) + RunEnds(s)
  {
    if s != [] {
      SanitizeAddsOneUnderscorePerRun(s[1..]);
      var r := Sanitize(s);
      if !(IsWs(s[0]) && |s| > 1 && IsWs(s[1])) {
        assert r[1..] == Sanitize(s[1..]);
      }
    }
  }
}
