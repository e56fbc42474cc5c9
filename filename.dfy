/** The name of the exported PNG file: `postimoveis-`, then the title lower-cased
    with every run of whitespace replaced by a single `-`, then `.png`. */
module Filename {

  const FilePrefix: string := "postimoveis-"
  const FileSuffix: string := ".png"

  /** The whitespace class `\s` of JavaScript regular expressions: the
      WhiteSpace and LineTerminator code points of ECMAScript. None of them
      is a letter or the `-` that replaces a run. */
  predicate IsSpace(c: char)
    ensures IsSpace(c) ==> !('A' <= c <= 'Z') && !('a' <= c <= 'z') && c != '-'
  {
    c == '\t' || c == '\n' || c == '\U{000B}' || c == '\U{000C}' || c == '\r' || c == ' '
    || c == '\U{00A0}' || c == '\U{1680}' || ('\U{2000}' <= c <= '\U{200A}')
    || c == '\U{2028}' || c == '\U{2029}' || c == '\U{202F}' || c == '\U{205F}'
    || c == '\U{3000}' || c == '\U{FEFF}'
  }

  /** Every whitespace character is a single UTF-16 code unit, so reading a
      title as code points or as code units finds the same whitespace runs. */
  lemma SpaceIsOneCodeUnit(c: char)
    ensures IsSpace(c) ==> c as int <= 0xFFFF
  {
  }

  predicate IsUpper(c: char) {
    'A' <= c <= 'Z'
  }

  predicate SpaceFree(s: string) {
    forall i :: 0 <= i < |s| ==> !IsSpace(s[i])
  }

  predicate AllSpace(s: string) {
    forall i :: 0 <= i < |s| ==> IsSpace(s[i])
  }

  /** Lower-casing of one character (ASCII letters only). */
  function LowerChar(c: char): (l: char)
    ensures !IsUpper(l)
    ensures IsSpace(l) <==> IsSpace(c)
    ensures !IsUpper(c) ==> l == c
    ensures IsUpper(c) ==> l as int == c as int + 32
  {
    if IsUpper(c) then (c as int + 32) as char else c
  }

  /** `toLowerCase()`: every character lowered, in place. The length is kept,
      no upper-case ASCII letter is left, and whitespace stays exactly where it was. */
  function Lower(s: string): (r: string)
    ensures |r| == |s|
    ensures forall i :: 0 <= i < |r| ==> !IsUpper(r[i])
    ensures forall i :: 0 <= i < |s| ==> (IsSpace(r[i]) <==> IsSpace(s[i]))
  {
    seq(|s|, i requires 0 <= i < |s| => LowerChar(s[i]))
  }

  /** `replace(/\s+/g, '-')`: a whitespace character followed by another one is
      dropped, and the last one of each run becomes `-`, so every maximal run
      of whitespace turns into exactly one `-`. */
  function CollapseSpaces(s: string): (r: string)
    ensures SpaceFree(r)
    ensures |r| <= |s|
  {
    if s == [] then []
    else if IsSpace(s[0]) then
      if |s| > 1 && IsSpace(s[1]) then CollapseSpaces(s[1..]) else "-" + CollapseSpaces(s[1..])
    else [s[0]] + CollapseSpaces(s[1..])
  }

  /** The middle part of the file name. */
  function Slug(title: string): (r: string)
    ensures SpaceFree(r)
    ensures forall i :: 0 <= i < |r| ==> !IsUpper(r[i])
  {
    var r := CollapseSpaces(Lower(title));
    CollapseLower(title);
    r
  }

  /** The download name of the exported card. */
  function ExportFilename(title: string): (name: string)
    ensures |name| == |FilePrefix| + |Slug(title)| + |FileSuffix|
    ensures name[..|FilePrefix|] == FilePrefix
    ensures name[|name| - |FileSuffix|..] == FileSuffix
    ensures name[|FilePrefix|..|name| - |FileSuffix|] == Slug(title)
    ensures forall i :: |FilePrefix| <= i < |name| - |FileSuffix| ==> !IsSpace(name[i]) && !IsUpper(name[i])
  {
    FilePrefix + Slug(title) + FileSuffix
  }

  /** Text without whitespace passes through unchanged. */
  lemma {:induction false} CollapseSpaceFree(s: string)
    requires SpaceFree(s)
    ensures CollapseSpaces(s) == s
  {
    if s != [] {
      CollapseSpaceFree(s[1..]);
    }
  }

  /** A whole run of whitespace, however long, becomes one `-`. */
  lemma {:induction false} CollapseRun(g: string)
    requires g != [] && AllSpace(g)
    ensures CollapseSpaces(g) == "-"
  {
    if |g| > 1 {
      CollapseRun(g[1..]);
    }
  }

  /** Collapsing works piece by piece wherever the cut does not split a run of
      whitespace. Together with CollapseRun and CollapseSpaceFree this pins the
      result down for every input: cut it into maximal runs and words. */
  lemma {:induction false} CollapseConcat(a: string, b: string)
    requires a == [] || b == [] || !IsSpace(a[|a| - 1]) || !IsSpace(b[0])
    ensures CollapseSpaces(a + b) == CollapseSpaces(a) + CollapseSpaces(b)
  {
    if a == [] {
      assert a + b == b;
    } else if b == [] {
      assert a + b == a;
    } else {
      var t := a[1..];
      assert (a + b)[1..] == t + b;
      assert (a + b)[0] == a[0];
      CollapseConcat(t, b);
      if |a| == 1 {
        assert t == [];
        assert t + b == b;
      } else {
        assert (a + b)[1] == a[1];
        assert t[|t| - 1] == a[|a| - 1];
      }
    }
  }

  /** Collapsing twice is collapsing once: the output of the rule has no
      whitespace run left for the rule to act on. */
  lemma CollapseIdempotent(s: string)
    ensures CollapseSpaces(CollapseSpaces(s)) == CollapseSpaces(s)
  {
    CollapseSpaceFree(CollapseSpaces(s));
  }

  /** Lower-casing and collapsing commute, since neither turns whitespace into
      non-whitespace or back. */
  lemma {:induction false} CollapseLower(s: string)
    ensures CollapseSpaces(Lower(s)) == Lower(CollapseSpaces(s))
  {
    if s != [] {
      assert Lower(s)[1..] == Lower(s[1..]);
      CollapseLower(s[1..]);
      var t := CollapseSpaces(s[1..]);
      assert Lower("-" + t) == "-" + Lower(t);
      assert Lower([s[0]] + t) == [LowerChar(s[0])] + Lower(t);
    }
  }

  /** A word followed by a run of whitespace and more text: the word is kept,
      the run becomes one `-`, and the rest is collapsed on its own. */
  lemma CollapseWordThenRun(w: string, g: string, rest: string)
    requires SpaceFree(w)
    requires g != [] && AllSpace(g)
    requires rest == [] || !IsSpace(rest[0])
    ensures CollapseSpaces(w + g + rest) == w + "-" + CollapseSpaces(rest)
  {
    if w != [] {
      assert !IsSpace(w[|w| - 1]);
    }
    CollapseConcat(w, g);
    CollapseConcat(w + g, rest);
    CollapseSpaceFree(w);
    CollapseRun(g);
  }

  /** Two words separated by any run of whitespace give the two words,
      lower-cased, joined by one `-`. */
  lemma SlugOfTwoWords(w1: string, g: string, w2: string)
    requires SpaceFree(w1)
    requires g != [] && AllSpace(g)
    requires w2 != [] && SpaceFree(w2)
    ensures Slug(w1 + g + w2) == Lower(w1) + "-" + Lower(w2)
  {
    CollapseWordThenRun(w1, g, w2);
    CollapseSpaceFree(w2);
    CollapseLower(w1 + g + w2);
    assert Lower(w1 + "-" + w2) == Lower(w1) + "-" + Lower(w2);
  }

  /** An untitled listing is saved as `postimoveis-.png`. */
  lemma ExportFilenameEmptyTitle()
    ensures ExportFilename("") == "postimoveis-.png"
  {
  }

  /** A two-word title separated by a tab and spaces. */
  lemma SlugExample()
    ensures Slug("Casa \t Azul") == "casa-azul"
  {
    assert "Casa \t Azul" == "Casa" + " \t " + "Azul";
    SlugOfTwoWords("Casa", " \t ", "Azul");
    assert Lower("Casa") == "casa";
    assert Lower("Azul") == "azul";
  }

  lemma ExportFilenameExample()
    ensures ExportFilename("Casa \t Azul") == "postimoveis-casa-azul.png"
  {
    var title := "Casa \t Azul";
    SlugExample();
    calc {
      ExportFilename(title);
      FilePrefix + Slug(title) + FileSuffix;
      FilePrefix + "casa-azul" + FileSuffix;
    }
  }
}
