/**
 * The page name a route change reports: a fixed table for four paths,
 * otherwise the path without its first character, with `/` and `-`
 * turned into spaces and the first character of every word upper-cased
 * (the `replace(/\b\w/g, toUpperCase)` idiom: ASCII word characters,
 * a word starting at the beginning or after a non-word character), and
 * `"UnnamedPage"` when that is empty.
 */
module PageName {
  import opened Wrappers

  /** The fixed path-to-name table. */
  function PageNames(): map<string, string>
  {
    map["/" := "HomePage", "/contact" := "ContactPage", "/blog" := "BlogPage", "/about" := "AboutPage"]
  }

  /** A character the regular expression class `\w` matches: `[A-Za-z0-9_]`. */
  predicate IsWordChar(c: char)
  {
    ('A' <= c <= 'Z') || ('a' <= c <= 'z') || ('0' <= c <= '9') || c == '_'
  }

  predicate IsLower(c: char)
  {
    'a' <= c <= 'z'
  }

  /** `String.prototype.toUpperCase` on an ASCII character: lower-case letters only change. */
  function ToUpper(c: char): char
  {
    if IsLower(c) then (c as int - 32) as char else c
  }

  /** A separator that the page name replaces by a space. */
  predicate IsSeparator(c: char)
  {
    c == '/' || c == '-'
  }

  /** `s.slice(1)`: everything after the first character; empty for the empty string. */
  function DropFirst(s: string): string
  {
    if |s| == 0 then s else s[1..]
  }

  /** `s.replace(/[/-]/g, " ")`. */
  function ReplaceSeparators(s: string): string
  {
    if s == [] then []
    else [if IsSeparator(s[0]) then ' ' else s[0]] + ReplaceSeparators(s[1..])
  }

  /**
   * Upper-cases the characters of `s` that start a word; `afterWord`
   * says whether the character before `s` is a word character.
   */
  function CapitalizeFrom(s: string, afterWord: bool): string
  {
    if s == [] then []
    else [if IsWordChar(s[0]) && !afterWord then ToUpper(s[0]) else s[0]]
         + CapitalizeFrom(s[1..], IsWordChar(s[0]))
  }

  /** `s.replace(/\b\w/g, (char) => char.toUpperCase())`. */
  function CapitalizeWords(s: string): string
  {
    CapitalizeFrom(s, false)
  }

  /** The character at `i` is a word character at a word boundary: first, or after a non-word character. */
  predicate StartsWord(s: string, i: int)
    requires 0 <= i < |s|
  {
    IsWordChar(s[i]) && (i == 0 || !IsWordChar(s[i - 1]))
  }

  /** The name generated from a path that is not in the table (possibly empty). */
  function GeneratedName(pathname: string): string
  {
    CapitalizeWords(ReplaceSeparators(DropFirst(pathname)))
  }

  /** The page name reported for `pathname`. */
  function DerivedPageName(pathname: string): (name: string)
    ensures name != ""
  {
    if pathname in PageNames() then PageNames()[pathname]
    else
      var generated := GeneratedName(pathname);
      if generated == "" then "UnnamedPage" else generated
  }

  /** Replacing separators keeps the length, blanks each `/` and `-` and leaves every other character. */
  lemma {:induction false} ReplaceSeparatorsAt(s: string)
    ensures |ReplaceSeparators(s)| == |s|
    ensures forall i :: 0 <= i < |s| ==>
      ReplaceSeparators(s)[i] == if IsSeparator(s[i]) then ' ' else s[i]
  {
    if s != [] {
      ReplaceSeparatorsAt(s[1..]);
    }
  }

  /** Character by character, `CapitalizeFrom` upper-cases exactly the word starts. */
  lemma {:induction false} CapitalizeFromAt(s: string, afterWord: bool)
    ensures |CapitalizeFrom(s, afterWord)| == |s|
    ensures forall i {:trigger CapitalizeFrom(s, afterWord)[i]} :: 0 <= i < |s| ==>
      CapitalizeFrom(s, afterWord)[i] ==
        if IsWordChar(s[i]) && (if i == 0 then !afterWord else !IsWordChar(s[i - 1]))
        then ToUpper(s[i]) else s[i]
  {
    if s != [] {
      CapitalizeFromAt(s[1..], IsWordChar(s[0]));
      var r := CapitalizeFrom(s, afterWord);
      var head := if IsWordChar(s[0]) && !afterWord then ToUpper(s[0]) else s[0];
      assert r == [head] + CapitalizeFrom(s[1..], IsWordChar(s[0]));
      forall i | 0 <= i < |s|
        ensures r[i] ==
          if IsWordChar(s[i]) && (if i == 0 then !afterWord else !IsWordChar(s[i - 1]))
          then ToUpper(s[i]) else s[i]
      {
        if i > 0 {
          assert r[i] == CapitalizeFrom(s[1..], IsWordChar(s[0]))[i - 1];
          assert s[1..][i - 1] == s[i];
          if i >= 2 {
            assert s[1..][i - 2] == s[i - 1];
          }
        }
      }
    }
  }

  /** `CapitalizeWords` keeps the length and upper-cases exactly the characters that start a word. */
  lemma CapitalizeWordsAt(s: string)
    ensures |CapitalizeWords(s)| == |s|
    ensures forall i :: 0 <= i < |s| ==>
      CapitalizeWords(s)[i] == if StartsWord(s, i) then ToUpper(s[i]) else s[i]
  {
    CapitalizeFromAt(s, false);
    forall i | 0 <= i < |s|
      ensures CapitalizeWords(s)[i] == if StartsWord(s, i) then ToUpper(s[i]) else s[i]
    {
      assert CapitalizeWords(s)[i] == CapitalizeFrom(s, false)[i];
    }
  }

  /**
   * A character changes iff it is a lower-case letter that starts a word;
   * existing capitals and every non-word character are kept.
   */
  lemma CapitalizeWordsChanges(s: string, i: int)
    requires 0 <= i < |s|
    ensures |CapitalizeWords(s)| == |s|
    ensures CapitalizeWords(s)[i] != s[i] <==> StartsWord(s, i) && IsLower(s[i])
    ensures CapitalizeWords(s)[i] != s[i] ==> CapitalizeWords(s)[i] == (s[i] as int - 32) as char
  {
    CapitalizeWordsAt(s);
  }

  /**
   * The generated name of an unmapped path: one character shorter than
   * the path, no `/` or `-` in it, and each character is the path's next
   * character with separators blanked and word starts upper-cased.
   */
  lemma GeneratedNameShape(pathname: string)
    requires |pathname| >= 1
    ensures |GeneratedName(pathname)| == |pathname| - 1
    ensures forall i :: 0 <= i < |pathname| - 1 ==> !IsSeparator(GeneratedName(pathname)[i])
    ensures var blanked := ReplaceSeparators(pathname[1..]);
      |blanked| == |pathname| - 1 &&
      (forall i :: 0 <= i < |blanked| ==>
        blanked[i] == (if IsSeparator(pathname[i + 1]) then ' ' else pathname[i + 1])) &&
      (forall i :: 0 <= i < |blanked| ==>
        GeneratedName(pathname)[i] == if StartsWord(blanked, i) then ToUpper(blanked[i]) else blanked[i])
  {
    var blanked := ReplaceSeparators(pathname[1..]);
    ReplaceSeparatorsAt(pathname[1..]);
    CapitalizeWordsAt(blanked);
    forall i | 0 <= i < |pathname| - 1
      ensures !IsSeparator(GeneratedName(pathname)[i])
    {
      assert pathname[1..][i] == pathname[i + 1];
    }
  }

  /** A path in the table gets the table's name; any other path gets its generated name, or `"UnnamedPage"` iff that is empty. */
  lemma DerivedPageNameCases(pathname: string)
    ensures pathname in PageNames() ==> DerivedPageName(pathname) == PageNames()[pathname]
    ensures pathname !in PageNames() && |pathname| >= 2 ==>
      DerivedPageName(pathname) == GeneratedName(pathname)
    ensures pathname !in PageNames() && |pathname| <= 1 ==>
      DerivedPageName(pathname) == "UnnamedPage"
  {
    if |pathname| >= 1 {
      GeneratedNameShape(pathname);
    }
  }

  /** The four table entries. */
  lemma PageNamesTable()
    ensures DerivedPageName("/") == "HomePage"
    ensures DerivedPageName("/contact") == "ContactPage"
    ensures DerivedPageName("/blog") == "BlogPage"
    ensures DerivedPageName("/about") == "AboutPage"
  {
  }

  // The three example lemmas name their strings through parameters, so that
  // the solver reasons about them by the lemmas above instead of unfolding
  // the functions on literals.

  lemma PricingPlansBlanked(tail: string)
    requires tail == "pricing-plans"
    ensures ReplaceSeparators(tail) == "pricing plans"
  {
    ReplaceSeparatorsAt(tail);
  }

  lemma PricingPlansCapitalized(blanked: string)
    requires blanked == "pricing plans"
    ensures CapitalizeWords(blanked) == "Pricing Plans"
  {
    CapitalizeWordsAt(blanked);
  }

  /** An unmapped path with a hyphen becomes title-cased words. */
  lemma PricingPlansExample(pathname: string)
    requires pathname == "/pricing-plans"
    ensures DerivedPageName(pathname) == "Pricing Plans"
  {
    var tail := DropFirst(pathname);
    assert tail == "pricing-plans";
    PricingPlansBlanked(tail);
    PricingPlansCapitalized(ReplaceSeparators(tail));
    assert pathname !in PageNames();
  }
}
