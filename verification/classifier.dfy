/**
 The intent classifier `wants_image`: decides whether a chat message asks for
 an image. The text is lowercased and stripped; it is an image request when it
 starts with a command prefix, when it holds a whole-word verb and a
 whole-word noun (regex `\b` semantics), or when it contains one of a few
 short trigger phrases.
 */
module Classifier {
  import opened Strings

  const Prefixes: seq<string> := ["image:", "picture:", "photo:"]
  const Verbs: seq<string> := ["draw", "create", "generate", "show", "make", "render"]
  const Nouns: seq<string> := ["image", "picture", "photo", "portrait", "illustration", "render"]
  const ShortTriggers: seq<string> :=
    ["draw ", "create ", "generate ", "image of", "picture of", "photo of"]

  /** The form of the text every rule looks at: `text.lower().strip()`. */
  function Normalize(text: string): string {
    Strip(Lower(text))
  }

  /** The normal form is also `text.strip().lower()`; it holds no upper-case
      letter and neither starts nor ends with whitespace. */
  lemma NormalizeShape(text: string)
    ensures Normalize(text) == Lower(Strip(text))
    ensures forall k :: 0 <= k < |Normalize(text)| ==> !IsUpper(Normalize(text)[k])
    ensures var t := Normalize(text); t == [] || (!IsSpace(t[0]) && !IsSpace(t[|t| - 1]))
  {
    StripLowerCommute(text);
  }

  /** Rule 1: the text starts with one of the prefixes. */
  ghost predicate HasPrefix(t: string, ps: seq<string>) {
    exists p :: p in ps && StartsWith(t, p)
  }

  /** `re.search(r"\b(w1|w2|...)\b", t)` succeeds: some alternative matches
      as a whole word at some position. */
  ghost predicate MentionsWord(t: string, ws: seq<string>) {
    exists w, i :: w in ws && WholeWordAt(t, w, i)
  }

  /** `any(k in t for k in ps)`. */
  ghost predicate MentionsPhrase(t: string, ps: seq<string>) {
    exists p, i :: p in ps && OccursAt(t, p, i)
  }

  /** The classifier's meaning: a non-empty text whose normal form satisfies
      the prefix rule, the verb-and-noun rule or the short-phrase rule. */
  ghost predicate ImageIntent(text: string) {
    && |text| > 0
    && var t := Normalize(text);
       || HasPrefix(t, Prefixes)
       || (MentionsWord(t, Verbs) && MentionsWord(t, Nouns))
       || MentionsPhrase(t, ShortTriggers)
  }

  function AnyPrefix(t: string, ps: seq<string>): (b: bool)
    ensures b <==> HasPrefix(t, ps)
  {
    if ps == [] then false
    else StartsWith(t, ps[0]) || AnyPrefix(t, ps[1..])
  }

  function AnyWholeWord(t: string, ws: seq<string>): (b: bool)
    ensures b <==> MentionsWord(t, ws)
  {
    if ws == [] then false
    else WholeWordFrom(t, ws[0], 0) || AnyWholeWord(t, ws[1..])
  }

  function AnyPhrase(t: string, ps: seq<string>): (b: bool)
    ensures b <==> MentionsPhrase(t, ps)
  {
    if ps == [] then false
    else Contains(t, ps[0]) || AnyPhrase(t, ps[1..])
  }

  /** `wants_image(text)`: true exactly for the texts `ImageIntent` describes. */
  function WantsImage(text: string): (r: bool)
    ensures r <==> ImageIntent(text)
  {
    if text == [] then false
    else
      var t := Normalize(text);
      if AnyPrefix(t, Prefixes) then true
      else if AnyWholeWord(t, Verbs) && AnyWholeWord(t, Nouns) then true
      else AnyPhrase(t, ShortTriggers)
  }

  /** The answer depends only on the normal form. */
  lemma DependsOnlyOnNormalForm(a: string, b: string)
    requires Normalize(a) == Normalize(b)
    ensures WantsImage(a) == WantsImage(b)
  {
  }

  /** Case does not matter. */
  lemma IgnoresCase(text: string)
    ensures WantsImage(Lower(text)) == WantsImage(text)
  {
    LowerIdempotent(text);
  }

  /** Surrounding whitespace does not matter, including the case where the
      text is whitespace only. */
  lemma IgnoresSurroundingSpace(text: string)
    ensures WantsImage(Strip(text)) == WantsImage(text)
  {
    var s := Strip(text);
    NormalizeStrip(text);
    if s == [] {
      EmptyNormalFormIsNotImage(text);
    } else {
      DependsOnlyOnNormalForm(s, text);
    }
  }

  lemma NormalizeStrip(text: string)
    ensures Normalize(Strip(text)) == Normalize(text)
  {
    var s := Strip(text);
    StripLowerCommute(s);
    StripIdempotent(s);
    StripLowerCommute(text);
  }

  /** A text that is empty once stripped asks for nothing. */
  lemma EmptyNormalFormIsNotImage(text: string)
    requires Normalize(text) == []
    ensures !WantsImage(text)
  {
  }

  /** A normal form starting with a command prefix is an image request. */
  lemma PrefixMakesImage(text: string, p: string)
    requires p in Prefixes && StartsWith(Normalize(text), p)
    ensures WantsImage(text)
  {
  }

  /** A whole-word verb together with a whole-word noun makes an image
      request, at any distance and in either order. */
  lemma VerbAndNounMakeImage(text: string, v: string, i: int, n: string, j: int)
    requires v in Verbs && WholeWordAt(Normalize(text), v, i)
    requires n in Nouns && WholeWordAt(Normalize(text), n, j)
    ensures WantsImage(text)
  {
  }

  /** "render" is both a verb and a noun, so a whole-word "render" on its own
      makes an image request. */
  lemma RenderAloneMakesImage(text: string, i: int)
    requires WholeWordAt(Normalize(text), "render", i)
    ensures WantsImage(text)
  {
    VerbAndNounMakeImage(text, "render", i, "render", i);
  }

  /** A short trigger phrase anywhere in the normal form makes an image
      request. */
  lemma PhraseMakesImage(text: string, p: string, i: int)
    requires p in ShortTriggers && OccursAt(Normalize(text), p, i)
    ensures WantsImage(text)
  {
  }

  /** Nothing but the three rules makes an image request. */
  lemma OnlyRulesMakeImage(text: string)
    requires !HasPrefix(Normalize(text), Prefixes)
    requires !MentionsWord(Normalize(text), Verbs) || !MentionsWord(Normalize(text), Nouns)
    requires !MentionsPhrase(Normalize(text), ShortTriggers)
    ensures !WantsImage(text)
  {
  }
}
