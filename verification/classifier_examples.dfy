/**
 Worked instances of the classifier: each fixes a concrete message and states
 its classification, proved from the general rules of `Classifier`.
 */
module ClassifierExamples {
  import opened Strings
  import opened Classifier

  /** Lowercasing works piece by piece. */
  lemma LowerAppend(a: string, b: string)
    ensures Lower(a + b) == Lower(a) + Lower(b)
  {
  }

  /** The shouted word, lowercased on its own. */
  lemma ShoutedWordLower()
    ensures Lower("  IMAGE") == "  image"
  {
    var s := "  IMAGE";
    assert Lower(s)[2] == 'i' && Lower(s)[3] == 'm' && Lower(s)[4] == 'a';
    assert Lower(s)[5] == 'g' && Lower(s)[6] == 'e';
  }

  /** The message lowercased, from its two pieces. */
  lemma ShoutedPrefixLower()
    ensures Lower("  IMAGE: a cat") == "  image: a cat"
  {
    var a, b := "  IMAGE", ": a cat";
    assert "  IMAGE: a cat" == a + b;
    ShoutedWordLower();
    LowerOfLowercase(b);
    LowerAppend(a, b);
    assert "  image" + b == "  image: a cat";
  }

  /** The lowercased message stripped of its two leading blanks. */
  lemma ShoutedPrefixStrip()
    ensures Strip("  image: a cat") == "image: a cat"
  {
    StripUnique("  image: a cat", 2, 14);
  }

  lemma ShoutedPrefixNormalForm()
    ensures Normalize("  IMAGE: a cat") == "image: a cat"
  {
    ShoutedPrefixLower();
    ShoutedPrefixStrip();
  }

  /** Upper case and leading blanks do not hide a command prefix. */
  lemma ShoutedPrefixIsImage()
    ensures WantsImage("  IMAGE: a cat")
  {
    ShoutedPrefixNormalForm();
    PrefixMakesImage("  IMAGE: a cat", "image:");
  }

  /** The sentence cut into three short pieces, so that lowercasing can be
      shown piece by piece (one long literal is too much for the solver). */
  lemma VerbNounSentenceChunks()
    ensures "please generate a portrait of my dog" == "please gener" + "ate a portra" + "it of my dog"
  {
  }

  lemma VerbNounSentenceNormalForm()
    ensures Normalize("please generate a portrait of my dog") == "please generate a portrait of my dog"
  {
    var s := "please generate a portrait of my dog";
    var a, b, c := "please gener", "ate a portra", "it of my dog";
    VerbNounSentenceChunks();
    LowerOfLowercase(a);
    LowerOfLowercase(b);
    LowerOfLowercase(c);
    LowerAppend(a, b);
    LowerAppend(a + b, c);
    StripUnique(s, 0, |s|);
  }

  /** The sentence split around "generate", so that its whole-word position
      follows from `WholeWordBetween`. */
  lemma VerbNounSentenceVerbSplit()
    ensures "please generate a portrait of my dog" == "please " + "generate" + " a portrait of my dog"
  {
  }

  /** The sentence split around "portrait", likewise. */
  lemma VerbNounSentenceNounSplit()
    ensures "please generate a portrait of my dog" == "please generate a " + "portrait" + " of my dog"
  {
  }

  lemma VerbNounSentenceWords()
    ensures WholeWordAt("please generate a portrait of my dog", "generate", 7)
    ensures WholeWordAt("please generate a portrait of my dog", "portrait", 18)
  {
    VerbNounSentenceVerbSplit();
    WholeWordBetween("please ", "generate", " a portrait of my dog");
    VerbNounSentenceNounSplit();
    WholeWordBetween("please generate a ", "portrait", " of my dog");
  }

  /** The verb-and-noun rule: "generate" and "portrait" as whole words. */
  lemma VerbNounSentenceIsImage()
    ensures WantsImage("please generate a portrait of my dog")
  {
    VerbNounSentenceNormalForm();
    VerbNounSentenceWords();
    VerbAndNounMakeImage("please generate a portrait of my dog", "generate", 7, "portrait", 18);
  }

  lemma PhraseSentenceNormalForm()
    ensures Normalize("picture of a sunset") == "picture of a sunset"
  {
    var s := "picture of a sunset";
    LowerOfLowercase(s);
    StripUnique(s, 0, |s|);
  }

  /** The sentence split around "picture of", so that its occurrence follows
      from `OccursBetween`. */
  lemma PhraseSentenceSplit()
    ensures "picture of a sunset" == "" + "picture of" + " a sunset"
  {
  }

  /** The short-phrase rule: "picture of". */
  lemma PhraseSentenceIsImage()
    ensures WantsImage("picture of a sunset")
  {
    PhraseSentenceNormalForm();
    PhraseSentenceSplit();
    OccursBetween("", "picture of", " a sunset");
    PhraseMakesImage("picture of a sunset", "picture of", 0);
  }

  lemma EmbeddedVerbFacts()
    ensures Normalize("redraw it") == "redraw it"
    ensures OccursAt("redraw it", "draw ", 2)
    ensures !WholeWordAt("redraw it", "draw", 2)
  {
    var s := "redraw it";
    LowerOfLowercase(s);
    StripUnique(s, 0, |s|);
    EmbeddedVerbSplit();
    OccursBetween("re", "draw ", "it");
  }

  /** The text split around "draw ", so that its occurrence follows from
      `OccursBetween`. */
  lemma EmbeddedVerbSplit()
    ensures "redraw it" == "re" + "draw " + "it"
  {
  }

  /** "draw" inside "redraw" is not a whole word, yet "redraw it" is still an
      image request: the phrase "draw " is matched as a plain substring. */
  lemma EmbeddedVerbStillTriggersPhrase()
    ensures !WholeWordAt("redraw it", "draw", 2)
    ensures WantsImage("redraw it")
  {
    EmbeddedVerbFacts();
    PhraseMakesImage("redraw it", "draw ", 2);
  }

  lemma PlainStatementNormalForm()
    ensures Normalize("i like cats") == "i like cats"
  {
    var s := "i like cats";
    LowerOfLowercase(s);
    StripUnique(s, 0, |s|);
  }

  lemma PlainStatementHasNoPrefix()
    ensures !HasPrefix("i like cats", Prefixes)
  {
    var s := "i like cats";
    MissingCharNoOccurrence(s, "image:", 'm');
    MissingCharNoOccurrence(s, "picture:", 'p');
    MissingCharNoOccurrence(s, "photo:", 'p');
    assert !OccursAt(s, "image:", 0) && !OccursAt(s, "picture:", 0) && !OccursAt(s, "photo:", 0);
  }

  lemma PlainStatementHasNoNoun()
    ensures !MentionsWord("i like cats", Nouns)
  {
    var s := "i like cats";
    MissingCharNoOccurrence(s, "image", 'm');
    MissingCharNoOccurrence(s, "picture", 'p');
    MissingCharNoOccurrence(s, "photo", 'p');
    MissingCharNoOccurrence(s, "portrait", 'p');
    MissingCharNoOccurrence(s, "illustration", 'o');
    MissingCharNoOccurrence(s, "render", 'r');
  }

  lemma PlainStatementHasNoPhrase()
    ensures !MentionsPhrase("i like cats", ShortTriggers)
  {
    PlainStatementLacksVerbPhrases();
    PlainStatementLacksNounPhrases();
  }

  lemma PlainStatementLacksVerbPhrases()
    ensures forall i :: !OccursAt("i like cats", "draw ", i)
    ensures forall i :: !OccursAt("i like cats", "create ", i)
    ensures forall i :: !OccursAt("i like cats", "generate ", i)
  {
    var s := "i like cats";
    MissingCharNoOccurrence(s, "draw ", 'd');
    MissingCharNoOccurrence(s, "create ", 'r');
    MissingCharNoOccurrence(s, "generate ", 'g');
  }

  lemma PlainStatementLacksNounPhrases()
    ensures forall i :: !OccursAt("i like cats", "image of", i)
    ensures forall i :: !OccursAt("i like cats", "picture of", i)
    ensures forall i :: !OccursAt("i like cats", "photo of", i)
  {
    var s := "i like cats";
    MissingCharNoOccurrence(s, "image of", 'm');
    MissingCharNoOccurrence(s, "picture of", 'p');
    MissingCharNoOccurrence(s, "photo of", 'p');
  }

  /** A plain statement with no trigger is not an image request. */
  lemma PlainStatementIsText()
    ensures !WantsImage("i like cats")
  {
    PlainStatementNormalForm();
    PlainStatementHasNoPrefix();
    PlainStatementHasNoNoun();
    PlainStatementHasNoPhrase();
    OnlyRulesMakeImage("i like cats");
  }
}
