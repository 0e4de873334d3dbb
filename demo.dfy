/**
 * `SeinfeldRAGTool._get_demo_response`: the fixed demo-mode answer, with the
 * lower-case `[topic]` placeholder replaced by the query's first word (or by
 * `this` for an empty query).
 */
module DemoResponse {
  import opened Wrappers
  import opened PyStr

  const Placeholder: string := "[topic]"
  /** Spelled with a capital T; `replace` is case-sensitive and leaves it alone. */
  const Capitalised: string := "[Topic]"
  const DefaultTopic: string := "this"

  // The text of `demo_dialogues["default"]`, cut at its four `[topic]`
  // placeholders. Each piece is written as short literals, so that each
  // "no `[` in this text" check stays small enough for the solver.

  const Piece0a: string :=
    "\n" +
    "## Seinfeld Script " + "Search Results " + "(Demo Mode)\n"

  const Piece0b: string :=
    "**Note:** Running " + "in demo mode - " + "Couchbase " + "connection not " + "available.\n" +
    "\n" +
    "### Example 1 - " + "Jerry's Apartment\n"

  const Piece0c: string :=
    "**Context:** " + "Classic " + "observational " + "comedy setup\n" +
    "\n" +
    "```\n" +
    "JERRY: See, that's " + "the thing about "

  const Piece1a: string :=
    ". Everyone acts " + "like it's normal, \n"

  const Piece1b: string :=
    "but have you ever " + "really thought " + "about it? I mean, " + "really thought " + "about it?\n" +
    "\n"

  const Piece1c: string :=
    "GEORGE: What's " + "there to think " + "about? It's "

  const Piece2a: string :=
    "!\n" +
    "\n" +
    "JERRY: Exactly! " + "That's my point. We " + "just accept it.\n" +
    "\n"

  const Piece2b: string :=
    "GEORGE: (getting " + "agitated) Well what " + "am I supposed to " + "do, Jerry? Question " + "\n"

  const Piece2c: string :=
    "everything? I've " + "got enough " + "problems!\n" +
    "```\n" +
    "\n" +
    "### Example 2 - " + "Monk's Coffee Shop\n"

  const Piece2d: string :=
    "**Context:** " + "George's paranoid " + "interpretation\n" +
    "\n" +
    "```\n" +
    "GEORGE: You know " + "what I think? I " + "think this whole "

  const Piece3Beforea: string :=
    " thing is a " + "conspiracy.\n" +
    "\n" +
    "ELAINE: George, not " + "everything is a " + "conspiracy.\n" +
    "\n"

  const Piece3Beforeb: string :=
    "GEORGE: That's " + "exactly what they " + "want you to think!\n" +
    "\n"

  const Piece3Beforec: string :=
    "KRAMER: (sliding " + "into booth) I'm " + "telling you, I've " + "been saying this " + "for years. \n"

  const Piece3Aftera: string :=
    "! It's all " + "connected!\n" +
    "\n" +
    "JERRY: Here we go.\n" +
    "```\n" +
    "\n" +
    "### Example 3 - " + "Jerry's Apartment\n"

  const Piece3Afterb: string :=
    "**Context:** " + "Kramer's " + "enthusiastic scheme\n" +
    "\n" +
    "```\n" +
    "KRAMER: Jerry! " + "Jerry! You're not " + "gonna believe this!\n" +
    "\n"

  const Piece3Afterc: string :=
    "JERRY: What now?\n" +
    "\n" +
    "KRAMER: I've " + "figured out the " + "whole "

  const Piece4a: string :=
    " situation. It's " + "genius!\n" +
    "\n" +
    "JERRY: Kramer, the " + "last time you had a " + "genius idea, you " + "ended up in the \n"

  const Piece4b: string :=
    "Hudson River.\n" +
    "\n" +
    "KRAMER: That was " + "different. That was " + "a miscalculation. " + "This? This is " + "foolproof!\n" +
    "\n"

  const Piece4c: string :=
    "JERRY: (to camera) " + "Nothing's foolproof " + "when it comes to " + "Kramer.\n" +
    "```\n" +
    "\n" +
    "---\n"

  const Piece4d: string :=
    "Use these examples " + "as templates for " + "the style, rhythm, " + "and character " + "voices.\n"

  const Piece0: string := Piece0a + Piece0b + Piece0c

  const Piece1: string := Piece1a + Piece1b + Piece1c

  const Piece2: string := Piece2a + Piece2b + Piece2c + Piece2d

  const Piece3Before: string := Piece3Beforea + Piece3Beforeb + Piece3Beforec

  const Piece3After: string := Piece3Aftera + Piece3Afterb + Piece3Afterc

  const Piece3: string := Piece3Before + Capitalised + Piece3After

  const Piece4: string := Piece4a + Piece4b + Piece4c + Piece4d

  const Pieces: seq<string> := [Piece0, Piece1, Piece2, Piece3, Piece4]

  /** `demo_dialogues["default"]`. */
  const Template: string := Join(Pieces, Placeholder)

  /** `query.split()[0] if query else "this"`. */
  function Topic(query: string): (r: Result<string, PyException>)
    ensures r.Err? <==> query != [] && Blank(query)
    ensures r.Err? ==> r.error == IndexError
    ensures query == [] ==> r == Ok(DefaultTopic)
    ensures r.Ok? && query != [] ==> r.value == Split(query)[0]
  {
    if query == [] then Ok(DefaultTopic)
    else
      var words := Split(query);
      if words == [] then Err(IndexError) else Ok(words[0])
  }

  /** `_get_demo_response(query)`: the template with every `[topic]` replaced by the topic. */
  function Demo(query: string): (r: Result<string, PyException>)
    ensures r.Err? <==> query != [] && Blank(query)
  {
    match Topic(query)
    case Err(e) => Err(e)
    case Ok(topic) => Ok(Replace(Template, Placeholder, topic))
  }

  // Every part of the template is free of '[', so none can start a `[topic]`
  // match. One lemma per part keeps each check on literal text small.
  lemma Piece0aInert() ensures Inert(Piece0a, Placeholder) { InertWithoutFirstChar(Piece0a, Placeholder); }
  lemma Piece0bInert() ensures Inert(Piece0b, Placeholder) { InertWithoutFirstChar(Piece0b, Placeholder); }
  lemma Piece0cInert() ensures Inert(Piece0c, Placeholder) { InertWithoutFirstChar(Piece0c, Placeholder); }
  lemma Piece1aInert() ensures Inert(Piece1a, Placeholder) { InertWithoutFirstChar(Piece1a, Placeholder); }
  lemma Piece1bInert() ensures Inert(Piece1b, Placeholder) { InertWithoutFirstChar(Piece1b, Placeholder); }
  lemma Piece1cInert() ensures Inert(Piece1c, Placeholder) { InertWithoutFirstChar(Piece1c, Placeholder); }
  lemma Piece2aInert() ensures Inert(Piece2a, Placeholder) { InertWithoutFirstChar(Piece2a, Placeholder); }
  lemma Piece2bInert() ensures Inert(Piece2b, Placeholder) { InertWithoutFirstChar(Piece2b, Placeholder); }
  lemma Piece2cInert() ensures Inert(Piece2c, Placeholder) { InertWithoutFirstChar(Piece2c, Placeholder); }
  lemma Piece2dInert() ensures Inert(Piece2d, Placeholder) { InertWithoutFirstChar(Piece2d, Placeholder); }
  lemma Piece3BeforeaInert() ensures Inert(Piece3Beforea, Placeholder) { InertWithoutFirstChar(Piece3Beforea, Placeholder); }
  lemma Piece3BeforebInert() ensures Inert(Piece3Beforeb, Placeholder) { InertWithoutFirstChar(Piece3Beforeb, Placeholder); }
  lemma Piece3BeforecInert() ensures Inert(Piece3Beforec, Placeholder) { InertWithoutFirstChar(Piece3Beforec, Placeholder); }
  lemma Piece3AfteraInert() ensures Inert(Piece3Aftera, Placeholder) { InertWithoutFirstChar(Piece3Aftera, Placeholder); }
  lemma Piece3AfterbInert() ensures Inert(Piece3Afterb, Placeholder) { InertWithoutFirstChar(Piece3Afterb, Placeholder); }
  lemma Piece3AftercInert() ensures Inert(Piece3Afterc, Placeholder) { InertWithoutFirstChar(Piece3Afterc, Placeholder); }
  lemma Piece4aInert() ensures Inert(Piece4a, Placeholder) { InertWithoutFirstChar(Piece4a, Placeholder); }
  lemma Piece4bInert() ensures Inert(Piece4b, Placeholder) { InertWithoutFirstChar(Piece4b, Placeholder); }
  lemma Piece4cInert() ensures Inert(Piece4c, Placeholder) { InertWithoutFirstChar(Piece4c, Placeholder); }
  lemma Piece4dInert() ensures Inert(Piece4d, Placeholder) { InertWithoutFirstChar(Piece4d, Placeholder); }

  lemma Piece0Inert()
    ensures Inert(Piece0, Placeholder)
  {
    Piece0aInert();
    Piece0bInert();
    Piece0cInert();
    InertAppend(Piece0a, Piece0b, Placeholder);
    InertAppend(Piece0a + Piece0b, Piece0c, Placeholder);
  }

  lemma Piece1Inert()
    ensures Inert(Piece1, Placeholder)
  {
    Piece1aInert();
    Piece1bInert();
    Piece1cInert();
    InertAppend(Piece1a, Piece1b, Placeholder);
    InertAppend(Piece1a + Piece1b, Piece1c, Placeholder);
  }

  lemma Piece2Inert()
    ensures Inert(Piece2, Placeholder)
  {
    Piece2aInert();
    Piece2bInert();
    Piece2cInert();
    Piece2dInert();
    InertAppend(Piece2a, Piece2b, Placeholder);
    InertAppend(Piece2a + Piece2b, Piece2c, Placeholder);
    InertAppend(Piece2a + Piece2b + Piece2c, Piece2d, Placeholder);
  }

  lemma Piece3BeforeInert()
    ensures Inert(Piece3Before, Placeholder)
  {
    Piece3BeforeaInert();
    Piece3BeforebInert();
    Piece3BeforecInert();
    InertAppend(Piece3Beforea, Piece3Beforeb, Placeholder);
    InertAppend(Piece3Beforea + Piece3Beforeb, Piece3Beforec, Placeholder);
  }

  lemma Piece3AfterInert()
    ensures Inert(Piece3After, Placeholder)
  {
    Piece3AfteraInert();
    Piece3AfterbInert();
    Piece3AftercInert();
    InertAppend(Piece3Aftera, Piece3Afterb, Placeholder);
    InertAppend(Piece3Aftera + Piece3Afterb, Piece3Afterc, Placeholder);
  }

  lemma Piece4Inert()
    ensures Inert(Piece4, Placeholder)
  {
    Piece4aInert();
    Piece4bInert();
    Piece4cInert();
    Piece4dInert();
    InertAppend(Piece4a, Piece4b, Placeholder);
    InertAppend(Piece4a + Piece4b, Piece4c, Placeholder);
    InertAppend(Piece4a + Piece4b + Piece4c, Piece4d, Placeholder);
  }

  /** The piece holding `[Topic]` is inert too: its 'T' is not the 't' of `[topic]`. */
  lemma Piece3Inert()
    ensures Inert(Piece3, Placeholder)
  {
    Piece3BeforeInert();
    Piece3AfterInert();
    assert Inert(Capitalised, Placeholder) by {
      assert forall k | 1 <= k < |Capitalised| :: Capitalised[k] != '[';
    }
    InertAppend(Piece3Before, Capitalised, Placeholder);
    InertAppend(Piece3Before + Capitalised, Piece3After, Placeholder);
  }

  /** No piece of the template can start a `[topic]` match, not even the one holding `[Topic]`. */
  lemma PiecesInert()
    ensures forall i | 0 <= i < |Pieces| :: Inert(Pieces[i], Placeholder)
  {
    Piece0Inert();
    Piece1Inert();
    Piece2Inert();
    Piece3Inert();
    Piece4Inert();
  }

  /** The template holds exactly four `[topic]` placeholders. */
  lemma TemplatePlaceholders()
    ensures Count(Template, Placeholder) == 4
  {
    PiecesInert();
    ReplaceJoin(Pieces, Placeholder, Placeholder);
  }

  /**
   * Replacing `[topic]` in the template puts `topic` in each of the four
   * places and nowhere else: the result is the pieces joined by `topic`.
   */
  lemma Substitution(topic: string)
    ensures Replace(Template, Placeholder, topic) == Join(Pieces, topic)
  {
    PiecesInert();
    ReplaceJoin(Pieces, Placeholder, topic);
  }

  /** Unless the topic brings one of its own, no `[topic]` is left in the answer. */
  lemma NoPlaceholderLeft(topic: string)
    requires '[' !in topic
    ensures Count(Replace(Template, Placeholder, topic), Placeholder) == 0
  {
    Substitution(topic);
    PiecesInert();
    InertWithoutFirstChar(topic, Placeholder);
    InertJoin(Pieces, topic, Placeholder);
    InertNoOccurrence(Join(Pieces, topic), Placeholder);
  }

  /** The capitalised `[Topic]` survives in every answer. */
  lemma CapitalisedSurvives(topic: string)
    ensures Contains(Replace(Template, Placeholder, topic), Capitalised)
  {
    Substitution(topic);
    ContainsMiddle(Piece3Before, Capitalised, Piece3After);
    ContainsJoin(Pieces, topic, 3, Capitalised);
  }

  /**
   * The demo answer: the template joined by `this` for an empty query, an
   * `IndexError` for a query of whitespace only, and otherwise the template
   * joined by the query's first word.
   */
  lemma DemoAnswer(query: string)
    ensures query == [] ==> Demo(query) == Ok(Join(Pieces, DefaultTopic))
    ensures query != [] && Blank(query) ==> Demo(query) == Err(IndexError)
    ensures !Blank(query) ==> Demo(query) == Ok(Join(Pieces, Split(query)[0]))
  {
    if Topic(query).Ok? {
      Substitution(Topic(query).value);
    }
  }

  /** The answer depends on the query only through its first word. */
  lemma DemoFirstWordOnly(query: string)
    requires !Blank(query)
    ensures Demo(query) == Demo(Split(query)[0])
  {
    var w := Split(query)[0];
    SplitWords(query, 0);
    SplitOneWord(w);
  }
}
