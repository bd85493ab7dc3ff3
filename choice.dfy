/** The three hand shapes, the cyclic "beats" relation between them and their announcements. */
module MukjjippaChoices {
  import opened Wrappers
  import K = MukjjippaConstants

  datatype MukjjippaChoice = ROCK | SCISSORS | PAPER

  /** The one-syllable label shown on a choice button. */
  function DisplayName(c: MukjjippaChoice): string
  {
    match c
    case ROCK => "묵"
    case SCISSORS => "찌"
    case PAPER => "빠"
  }

  /** The attacker's call announced during the sudden-death countdown. */
  function CountdownMessage(c: MukjjippaChoice): (m: string)
    ensures m == K.MUKJJIPPA_ROCK || m == K.MUKJJIPPA_SCISSORS || m == K.MUKJJIPPA_PAPER
    ensures m != ""
  {
    match c
    case ROCK => "묵에"
    case SCISSORS => "찌에"
    case PAPER => "빠에"
  }

  /** `a` wins against `b` under rock > scissors > paper > rock. */
  predicate Beats(a: MukjjippaChoice, b: MukjjippaChoice)
  {
    match a
    case ROCK => b == SCISSORS
    case SCISSORS => b == PAPER
    case PAPER => b == ROCK
  }

  /** The enum constant's name, as stored in a document. */
  function Name(c: MukjjippaChoice): string
  {
    match c
    case ROCK => "ROCK"
    case SCISSORS => "SCISSORS"
    case PAPER => "PAPER"
  }

  /** `MukjjippaChoice.valueOf`: the constant with this exact name, or a failure for any other text. */
  function ChoiceFromName(name: string): (r: Option<MukjjippaChoice>)
    ensures r.Some? ==> Name(r.value) == name
    ensures forall c :: Name(c) == name ==> r == Some(c)
  {
    if name == "ROCK" then Some(ROCK)
    else if name == "SCISSORS" then Some(SCISSORS)
    else if name == "PAPER" then Some(PAPER)
    else None
  }

  /** No shape beats itself, and of two different shapes exactly one beats the other. */
  lemma BeatsIsTournament(a: MukjjippaChoice, b: MukjjippaChoice)
    ensures !Beats(a, a)
    ensures a != b ==> (Beats(a, b) <==> !Beats(b, a))
  {
  }

  /** Each shape beats exactly one shape and is beaten by exactly one shape. */
  lemma BeatsExactlyOne(a: MukjjippaChoice)
    ensures exists b :: Beats(a, b)
    ensures forall b, c :: Beats(a, b) && Beats(a, c) ==> b == c
    ensures exists b :: Beats(b, a)
    ensures forall b, c :: Beats(b, a) && Beats(c, a) ==> b == c
  {
    match a
    case ROCK => assert Beats(ROCK, SCISSORS) && Beats(PAPER, ROCK);
    case SCISSORS => assert Beats(SCISSORS, PAPER) && Beats(ROCK, SCISSORS);
    case PAPER => assert Beats(PAPER, ROCK) && Beats(SCISSORS, PAPER);
  }

  /** The relation is a cycle: it is not transitive. */
  lemma BeatsIsCyclic()
    ensures Beats(ROCK, SCISSORS) && Beats(SCISSORS, PAPER) && Beats(PAPER, ROCK)
    ensures !Beats(ROCK, PAPER)
  {
  }

  /** Different shapes are announced differently, each by its constant. */
  lemma CountdownMessageInjective(a: MukjjippaChoice, b: MukjjippaChoice)
    ensures CountdownMessage(a) == CountdownMessage(b) ==> a == b
    ensures CountdownMessage(ROCK) == K.MUKJJIPPA_ROCK
    ensures CountdownMessage(SCISSORS) == K.MUKJJIPPA_SCISSORS
    ensures CountdownMessage(PAPER) == K.MUKJJIPPA_PAPER
  {
  }

  /** Decoding a stored name gives back the shape. */
  lemma ChoiceNameRoundTrip(c: MukjjippaChoice)
    ensures ChoiceFromName(Name(c)) == Some(c)
  {
  }
}
