/**
 * The iterated digest of `hash_token` (lib/active_token.rb:84-89) and the token it yields.
 */
module TokenDigest {
  import opened Wrappers
  import opened TokenSettings
  import opened TokenContents

  /**
   * The digest library: `hexdigest(algorithm, text)` is the hexadecimal digest of `text` by the
   * algorithm of that name. It is a parameter because the algorithms are not part of this model.
   */
  type HexDigest = (string, string) -> string

  /**
   * `rounds.times { h = alg.hexdigest(h) }` started from `text`: the digest applied `rounds` times
   * in a chain. `Integer#times` does nothing for a count of zero or less.
   */
  function DigestRounds(hexdigest: HexDigest, algorithm: string, rounds: int, text: string): string
    decreases rounds
  {
    if rounds <= 0 then text
    else hexdigest(algorithm, DigestRounds(hexdigest, algorithm, rounds - 1, text))
  }

  /** The token of a record: its collected contents digested `config.rounds` times by `config.digest`. */
  function Token(config: Config, record: Attributes, hexdigest: HexDigest): Result<string, Error>
  {
    match CollectContents(config, record)
    case Failure(e) => Failure(e)
    case Success(contents) => Success(DigestRounds(hexdigest, config.digest, config.rounds, contents))
  }

  /** Zero rounds (or fewer) leave the text unchanged. */
  lemma DigestRoundsZero(hexdigest: HexDigest, algorithm: string, rounds: int, text: string)
    requires rounds <= 0
    ensures DigestRounds(hexdigest, algorithm, rounds, text) == text
  {
  }

  /** One more round digests the previous round's output. */
  lemma DigestRoundsStep(hexdigest: HexDigest, algorithm: string, rounds: nat, text: string)
    ensures DigestRounds(hexdigest, algorithm, rounds + 1, text)
      == hexdigest(algorithm, DigestRounds(hexdigest, algorithm, rounds, text))
  {
  }

  /** Rounds compose: `a` rounds over the output of `b` rounds are `a + b` rounds. */
  lemma {:induction false} DigestRoundsAdd(hexdigest: HexDigest, algorithm: string, a: nat, b: nat, text: string)
    ensures DigestRounds(hexdigest, algorithm, a + b, text)
      == DigestRounds(hexdigest, algorithm, a, DigestRounds(hexdigest, algorithm, b, text))
  {
    if a > 0 {
      DigestRoundsAdd(hexdigest, algorithm, a - 1, b, text);
    }
  }

  /** The chain seen from its start: the first round digests the text, the rest digest that output. */
  lemma {:induction false} DigestRoundsFirst(hexdigest: HexDigest, algorithm: string, rounds: nat, text: string)
    ensures DigestRounds(hexdigest, algorithm, rounds + 1, text)
      == DigestRounds(hexdigest, algorithm, rounds, hexdigest(algorithm, text))
  {
    DigestRoundsAdd(hexdigest, algorithm, rounds, 1, text);
  }

  /** A class configured with zero rounds (or fewer) gets its collected contents as the token. */
  lemma TokenWithoutRounds(config: Config, record: Attributes, hexdigest: HexDigest)
    requires config.rounds <= 0
    ensures Token(config, record, hexdigest) == CollectContents(config, record)
  {
  }

  /**
   * Raising the round count by one digests the previous token once more; nothing else about the
   * token changes.
   */
  lemma TokenRoundsStep(config: Config, record: Attributes, hexdigest: HexDigest)
    requires config.rounds >= 0
    ensures Token(config.(rounds := config.rounds + 1), record, hexdigest).Success?
      <==> Token(config, record, hexdigest).Success?
    ensures Token(config, record, hexdigest).Success? ==>
      Token(config.(rounds := config.rounds + 1), record, hexdigest).value
        == hexdigest(config.digest, Token(config, record, hexdigest).value)
  {
  }

  /**
   * Writing a token into the token column does not change the token, as long as the column is
   * not one of the sources and the block does not read it: assigning the token twice writes the
   * same value both times.
   */
  lemma TokenIgnoresItsOwnColumn(config: Config, record: Attributes, hexdigest: HexDigest, token: string)
    requires forall i :: 0 <= i < |config.madeOf| ==> config.madeOf[i] != Attr(config.field)
    requires BlockValues(config, record[config.field := Some(token)]) == BlockValues(config, record)
    ensures Token(config, record[config.field := Some(token)], hexdigest) == Token(config, record, hexdigest)
  {
    var written := record[config.field := Some(token)];
    forall i | 0 <= i < |config.madeOf|
      ensures Resolve(config.madeOf[i], written) == Resolve(config.madeOf[i], record)
    {
    }
    ContentsDependOnlyOnSources(config, written, record);
  }
}
