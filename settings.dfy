/**
 * The class-level settings that `has_token` records for a model class
 * (lib/active_token.rb:43-67), as one immutable value.
 */
module TokenSettings {
  import opened Wrappers

  // Factory settings
  const DefaultDigestAlgorithm: string := "SHA1"
  const DefaultGlue: string := "///"
  const DefaultNumberOfRounds: int := 2
  const DefaultField: string := "token"

  /**
   * What a record answers, by name, when one of its attributes or zero-argument methods is
   * sent to it: `None` is Ruby's nil. A name that is not a key is one the record does not answer.
   */
  type Attributes = map<string, Option<string>>

  /** An element of `made_of`: a symbol sent to the record, or a constant used through `to_s`. */
  datatype Source = Literal(text: string) | Attr(name: string)

  /**
   * The optional block, evaluated in the record's context. Its values are already rendered
   * through `to_s`; a block returning one value behaves as one returning a one-element array,
   * because its result is flattened.
   */
  type Block = Attributes -> seq<string>

  /** The options hash given to `has_token`; `None` is a missing (or nil) key. */
  datatype Options = Options(
    field: Option<string>,
    madeOf: Option<seq<Source>>,
    joinWith: Option<string>,
    digest: Option<string>,
    rounds: Option<int>,
    update: bool)

  /** `has_token` called with an empty options hash. */
  const NoOptions: Options := Options(None, None, None, None, None, false)

  /**
   * The settings of one model class: the token column, the digest algorithm's name, the token
   * sources, the number of rounds, the glue, the block, and whether updates re-derive the token.
   */
  datatype Config = Config(
    field: string,
    digest: string,
    madeOf: seq<Source>,
    rounds: int,
    glue: string,
    block: Option<Block>,
    updateOnChange: bool)

  /** `has_token(options, &block)`: each option that is given wins, every other one takes its default. */
  function HasToken(options: Options, block: Option<Block>): Config
  {
    Config(
      field := options.field.GetOr(DefaultField),
      digest := options.digest.GetOr(DefaultDigestAlgorithm),
      madeOf := options.madeOf.GetOr([]),
      rounds := options.rounds.GetOr(DefaultNumberOfRounds),
      glue := options.joinWith.GetOr(DefaultGlue),
      block := block,
      updateOnChange := options.update)
  }

  /** With no options the token goes to "token", is made of nothing, glued by "///", hashed twice by SHA1. */
  lemma DefaultSettings(block: Option<Block>)
    ensures HasToken(NoOptions, block).field == "token"
    ensures HasToken(NoOptions, block).madeOf == []
    ensures HasToken(NoOptions, block).glue == "///"
    ensures HasToken(NoOptions, block).digest == "SHA1"
    ensures HasToken(NoOptions, block).rounds == 2
    ensures !HasToken(NoOptions, block).updateOnChange
  {
  }

  /** Every option that is given overrides its default, and every option left out keeps it. */
  lemma OptionsOverrideDefaults(options: Options, block: Option<Block>)
    ensures options.field.Some? ==> HasToken(options, block).field == options.field.value
    ensures options.field.None? ==> HasToken(options, block).field == DefaultField
    ensures options.madeOf.Some? ==> HasToken(options, block).madeOf == options.madeOf.value
    ensures options.madeOf.None? ==> HasToken(options, block).madeOf == []
    ensures options.joinWith.Some? ==> HasToken(options, block).glue == options.joinWith.value
    ensures options.joinWith.None? ==> HasToken(options, block).glue == DefaultGlue
    ensures options.digest.Some? ==> HasToken(options, block).digest == options.digest.value
    ensures options.digest.None? ==> HasToken(options, block).digest == DefaultDigestAlgorithm
    ensures options.rounds.Some? ==> HasToken(options, block).rounds == options.rounds.value
    ensures options.rounds.None? ==> HasToken(options, block).rounds == DefaultNumberOfRounds
    ensures HasToken(options, block).block == block
    ensures HasToken(options, block).updateOnChange <==> options.update
  {
  }
}
