/**
 * The instance methods `has_token` mixes into a model class (lib/active_token.rb:71-107),
 * on a record whose attributes are updated in place.
 */
module TokenRecord {
  import opened Wrappers
  import opened TokenSettings
  import opened TokenContents
  import opened TokenDigest

  class Record {
    /** The record's in-memory attribute values, by name. */
    var attributes: Attributes

    constructor (initial: Attributes)
      ensures attributes == initial
    {
      attributes := initial;
    }

    /**
     * `hash_token(s)`: the argument is never read. The method collects the record's contents
     * itself and digests them `config.rounds` times in a chain, so the result is the same for
     * every `s`.
     */
    method HashToken(s: string, config: Config, hexdigest: HexDigest) returns (r: Result<string, Error>)
      ensures r.Success? <==> CollectContents(config, attributes).Success?
      ensures r.Failure? ==> r.error == CollectContents(config, attributes).error
      ensures r.Success? ==>
        r.value == DigestRounds(hexdigest, config.digest, config.rounds, CollectContents(config, attributes).value)
    {
      var contents := CollectContents(config, attributes);
      if contents.Failure? {
        return Failure(contents.error);
      }
      var h := contents.value;
      var i := 0;
      while i < config.rounds
        invariant i == 0 || i <= config.rounds
        invariant h == DigestRounds(hexdigest, config.digest, i, contents.value)
      {
        h := hexdigest(config.digest, h);
        i := i + 1;
      }
      r := Success(h);
    }

    /** `build_token`: `hash_token` given the collected contents, that is, the record's token. */
    method BuildToken(config: Config, hexdigest: HexDigest) returns (r: Result<string, Error>)
      ensures r == Token(config, attributes, hexdigest)
    {
      var contents := CollectContents(config, attributes);
      if contents.Failure? {
        return Failure(contents.error);
      }
      r := HashToken(contents.value, config, hexdigest);
    }

    /**
     * `assign_token`: writes the freshly built token into the configured column and touches no
     * other attribute. When collection raises, nothing is written.
     */
    method AssignToken(config: Config, hexdigest: HexDigest) returns (r: Result<string, Error>)
      modifies this
      ensures r == Token(config, old(attributes), hexdigest)
      ensures r.Success? ==> config.field in attributes && attributes[config.field] == Some(r.value)
      ensures r.Success? ==> attributes.Keys == old(attributes).Keys + {config.field}
      ensures r.Failure? ==> attributes == old(attributes)
      ensures forall name :: name in old(attributes) && name != config.field ==>
        name in attributes && attributes[name] == old(attributes)[name]
    {
      r := BuildToken(config, hexdigest);
      if r.Success? {
        attributes := attributes[config.field := Some(r.value)];
      }
    }
  }
}
