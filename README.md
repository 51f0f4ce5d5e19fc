# active_token token derivation, in Dafny

ActiveToken is a Ruby mixin for ActiveRecord models. A model class declares
`has_token` with a few options. Each record of that class then gets an opaque
token column. The token is built by collecting clear-text pieces of the record,
joining them with a glue string, and running a digest algorithm over the
result a number of times in a chain.

This project models that derivation:

- `settings.dfy` (module `TokenSettings`): the factory settings and
  `has_token`, which builds an immutable `Config` from the options hash and
  the optional block. The class-level accessors it sets become fields of that
  value.
- `array_join.dfy` (module `ArrayJoin`): Ruby's `Array#join` on a flat array
  of strings, with its length law and layout lemmas.
- `contents.dfy` (module `TokenContents`): `collect_token_contents`. Each
  `made_of` element is resolved in declared order: a literal verbatim, a
  symbol as the record's current value, and nil as the empty string. The
  block's values come after them, and everything is joined with the glue. A
  symbol the record does not answer raises Ruby's `NoMethodError`; here that
  is the `NoSuchAttribute` error.
- `digest_rounds.dfy` (module `TokenDigest`): the chained digest of
  `hash_token`, and `Token`, the token a record gets under a configuration.
  The digest library is a parameter `HexDigest = (algorithm name, text) -> hex
  text`. Nothing is assumed about it beyond being a function.
- `record.dfy` (module `TokenRecord`): a `Record` class whose attribute map is
  updated in place. Its methods are `HashToken` (the `rounds.times` loop),
  `BuildToken` and `AssignToken` (`write_attribute` into the token column).
- `examples.dfy` (module `TokenExamples`): the three model classes of the
  test suite, with the contents and tokens their records get.
- `wrappers.dfy` (module `Wrappers`): `Option` (Ruby's nil, missing options)
  and `Result` (the exception a failed collection raises).

Where the code and its documentation differ, the model follows the code:

- `hash_token(s)` never reads `s`. It collects the record's contents again
  itself (lib/active_token.rb:86). `Record.HashToken` keeps the parameter, and
  its contract does not mention it.
- Nothing validates the round count. `Integer#times` runs zero times for a
  count of zero or less, so such a count yields the collected contents
  unchanged (`TokenDigest.TokenWithoutRounds`).
- Nothing validates the digest name when `has_token` runs beyond the
  library's own constant lookup. No error of this component is invented for
  it.

## Model

| member | source | states |
|---|---|---|
| `TokenSettings.DefaultSettings` | lib/active_token.rb:6-66 | With no options the token column is "token", `made_of` is empty, the glue is "///", the digest is SHA1, rounds are 2, and updates do not re-derive the token |
| `TokenSettings.OptionsOverrideDefaults` | lib/active_token.rb:43-61 | Each option that is given replaces its default, and each one left out keeps it; the block and the update flag are kept as given |
| `ArrayJoin.Join` | lib/active_token.rb:79 | Joining n >= 1 segments gives a string as long as all segments plus n - 1 glues |
| `ArrayJoin.JoinAround` | lib/active_token.rb:79 | Segment i stands between the join of the earlier segments plus one glue and one glue plus the join of the later segments (nothing on the side where there are none), so an empty segment keeps its slot |
| `ArrayJoin.JoinConcat` | lib/active_token.rb:76-79 | Joining two non-empty arrays one after the other equals their separate joins with exactly one glue between them |
| `TokenContents.ResolveAll` | lib/active_token.rb:75 | Mapping `made_of` succeeds exactly when every symbol names something the record answers; the result then has one segment per source, in order (literal verbatim, symbol as the current value, nil as ""); otherwise the error names the first unresolvable symbol |
| `TokenContents.CollectedSegments` | lib/active_token.rb:74-80 | When every source resolves, the joined array is the `made_of` segments in declared order followed by the block's values, and the contents are that array joined with the glue |
| `TokenContents.CollectFailsOnFirstUnknownName` | lib/active_token.rb:75 | Collection fails exactly when some symbol names nothing the record answers, and the error carries the first such name |
| `TokenContents.NilAttributeKeepsItsSlot` | lib/active_token.rb:75-79 | A nil attribute yields an empty segment at its own index, and the segment count is unchanged |
| `TokenContents.BlockComesLast` | lib/active_token.rb:76-79 | With both parts non-empty, the contents are the joined `made_of` segments, one glue, then the block's values joined, each value its own segment |
| `TokenContents.BlockAlone` | lib/active_token.rb:74-79 | With an empty `made_of` the contents are the block's values joined; a single value is the contents exactly, with no glue |
| `TokenContents.ContentsDependOnlyOnSources` | lib/active_token.rb:74-80 | Two records whose sources resolve alike and whose block values agree collect the same contents |
| `TokenDigest.DigestRoundsZero` | lib/active_token.rb:87 | Zero rounds, or fewer, leave the text unchanged |
| `TokenDigest.DigestRoundsStep` | lib/active_token.rb:87 | Round r + 1 digests the output of round r |
| `TokenDigest.DigestRoundsAdd` | lib/active_token.rb:87 | a rounds run over the output of b rounds equal a + b rounds |
| `TokenDigest.DigestRoundsFirst` | lib/active_token.rb:87 | The first round digests the text itself and every later round digests the previous output |
| `TokenDigest.TokenWithoutRounds` | lib/active_token.rb:84-89 | With a round count of zero or less the token is the collected contents |
| `TokenDigest.TokenRoundsStep` | lib/active_token.rb:84-89 | Raising the round count by one digests the previous token once more, and fails exactly when it fails |
| `TokenDigest.TokenIgnoresItsOwnColumn` | lib/active_token.rb:92-99 | If the token column is not a source and the block does not read it, writing a token there leaves the token unchanged, so assigning twice writes the same value |
| `TokenRecord.Record.HashToken` | lib/active_token.rb:84-89 | The result is the record's collected contents digested `rounds` times in a chain, or the collection error; the argument `s` plays no part |
| `TokenRecord.Record.BuildToken` | lib/active_token.rb:92-94 | The result is the record's token under the configuration, the same as `hash_token` gives for any argument |
| `TokenRecord.Record.AssignToken` | lib/active_token.rb:97-99 | The token column now holds the record's token as it was before the call; no other attribute is added, removed or changed; on a collection error nothing changes |
| `TokenExamples.UserSettings` | test/active_token_test.rb:31-36 | The user class keeps the default column, glue, digest and rounds |
| `TokenExamples.DocumentSettings` | test/active_token_test.rb:38-51 | The document class takes column "key", digest MD5, 5 rounds and re-derives on update |
| `TokenExamples.UserContents` | test/active_token_test.rb:65-67 | The salt, "rachel" and "unicorn" joined by "///" |
| `TokenExamples.UserContentsWithNilUsername` | test/active_token_test.rb:114-118 | A nil username leaves two glues with nothing between them |
| `TokenExamples.UserToken` | test/active_token_test.rb:80-83 | The user's token is SHA1 applied twice to the collected contents |
| `TokenExamples.DocumentContents` | test/active_token_test.rb:69-71 | A block alone returning one string gives that string, with no glue |
| `TokenExamples.InvitationContents` | test/active_token_test.rb:73-78 | The id, email and creation time, then 1, 2 and "three", each its own segment, all joined by "---" |
| `TokenExamples.UnknownNameFails` | lib/active_token.rb:75 | A record that does not answer `username` makes collection fail with that name |

## Left out

- Lifecycle wiring is not modelled: `self.included`, `send :include`, `after_create :assign_token!`, `after_validation_on_update :assign_token` and the global `ActiveRecord::Base.send :include`. This is dispatch by the host framework. The `update` option is recorded in `Config.updateOnChange`, but the hook it installs is not modelled.
- Overriding `hash_token` in a model class is not modelled. `BuildToken` and `AssignToken` always use the default digest chain.
- `assign_token!` is `AssignToken` followed by `save!`. Persistence is I/O of the host framework and is not modelled.
- The digest algorithms and `Digest.const_get` are the Digest library. The digest is the parameter `HexDigest`. The `NameError` an unknown algorithm name raises inside `has_token`, and the length of hex digests, are properties of that library.
- Reassigning a class's settings later through the `cattr_accessor` writers is not modelled. A configuration is a value passed to each operation.
- `self.send` is a lookup in the attribute map. Readers with side effects, and methods that raise, are not modelled.
- `to_s` of arbitrary objects (times, integers) is not modelled: values are already strings. An attribute whose value is itself an array is also not modelled; `flatten` would split it into several segments.
- The block is a pure function of the record's attributes that returns a flat array of strings. Nested arrays, exceptions raised inside the block, and non-deterministic blocks (`Time.now`, `rand`) are not modelled. So `build_token` collecting the contents twice (once for its argument, once inside `hash_token`) is not observable here.
- Ruby's `||` also treats an option given as `false` as absent. Options here are typed, so only absent options take defaults. Non-integer round counts are not modelled.
