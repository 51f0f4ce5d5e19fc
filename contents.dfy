/**
 * `collect_token_contents` (lib/active_token.rb:74-80): the clear-text string a token is
 * derived from, built from the record's current attribute values.
 */
module TokenContents {
  import opened Wrappers
  import opened TokenSettings
  import opened ArrayJoin

  /** Sending a name the record does not answer raises Ruby's NoMethodError. */
  datatype Error = NoSuchAttribute(name: string)

  /** A literal always resolves; a symbol resolves when the record answers its name. */
  predicate Resolvable(source: Source, record: Attributes)
  {
    source.Literal? || source.name in record
  }

  /**
   * The text a resolvable source contributes: a literal verbatim, a symbol the record's current
   * value, which `join` renders as the empty string when it is nil.
   */
  function SegmentOf(source: Source, record: Attributes): string
    requires Resolvable(source, record)
  {
    match source
    case Literal(text) => text
    case Attr(name) => record[name].GetOr("")
  }

  /** One element of `made_of`, mapped as `e.is_a?(Symbol) ? self.send(e) : e.to_s` does. */
  function Resolve(source: Source, record: Attributes): Result<string, Error>
  {
    if Resolvable(source, record) then Success(SegmentOf(source, record))
    else Failure(NoSuchAttribute(source.name))
  }

  /**
   * `made_of.map { ... }`: every source resolved in declared order, or the error of the first
   * source that does not resolve.
   */
  function ResolveAll(sources: seq<Source>, record: Attributes): (r: Result<seq<string>, Error>)
    ensures r.Success? <==> forall i :: 0 <= i < |sources| ==> Resolvable(sources[i], record)
    ensures r.Success? ==>
      |r.value| == |sources| &&
      forall i :: 0 <= i < |sources| ==> r.value[i] == SegmentOf(sources[i], record)
    ensures r.Failure? ==>
      exists k :: 0 <= k < |sources| && !Resolvable(sources[k], record) &&
        r.error == NoSuchAttribute(sources[k].name) &&
        forall j :: 0 <= j < k ==> Resolvable(sources[j], record)
  {
    if sources == [] then Success([])
    else
      match Resolve(sources[0], record)
      case Failure(e) => Failure(e)
      case Success(first) =>
        match ResolveAll(sources[1..], record)
        case Failure(e) =>
          assert forall j :: 1 <= j <= |sources[1..]| ==> sources[1..][j - 1] == sources[j];
          Failure(e)
        case Success(rest) => Success([first] + rest)
  }

  /** The values the block adds: none when there is no block. */
  function BlockValues(config: Config, record: Attributes): seq<string>
  {
    match config.block
    case None => []
    case Some(block) => block(record)
  }

  /** The flattened array that is joined: the resolved `made_of` segments, then the block's values. */
  function Segments(config: Config, record: Attributes): Result<seq<string>, Error>
  {
    match ResolveAll(config.madeOf, record)
    case Failure(e) => Failure(e)
    case Success(resolved) => Success(resolved + BlockValues(config, record))
  }

  /** `collect_token_contents`: the segments joined with the configured glue. */
  function CollectContents(config: Config, record: Attributes): Result<string, Error>
  {
    match Segments(config, record)
    case Failure(e) => Failure(e)
    case Success(segments) => Success(Join(segments, config.glue))
  }

  /**
   * When every source resolves, the contents join one segment per `made_of` element, in declared
   * order (literals verbatim, symbols as the record's current value), followed by one segment
   * per block value.
   */
  lemma CollectedSegments(config: Config, record: Attributes)
    requires forall i :: 0 <= i < |config.madeOf| ==> Resolvable(config.madeOf[i], record)
    ensures Segments(config, record).Success?
    ensures |Segments(config, record).value| == |config.madeOf| + |BlockValues(config, record)|
    ensures forall i :: 0 <= i < |config.madeOf| ==>
      Segments(config, record).value[i] == SegmentOf(config.madeOf[i], record)
    ensures forall j :: 0 <= j < |BlockValues(config, record)| ==>
      Segments(config, record).value[|config.madeOf| + j] == BlockValues(config, record)[j]
    ensures CollectContents(config, record) == Success(Join(Segments(config, record).value, config.glue))
  {
  }

  /**
   * Collection fails exactly when some symbol names nothing the record answers, and the error
   * names the first such symbol in declared order.
   */
  lemma CollectFailsOnFirstUnknownName(config: Config, record: Attributes)
    ensures CollectContents(config, record).Failure? <==>
      exists i :: 0 <= i < |config.madeOf| && !Resolvable(config.madeOf[i], record)
    ensures CollectContents(config, record).Failure? ==>
      exists k :: 0 <= k < |config.madeOf| && config.madeOf[k].Attr? &&
        config.madeOf[k].name !in record &&
        CollectContents(config, record).error == NoSuchAttribute(config.madeOf[k].name) &&
        forall j :: 0 <= j < k ==> Resolvable(config.madeOf[j], record)
  {
  }

  /** A nil attribute contributes an empty segment and keeps its slot. */
  lemma NilAttributeKeepsItsSlot(config: Config, record: Attributes, i: nat)
    requires forall k :: 0 <= k < |config.madeOf| ==> Resolvable(config.madeOf[k], record)
    requires i < |config.madeOf| && config.madeOf[i].Attr?
    requires config.madeOf[i].name in record && record[config.madeOf[i].name] == None
    ensures Segments(config, record).Success?
    ensures |Segments(config, record).value| == |config.madeOf| + |BlockValues(config, record)|
    ensures Segments(config, record).value[i] == ""
  {
    CollectedSegments(config, record);
  }

  /** The block's values come after every `made_of` segment, one glue between the two parts. */
  lemma BlockComesLast(config: Config, record: Attributes)
    requires ResolveAll(config.madeOf, record).Success?
    requires config.madeOf != [] && BlockValues(config, record) != []
    ensures CollectContents(config, record) ==
      Success(Join(ResolveAll(config.madeOf, record).value, config.glue) + config.glue
        + Join(BlockValues(config, record), config.glue))
  {
    JoinConcat(ResolveAll(config.madeOf, record).value, BlockValues(config, record), config.glue);
  }

  /** With nothing in `made_of`, the contents are the block's values joined; one value is used as is. */
  lemma BlockAlone(config: Config, record: Attributes)
    requires config.madeOf == []
    ensures CollectContents(config, record) == Success(Join(BlockValues(config, record), config.glue))
    ensures |BlockValues(config, record)| == 1 ==>
      CollectContents(config, record) == Success(BlockValues(config, record)[0])
  {
    assert [] + BlockValues(config, record) == BlockValues(config, record);
  }

  /**
   * The contents depend on the record only through what the sources resolve to and what the
   * block returns: two records that agree on those collect the same contents.
   */
  lemma ContentsDependOnlyOnSources(config: Config, record: Attributes, other: Attributes)
    requires forall i :: 0 <= i < |config.madeOf| ==>
      Resolve(config.madeOf[i], record) == Resolve(config.madeOf[i], other)
    requires BlockValues(config, record) == BlockValues(config, other)
    ensures CollectContents(config, record) == CollectContents(config, other)
  {
    ResolveAllAgree(config.madeOf, record, other);
  }

  lemma {:induction false} ResolveAllAgree(sources: seq<Source>, record: Attributes, other: Attributes)
    requires forall i :: 0 <= i < |sources| ==> Resolve(sources[i], record) == Resolve(sources[i], other)
    ensures ResolveAll(sources, record) == ResolveAll(sources, other)
  {
    if sources != [] {
      assert Resolve(sources[0], record) == Resolve(sources[0], other);
      assert forall i :: 0 <= i < |sources[1..]| ==> sources[1..][i] == sources[i + 1];
      ResolveAllAgree(sources[1..], record, other);
    }
  }
}
