/**
 The parser, the printer and the domain of valid configurations as one value, with the laws the
 repository relies on. The repository is built with `TheCodec`; its proofs use only the laws.
 */
module ConfigCodec {
  import opened Wrappers
  import opened ConfigModel
  import opened ConfigParser
  import opened ConfigPrinter

  datatype Codec = Codec(
    parse: Document -> Result<EdgeConfig, ConfigError>, render: EdgeConfig -> Document, valid: EdgeConfig -> bool)

  function Restamped(c: EdgeConfig, revision: nat, now: string): EdgeConfig {
    c.(configRevision := revision, modifiedAt := now)
  }

  ghost predicate Lawful(k: Codec) {
    && (forall c :: k.valid(c) <==> k.parse(k.render(c)) == Success(c))
    && (forall t :: k.parse(t).Success? ==> k.valid(k.parse(t).value))
    && (forall c, revision: nat, now: string {:trigger k.valid(Restamped(c, revision, now))} ::
          k.valid(c) && ValidTimestamp(now) ==>
            (k.valid(Restamped(c, revision, now)) <==> 1 <= revision <= MAX_UINT64))
    && (forall c :: k.valid(c) ==> 1 <= c.configRevision <= MAX_UINT64 && ValidTimestamp(c.modifiedAt))
  }

  function TheCodec(normalize: Normalizer): Codec {
    Codec(text => ParseConfig(text, normalize), c => SerializeConfig(c), c => ValidConfig(c, normalize))
  }

  lemma RestampedIsValid(c: EdgeConfig, revision: nat, now: string, normalize: Normalizer)
    requires ValidConfig(c, normalize) && ValidTimestamp(now)
    ensures ValidConfig(Restamped(c, revision, now), normalize) <==> 1 <= revision <= MAX_UINT64
  {}

  lemma ValidIsStamped(c: EdgeConfig, normalize: Normalizer)
    requires ValidConfig(c, normalize)
    ensures 1 <= c.configRevision <= MAX_UINT64 && ValidTimestamp(c.modifiedAt)
  {}

  lemma TheCodecIsLawful(normalize: Normalizer)
    ensures Lawful(TheCodec(normalize))
  {
    hide ParseConfig, SerializeConfig, ValidConfig;
    var k := TheCodec(normalize);
    forall c
      ensures k.valid(c) <==> k.parse(k.render(c)) == Success(c)
    {
      SerializeThenParse(c, normalize);
    }
    forall c, revision: nat, now: string {:trigger k.valid(Restamped(c, revision, now))} | k.valid(c)
        && ValidTimestamp(now)
      ensures k.valid(Restamped(c, revision, now)) <==> 1 <= revision <= MAX_UINT64
    {
      hide Restamped;
      RestampedIsValid(c, revision, now, normalize);
    }
    forall c | k.valid(c)
      ensures 1 <= c.configRevision <= MAX_UINT64 && ValidTimestamp(c.modifiedAt)
    {
      ValidIsStamped(c, normalize);
    }
  }

  // ---------------------------------------------------------------- the laws, one at a time

  lemma PrintedIsRead(k: Codec, c: EdgeConfig)
    requires Lawful(k)
    ensures k.valid(c) <==> k.parse(k.render(c)) == Success(c)
  {}

  lemma ReadIsValid(k: Codec, text: Document)
    requires Lawful(k) && k.parse(text).Success?
    ensures k.valid(k.parse(text).value)
    ensures 1 <= k.parse(text).value.configRevision <= MAX_UINT64
  {}

  lemma RestampingIsValid(k: Codec, c: EdgeConfig, revision: nat, now: string)
    requires Lawful(k) && k.valid(c) && ValidTimestamp(now)
    ensures k.valid(Restamped(c, revision, now)) <==> 1 <= revision <= MAX_UINT64
  {}

  lemma ValidRevision(k: Codec, c: EdgeConfig)
    requires Lawful(k) && k.valid(c)
    ensures 1 <= c.configRevision <= MAX_UINT64 && ValidTimestamp(c.modifiedAt)
  {}
}
