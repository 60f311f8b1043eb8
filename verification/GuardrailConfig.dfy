/** Translation of a GuardrailPolicy spec into the request that Bedrock receives. */
module GuardrailConfig {
  import opened ApiServer

  // ----- the policy as users write it -----

  datatype ContentFilter = ContentFilter(kind: string, inputStrength: string, outputStrength: string)

  datatype DeniedTopic = DeniedTopic(name: string, definition: string, examples: seq<string>)

  datatype WordPolicy = WordPolicy(words: seq<string>, managedWordLists: seq<string>)

  datatype PiiEntity = PiiEntity(kind: string, action: string)

  datatype Spec = Spec(
    description: string,
    blockedInputMessage: string,
    blockedOutputsMessage: string,
    contentPolicy: Option<seq<ContentFilter>>,
    topicPolicy: Option<seq<DeniedTopic>>,
    wordPolicy: Option<WordPolicy>,
    sensitiveInformationPolicy: Option<seq<PiiEntity>>
  )

  // ----- the request as Bedrock reads it -----

  datatype FilterConfig = FilterConfig(kind: string, inputStrength: string, outputStrength: string)

  datatype TopicConfig = TopicConfig(name: string, definition: string, kind: string, examples: seq<string>)

  datatype WordConfig = WordConfig(text: string)

  datatype ManagedWordsConfig = ManagedWordsConfig(kind: string)

  datatype WordsConfig = WordsConfig(words: seq<WordConfig>, managed: seq<ManagedWordsConfig>)

  datatype PiiConfig = PiiConfig(kind: string, action: string)

  datatype Config = Config(
    name: string,
    description: string,
    blockedInputMessaging: Option<string>,
    blockedOutputsMessaging: Option<string>,
    contentPolicy: Option<seq<FilterConfig>>,
    topicPolicy: Option<seq<TopicConfig>>,
    wordPolicy: Option<WordsConfig>,
    sensitiveInformationPolicy: Option<seq<PiiConfig>>
  )

  // ----- what each helper must build -----

  function Each<A, B>(f: A -> B, xs: seq<A>): (r: seq<B>)
    ensures |r| == |xs|
    ensures forall i :: 0 <= i < |xs| ==> r[i] == f(xs[i])
  {
    seq(|xs|, i requires 0 <= i < |xs| => f(xs[i]))
  }

  function Filter(f: ContentFilter): FilterConfig {
    FilterConfig(f.kind, f.inputStrength, f.outputStrength)
  }

  function Topic(t: DeniedTopic): TopicConfig {
    TopicConfig(t.name, t.definition, "DENY", t.examples)
  }

  function Word(w: string): WordConfig {
    WordConfig(w)
  }

  function ManagedWords(ml: string): ManagedWordsConfig {
    ManagedWordsConfig(ml)
  }

  function Pii(p: PiiEntity): PiiConfig {
    PiiConfig(p.kind, p.action)
  }

  function Messaging(m: string): Option<string> {
    if m == "" then None else Some(m)
  }

  function Optional<A, B>(f: A -> B, x: Option<A>): Option<B> {
    match x
    case None => None
    case Some(v) => Some(f(v))
  }

  function Words(p: WordPolicy): WordsConfig {
    WordsConfig(Each(Word, p.words), Each(ManagedWords, p.managedWordLists))
  }

  function Translate(name: string, spec: Spec): Config {
    Config(
      name,
      spec.description,
      Messaging(spec.blockedInputMessage),
      Messaging(spec.blockedOutputsMessage),
      Optional(fs => Each(Filter, fs), spec.contentPolicy),
      Optional(ts => Each(Topic, ts), spec.topicPolicy),
      Optional(Words, spec.wordPolicy),
      Optional(ps => Each(Pii, ps), spec.sensitiveInformationPolicy))
  }

  // ----- the loops -----

  method BuildContentPolicy(filters: seq<ContentFilter>) returns (cfg: seq<FilterConfig>)
    ensures cfg == Each(Filter, filters)
  {
    cfg := [];
    for i := 0 to |filters|
      invariant cfg == Each(Filter, filters[..i])
    {
      var f := filters[i];
      cfg := cfg + [FilterConfig(f.kind, f.inputStrength, f.outputStrength)];
    }
    assert filters[..|filters|] == filters;
  }

  method BuildTopicPolicy(topics: seq<DeniedTopic>) returns (cfg: seq<TopicConfig>)
    ensures cfg == Each(Topic, topics)
  {
    cfg := [];
    for i := 0 to |topics|
      invariant cfg == Each(Topic, topics[..i])
    {
      var t := topics[i];
      cfg := cfg + [TopicConfig(t.name, t.definition, "DENY", t.examples)];
    }
    assert topics[..|topics|] == topics;
  }

  method BuildWordPolicy(policy: WordPolicy) returns (cfg: WordsConfig)
    ensures cfg == Words(policy)
  {
    var words, managed := [], [];
    for i := 0 to |policy.words|
      invariant words == Each(Word, policy.words[..i])
    {
      words := words + [WordConfig(policy.words[i])];
    }
    assert policy.words[..|policy.words|] == policy.words;
    for i := 0 to |policy.managedWordLists|
      invariant managed == Each(ManagedWords, policy.managedWordLists[..i])
    {
      managed := managed + [ManagedWordsConfig(policy.managedWordLists[i])];
    }
    assert policy.managedWordLists[..|policy.managedWordLists|] == policy.managedWordLists;
    cfg := WordsConfig(words, managed);
  }

  method BuildPiiPolicy(entities: seq<PiiEntity>) returns (cfg: seq<PiiConfig>)
    ensures cfg == Each(Pii, entities)
  {
    cfg := [];
    for i := 0 to |entities|
      invariant cfg == Each(Pii, entities[..i])
    {
      cfg := cfg + [PiiConfig(entities[i].kind, entities[i].action)];
    }
    assert entities[..|entities|] == entities;
  }

  /** The body that CreateGuardrail and UpdateGuardrail both send, filled in step by step. */
  method BuildInput(name: string, spec: Spec) returns (input: Config)
    ensures input == Translate(name, spec)
  {
    input := Config(name, spec.description, None, None, None, None, None, None);
    if spec.blockedInputMessage != "" {
      input := input.(blockedInputMessaging := Some(spec.blockedInputMessage));
    }
    if spec.blockedOutputsMessage != "" {
      input := input.(blockedOutputsMessaging := Some(spec.blockedOutputsMessage));
    }
    if spec.contentPolicy.Some? {
      var cfg := BuildContentPolicy(spec.contentPolicy.value);
      input := input.(contentPolicy := Some(cfg));
    }
    if spec.topicPolicy.Some? {
      var cfg := BuildTopicPolicy(spec.topicPolicy.value);
      input := input.(topicPolicy := Some(cfg));
    }
    if spec.wordPolicy.Some? {
      var cfg := BuildWordPolicy(spec.wordPolicy.value);
      input := input.(wordPolicy := Some(cfg));
    }
    if spec.sensitiveInformationPolicy.Some? {
      var cfg := BuildPiiPolicy(spec.sensitiveInformationPolicy.value);
      input := input.(sensitiveInformationPolicy := Some(cfg));
    }
  }

  // ----- nothing is lost on the way -----

  function Recover(c: Config): Spec {
    Spec(
      c.description,
      if c.blockedInputMessaging.Some? then c.blockedInputMessaging.value else "",
      if c.blockedOutputsMessaging.Some? then c.blockedOutputsMessaging.value else "",
      Optional(fs => Each((f: FilterConfig) => ContentFilter(f.kind, f.inputStrength, f.outputStrength), fs),
               c.contentPolicy),
      Optional(ts => Each((t: TopicConfig) => DeniedTopic(t.name, t.definition, t.examples), ts), c.topicPolicy),
      Optional((w: WordsConfig) =>
                 WordPolicy(Each((t: WordConfig) => t.text, w.words),
                            Each((m: ManagedWordsConfig) => m.kind, w.managed)),
               c.wordPolicy),
      Optional(ps => Each((p: PiiConfig) => PiiEntity(p.kind, p.action), ps), c.sensitiveInformationPolicy))
  }

  /** Every field of a policy can be read back from what Bedrock holds, so two policies of
      one name that differ anywhere are never mistaken for each other. A message that is not set
      is not sent. */
  lemma TranslationLosesNothing(name: string, spec: Spec)
    ensures Recover(Translate(name, spec)) == spec
    ensures Translate(name, spec).name == name
    ensures Translate(name, spec).blockedInputMessaging.None? <==> spec.blockedInputMessage == ""
    ensures Translate(name, spec).blockedOutputsMessaging.None? <==> spec.blockedOutputsMessage == ""
    ensures var topics := Translate(name, spec).topicPolicy;
            topics.Some? ==> forall t :: t in topics.value ==> t.kind == "DENY"
  {
    var back := Recover(Translate(name, spec));
    if spec.contentPolicy.Some? {
      assert back.contentPolicy.value == spec.contentPolicy.value;
    }
    if spec.topicPolicy.Some? {
      assert back.topicPolicy.value == spec.topicPolicy.value;
    }
    if spec.wordPolicy.Some? {
      assert back.wordPolicy.value.words == spec.wordPolicy.value.words;
      assert back.wordPolicy.value.managedWordLists == spec.wordPolicy.value.managedWordLists;
    }
    if spec.sensitiveInformationPolicy.Some? {
      assert back.sensitiveInformationPolicy.value == spec.sensitiveInformationPolicy.value;
    }
  }
}
