/** The dataset builder, `create_training_data`: one pass over the parsed
    memories that pairs each memory's trigger phrases (and, for the
    context-type classifier only, its semantic tags) with its label fields,
    appending `{text, label}` examples to three datasets and counting labels
    and phrases on the way.

    The specification is a left fold over the memories, one memory at a
    time, as the source's loop goes (`Dataset`, `Counts`, `PhraseTotal`,
    `TagTotal`); `CreateTrainingData` is the source's loop, proved equal to
    it, and the lemmas state what the fold means. */
module TrainingData {
  import opened PyStr

  /** The front-matter fields the builder reads, as `fm.get(key, default)`
      yields them: an absent list is empty, an absent label is "". */
  datatype Frontmatter = Frontmatter(
    triggerPhrases: seq<string>,
    semanticTags: seq<string>,
    contextType: string,
    domain: string,
    temporalClass: string)

  /** One parsed memory file. `frontmatter` is None when the YAML parser
      produced something other than a mapping (an empty header, say). */
  datatype Memory = Memory(frontmatter: Option<Frontmatter>, body: string, file: string)

  /** One training example, `{"text": text, "label": category}` (`label`
      is a reserved word in Dafny). */
  datatype Example = Example(text: string, category: string)

  /** The three classifiers a dataset is built for. */
  datatype Field = ContextType | Domain | TemporalClass

  /** The `datasets` dictionary: one list of examples per classifier. */
  datatype Datasets = Datasets(contextType: seq<Example>, domain: seq<Example>, temporalClass: seq<Example>)

  /** The `stats` dictionary. A `Counter` that is only ever incremented by
      one is a multiset of the labels it was incremented with. */
  datatype Stats = Stats(
    totalMemories: nat,
    contextTypeCounts: multiset<string>,
    domainCounts: multiset<string>,
    temporalClassCounts: multiset<string>,
    triggerPhrasesCount: nat,
    semanticTagsCount: nat)

  /** Every memory's front matter is a mapping; on anything else the source
      fails at `fm.get` with an exception nobody catches. */
  predicate AllMappings(ms: seq<Memory>)
  {
    forall i :: 0 <= i < |ms| ==> ms[i].frontmatter.Some?
  }

  /** The label a memory carries for classifier `f`. */
  function Label(fm: Frontmatter, f: Field): (category: string)
  {
    match f
    case ContextType => fm.contextType
    case Domain => fm.domain
    case TemporalClass => fm.temporalClass
  }

  /** A memory with neither trigger phrases nor semantic tags is skipped. */
  predicate Skipped(fm: Frontmatter)
    ensures Skipped(fm) ==> forall c :: PhraseExamples(fm.triggerPhrases, c) == [] && TagExamples(fm.semanticTags, c) == []
  {
    fm.triggerPhrases == [] && fm.semanticTags == []
  }

  /** A tag as example text: `tag.replace("-", " ")`. Same length, every
      hyphen a space, every other character where it was. */
  function NormalizeTag(tag: string): (text: string)
    ensures |text| == |tag| && '-' !in text
    ensures forall i :: 0 <= i < |tag| && tag[i] != '-' ==> text[i] == tag[i]
    ensures forall i :: 0 <= i < |tag| && tag[i] == '-' ==> text[i] == ' '
  {
    ReplaceAllRemoves(tag, '-', ' ');
    ReplaceAll(tag, '-', ' ')
  }

  /** Normalising a normalised tag changes nothing. */
  lemma NormalizeTagIdempotent(tag: string)
    ensures NormalizeTag(NormalizeTag(tag)) == NormalizeTag(tag)
  {
    ReplaceAllIdempotent(tag, '-', ' ');
  }

  /** The examples a list of trigger phrases yields under one label: each
      non-empty phrase, in order, when the label is non-empty. */
  function PhraseExamples(phrases: seq<string>, category: string): (r: seq<Example>)
    ensures |r| <= |phrases|
    ensures r != [] ==> category != ""
    decreases |phrases|
  {
    if phrases == [] then []
    else
      var p := phrases[|phrases| - 1];
      PhraseExamples(phrases[..|phrases| - 1], category) + (if p != "" && category != "" then [Example(p, category)] else [])
  }

  /** Every phrase example is a non-empty phrase of the list under the
      given, non-empty, label. */
  lemma {:induction false} PhraseExamplesSound(phrases: seq<string>, category: string)
    ensures forall e :: e in PhraseExamples(phrases, category) ==>
              e.text in phrases && e.text != "" && e.category == category && category != ""
    decreases |phrases|
  {
    if phrases != [] {
      var init := phrases[..|phrases| - 1];
      PhraseExamplesSound(init, category);
      assert forall q :: q in init ==> q in phrases;
    }
  }

  /** The examples a list of semantic tags yields under the context type:
      each non-empty tag, normalised, in order, when the label is non-empty. */
  function TagExamples(tags: seq<string>, category: string): (r: seq<Example>)
    ensures |r| <= |tags|
    ensures r != [] ==> category != ""
    decreases |tags|
  {
    if tags == [] then []
    else
      var t := tags[|tags| - 1];
      TagExamples(tags[..|tags| - 1], category) + (if t != "" && category != "" then [Example(NormalizeTag(t), category)] else [])
  }

  /** Every tag example is a non-empty, hyphen-free normalised tag of the
      list under the given, non-empty, label. */
  lemma {:induction false} TagExamplesSound(tags: seq<string>, category: string)
    ensures forall e :: e in TagExamples(tags, category) ==>
              (exists t :: t in tags && e.text == NormalizeTag(t)) &&
              e.text != "" && '-' !in e.text && e.category == category && category != ""
    decreases |tags|
  {
    if tags != [] {
      var init := tags[..|tags| - 1];
      TagExamplesSound(init, category);
      assert forall q :: q in init ==> q in tags;
    }
  }

  /** Every non-empty phrase of the list yields its example under a
      non-empty label. */
  lemma {:induction false} PhraseExamplesComplete(phrases: seq<string>, category: string)
    ensures forall p :: p in phrases && p != "" && category != "" ==>
              Example(p, category) in PhraseExamples(phrases, category)
    decreases |phrases|
  {
    if phrases != [] {
      var init := phrases[..|phrases| - 1];
      PhraseExamplesComplete(init, category);
      assert phrases == init + [phrases[|phrases| - 1]];
    }
  }

  /** Every non-empty tag of the list yields its normalised example under a
      non-empty context type. */
  lemma {:induction false} TagExamplesComplete(tags: seq<string>, category: string)
    ensures forall t :: t in tags && t != "" && category != "" ==>
              Example(NormalizeTag(t), category) in TagExamples(tags, category)
    decreases |tags|
  {
    if tags != [] {
      var init := tags[..|tags| - 1];
      TagExamplesComplete(init, category);
      assert tags == init + [tags[|tags| - 1]];
    }
  }


  /** What one memory appends to the dataset for `f`: its phrase examples,
      then, for the context type only, its tag examples. */
  function MemoryExamples(fm: Frontmatter, f: Field): (r: seq<Example>)
  {
    if Skipped(fm) then []
    else PhraseExamples(fm.triggerPhrases, Label(fm, f)) +
         (if f == ContextType then TagExamples(fm.semanticTags, fm.contextType) else [])
  }

  /** What one memory adds to the counter for `f`: phrase examples only. */
  function CountedExamples(fm: Frontmatter, f: Field): (r: seq<Example>)
  {
    if Skipped(fm) then [] else PhraseExamples(fm.triggerPhrases, Label(fm, f))
  }

  /** The counter `counts` after `counts[e.label] += 1` for each example `e`
      of `xs`, in order. */
  function CountLabels(counts: multiset<string>, xs: seq<Example>): (r: multiset<string>)
    ensures counts <= r && |r| == |counts| + |xs|
  {
    if xs == [] then counts
    else CountLabels(counts, xs[..|xs| - 1]) + multiset{xs[|xs| - 1].category}
  }

  /** The labels of a list of examples, in order. */
  function LabelsOf(xs: seq<Example>): (labels: seq<string>)
  {
    seq(|xs|, i requires 0 <= i < |xs| => xs[i].category)
  }

  /** The dataset for `f` after scanning `ms`. */
  function Dataset(ms: seq<Memory>, f: Field): (r: seq<Example>)
    requires AllMappings(ms)
  {
    if ms == [] then []
    else Dataset(ms[..|ms| - 1], f) + MemoryExamples(ms[|ms| - 1].frontmatter.value, f)
  }

  /** The examples the counter for `f` has counted after scanning `ms`. */
  function Counted(ms: seq<Memory>, f: Field): (r: seq<Example>)
    requires AllMappings(ms)
  {
    if ms == [] then []
    else Counted(ms[..|ms| - 1], f) + CountedExamples(ms[|ms| - 1].frontmatter.value, f)
  }

  /** The counter for `f` after scanning `ms`. */
  function Counts(ms: seq<Memory>, f: Field): (r: multiset<string>)
    requires AllMappings(ms)
  {
    if ms == [] then multiset{}
    else CountLabels(Counts(ms[..|ms| - 1], f), CountedExamples(ms[|ms| - 1].frontmatter.value, f))
  }

  /** `trigger_phrases_count`: phrases of memories not skipped, empty ones too. */
  function PhraseTotal(ms: seq<Memory>): (n: nat)
    requires AllMappings(ms)
    ensures forall f :: |Counted(ms, f)| <= n
  {
    if ms == [] then 0
    else
      var fm := ms[|ms| - 1].frontmatter.value;
      PhraseTotal(ms[..|ms| - 1]) + (if Skipped(fm) then 0 else |fm.triggerPhrases|)
  }

  /** `semantic_tags_count`: tags of memories not skipped, empty ones too. */
  function TagTotal(ms: seq<Memory>): (n: nat)
    requires AllMappings(ms)
    ensures |Dataset(ms, ContextType)| - |Counted(ms, ContextType)| <= n
  {
    if ms == [] then 0
    else
      var fm := ms[|ms| - 1].frontmatter.value;
      TagTotal(ms[..|ms| - 1]) + (if Skipped(fm) then 0 else |fm.semanticTags|)
  }

  /** The datasets after scanning `ms`. */
  function Build(ms: seq<Memory>): (d: Datasets)
    requires AllMappings(ms)
    ensures |d.domain| <= PhraseTotal(ms) && |d.temporalClass| <= PhraseTotal(ms)
    ensures |d.contextType| <= PhraseTotal(ms) + TagTotal(ms)
  {
    DatasetWithinTotals(ms, ContextType);
    DatasetWithinTotals(ms, Domain);
    DatasetWithinTotals(ms, TemporalClass);
    Datasets(Dataset(ms, ContextType), Dataset(ms, Domain), Dataset(ms, TemporalClass))
  }

  /** The statistics after scanning `ms`. */
  function BuildStats(ms: seq<Memory>): (s: Stats)
    requires AllMappings(ms)
    ensures s.totalMemories == |ms|
    ensures s.domainCounts == multiset(LabelsOf(Dataset(ms, Domain)))
    ensures s.temporalClassCounts == multiset(LabelsOf(Dataset(ms, TemporalClass)))
    ensures s.contextTypeCounts <= multiset(LabelsOf(Dataset(ms, ContextType)))
  {
    CountsMatchDataset(ms, Domain);
    CountsMatchDataset(ms, TemporalClass);
    ContextCountsWithinDataset(ms);
    Stats(|ms|, Counts(ms, ContextType), Counts(ms, Domain), Counts(ms, TemporalClass),
          PhraseTotal(ms), TagTotal(ms))
  }

  /** The datasets after one more turn of the loop, for a memory with front
      matter `fm`. */
  function Turn(datasets: Datasets, fm: Frontmatter): (d: Datasets)
  {
    Datasets(datasets.contextType + MemoryExamples(fm, ContextType),
             datasets.domain + MemoryExamples(fm, Domain),
             datasets.temporalClass + MemoryExamples(fm, TemporalClass))
  }

  /** The statistics after one more turn of the loop. */
  function TurnStats(stats: Stats, fm: Frontmatter): (s: Stats)
  {
    Stats(stats.totalMemories,
          CountLabels(stats.contextTypeCounts, CountedExamples(fm, ContextType)),
          CountLabels(stats.domainCounts, CountedExamples(fm, Domain)),
          CountLabels(stats.temporalClassCounts, CountedExamples(fm, TemporalClass)),
          stats.triggerPhrasesCount + (if Skipped(fm) then 0 else |fm.triggerPhrases|),
          stats.semanticTagsCount + (if Skipped(fm) then 0 else |fm.semanticTags|))
  }

  /** Scanning one more memory is one more turn. */
  lemma ScanStep(ms: seq<Memory>, i: nat, n: nat)
    requires AllMappings(ms) && i < |ms|
    ensures AllMappings(ms[..i]) && AllMappings(ms[..i + 1])
    ensures Build(ms[..i + 1]) == Turn(Build(ms[..i]), ms[i].frontmatter.value)
    ensures BuildStats(ms[..i + 1]).(totalMemories := n) ==
            TurnStats(BuildStats(ms[..i]).(totalMemories := n), ms[i].frontmatter.value)
  {
    var prefix, fm := ms[..i], ms[i].frontmatter.value;
    assert AllMappings(prefix) && AllMappings(ms[..i + 1]);
    assert ms[..i + 1][..i] == prefix && ms[..i + 1][i] == ms[i];
    forall f: Field
      ensures Dataset(ms[..i + 1], f) == Dataset(prefix, f) + MemoryExamples(fm, f)
      ensures Counts(ms[..i + 1], f) == CountLabels(Counts(prefix, f), CountedExamples(fm, f))
    {
    }
    assert PhraseTotal(ms[..i + 1]) == PhraseTotal(prefix) + (if Skipped(fm) then 0 else |fm.triggerPhrases|);
    assert TagTotal(ms[..i + 1]) == TagTotal(prefix) + (if Skipped(fm) then 0 else |fm.semanticTags|);
  }

  /** A skipped memory changes nothing. */
  lemma SkippedTurn(datasets: Datasets, stats: Stats, fm: Frontmatter)
    requires Skipped(fm)
    ensures Turn(datasets, fm) == datasets
    ensures TurnStats(stats, fm) == stats
  {
  }

  /** A memory that is not skipped adds its phrase examples to every
      dataset and counter, and its tag examples to the context-type dataset. */
  lemma ScannedTurn(datasets: Datasets, stats: Stats, fm: Frontmatter)
    requires !Skipped(fm)
    ensures Turn(datasets, fm) ==
            Datasets(datasets.contextType + PhraseExamples(fm.triggerPhrases, fm.contextType)
                                          + TagExamples(fm.semanticTags, fm.contextType),
                     datasets.domain + PhraseExamples(fm.triggerPhrases, fm.domain),
                     datasets.temporalClass + PhraseExamples(fm.triggerPhrases, fm.temporalClass))
    ensures TurnStats(stats, fm) ==
            Stats(stats.totalMemories,
                  CountLabels(stats.contextTypeCounts, PhraseExamples(fm.triggerPhrases, fm.contextType)),
                  CountLabels(stats.domainCounts, PhraseExamples(fm.triggerPhrases, fm.domain)),
                  CountLabels(stats.temporalClassCounts, PhraseExamples(fm.triggerPhrases, fm.temporalClass)),
                  stats.triggerPhrasesCount + |fm.triggerPhrases|,
                  stats.semanticTagsCount + |fm.semanticTags|)
  {
    ScannedExamples(fm);
    assert Turn(datasets, fm).contextType ==
           datasets.contextType + PhraseExamples(fm.triggerPhrases, fm.contextType)
                                + TagExamples(fm.semanticTags, fm.contextType);
    assert Turn(datasets, fm).domain == datasets.domain + PhraseExamples(fm.triggerPhrases, fm.domain);
    assert Turn(datasets, fm).temporalClass ==
           datasets.temporalClass + PhraseExamples(fm.triggerPhrases, fm.temporalClass);
    ghost var s := TurnStats(stats, fm);
    assert s.contextTypeCounts == CountLabels(stats.contextTypeCounts, PhraseExamples(fm.triggerPhrases, fm.contextType));
    assert s.domainCounts == CountLabels(stats.domainCounts, PhraseExamples(fm.triggerPhrases, fm.domain));
    assert s.temporalClassCounts == CountLabels(stats.temporalClassCounts, PhraseExamples(fm.triggerPhrases, fm.temporalClass));
    assert s.triggerPhrasesCount == stats.triggerPhrasesCount + |fm.triggerPhrases|;
    assert s.semanticTagsCount == stats.semanticTagsCount + |fm.semanticTags|;
  }

  /** What a memory that is not skipped contributes to each dataset and
      each counter. */
  lemma ScannedExamples(fm: Frontmatter)
    requires !Skipped(fm)
    ensures MemoryExamples(fm, ContextType) ==
            PhraseExamples(fm.triggerPhrases, fm.contextType) + TagExamples(fm.semanticTags, fm.contextType)
    ensures MemoryExamples(fm, Domain) == PhraseExamples(fm.triggerPhrases, fm.domain)
    ensures MemoryExamples(fm, TemporalClass) == PhraseExamples(fm.triggerPhrases, fm.temporalClass)
    ensures CountedExamples(fm, ContextType) == PhraseExamples(fm.triggerPhrases, fm.contextType)
    ensures CountedExamples(fm, Domain) == PhraseExamples(fm.triggerPhrases, fm.domain)
    ensures CountedExamples(fm, TemporalClass) == PhraseExamples(fm.triggerPhrases, fm.temporalClass)
  {
    assert MemoryExamples(fm, Domain) == PhraseExamples(fm.triggerPhrases, fm.domain) + [];
    assert MemoryExamples(fm, TemporalClass) == PhraseExamples(fm.triggerPhrases, fm.temporalClass) + [];
  }

  /** One more phrase extends the phrase examples by at most that phrase. */
  lemma PhraseStep(phrases: seq<string>, j: nat, category: string)
    requires j < |phrases|
    ensures PhraseExamples(phrases[..j + 1], category) == PhraseExamples(phrases[..j], category) +
              (if phrases[j] != "" && category != "" then [Example(phrases[j], category)] else [])
  {
    assert phrases[..j + 1][..j] == phrases[..j];
  }

  /** Counting one more example counts its label once more. */
  lemma CountOneMore(counts: multiset<string>, xs: seq<Example>, e: Example)
    ensures CountLabels(counts, xs + [e]) == CountLabels(counts, xs) + multiset{e.category}
  {
    assert (xs + [e])[..|xs|] == xs;
  }

  /** One more tag extends the tag examples by at most that tag, normalised. */
  lemma TagStep(tags: seq<string>, j: nat, category: string)
    requires j < |tags|
    ensures TagExamples(tags[..j + 1], category) == TagExamples(tags[..j], category) +
              (if tags[j] != "" && category != "" then [Example(NormalizeTag(tags[j]), category)] else [])
  {
    assert tags[..j + 1][..j] == tags[..j];
  }

  /** One of the three blocks of the phrase loop: when both the phrase and
      the label are non-empty, append the example and count its label.
      `start` and `base` are the dataset and the counter the phrase loop
      started from. */
  method EmitPhrase(phrases: seq<string>, j: nat, category: string,
                    data: seq<Example>, counts: multiset<string>,
                    ghost start: seq<Example>, ghost base: multiset<string>)
    returns (data': seq<Example>, counts': multiset<string>)
    requires j < |phrases|
    requires data == start + PhraseExamples(phrases[..j], category)
    requires counts == CountLabels(base, PhraseExamples(phrases[..j], category))
    ensures data' == start + PhraseExamples(phrases[..j + 1], category)
    ensures counts' == CountLabels(base, PhraseExamples(phrases[..j + 1], category))
  {
    var phrase := phrases[j];
    ghost var before := PhraseExamples(phrases[..j], category);
    PhraseStep(phrases, j, category);
    if phrase != "" && category != "" {
      ghost var e := Example(phrase, category);
      data' := data + [Example(phrase, category)];
      counts' := counts + multiset{category};
      assert data' == start + (before + [e]);
      CountOneMore(base, before, e);
    } else {
      data', counts' := data, counts;
      assert PhraseExamples(phrases[..j + 1], category) == before;
    }
  }

  /** The loop over a memory's trigger phrases: each non-empty phrase goes,
      in order, to every dataset whose label the memory has, and each such
      example is counted under its label. */
  method ScanPhrases(fm: Frontmatter, datasets: Datasets, stats: Stats) returns (datasets': Datasets, stats': Stats)
    ensures datasets' == Datasets(datasets.contextType + PhraseExamples(fm.triggerPhrases, fm.contextType),
                                  datasets.domain + PhraseExamples(fm.triggerPhrases, fm.domain),
                                  datasets.temporalClass + PhraseExamples(fm.triggerPhrases, fm.temporalClass))
    ensures stats' == stats.(
              contextTypeCounts := CountLabels(stats.contextTypeCounts, PhraseExamples(fm.triggerPhrases, fm.contextType)),
              domainCounts := CountLabels(stats.domainCounts, PhraseExamples(fm.triggerPhrases, fm.domain)),
              temporalClassCounts := CountLabels(stats.temporalClassCounts, PhraseExamples(fm.triggerPhrases, fm.temporalClass)))
  {
    var triggerPhrases := fm.triggerPhrases;
    var contextTypeData, domainData, temporalClassData := datasets.contextType, datasets.domain, datasets.temporalClass;
    var contextTypeCounts, domainCounts, temporalClassCounts := stats.contextTypeCounts, stats.domainCounts, stats.temporalClassCounts;
    for j := 0 to |triggerPhrases|
      invariant contextTypeData == datasets.contextType + PhraseExamples(triggerPhrases[..j], fm.contextType)
      invariant domainData == datasets.domain + PhraseExamples(triggerPhrases[..j], fm.domain)
      invariant temporalClassData == datasets.temporalClass + PhraseExamples(triggerPhrases[..j], fm.temporalClass)
      invariant contextTypeCounts == CountLabels(stats.contextTypeCounts, PhraseExamples(triggerPhrases[..j], fm.contextType))
      invariant domainCounts == CountLabels(stats.domainCounts, PhraseExamples(triggerPhrases[..j], fm.domain))
      invariant temporalClassCounts == CountLabels(stats.temporalClassCounts, PhraseExamples(triggerPhrases[..j], fm.temporalClass))
    {
      contextTypeData, contextTypeCounts := EmitPhrase(triggerPhrases, j, fm.contextType, contextTypeData, contextTypeCounts,
                                                       datasets.contextType, stats.contextTypeCounts);
      domainData, domainCounts := EmitPhrase(triggerPhrases, j, fm.domain, domainData, domainCounts,
                                             datasets.domain, stats.domainCounts);
      temporalClassData, temporalClassCounts := EmitPhrase(triggerPhrases, j, fm.temporalClass, temporalClassData, temporalClassCounts,
                                                           datasets.temporalClass, stats.temporalClassCounts);
    }
    assert triggerPhrases[..|triggerPhrases|] == triggerPhrases;
    datasets' := Datasets(contextTypeData, domainData, temporalClassData);
    stats' := stats.(contextTypeCounts := contextTypeCounts, domainCounts := domainCounts,
                     temporalClassCounts := temporalClassCounts);
  }

  /** The loop over a memory's semantic tags: each non-empty tag goes, with
      its hyphens turned into spaces, to the context-type dataset when the
      memory has a context type; nothing is counted. */
  method ScanTags(semanticTags: seq<string>, contextType: string, data: seq<Example>) returns (data': seq<Example>)
    ensures data' == data + TagExamples(semanticTags, contextType)
  {
    data' := data;
    for j := 0 to |semanticTags|
      invariant data' == data + TagExamples(semanticTags[..j], contextType)
    {
      var tag := semanticTags[j];
      ghost var before := TagExamples(semanticTags[..j], contextType);
      TagStep(semanticTags, j, contextType);
      if tag != "" && contextType != "" {
        data' := data' + [Example(NormalizeTag(tag), contextType)];
        assert data' == data + (before + [Example(NormalizeTag(tag), contextType)]);
      } else {
        assert TagExamples(semanticTags[..j + 1], contextType) == before;
      }
    }
    assert semanticTags[..|semanticTags|] == semanticTags;
  }

  /** The body of the loop over memories for a memory that is not skipped:
      add its phrase and tag totals, append its phrase examples to each
      dataset whose label it has (counting them), then its tag examples to
      the context-type dataset (not counting them). */
  method ScanMemory(fm: Frontmatter, datasets: Datasets, stats: Stats) returns (datasets': Datasets, stats': Stats)
    ensures datasets'.contextType == datasets.contextType + PhraseExamples(fm.triggerPhrases, fm.contextType)
                                                         + TagExamples(fm.semanticTags, fm.contextType)
    ensures datasets'.domain == datasets.domain + PhraseExamples(fm.triggerPhrases, fm.domain)
    ensures datasets'.temporalClass == datasets.temporalClass + PhraseExamples(fm.triggerPhrases, fm.temporalClass)
    ensures stats' == Stats(stats.totalMemories,
                            CountLabels(stats.contextTypeCounts, PhraseExamples(fm.triggerPhrases, fm.contextType)),
                            CountLabels(stats.domainCounts, PhraseExamples(fm.triggerPhrases, fm.domain)),
                            CountLabels(stats.temporalClassCounts, PhraseExamples(fm.triggerPhrases, fm.temporalClass)),
                            stats.triggerPhrasesCount + |fm.triggerPhrases|,
                            stats.semanticTagsCount + |fm.semanticTags|)
  {
    var counting := stats.(triggerPhrasesCount := stats.triggerPhrasesCount + |fm.triggerPhrases|,
                           semanticTagsCount := stats.semanticTagsCount + |fm.semanticTags|);
    var afterPhrases;
    afterPhrases, stats' := ScanPhrases(fm, datasets, counting);
    var contextTypeData := ScanTags(fm.semanticTags, fm.contextType, afterPhrases.contextType);
    datasets' := afterPhrases.(contextType := contextTypeData);
  }

  /** `create_training_data(memories)`: the datasets and statistics are those
      of the fold; `total_memories` counts every memory, skipped or not; the
      domain and temporal-class counters tally exactly the labels in their
      datasets; the context-type counter tallies no label more often than
      its dataset holds it. */
  method CreateTrainingData(memories: seq<Memory>) returns (datasets: Datasets, stats: Stats)
    requires AllMappings(memories)
    ensures datasets == Build(memories)
    ensures stats == BuildStats(memories)
    ensures stats.totalMemories == |memories|
    ensures stats.domainCounts == multiset(LabelsOf(datasets.domain))
    ensures stats.temporalClassCounts == multiset(LabelsOf(datasets.temporalClass))
    ensures stats.contextTypeCounts <= multiset(LabelsOf(datasets.contextType))
  {
    datasets := Datasets([], [], []);
    stats := Stats(|memories|, multiset{}, multiset{}, multiset{}, 0, 0);

    for i := 0 to |memories|
      invariant AllMappings(memories[..i])
      invariant datasets == Build(memories[..i])
      invariant stats == BuildStats(memories[..i]).(totalMemories := |memories|)
    {
      var fm := memories[i].frontmatter.value;
      ScanStep(memories, i, |memories|);
      if fm.triggerPhrases == [] && fm.semanticTags == [] {
        SkippedTurn(datasets, stats, fm);
        continue;
      }
      ScannedTurn(datasets, stats, fm);
      datasets, stats := ScanMemory(fm, datasets, stats);
    }
    assert memories[..|memories|] == memories;
  }

  // ---------------------------------------------------------------------
  // What the fold means
  // ---------------------------------------------------------------------

  lemma LabelsOfConcat(a: seq<Example>, b: seq<Example>)
    ensures LabelsOf(a + b) == LabelsOf(a) + LabelsOf(b)
  {
  }

  /** Counting the examples of `xs` into a counter adds each label as many
      times as it occurs among them. */
  lemma {:induction false} CountLabelsTallies(counts: multiset<string>, xs: seq<Example>)
    ensures CountLabels(counts, xs) == counts + multiset(LabelsOf(xs))
    decreases |xs|
  {
    if xs != [] {
      var init, e := xs[..|xs| - 1], xs[|xs| - 1];
      CountLabelsTallies(counts, init);
      assert xs == init + [e];
      LabelsOfConcat(init, [e]);
      assert LabelsOf([e]) == [e.category];
      calc {
        CountLabels(counts, xs);
        CountLabels(counts, init) + multiset{e.category};
        counts + multiset(LabelsOf(init)) + multiset{e.category};
        counts + multiset(LabelsOf(init) + [e.category]);
      }
    }
  }

  /** The counter for `f` holds each label exactly as often as the counted
      examples carry it. */
  lemma {:induction false} CountsTally(ms: seq<Memory>, f: Field)
    requires AllMappings(ms)
    ensures Counts(ms, f) == multiset(LabelsOf(Counted(ms, f)))
    decreases |ms|
  {
    if ms != [] {
      var init := ms[..|ms| - 1];
      var fm := ms[|ms| - 1].frontmatter.value;
      CountsTally(init, f);
      CountLabelsTallies(Counts(init, f), CountedExamples(fm, f));
      LabelsOfConcat(Counted(init, f), CountedExamples(fm, f));
    }
  }

  /** For the domain and temporal-class classifiers the counter counts
      exactly the dataset: tags feed neither. */
  lemma {:induction false} CountsMatchDataset(ms: seq<Memory>, f: Field)
    requires AllMappings(ms) && f != ContextType
    ensures Counted(ms, f) == Dataset(ms, f)
    ensures Counts(ms, f) == multiset(LabelsOf(Dataset(ms, f)))
    decreases |ms|
  {
    if ms != [] {
      CountsMatchDataset(ms[..|ms| - 1], f);
    }
    CountsTally(ms, f);
  }

  /** The context-type counter counts only the phrase examples: each label
      is counted at most as often as it occurs in the dataset, and the
      counter holds no more labels than the dataset has examples. */
  lemma ContextCountsWithinDataset(ms: seq<Memory>)
    requires AllMappings(ms)
    ensures Counts(ms, ContextType) <= multiset(LabelsOf(Dataset(ms, ContextType)))
    ensures |Counts(ms, ContextType)| <= |Dataset(ms, ContextType)|
  {
    CountsTally(ms, ContextType);
    CountedWithinDataset(ms);
    assert |LabelsOf(Counted(ms, ContextType))| == |Counted(ms, ContextType)|;
  }

  /** The counted context-type examples are the dataset's phrase examples,
      the dataset having the tag examples besides. */
  lemma {:induction false} CountedWithinDataset(ms: seq<Memory>)
    requires AllMappings(ms)
    ensures multiset(LabelsOf(Counted(ms, ContextType))) <= multiset(LabelsOf(Dataset(ms, ContextType)))
    ensures |Counted(ms, ContextType)| <= |Dataset(ms, ContextType)|
    decreases |ms|
  {
    if ms != [] {
      var init := ms[..|ms| - 1];
      var fm := ms[|ms| - 1].frontmatter.value;
      CountedWithinDataset(init);
      var tags := if Skipped(fm) then [] else TagExamples(fm.semanticTags, fm.contextType);
      assert MemoryExamples(fm, ContextType) == CountedExamples(fm, ContextType) + tags;
      LabelsOfConcat(Counted(init, ContextType), CountedExamples(fm, ContextType));
      LabelsOfConcat(Dataset(init, ContextType), CountedExamples(fm, ContextType) + tags);
      LabelsOfConcat(CountedExamples(fm, ContextType), tags);
    }
  }

  /** The skip is a shortcut only: a memory with neither phrases nor tags
      would contribute nothing through the loops either, so what a memory
      contributes is its phrase examples, then (for the context type) its
      tag examples, skipped or not. */
  lemma SkipIsRedundant(fm: Frontmatter, f: Field)
    ensures MemoryExamples(fm, f) ==
            PhraseExamples(fm.triggerPhrases, Label(fm, f)) +
            (if f == ContextType then TagExamples(fm.semanticTags, fm.contextType) else [])
    ensures CountedExamples(fm, f) == PhraseExamples(fm.triggerPhrases, Label(fm, f))
    ensures (if Skipped(fm) then 0 else |fm.triggerPhrases|) == |fm.triggerPhrases|
    ensures (if Skipped(fm) then 0 else |fm.semanticTags|) == |fm.semanticTags|
  {
  }

  /** A memory with neither trigger phrases nor semantic tags changes no
      dataset, no counter and neither total; it only counts as a memory. */
  lemma SkippedMemoryAddsNothing(ms: seq<Memory>, m: Memory)
    requires AllMappings(ms) && m.frontmatter.Some? && Skipped(m.frontmatter.value)
    ensures AllMappings(ms + [m])
    ensures Build(ms + [m]) == Build(ms)
    ensures BuildStats(ms + [m]) == BuildStats(ms).(totalMemories := |ms| + 1)
  {
    assert (ms + [m])[..|ms|] == ms;
  }

  /** Scanning one more memory `m` appends to each dataset, after what was
      there, first `m`'s phrase examples and then, for the context type
      only, `m`'s tag examples. */
  lemma ScanOrder(ms: seq<Memory>, m: Memory, f: Field)
    requires AllMappings(ms) && m.frontmatter.Some?
    ensures AllMappings(ms + [m])
    ensures var fm := m.frontmatter.value;
            Dataset(ms + [m], f) ==
            Dataset(ms, f) + PhraseExamples(fm.triggerPhrases, Label(fm, f)) +
            (if f == ContextType then TagExamples(fm.semanticTags, fm.contextType) else [])
  {
    var fm := m.frontmatter.value;
    var phrases := PhraseExamples(fm.triggerPhrases, Label(fm, f));
    var tags := if f == ContextType then TagExamples(fm.semanticTags, fm.contextType) else [];
    assert AllMappings(ms + [m]);
    assert Dataset(ms + [m], f) == Dataset(ms, f) + MemoryExamples(fm, f) by {
      assert (ms + [m])[..|ms|] == ms;
    }
    assert MemoryExamples(fm, f) == phrases + tags by {
      SkipIsRedundant(fm, f);
    }
    assert Dataset(ms, f) + (phrases + tags) == Dataset(ms, f) + phrases + tags;
  }

  /** Scanning `a + b` gives the dataset of `a` followed by the dataset of
      `b`: examples are only ever appended, in scan order. */
  lemma {:induction false} DatasetConcat(a: seq<Memory>, b: seq<Memory>, f: Field)
    requires AllMappings(a) && AllMappings(b)
    ensures AllMappings(a + b)
    ensures Dataset(a + b, f) == Dataset(a, f) + Dataset(b, f)
    decreases |b|
  {
    if b != [] {
      var init := b[..|b| - 1];
      DatasetConcat(a, init, f);
      assert (a + b)[..|a + b| - 1] == a + init;
      assert (a + b)[|a + b| - 1] == b[|b| - 1];
    } else {
      assert a + b == a;
    }
  }

  /** The counters of `a + b` are those of `a` plus those of `b`. */
  lemma CountsConcat(a: seq<Memory>, b: seq<Memory>, f: Field)
    requires AllMappings(a) && AllMappings(b)
    ensures AllMappings(a + b)
    ensures Counts(a + b, f) == Counts(a, f) + Counts(b, f)
  {
    CountedConcat(a, b, f);
    CountsTally(a + b, f);
    CountsTally(a, f);
    CountsTally(b, f);
    LabelsOfConcat(Counted(a, f), Counted(b, f));
  }

  lemma {:induction false} CountedConcat(a: seq<Memory>, b: seq<Memory>, f: Field)
    requires AllMappings(a) && AllMappings(b)
    ensures AllMappings(a + b)
    ensures Counted(a + b, f) == Counted(a, f) + Counted(b, f)
    decreases |b|
  {
    if b != [] {
      var init := b[..|b| - 1];
      CountedConcat(a, init, f);
      assert (a + b)[..|a + b| - 1] == a + init;
    } else {
      assert a + b == a;
    }
  }

  /** Each non-empty phrase yields one example, when the label is non-empty. */
  lemma {:induction false} PhraseExamplesSize(phrases: seq<string>, category: string)
    ensures |PhraseExamples(phrases, category)| == if category == "" then 0 else NonEmptyCount(phrases)
    decreases |phrases|
  {
    if phrases != [] {
      PhraseExamplesSize(phrases[..|phrases| - 1], category);
    }
  }

  /** Each non-empty tag yields one example, when the context type is non-empty. */
  lemma {:induction false} TagExamplesSize(tags: seq<string>, category: string)
    ensures |TagExamples(tags, category)| == if category == "" then 0 else NonEmptyCount(tags)
    decreases |tags|
  {
    if tags != [] {
      TagExamplesSize(tags[..|tags| - 1], category);
    }
  }

  /** The number of non-empty strings in a list. */
  function NonEmptyCount(ss: seq<string>): (n: nat)
  {
    if ss == [] then 0
    else NonEmptyCount(ss[..|ss| - 1]) + (if ss[|ss| - 1] != "" then 1 else 0)
  }

  /** How many examples the dataset for `f` should hold: for every memory
      not skipped, its non-empty phrases if it has the label, plus, for the
      context type, its non-empty tags if it has a context type. */
  function ExpectedSize(ms: seq<Memory>, f: Field): (n: nat)
    requires AllMappings(ms)
  {
    if ms == [] then 0
    else
      var fm := ms[|ms| - 1].frontmatter.value;
      ExpectedSize(ms[..|ms| - 1], f) +
      (if Skipped(fm) then 0
       else (if Label(fm, f) == "" then 0 else NonEmptyCount(fm.triggerPhrases)) +
            (if f == ContextType && fm.contextType != "" then NonEmptyCount(fm.semanticTags) else 0))
  }

  /** The size of every dataset is the expected one. */
  lemma {:induction false} DatasetSize(ms: seq<Memory>, f: Field)
    requires AllMappings(ms)
    ensures |Dataset(ms, f)| == ExpectedSize(ms, f)
    decreases |ms|
  {
    if ms != [] {
      var fm := ms[|ms| - 1].frontmatter.value;
      DatasetSize(ms[..|ms| - 1], f);
      PhraseExamplesSize(fm.triggerPhrases, Label(fm, f));
      TagExamplesSize(fm.semanticTags, fm.contextType);
    }
  }

  /** Each phrase yields at most one example per dataset, and each tag at
      most one context-type example, so the datasets are bounded by the
      totals. */
  lemma {:induction false} DatasetWithinTotals(ms: seq<Memory>, f: Field)
    requires AllMappings(ms)
    ensures |Dataset(ms, f)| <= PhraseTotal(ms) + (if f == ContextType then TagTotal(ms) else 0)
    decreases |ms|
  {
    if ms != [] {
      DatasetWithinTotals(ms[..|ms| - 1], f);
    }
  }

  /** Every example has a non-empty text and a non-empty label, and comes
      from some memory: its label is that memory's label for `f`, and its
      text is one of that memory's trigger phrases or, for the context
      type only, one of its semantic tags with hyphens turned into spaces. */
  lemma {:induction false} ExamplesWellFormed(ms: seq<Memory>, f: Field)
    requires AllMappings(ms)
    ensures forall e :: e in Dataset(ms, f) ==>
              e.text != "" && e.category != "" &&
              exists i :: 0 <= i < |ms| && FromMemory(e, ms[i].frontmatter.value, f)
    decreases |ms|
  {
    if ms != [] {
      var init := ms[..|ms| - 1];
      var fm := ms[|ms| - 1].frontmatter.value;
      ExamplesWellFormed(init, f);
      PhraseExamplesSound(fm.triggerPhrases, Label(fm, f));
      TagExamplesSound(fm.semanticTags, fm.contextType);
      forall e | e in Dataset(ms, f)
        ensures e.text != "" && e.category != "" &&
                exists i :: 0 <= i < |ms| && FromMemory(e, ms[i].frontmatter.value, f)
      {
        if e in Dataset(init, f) {
          var i :| 0 <= i < |init| && FromMemory(e, init[i].frontmatter.value, f);
          assert ms[i] == init[i];
        } else {
          assert e in MemoryExamples(fm, f);
          assert FromMemory(e, ms[|ms| - 1].frontmatter.value, f);
        }
      }
    }
  }

  /** Everything memory `fm` should contribute for `f` is in `d`: each of
      its non-empty phrases under its label when that label is non-empty,
      and, for the context type, each of its non-empty tags, normalised,
      when the context type is non-empty. */
  ghost predicate AllEmitted(fm: Frontmatter, f: Field, d: seq<Example>)
  {
    (forall p :: p in fm.triggerPhrases && p != "" && Label(fm, f) != "" ==>
       Example(p, Label(fm, f)) in d) &&
    (f == ContextType ==>
       forall t :: t in fm.semanticTags && t != "" && fm.contextType != "" ==>
         Example(NormalizeTag(t), fm.contextType) in d)
  }

  /** A memory that is not skipped emits everything it should: each
      non-empty phrase under a non-empty label and, for the context type,
      each non-empty tag under a non-empty context type. */
  lemma MemoryExamplesComplete(fm: Frontmatter, f: Field)
    ensures AllEmitted(fm, f, MemoryExamples(fm, f))
  {
    PhraseExamplesComplete(fm.triggerPhrases, Label(fm, f));
    TagExamplesComplete(fm.semanticTags, fm.contextType);
  }

  /** What is emitted into a list stays emitted in any list holding it. */
  lemma AllEmittedGrows(fm: Frontmatter, f: Field, d: seq<Example>, d': seq<Example>)
    requires AllEmitted(fm, f, d)
    requires forall e :: e in d ==> e in d'
    ensures AllEmitted(fm, f, d')
  {
  }

  /** The converse of `ExamplesWellFormed`: for every memory, every
      non-empty phrase appears in the dataset for `f` under the memory's
      label when that label is non-empty, and, for the context type, so
      does every non-empty tag, normalised. */
  lemma {:induction false} ExamplesComplete(ms: seq<Memory>, f: Field)
    requires AllMappings(ms)
    ensures forall i :: 0 <= i < |ms| ==> AllEmitted(ms[i].frontmatter.value, f, Dataset(ms, f))
    decreases |ms|
  {
    if ms != [] {
      var init := ms[..|ms| - 1];
      var fm := ms[|ms| - 1].frontmatter.value;
      var before, added := Dataset(init, f), MemoryExamples(fm, f);
      var all := Dataset(ms, f);
      assert all == before + added;
      ExamplesComplete(init, f);
      MemoryExamplesComplete(fm, f);
      AllEmittedGrows(fm, f, added, all);
      forall i | 0 <= i < |init|
        ensures AllEmitted(ms[i].frontmatter.value, f, all)
      {
        assert ms[i] == init[i];
        AllEmittedGrows(init[i].frontmatter.value, f, before, all);
      }
    }
  }

  /** `e` is an example memory `fm` yields for `f`. */
  ghost predicate FromMemory(e: Example, fm: Frontmatter, f: Field)
  {
    e.category == Label(fm, f) &&
    (e.text in fm.triggerPhrases ||
     (f == ContextType && exists t :: t in fm.semanticTags && e.text == NormalizeTag(t)))
  }

  /** A worked case: a memory with two non-empty trigger phrases `p` and
      `q`, context type `c`, domain `d`, no temporal class and one
      non-empty tag `t` gives three context-type examples (`p`, `q`, then
      `t` normalised), two domain examples and no temporal-class example;
      the context-type counter counts `c` twice, not three times. */
  lemma WorkedExample(p: string, q: string, t: string, c: string, d: string)
    requires p != "" && q != "" && t != "" && c != "" && d != ""
    ensures var ms := [Memory(Some(Frontmatter([p, q], [t], c, d, "")), "", "")];
            && AllMappings(ms)
            && Build(ms) == Datasets([Example(p, c), Example(q, c), Example(NormalizeTag(t), c)],
                                     [Example(p, d), Example(q, d)],
                                     [])
            && BuildStats(ms) == Stats(1, multiset{c, c}, multiset{d, d}, multiset{}, 2, 1)
  {
    var phrased, tagged := [Example(p, c), Example(q, c)], Example(NormalizeTag(t), c);
    assert phrased + [tagged] == [phrased[0], phrased[1], tagged];
    var fm := Frontmatter([p, q], [t], c, d, "");
    OneMemory(Memory(Some(fm), "", ""));
    TwoPhrases(p, q, c);
    TwoPhrases(p, q, d);
    NoLabel(p, q);
    OneTag(t, c);
  }

  /** An empty label gives no examples, and so nothing to count. */
  lemma NoLabel(p: string, q: string)
    ensures PhraseExamples([p, q], "") == []
    ensures CountLabels(multiset{}, PhraseExamples([p, q], "")) == multiset{}
  {
    assert [p, q][..1] == [p] && [p][..0] == [];
  }

  /** One non-empty tag under a non-empty context type: one example. */
  lemma OneTag(t: string, c: string)
    requires t != "" && c != ""
    ensures TagExamples([t], c) == [Example(NormalizeTag(t), c)]
  {
    assert [t][..0] == [];
  }

  /** Scanning a single memory that is not skipped. */
  lemma OneMemory(m: Memory)
    requires m.frontmatter.Some? && !Skipped(m.frontmatter.value)
    ensures var fm := m.frontmatter.value;
            && AllMappings([m])
            && Build([m]) == Datasets(PhraseExamples(fm.triggerPhrases, fm.contextType) + TagExamples(fm.semanticTags, fm.contextType),
                                      PhraseExamples(fm.triggerPhrases, fm.domain),
                                      PhraseExamples(fm.triggerPhrases, fm.temporalClass))
            && BuildStats([m]) == Stats(1, CountLabels(multiset{}, PhraseExamples(fm.triggerPhrases, fm.contextType)),
                                        CountLabels(multiset{}, PhraseExamples(fm.triggerPhrases, fm.domain)),
                                        CountLabels(multiset{}, PhraseExamples(fm.triggerPhrases, fm.temporalClass)),
                                        |fm.triggerPhrases|, |fm.semanticTags|)
  {
    OneMemoryFields(m, ContextType);
    OneMemoryFields(m, Domain);
    OneMemoryFields(m, TemporalClass);
    OneMemoryTotals(m);
  }

  /** The dataset and the counter for `f` after scanning a single memory. */
  lemma OneMemoryFields(m: Memory, f: Field)
    requires m.frontmatter.Some? && !Skipped(m.frontmatter.value)
    ensures AllMappings([m])
    ensures var fm := m.frontmatter.value;
            && Dataset([m], f) == PhraseExamples(fm.triggerPhrases, Label(fm, f)) +
                                  (if f == ContextType then TagExamples(fm.semanticTags, fm.contextType) else [])
            && Counts([m], f) == CountLabels(multiset{}, PhraseExamples(fm.triggerPhrases, Label(fm, f)))
  {
    assert AllMappings([m]);
    assert [m][..0] == [] && [m][0] == m;
    assert Dataset([m], f) == [] + MemoryExamples(m.frontmatter.value, f);
  }

  /** The two totals after scanning a single memory. */
  lemma OneMemoryTotals(m: Memory)
    requires m.frontmatter.Some? && !Skipped(m.frontmatter.value)
    ensures AllMappings([m])
    ensures PhraseTotal([m]) == |m.frontmatter.value.triggerPhrases|
    ensures TagTotal([m]) == |m.frontmatter.value.semanticTags|
  {
    assert AllMappings([m]);
    assert [m][..0] == [] && [m][0] == m;
  }

  /** Two non-empty phrases under a non-empty label: two examples, the
      label counted twice. */
  lemma TwoPhrases(p: string, q: string, category: string)
    requires p != "" && q != "" && category != ""
    ensures PhraseExamples([p, q], category) == [Example(p, category), Example(q, category)]
    ensures CountLabels(multiset{}, PhraseExamples([p, q], category)) == multiset{category, category}
  {
    assert PhraseExamples([p], category) == [Example(p, category)] by {
      assert [p][..0] == [];
    }
    assert PhraseExamples([p, q], category) == [Example(p, category), Example(q, category)] by {
      assert [p, q][..1] == [p];
    }
    CountOneMore(multiset{}, [], Example(p, category));
    assert [] + [Example(p, category)] == [Example(p, category)];
    CountOneMore(multiset{}, [Example(p, category)], Example(q, category));
    assert [Example(p, category)] + [Example(q, category)] == [Example(p, category), Example(q, category)];
  }

  /** The tag "memory-system" becomes the text "memory system". */
  lemma NormalizeTagExample()
    ensures NormalizeTag("memory-system") == "memory system"
  {
    var r := NormalizeTag("memory-system");
    assert forall i :: 0 <= i < 13 ==> r[i] == "memory system"[i];
  }
}
