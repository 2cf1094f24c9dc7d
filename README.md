# Memory training-data extractor, modelled in Dafny

This project models the core of `experiments/foundation-models-test/extract_training_data.py`. That script turns a collection of
memory files into training sets for intent classifiers. It has two parts.

- **Front-matter splitting** (`parse_memory_file`) is a pure string function. It is modelled in
  `memory_file.dfy` (module `MemoryFile`) on top of `pystr.dfy` (module `PyStr`). `PyStr` models the Python `str`
  operations the extractor relies on, with Python's semantics:
  - in the parser (lines 32-41): `startswith`; `split(sep, maxsplit)`, which cuts at the leftmost occurrence each
    time, so occurrences never overlap; and `strip()`, using the `str.isspace` character set;
  - in the builder (line 144): `replace` of one character by another.
- **Dataset building** (`create_training_data`) is an imperative loop. It is modelled in `training_data.dfy` (module
  `TrainingData`).
  - The method `CreateTrainingData` keeps the source's shape: the outer loop over memories with its `continue`, the
    inner loops over trigger phrases and semantic tags, and the appends and counter increments.
  - The method is proved equal to a left fold over the memories (`Build`, `BuildStats`).
  - Lemmas about that fold state what the output means:
    - how large each dataset is;
    - what every counter holds;
    - that skipped memories add nothing;
    - that examples are appended in scan order;
    - that every example has a non-empty text and label, and comes from a memory;
    - that every non-empty phrase or tag under a non-empty label is emitted.

A `Counter` that is only ever incremented by one is modelled as a `multiset<string>`. The front matter a memory carries
is modelled as a record holding the five fields the builder reads. Each field takes the value `fm.get(key, default)`
yields: an empty list or `""` when the key is absent.

The split stage of `parse_memory_file` (lines 32-38) lets a text through only when it opens with `---` and has a second
`---` that starts after the opening one ends. A loose reading would say it rejects a text with "fewer than two
occurrences of `---`", but that is not what the code does. For example, `"----x"` has two overlapping occurrences and is
still rejected, because `split` never overlaps its cuts. The model follows the code (`MemoryFile.ParseSucceedsIff`).
A text that passes the split can still make the source return None, when its front matter is not valid YAML; that stage
is outside the model.

## Model

| member | source | states |
|---|---|---|
| PyStr.StartsWith | experiments/foundation-models-test/extract_training_data.py:32 | `startswith("---")` holds exactly when the text is at least as long as the prefix and agrees with it character by character |
| PyStr.Find | experiments/foundation-models-test/extract_training_data.py:36 | A found occurrence lies inside the text, at or after the start of the search |
| PyStr.FindLeftmost | experiments/foundation-models-test/extract_training_data.py:36 | The scan `split` uses finds a real occurrence, and it is the leftmost one; it finds nothing only when there is no occurrence |
| PyStr.FindNoneIff | experiments/foundation-models-test/extract_training_data.py:36 | The scan finds nothing exactly when the separator does not occur in the text |
| PyStr.Split | experiments/foundation-models-test/extract_training_data.py:36 | `split(sep, maxsplit)` yields between 1 and maxsplit + 1 pieces |
| PyStr.SplitPiecesFree | experiments/foundation-models-test/extract_training_data.py:36 | No piece of a split, except the last, contains the separator; neither does the last one when the cuts did not run out |
| PyStr.SplitJoin | experiments/foundation-models-test/extract_training_data.py:36 | Splitting loses nothing: joining the pieces with the separator gives the original text back |
| PyStr.IsSpace | experiments/foundation-models-test/extract_training_data.py:41 | The whitespace set `strip()` removes is Python's `str.isspace` table. Space, tab, newline and carriage return are in it; letters, digits and `-` are not |
| PyStr.Strip | experiments/foundation-models-test/extract_training_data.py:41 | `strip()` is no longer than its input, and neither starts nor ends with whitespace |
| PyStr.StripTrims | experiments/foundation-models-test/extract_training_data.py:41 | `strip()` is a slice of its input, and everything cut away on either side is whitespace |
| PyStr.ReplaceAll | experiments/foundation-models-test/extract_training_data.py:144 | `replace` of one character keeps the length, turns every `from` into `to` and leaves every other character where it was |
| PyStr.ReplaceAllRemoves | experiments/foundation-models-test/extract_training_data.py:144 | When `from` and `to` differ, no `from` character is left after the replacement |
| PyStr.ReplaceAllAbsent | experiments/foundation-models-test/extract_training_data.py:144 | A text without the `from` character is left unchanged |
| PyStr.ReplaceAllIdempotent | experiments/foundation-models-test/extract_training_data.py:144 | Replacing twice is the same as replacing once, for any two characters (equal ones included) |
| MemoryFile.ParseMemoryFile | experiments/foundation-models-test/extract_training_data.py:32-47 | A successful parse means the text starts with `---`; it keeps the path, and the front matter it returns contains no `---` |
| MemoryFile.SplitAfterOpening | experiments/foundation-models-test/extract_training_data.py:32-36 | For a text that opens with `---`, the first piece of `split("---", 2)` is empty and the rest is the remainder split once |
| MemoryFile.ParseSucceedsIff | experiments/foundation-models-test/extract_training_data.py:32-38 | Parsing succeeds if and only if the text starts with `---` and another `---` occurs that does not overlap the opening one |
| MemoryFile.ParseCutsAtLeftmost | experiments/foundation-models-test/extract_training_data.py:32-47 | For a text opening with `---`, take k as the leftmost start of `---` at or after index 3. Parsing then succeeds, the front matter is the text between index 3 and k, and the body is the text after k + 3, stripped |
| MemoryFile.ParseRoundTrip | experiments/foundation-models-test/extract_training_data.py:36-41 | On success there are exactly three pieces: the first is empty, and the middle one has no `---`. The text equals piece 0 + `---` + piece 1 + `---` + piece 2. The result is piece 1 with piece 2 stripped |
| TrainingData.NormalizeTag | experiments/foundation-models-test/extract_training_data.py:144 | A normalised tag has the tag's length, contains no `-`, has a space wherever the tag had `-`, and has every other character where it was |
| TrainingData.NormalizeTagIdempotent | experiments/foundation-models-test/extract_training_data.py:144 | Normalising a normalised tag changes nothing |
| TrainingData.NormalizeTagExample | experiments/foundation-models-test/extract_training_data.py:144 | `memory-system` becomes `memory system` |
| TrainingData.Skipped | experiments/foundation-models-test/extract_training_data.py:111 | The skip test holds for a memory with neither trigger phrases nor semantic tags. Such a memory yields no phrase example and no tag example under any label |
| TrainingData.PhraseExamples | experiments/foundation-models-test/extract_training_data.py:118-138 | A list of phrases yields at most one example per phrase, and none at all under an empty label |
| TrainingData.PhraseExamplesSound | experiments/foundation-models-test/extract_training_data.py:118-138 | Every phrase example has a non-empty phrase from the list as its text and the (non-empty) label as its label |
| TrainingData.TagExamples | experiments/foundation-models-test/extract_training_data.py:141-146 | A list of tags yields at most one example per tag, and none at all under an empty context type |
| TrainingData.TagExamplesSound | experiments/foundation-models-test/extract_training_data.py:141-146 | Every tag example's text is a normalised tag from the list; it is non-empty, contains no `-`, and carries the non-empty context type |
| TrainingData.PhraseExamplesComplete | experiments/foundation-models-test/extract_training_data.py:118-138 | Under a non-empty label, every non-empty phrase of the list yields `Example(phrase, label)` |
| TrainingData.TagExamplesComplete | experiments/foundation-models-test/extract_training_data.py:141-146 | Under a non-empty context type, every non-empty tag of the list yields its normalised example |
| TrainingData.ScanStep | experiments/foundation-models-test/extract_training_data.py:99-146 | Scanning one more memory is one more turn of the loop body on the fold so far |
| TrainingData.SkippedTurn | experiments/foundation-models-test/extract_training_data.py:110-112 | A turn for a memory with neither phrases nor tags leaves the datasets and the statistics as they were |
| TrainingData.ScannedExamples | experiments/foundation-models-test/extract_training_data.py:114-146 | A memory that is not skipped appends its phrase examples to every dataset and, for the context type only, its tag examples after them; each counter counts its phrase examples only |
| TrainingData.ScannedTurn | experiments/foundation-models-test/extract_training_data.py:114-146 | A turn for a memory that is not skipped appends its phrase examples to every dataset (then its tag examples to the context-type one), counts the phrase examples, and adds its phrase and tag totals |
| TrainingData.CountLabels | experiments/foundation-models-test/extract_training_data.py:124-138 | `Counter[label] += 1` for each example in turn only adds to the counter, and adds exactly one count per example |
| TrainingData.PhraseTotal | experiments/foundation-models-test/extract_training_data.py:114 | `trigger_phrases_count` sums the phrase-list lengths of the memories not skipped. No counter counts more examples than that |
| TrainingData.TagTotal | experiments/foundation-models-test/extract_training_data.py:115 | `semantic_tags_count` sums the tag-list lengths of the memories not skipped. The context-type dataset's uncounted (tag) examples are no more than that |
| TrainingData.Build | experiments/foundation-models-test/extract_training_data.py:84-146 | The datasets after scanning the memories, as a fold. The domain and temporal-class datasets are no larger than `trigger_phrases_count`, and the context-type dataset no larger than both totals together |
| TrainingData.BuildStats | experiments/foundation-models-test/extract_training_data.py:90-138 | The statistics after scanning the memories, as a fold. `total_memories` is the number of memories. The domain and temporal-class counters are exactly the multisets of their datasets' labels, and the context-type counter is within its dataset's |
| TrainingData.CountOneMore | experiments/foundation-models-test/extract_training_data.py:124 | Counting one more example increments its label's count by one |
| TrainingData.EmitPhrase | experiments/foundation-models-test/extract_training_data.py:119-124 | One phrase block: the dataset and the counter move from the examples of the first j phrases to those of the first j + 1 |
| TrainingData.ScanPhrases | experiments/foundation-models-test/extract_training_data.py:118-138 | The phrase loop appends each dataset's phrase examples in order and counts each under its label; the totals are left alone |
| TrainingData.ScanTags | experiments/foundation-models-test/extract_training_data.py:141-146 | The tag loop appends the tag examples, in order, to the context-type dataset |
| TrainingData.ScanMemory | experiments/foundation-models-test/extract_training_data.py:114-146 | For a memory that is not skipped, the new datasets and statistics are the old ones plus its phrase examples, its tag examples (context type only), its counted labels and its two totals |
| TrainingData.CreateTrainingData | experiments/foundation-models-test/extract_training_data.py:73-148 | The result is the fold over the memories. `total_memories` is the number of memories. The domain and temporal-class counters tally exactly the labels of their datasets. The context-type counter tallies no label more often than its dataset holds it |
| TrainingData.LabelsOfConcat | experiments/foundation-models-test/extract_training_data.py:120-137 | The labels of two example lists, concatenated, are the labels of their concatenation |
| TrainingData.CountLabelsTallies | experiments/foundation-models-test/extract_training_data.py:124-138 | Counting a list of examples into a counter adds each label as many times as it occurs among them |
| TrainingData.CountsTally | experiments/foundation-models-test/extract_training_data.py:118-138 | Each counter holds each label exactly as often as the counted examples carry it |
| TrainingData.CountsMatchDataset | experiments/foundation-models-test/extract_training_data.py:126-138 | For domain and temporal class, the counted examples are the dataset, and `counts[L]` is the number of examples in the dataset labelled L |
| TrainingData.ContextCountsWithinDataset | experiments/foundation-models-test/extract_training_data.py:118-146 | The context-type counter counts each label at most as often as the dataset holds it; its total is at most the dataset's size |
| TrainingData.CountedWithinDataset | experiments/foundation-models-test/extract_training_data.py:118-146 | The counted context-type examples' labels are a sub-multiset of the dataset's, and there are no more of them |
| TrainingData.SkipIsRedundant | experiments/foundation-models-test/extract_training_data.py:110-146 | What a memory contributes is its phrase examples then its tag examples, skipped or not: for a skipped memory both are empty and both totals add zero |
| TrainingData.SkippedMemoryAddsNothing | experiments/foundation-models-test/extract_training_data.py:110-112 | Scanning one more memory with neither phrases nor tags changes no dataset, no counter and neither total; only `total_memories` grows |
| TrainingData.ScanOrder | experiments/foundation-models-test/extract_training_data.py:99-146 | Scanning `memories + [m]` gives the datasets of `memories` followed by m's phrase examples and then, for the context type only, m's tag examples |
| TrainingData.DatasetConcat | experiments/foundation-models-test/extract_training_data.py:99-146 | Datasets are append-only in scan order: the dataset of `a + b` is that of `a` followed by that of `b` |
| TrainingData.CountedConcat | experiments/foundation-models-test/extract_training_data.py:99-138 | The examples counted for `a + b` are those counted for `a` followed by those counted for `b` |
| TrainingData.CountsConcat | experiments/foundation-models-test/extract_training_data.py:99-138 | The counters of `a + b` are the counters of `a` plus those of `b` |
| TrainingData.PhraseExamplesSize | experiments/foundation-models-test/extract_training_data.py:118-138 | A list of phrases yields one example per non-empty phrase when the label is non-empty, and none otherwise |
| TrainingData.TagExamplesSize | experiments/foundation-models-test/extract_training_data.py:141-146 | A list of tags yields one example per non-empty tag when the context type is non-empty, and none otherwise |
| TrainingData.DatasetSize | experiments/foundation-models-test/extract_training_data.py:118-146 | Each dataset's size is the sum, over memories not skipped, of two terms. The first is the number of non-empty phrases when the memory has that label. The second, for the context type only, is the number of non-empty tags when the memory has a context type |
| TrainingData.DatasetWithinTotals | experiments/foundation-models-test/extract_training_data.py:114-146 | No dataset is larger than `trigger_phrases_count`, plus `semantic_tags_count` for the context type |
| TrainingData.ExamplesWellFormed | experiments/foundation-models-test/extract_training_data.py:118-146 | Every example has a non-empty text and a non-empty label. It comes from one of the memories: its label is that memory's label, and its text is one of that memory's phrases or, for the context type only, one of its tags normalised |
| TrainingData.MemoryExamplesComplete | experiments/foundation-models-test/extract_training_data.py:111-146 | One memory's examples for a classifier include each of its non-empty phrases under its label, when that label is non-empty. For the context type they also include each non-empty tag, normalised, when the context type is non-empty |
| TrainingData.ExamplesComplete | experiments/foundation-models-test/extract_training_data.py:99-146 | The converse of `ExamplesWellFormed`. For every memory, every non-empty phrase is in the dataset under the memory's label, when that label is non-empty. For the context type, every non-empty tag is there too, normalised, when the context type is non-empty |
| TrainingData.WorkedExample | experiments/foundation-models-test/extract_training_data.py:99-146 | Take one memory with two phrases, one tag, a context type, a domain and no temporal class. It gives three context-type examples (the phrases, then the tag) but counts the context type twice; it gives two domain examples and no temporal-class example |
| TrainingData.OneMemory | experiments/foundation-models-test/extract_training_data.py:99-146 | Scanning a single memory that is not skipped yields its phrase and tag examples, counts its phrase examples, and records its totals and one memory |
| TrainingData.OneMemoryFields | experiments/foundation-models-test/extract_training_data.py:118-146 | After scanning a single memory that is not skipped, the dataset for a label is its phrase examples (then, for the context type, its tag examples), and the counter counts the phrase examples |
| TrainingData.OneMemoryTotals | experiments/foundation-models-test/extract_training_data.py:114-115 | After scanning a single memory that is not skipped, the totals are its numbers of phrases and of tags |
| TrainingData.TwoPhrases | experiments/foundation-models-test/extract_training_data.py:118-124 | Two non-empty phrases under a non-empty label give two examples, in order, and count the label twice |
| TrainingData.NoLabel | experiments/foundation-models-test/extract_training_data.py:133-138 | Phrases under an empty label give no example and count nothing |
| TrainingData.OneTag | experiments/foundation-models-test/extract_training_data.py:141-146 | One non-empty tag under a non-empty context type gives one example, the tag normalised |

## Left out

- `extract_all_memories` (filesystem iteration with `iterdir`, `glob` and `exists`, in no specified order) is not part of this model. `CreateTrainingData` takes the list of parsed memories as its input.
- `main` is not part of this model: JSON and JSONL output, `Counter.most_common` ordering for display, and console printing.
- `experiments/foundation-models-test/minilm_test.py` and `experiments/foundation-models-test/mlx_test.py` are not part of this model. They are latency benchmarks over foreign model libraries, with floating-point timing and printing.
- MemoryFile.ParseMemoryFile: the file read (`read_text`) is left out, because it is I/O. The function takes the file's text and its path as parameters, so a read error (which the catch-all `except` at lines 48-50 turns into None) is not modelled.
- MemoryFile.ParseMemoryFile: `yaml.safe_load` at line 40 is a foreign parser and is left out. The front matter stays raw text, and the builder's `Frontmatter` record stands for what the parser would produce. Malformed YAML is not modelled either: there the parser raises, the `except` at lines 48-50 turns that into None, but `ParseMemoryFile` returns Some (for example on `"---\na: [\n---\nbody"`). Its contract speaks only of the split stage.
- TrainingData.CreateTrainingData: requires every memory's front matter to be a mapping (`AllMappings`). Otherwise `fm.get` raises outside any handler, and the model does not describe that exception.
- TrainingData.CreateTrainingData: front-matter values of the wrong type are not modelled; the record holds lists of strings and strings. A key with no value (`trigger_phrases:`) reads as None; with non-empty tags beside it, `len(None)` at line 114 raises a TypeError that aborts the whole run. A phrase that is a number, or a `trigger_phrases` that is a string rather than a list, would get Python's own truthiness or iteration instead.
- PyStr.IsSpace: its contract pins down only common characters (space, tab, newline and carriage return in; letters, digits and `-` out). The full `str.isspace` table is its definition, with nothing proved about the rarer code points.
- The `body` the loop reads at line 108 is never used by the source. The model keeps it in `Memory`, but nothing reads it.
- The source returns the datasets and the statistics as a tuple of dictionaries. The model returns them as two records with one field per key.
