# OpenNLP part-of-speech tagging stage, modelled in Dafny

This project models the OpenNLP part-of-speech tagger plugin of the crowd-pulse
pipeline (`OpenNLPPOSTagger`). It covers two pieces of stateful logic:

- **The per-language model cache** (`getModel`). The plugin keeps a map from
  language code to a loaded `POSModel`. On a hit the stored model is returned
  and nothing is loaded. On a miss the artifact `<language>-pos-maxent.bin` is
  loaded. The model is stored only when the load succeeds. A failed load
  (`IOException` or `IllegalArgumentException`) caches nothing and returns
  `null`, so a later call tries again. Entries are never removed or
  overwritten.
- **The per-message tagging operator** (`posTagMessageTokens`). It returns
  `null` and changes nothing when the message has no token list, or when no
  model can be had for its language. Otherwise it takes the token texts in
  order, runs the tagger and writes tag `i` onto token `i` in place. It then
  returns the same token list.

Everything is in `opennlp_pos_tagger.dfy`, module `OpenNLP`:

- `OpenNLPPOSTagger` is a class. Its field `models` is the cache. A ghost field
  `loads` records every artifact name handed to the loader, so "no load on a
  hit" and "a retry after a failure" can be observed.
- `Token` and `Message` are classes. A token's `text` is constant and its `pos`
  is mutable (`None` stands for unset).
- The OpenNLP library is opaque. Loading is a parameter
  `load: string -> Option<PosModel>`. It maps the artifact name to the loaded
  model, or to `None` when loading throws. Tagging is a parameter
  `tag: (PosModel, seq<string>) -> seq<string>`.
- Java's `null` results are `None`.
- `CacheLookup` describes one `getModel` call as a value. `GetModel` is proved
  against it. `CacheAfter` and `Populations` describe a whole series of calls.
- `WriteTags` is the in-place alignment loop. It is proved against `Aligned`.
- A token list may hold the same `Token` object twice. The Java loop then
  leaves that object with the tag written last. `Aligned` states this exactly
  through `LastIndexBelow`. When no token repeats, it reduces to "token `i`
  holds `tags[i]`" (`AlignedDistinct`).
- `EnglishMessageIsTagged` and `UnknownLanguagePassesThrough` are client
  methods of the contracts. With a loader that knows only the English
  artifact and a stub tagger, an `"en"` message "The dog runs" ends up tagged
  DT, NN, VBZ. A `"xx"` message gets no model and its token keeps its tag unset.

Facts about the code that shape the model:

- The artifact name is `language + "-pos-maxent.bin"` (OpenNLPPOSTagger.java, line 73).
- The alignment loop indexes `posTags[i]` with no bound check (OpenNLPPOSTagger.java, line 59). The
  model therefore requires the tagger to return at least one tag per word
  (`CoversInput`).
- An exception thrown by the tagger is not caught. It propagates out of `posTagMessageTokens`.

## Model

| member | source | states |
|---|---|---|
| `OpenNLP.OpenNLPPOSTagger.constructor` | src/main/java/com/github/frapontillo/pulse/crowd/postag/opennlp/OpenNLPPOSTagger.java:26-28 | the cache starts empty and nothing has been loaded |
| `OpenNLP.OpenNLPPOSTagger.GetModel` | src/main/java/com/github/frapontillo/pulse/crowd/postag/opennlp/OpenNLPPOSTagger.java:67-89 | the returned model and the new cache are those of one `CacheLookup` step; the loader is called with the artifact name exactly on a miss, and never on a hit |
| `OpenNLP.CacheLookup` | src/main/java/com/github/frapontillo/pulse/crowd/postag/opennlp/OpenNLPPOSTagger.java:67-89 | the loader runs if and only if the language is not cached, and its answer is returned; no key is removed and no binding is overwritten; only the requested key can be added; a model is returned if and only if the cache now holds it under that language |
| `OpenNLP.CacheHit` | src/main/java/com/github/frapontillo/pulse/crowd/postag/opennlp/OpenNLPPOSTagger.java:68-69 | on a hit the stored model is returned, no load happens and the cache is unchanged |
| `OpenNLP.CacheMissLoaded` | src/main/java/com/github/frapontillo/pulse/crowd/postag/opennlp/OpenNLPPOSTagger.java:72-75 | on a miss with a successful load, the loaded model is stored under the language and returned, and every other binding is kept |
| `OpenNLP.CacheMissFailed` | src/main/java/com/github/frapontillo/pulse/crowd/postag/opennlp/OpenNLPPOSTagger.java:76-78 | on a miss with a failed load, nothing is cached and `None` is returned; the next call for that language calls the loader again |
| `OpenNLP.SecondLookupHits` | src/main/java/com/github/frapontillo/pulse/crowd/postag/opennlp/OpenNLPPOSTagger.java:69-75 | once a call returns a model, the next call for the same language returns the same model without loading |
| `OpenNLP.CacheAfter` | src/main/java/com/github/frapontillo/pulse/crowd/postag/opennlp/OpenNLPPOSTagger.java:69-75 | over any series of calls the cache only grows, every binding is kept for good, and every new key was requested by some call |
| `OpenNLP.AtMostOnePopulation` | src/main/java/com/github/frapontillo/pulse/crowd/postag/opennlp/OpenNLPPOSTagger.java:69-75 | over any series of calls and loader answers, a language is populated at most once, and never when it was already cached |
| `OpenNLP.ArtifactName` | src/main/java/com/github/frapontillo/pulse/crowd/postag/opennlp/OpenNLPPOSTagger.java:72-73 | the resource name for a language is the language code followed by `-pos-maxent.bin` |
| `OpenNLP.ArtifactNameParts` | src/main/java/com/github/frapontillo/pulse/crowd/postag/opennlp/OpenNLPPOSTagger.java:72-73 | the artifact name is the language code followed by `-pos-maxent.bin` |
| `OpenNLP.ArtifactNameInjective` | src/main/java/com/github/frapontillo/pulse/crowd/postag/opennlp/OpenNLPPOSTagger.java:72-73 | two languages share an artifact name if and only if they are the same language |
| `OpenNLP.Texts` | src/main/java/com/github/frapontillo/pulse/crowd/postag/opennlp/OpenNLPPOSTagger.java:51-53 | the tagger input has one word per token, and word `i` is the text of token `i` |
| `OpenNLP.LastIndexBelow` | src/main/java/com/github/frapontillo/pulse/crowd/postag/opennlp/OpenNLPPOSTagger.java:58-60 | the result is the last position before the bound holding the same token object, so it is the write that object keeps |
| `OpenNLP.LastIndexStep` | src/main/java/com/github/frapontillo/pulse/crowd/postag/opennlp/OpenNLPPOSTagger.java:58-60 | one more loop iteration: writing position `i` becomes the last write of every token that is the same object as `ts[i]`, and leaves the last write of every other token as it was |
| `OpenNLP.LastIndexBelowIsLast` | src/main/java/com/github/frapontillo/pulse/crowd/postag/opennlp/OpenNLPPOSTagger.java:58-60 | no position after the one `LastIndexBelow` picks, and below the bound, holds the same token object |
| `OpenNLP.WriteTags` | src/main/java/com/github/frapontillo/pulse/crowd/postag/opennlp/OpenNLPPOSTagger.java:58-60 | after the loop every token holds the last tag written to it; it writes only the listed tokens' `pos` |
| `OpenNLP.AlignedDistinct` | src/main/java/com/github/frapontillo/pulse/crowd/postag/opennlp/OpenNLPPOSTagger.java:58-60 | with no repeated token, alignment means token `i` holds `tags[i]` for every `i` |
| `OpenNLP.OpenNLPPOSTagger.PosTagMessageTokens` | src/main/java/com/github/frapontillo/pulse/crowd/postag/opennlp/OpenNLPPOSTagger.java:40-63 | with no token list it returns `None` and leaves the cache alone; otherwise the cache takes one `getModel` step; it returns a list if and only if tokens exist and a model was obtained; on `None` no token's `pos` changes; on success it returns the same list, the tagger sees the token texts in order, and the tokens are aligned with its output |

## Left out

- OpenNLP internals (`new POSModel(InputStream)`, `POSTaggerME.tag`): they are opaque. They are the `load` and `tag` parameters.
- The class-loader resource lookup and the closing of the stream are I/O. Only the derived artifact name is kept.
- Exceptions other than `IOException` and `IllegalArgumentException` thrown by a load are not modelled. Neither is any exception thrown by the tagger. Both propagate out of the Java code.
- RxJava operator wiring and the `IPOSTaggerOperator` superclass: framework code that is not part of this model.
- `getName` and `getNewParameter`: constant plugin identity and an empty configuration.
- `printStackTrace` on a failed load: logging with no effect on the result.
- Concurrency: `models` is an unsynchronised `HashMap`, so the model is sequential.
- `null` values are not modelled where the model's types exclude them: a `null` language code, `null` tag strings, a `null` element in the token list (which throws `NullPointerException` at `map(Token::getText)`, OpenNLPPOSTagger.java line 51), and a `null` token text (which is passed on to the tagger). Language codes, texts and tags are plain strings, and tokens are non-null objects.
- `OpenNLP.WriteTags`: a tag array shorter than the token list is excluded by its precondition. The Java loop would write the first tags and then throw `ArrayIndexOutOfBoundsException`.
- `Message` and `Token` belong to the crowd-pulse data library. They are not part of this model beyond the fields the operator uses.
