/**
 * A model of the OpenNLP part-of-speech tagging stage of the crowd-pulse
 * pipeline: a per-language cache of tagging models that is filled lazily,
 * and the per-message operator that writes the tagger's output back onto the
 * message's tokens in place.
 *
 * The OpenNLP library is opaque here. Loading a model (class-path lookup of
 * the artifact plus the `POSModel` constructor) is a parameter `load` from the
 * artifact name to `Some(model)` or `None` (an `IOException` or an
 * `IllegalArgumentException`); tagging is a parameter `tag` from a model and a
 * word sequence to a tag sequence.
 */
module OpenNLP {

  datatype Option<+T> = None | Some(value: T)

  /** Handle for one loaded OpenNLP `POSModel`; `id` only tells instances apart. */
  datatype PosModel = PosModel(id: nat)

  /** The loader: artifact name to a loaded model, or `None` when loading throws. */
  type Loader = string -> Option<PosModel>

  /** The tagger: a model and the words of a message to one tag per word. */
  type Tagger = (PosModel, seq<string>) -> seq<string>

  // ---------------------------------------------------------------------------
  // Artifact naming
  // ---------------------------------------------------------------------------

  const ArtifactSuffix: string := "-pos-maxent.bin"

  /** Name of the class-path resource holding the model for `language`. */
  function ArtifactName(language: string): string
  {
    language + ArtifactSuffix
  }

  /** The name starts with the language code and ends with the fixed suffix. */
  lemma ArtifactNameParts(language: string)
    ensures |ArtifactName(language)| == |language| + 15
    ensures ArtifactName(language)[..|language|] == language
    ensures ArtifactName(language)[|language|..] == "-pos-maxent.bin"
  {
  }

  /** Distinct language codes never share an artifact. */
  lemma ArtifactNameInjective(a: string, b: string)
    ensures ArtifactName(a) == ArtifactName(b) <==> a == b
  {
    if ArtifactName(a) == ArtifactName(b) {
      ArtifactNameParts(a);
      ArtifactNameParts(b);
    }
  }

  // ---------------------------------------------------------------------------
  // The model cache, as values
  // ---------------------------------------------------------------------------

  /**
   * What one `getModel` call does: the cache afterwards, the model it
   * returns (`None` for Java's `null`) and whether it consulted the loader.
   */
  datatype Lookup = Lookup(models: map<string, PosModel>, model: Option<PosModel>, loaded: bool)

  /**
   * One `getModel(language)` call on the cache `models`: a hit returns the
   * stored model; a miss loads the artifact and stores the model only when
   * the load succeeds.
   */
  function CacheLookup(models: map<string, PosModel>, language: string, load: Loader): (r: Lookup)
    // the loader runs exactly on a miss, and its answer is what is returned
    ensures r.loaded <==> language !in models
    ensures r.loaded ==> r.model == load(ArtifactName(language))
    // no key is removed and no binding is overwritten
    ensures forall k :: k in models ==> k in r.models && r.models[k] == models[k]
    // the only key that can appear is the requested one
    ensures forall k :: k in r.models ==> k in models || k == language
    // a model is returned exactly when the cache now holds it under `language`
    ensures r.model.Some? <==> language in r.models
    ensures r.model.Some? ==> r.models[language] == r.model.value
  {
    if language in models then
      Lookup(models, Some(models[language]), false)
    else
      match load(ArtifactName(language))
      case Some(m) => Lookup(models[language := m], Some(m), true)
      case None => Lookup(models, None, true)
  }

  /** A hit returns the stored model, does no load and leaves the cache alone. */
  lemma CacheHit(models: map<string, PosModel>, language: string, load: Loader)
    requires language in models
    ensures CacheLookup(models, language, load) == Lookup(models, Some(models[language]), false)
  {
  }

  /** A miss whose load succeeds stores and returns the loaded model, and nothing else changes. */
  lemma CacheMissLoaded(models: map<string, PosModel>, language: string, load: Loader)
    requires language !in models && load(ArtifactName(language)).Some?
    ensures var m := load(ArtifactName(language)).value;
            CacheLookup(models, language, load) == Lookup(models[language := m], Some(m), true)
  {
  }

  /**
   * A miss whose load fails caches nothing and returns `None`, so the next
   * call for the same language consults the loader again, whatever it answers.
   */
  lemma CacheMissFailed(models: map<string, PosModel>, language: string, load: Loader, later: Loader)
    requires language !in models && load(ArtifactName(language)).None?
    ensures CacheLookup(models, language, load) == Lookup(models, None, true)
    ensures CacheLookup(CacheLookup(models, language, load).models, language, later).loaded
  {
  }

  /**
   * Two successive calls for one language: once the first returns a model,
   * the second returns the same model and does no load.
   */
  lemma SecondLookupHits(models: map<string, PosModel>, language: string, first: Loader, second: Loader)
    requires CacheLookup(models, language, first).model.Some?
    ensures var s := CacheLookup(models, language, first);
            CacheLookup(s.models, language, second) == Lookup(s.models, s.model, false)
  {
  }

  /** One request to the cache: the language asked for and the loader as it answers at that moment. */
  datatype Request = Request(language: string, load: Loader)

  /** The cache after serving `reqs` in order, starting from `models`. */
  function CacheAfter(models: map<string, PosModel>, reqs: seq<Request>): (final: map<string, PosModel>)
    // the cache only grows and a binding, once made, is kept for good
    ensures forall k :: k in models ==> k in final && final[k] == models[k]
    // every new key was asked for
    ensures forall k :: k in final && k !in models ==> exists i :: 0 <= i < |reqs| && reqs[i].language == k
    decreases |reqs|
  {
    if reqs == [] then models
    else
      var rest := CacheAfter(CacheLookup(models, reqs[0].language, reqs[0].load).models, reqs[1..]);
      assert forall k :: k in rest && k !in models && k != reqs[0].language ==>
        exists i :: 0 <= i < |reqs| && reqs[i].language == k by {
        forall k | k in rest && k !in models && k != reqs[0].language
          ensures exists i :: 0 <= i < |reqs| && reqs[i].language == k
        {
          var i :| 0 <= i < |reqs[1..]| && reqs[1..][i].language == k;
          assert reqs[i + 1].language == k;
        }
      }
      rest
  }

  /** How many of the calls in `reqs` load a model for `language` and store it. */
  function Populations(models: map<string, PosModel>, reqs: seq<Request>, language: string): nat
    decreases |reqs|
  {
    if reqs == [] then 0
    else
      var s := CacheLookup(models, reqs[0].language, reqs[0].load);
      (if reqs[0].language == language && s.loaded && s.model.Some? then 1 else 0)
        + Populations(s.models, reqs[1..], language)
  }

  /**
   * Whatever the requests and however the loader answers, a language is
   * populated at most once, and never when the cache already holds it.
   */
  lemma {:induction false} AtMostOnePopulation(models: map<string, PosModel>, reqs: seq<Request>, language: string)
    ensures Populations(models, reqs, language) <= (if language in models then 0 else 1)
    decreases |reqs|
  {
    if reqs != [] {
      var s := CacheLookup(models, reqs[0].language, reqs[0].load);
      AtMostOnePopulation(s.models, reqs[1..], language);
    }
  }

  // ---------------------------------------------------------------------------
  // Messages and tokens
  // ---------------------------------------------------------------------------

  /** A token: its text never changes; its part-of-speech tag starts unset. */
  class Token {
    const text: string
    var pos: Option<string>

    constructor (text: string)
      ensures this.text == text && pos == None
    {
      this.text := text;
      pos := None;
    }
  }

  /** A message: a language code and a token list, absent when not tokenized. */
  class Message {
    const language: string
    var tokens: Option<seq<Token>>

    constructor (language: string, tokens: Option<seq<Token>>)
      ensures this.language == language && this.tokens == tokens
    {
      this.language := language;
      this.tokens := tokens;
    }
  }

  /** The tokens of `message`, as the set of objects the operator may write. */
  ghost function TokensOf(message: Message): set<Token>
    reads message
  {
    if message.tokens.Some? then set t | t in message.tokens.value else {}
  }

  /** The texts of `ts` in token order: what the tagger is given. */
  function Texts(ts: seq<Token>): (words: seq<string>)
    ensures |words| == |ts|
    ensures forall i :: 0 <= i < |ts| ==> words[i] == ts[i].text
  {
    if ts == [] then [] else [ts[0].text] + Texts(ts[1..])
  }

  /** No token object occurs twice in the list. */
  predicate Distinct(ts: seq<Token>)
  {
    forall i, j :: 0 <= i < j < |ts| ==> ts[i] != ts[j]
  }

  /**
   * The last position below `bound` holding the same token object as
   * position `k`: after writing positions `0 .. bound-1` in order, that
   * token keeps the tag written at this position.
   */
  function LastIndexBelow(ts: seq<Token>, k: nat, bound: nat): (j: nat)
    requires k < bound <= |ts|
    ensures k <= j < bound && ts[j] == ts[k]
    decreases bound
  {
    if ts[bound - 1] == ts[k] then bound - 1 else LastIndexBelow(ts, k, bound - 1)
  }

  /** No later position below the bound holds the same token object. */
  lemma {:induction false} LastIndexBelowIsLast(ts: seq<Token>, k: nat, bound: nat, l: nat)
    requires k < bound <= |ts| && LastIndexBelow(ts, k, bound) < l < bound
    ensures ts[l] != ts[k]
    decreases bound
  {
    if ts[bound - 1] != ts[k] && l < bound - 1 {
      LastIndexBelowIsLast(ts, k, bound - 1, l);
    }
  }

  /**
   * Writing position `i` after positions `0 .. i-1`: the token at `k` keeps
   * the write at `i` when it is the same object, and its earlier last write
   * otherwise.
   */
  lemma LastIndexStep(ts: seq<Token>, k: nat, i: nat)
    requires k <= i < |ts|
    ensures LastIndexBelow(ts, k, i + 1) == (if ts[i] == ts[k] then i else LastIndexBelow(ts, k, i))
  {
  }

  /** The tagger gives at least one tag per word (OpenNLP gives exactly one). */
  ghost predicate CoversInput(tag: Tagger)
  {
    forall m, words :: |tag(m, words)| >= |words|
  }

  /**
   * After writing `tags[0]`, `tags[1]`, ... onto `ts[0]`, `ts[1]`, ... in
   * order, every token holds the last tag written to it; for distinct tokens
   * that is token `i` holding `tags[i]`.
   */
  ghost predicate Aligned(ts: seq<Token>, tags: seq<string>)
    requires |tags| >= |ts|
    reads set t | t in ts
  {
    forall i {:trigger LastIndexBelow(ts, i, |ts|)} :: 0 <= i < |ts| ==> ts[i].pos == Some(tags[LastIndexBelow(ts, i, |ts|)])
  }

  /** Without repeated tokens, alignment is position by position. */
  lemma AlignedDistinct(ts: seq<Token>, tags: seq<string>)
    requires |tags| >= |ts| && Distinct(ts) && Aligned(ts, tags)
    ensures forall i :: 0 <= i < |ts| ==> ts[i].pos == Some(tags[i])
  {
    forall i | 0 <= i < |ts|
      ensures ts[i].pos == Some(tags[i])
    {
      assert LastIndexBelow(ts, i, |ts|) == i;
    }
  }

  /** The alignment loop: write tag `i` onto token `i`, in token order. */
  method WriteTags(ts: seq<Token>, tags: seq<string>)
    requires |tags| >= |ts|
    modifies set t | t in ts
    ensures Aligned(ts, tags)
  {
    var i := 0;
    while i < |ts|
      invariant 0 <= i <= |ts|
      invariant forall k {:trigger LastIndexBelow(ts, k, i)} :: 0 <= k < i ==> ts[k].pos == Some(tags[LastIndexBelow(ts, k, i)])
    {
      label before:
      ts[i].pos := Some(tags[i]);
      forall k | 0 <= k < i + 1
        ensures ts[k].pos == Some(tags[LastIndexBelow(ts, k, i + 1)])
      {
        LastIndexStep(ts, k, i);
        if ts[k] != ts[i] {
          assert ts[k].pos == old@before(ts[k].pos);
        }
      }
      i := i + 1;
    }
  }

  // ---------------------------------------------------------------------------
  // The tagging stage
  // ---------------------------------------------------------------------------

  /** The OpenNLP tagging plugin: owns the per-language model cache. */
  class OpenNLPPOSTagger {
    /** Loaded models by language code. */
    var models: map<string, PosModel>
    /** Every artifact name handed to the loader, in order. */
    ghost var loads: seq<string>

    constructor ()
      ensures models == map[] && loads == []
    {
      models := map[];
      loads := [];
    }

    /** `getModel`: the memoising lookup, with `None` for Java's `null`. */
    method GetModel(language: string, load: Loader) returns (model: Option<PosModel>)
      modifies this
      ensures var s := CacheLookup(old(models), language, load);
              model == s.model && models == s.models &&
              loads == old(loads) + (if s.loaded then [ArtifactName(language)] else [])
    {
      if language in models {
        model := Some(models[language]);
      } else {
        var name := ArtifactName(language);
        loads := loads + [name];
        model := load(name);
        if model.Some? {
          models := models[language := model.value];
        }
      }
    }

    /**
     * `posTagMessageTokens`: `None` (Java's `null`) when the message has no
     * tokens or no model is obtainable for its language; otherwise tags the
     * token texts and writes tag `i` onto token `i`, returning the same list.
     */
    method PosTagMessageTokens(message: Message, load: Loader, tag: Tagger) returns (result: Option<seq<Token>>)
      requires CoversInput(tag)
      modifies this, TokensOf(message)
      // the cache takes exactly one getModel step, and only for a tokenized message
      ensures message.tokens.None? ==> models == old(models) && loads == old(loads)
      ensures message.tokens.Some? ==>
                var s := CacheLookup(old(models), message.language, load);
                models == s.models &&
                loads == old(loads) + (if s.loaded then [ArtifactName(message.language)] else [])
      // the two pass-through paths, and the tagging path
      ensures result.Some? <==>
                message.tokens.Some? && CacheLookup(old(models), message.language, load).model.Some?
      ensures result.None? ==> forall t :: t in TokensOf(message) ==> t.pos == old(t.pos)
      ensures result.Some? ==> result == message.tokens
      ensures result.Some? ==>
                var ts := result.value;
                Aligned(ts, tag(models[message.language], Texts(ts)))
    {
      if message.tokens.None? {
        return None;
      }
      var model := GetModel(message.language, load);
      if model.None? {
        return None;
      }
      var ts := message.tokens.value;
      var words := Texts(ts);
      var tags := tag(model.value, words);
      WriteTags(ts, tags);
      return Some(ts);
    }
  }

  /** Example loader: only the English artifact is on the class path. */
  function ExampleLoad(name: string): Option<PosModel>
  {
    if name == "en-pos-maxent.bin" then Some(PosModel(0)) else None
  }

  /** Example tagger: a stub that knows one sentence. */
  function ExampleTag(m: PosModel, words: seq<string>): seq<string>
  {
    if words == ["The", "dog", "runs"] then ["DT", "NN", "VBZ"] else words
  }

  /** What the two example methods need to know about the example loader and tagger. */
  lemma ExampleFacts()
    ensures CoversInput(ExampleTag)
    ensures ArtifactName("en") == "en-pos-maxent.bin"
    ensures ArtifactName("xx") != "en-pos-maxent.bin"
    ensures ExampleTag(PosModel(0), ["The", "dog", "runs"]) == ["DT", "NN", "VBZ"]
  {
    assert ArtifactName("xx")[0] == 'x' != "en-pos-maxent.bin"[0];
  }

  /** Alignment of a three-token message with no repeated token. */
  lemma AlignedThree(a: Token, b: Token, c: Token, tags: seq<string>)
    requires a != b && b != c && a != c
    requires |tags| >= 3 && Aligned([a, b, c], tags)
    ensures a.pos == Some(tags[0]) && b.pos == Some(tags[1]) && c.pos == Some(tags[2])
  {
    AlignedDistinct([a, b, c], tags);
  }

  /** An English message is tagged position by position. */
  method EnglishMessageIsTagged()
  {
    var stage := new OpenNLPPOSTagger();
    var the := new Token("The");
    var dog := new Token("dog");
    var runs := new Token("runs");
    var english := new Message("en", Some([the, dog, runs]));
    ExampleFacts();
    var tagged := stage.PosTagMessageTokens(english, ExampleLoad, ExampleTag);
    assert tagged == Some([the, dog, runs]);
    assert Aligned([the, dog, runs], ["DT", "NN", "VBZ"]) by {
      assert stage.models["en"] == PosModel(0);
    }
    AlignedThree(the, dog, runs, ["DT", "NN", "VBZ"]);
    assert the.pos == Some("DT") && dog.pos == Some("NN") && runs.pos == Some("VBZ");
  }

  /** A message in a language with no model keeps its tag unset. */
  method UnknownLanguagePassesThrough()
  {
    var stage := new OpenNLPPOSTagger();
    ExampleFacts();
    var foo := new Token("foo");
    var unknown := new Message("xx", Some([foo]));
    assert foo in TokensOf(unknown);
    var tagged := stage.PosTagMessageTokens(unknown, ExampleLoad, ExampleTag);
    assert tagged == None;
    assert foo.pos == None;
  }
}
