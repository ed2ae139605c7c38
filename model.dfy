/**
  app/backend/app/model.py: the lazily loaded model/tokenizer pair kept in the module
  globals `_model` and `_tokenizer`, and `translate_text`, which runs tokenize, generate
  and decode through them and cleans the decoded string.

  The transformer library is not modelled. What a loader returns on a given call is a
  parameter of that call (`Result<T>` for the tokenizer, `Result<M>` for the model), and
  tokenize, generate and decode are total functions of a `Library` value that may fail.
  Every call into the library is recorded, so that which calls happen, and in which
  order, can be stated.
*/
module TranslationModel {
  import opened Wrappers
  import opened Config
  import opened OutputCleanup

  /** A sequence of token ids, as held in a tensor. */
  type TokenIds = seq<int>

  /** One call into the transformer library, with the arguments that matter. */
  datatype Call =
    | TokenizerFromPretrained(path: string)
    | ModelFromPretrained(path: string)
    | Tokenize(text: string, maxLength: int, truncation: bool, padding: bool)
    | Generate(maxLength: int, numBeams: int, earlyStopping: bool)
    | Decode(skipSpecialTokens: bool)

  /**
    The inference calls of a loaded model `M` and tokenizer `T`. Each may raise: an `Err`
    carries the message of the exception.
  */
  datatype Library<!M, !T> = Library(
    tokenize: (T, string, int, bool, bool) -> Result<TokenIds>,
    generate: (M, TokenIds, int, int, bool) -> Result<seq<TokenIds>>,
    decode: (T, TokenIds, bool) -> Result<string>)

  /** The text put in front of the message of any failure inside the `try` of `translate_text`. */
  const TranslationErrorPrefix: string := "Translation error: "

  /** Stands for the message of the error raised by `outputs[0]` on an empty batch. */
  const IndexErrorMessage: string := "index 0 is out of bounds"

  /** The exception `translate_text` raises in place of a failure `message`. */
  function Wrap(message: string): (w: string)
    ensures StartsWith(w, TranslationErrorPrefix)
    ensures w[|TranslationErrorPrefix|..] == message
  {
    TranslationErrorPrefix + message
  }

  /** The values of `_model` and `_tokenizer`. */
  datatype Cache<M, T> = Cache(model: Option<M>, tokenizer: Option<T>) {

    /** The guard of model.py lines 19 and 45: `_model is None or _tokenizer is None`. */
    predicate NeedsLoad() {
      model.None? || tokenizer.None?
    }

    /**
      What every reachable state satisfies: the model is never set without the tokenizer.
      (The tokenizer without the model is reachable.)
    */
    predicate Consistent() {
      model.Some? ==> tokenizer.Some?
    }
  }

  /** The result of a call, the cache after it and the library calls it made, in order. */
  datatype Step<M, T, R> = Step(result: Result<R>, after: Cache<M, T>, calls: seq<Call>)

  /** The result of a call that does not touch the cache, and the library calls it made. */
  datatype Traced<R> = Traced(result: Result<R>, calls: seq<Call>)

  /**
    `load_model` (model.py lines 15-29) as a function of the cache before the call and of
    what the two loaders would return. The tokenizer is assigned before the model is
    loaded, and a loader's exception is raised again unchanged.
  */
  function Load<M, T>(c: Cache<M, T>, path: string, tokenizerLoad: Result<T>, modelLoad: Result<M>)
    : (s: Step<M, T, (M, T)>)
    ensures s.result.Ok? ==> !s.after.NeedsLoad()
    ensures s.result.Ok? ==> s.result.value == (s.after.model.value, s.after.tokenizer.value)
    ensures c.Consistent() ==> s.after.Consistent()
    ensures c.Consistent() && s.result.Err? ==> s.after.NeedsLoad()
  {
    if !c.NeedsLoad() then
      Step(Ok((c.model.value, c.tokenizer.value)), c, [])
    else
      match tokenizerLoad
      case Err(e) => Step(Err(e), c, [TokenizerFromPretrained(path)])
      case Ok(t) =>
        var calls := [TokenizerFromPretrained(path), ModelFromPretrained(path)];
        match modelLoad
        case Err(e) => Step(Err(e), c.(tokenizer := Some(t)), calls)
        case Ok(m) => Step(Ok((m, t)), Cache(Some(m), Some(t)), calls)
  }

  /**
    The `try` block of `translate_text` (model.py lines 48-76) with a loaded pair: tokenize,
    generate, decode the first output, clean it; any failure comes out wrapped.
  */
  function Pipeline<M, T>(lib: Library<M, T>, m: M, t: T, text: string, cfg: Settings)
    : (r: Traced<string>)
    ensures r.result.Err? ==> StartsWith(r.result.message, TranslationErrorPrefix)
    ensures r.result.Ok? ==>
      r.calls == [Tokenize(text, cfg.maxLength, true, true),
                  Generate(cfg.maxLength, cfg.numBeams, true),
                  Decode(true)]
    ensures r.calls != [] && r.calls[0] == Tokenize(text, cfg.maxLength, true, true)
  {
    var tokenizeCall := Tokenize(text, cfg.maxLength, true, true);
    match lib.tokenize(t, text, cfg.maxLength, true, true)
    case Err(e) => Traced(Err(Wrap(e)), [tokenizeCall])
    case Ok(ids) =>
      var generateCall := Generate(cfg.maxLength, cfg.numBeams, true);
      match lib.generate(m, ids, cfg.maxLength, cfg.numBeams, true)
      case Err(e) => Traced(Err(Wrap(e)), [tokenizeCall, generateCall])
      case Ok(outputs) =>
        if |outputs| == 0 then
          Traced(Err(Wrap(IndexErrorMessage)), [tokenizeCall, generateCall])
        else
          match lib.decode(t, outputs[0], true)
          case Err(e) => Traced(Err(Wrap(e)), [tokenizeCall, generateCall, Decode(true)])
          case Ok(translation) => Traced(Ok(Cleanup(translation)), [tokenizeCall, generateCall, Decode(true)])
  }

  /**
    `translate_text` (model.py lines 32-76): load when needed, outside the `try`, so that a
    load failure is raised unchanged; then the pipeline, which leaves the cache alone.
  */
  function Translate<M, T>(c: Cache<M, T>, cfg: Settings, text: string,
                           tokenizerLoad: Result<T>, modelLoad: Result<M>, lib: Library<M, T>)
    : (s: Step<M, T, string>)
    ensures c.Consistent() ==> s.after.Consistent()
    ensures s.result.Ok? ==> !s.after.NeedsLoad()
  {
    var loaded := Load(c, cfg.modelPath, tokenizerLoad, modelLoad);
    match loaded.result
    case Err(e) => Step(Err(e), loaded.after, loaded.calls)
    case Ok((m, t)) =>
      var p := Pipeline(lib, m, t, text, cfg);
      Step(p.result, loaded.after, loaded.calls + p.calls)
  }

  // ---------------------------------------------------------------------------
  // Loading

  /** With both globals set, `load_model` calls no loader and returns the cached pair. */
  lemma LoadWhenLoadedCallsNothing<M, T>(c: Cache<M, T>, path: string, tokenizerLoad: Result<T>, modelLoad: Result<M>)
    requires !c.NeedsLoad()
    ensures Load(c, path, tokenizerLoad, modelLoad) == Step(Ok((c.model.value, c.tokenizer.value)), c, [])
  {
  }

  /** Both loaders succeeding: both globals hold the new handles, which are returned. */
  lemma LoadSuccess<M, T>(c: Cache<M, T>, path: string, t: T, m: M)
    requires c.NeedsLoad()
    ensures Load(c, path, Ok(t), Ok(m)) ==
      Step(Ok((m, t)), Cache(Some(m), Some(t)), [TokenizerFromPretrained(path), ModelFromPretrained(path)])
  {
  }

  /** A failing tokenizer loader: its error is raised as it is, the model loader is not called, nothing changes. */
  lemma LoadTokenizerFailure<M, T>(c: Cache<M, T>, path: string, e: string, modelLoad: Result<M>)
    requires c.NeedsLoad()
    ensures Load(c, path, Err(e), modelLoad) == Step(Err(e), c, [TokenizerFromPretrained(path)])
  {
  }

  /**
    A failing model loader after a good tokenizer load: the error is raised as it is and
    the cache is left partial, tokenizer set and model `None`, so the guard still asks for a load.
  */
  lemma LoadModelFailureLeavesPartialCache<M, T>(c: Cache<M, T>, path: string, t: T, e: string)
    requires c.Consistent() && c.NeedsLoad()
    ensures Load(c, path, Ok(t), Err(e)) ==
      Step(Err(e), Cache(None, Some(t)), [TokenizerFromPretrained(path), ModelFromPretrained(path)])
    ensures Load(c, path, Ok(t), Err(e)).after.NeedsLoad()
  {
  }

  /**
    The cache is not poisoned: after any failed load from a reachable state, the next call
    runs both loaders again, and succeeds when they do.
  */
  lemma LoadRetryAfterFailure<M, T>(c: Cache<M, T>, path: string, tokenizerLoad: Result<T>, modelLoad: Result<M>, t: T, m: M)
    requires c.Consistent()
    requires Load(c, path, tokenizerLoad, modelLoad).result.Err?
    ensures Load(Load(c, path, tokenizerLoad, modelLoad).after, path, Ok(t), Ok(m)) ==
      Step(Ok((m, t)), Cache(Some(m), Some(t)), [TokenizerFromPretrained(path), ModelFromPretrained(path)])
  {
    var first := Load(c, path, tokenizerLoad, modelLoad);
    assert first.after.NeedsLoad();
    LoadSuccess(first.after, path, t, m);
  }

  /** Once a load has succeeded, a second call loads nothing and returns the same handles. */
  lemma LoadTwiceSameHandles<M, T>(c: Cache<M, T>, path: string, tokenizerLoad: Result<T>, modelLoad: Result<M>,
                                   tokenizerLoad': Result<T>, modelLoad': Result<M>)
    requires Load(c, path, tokenizerLoad, modelLoad).result.Ok?
    ensures var first := Load(c, path, tokenizerLoad, modelLoad);
            Load(first.after, path, tokenizerLoad', modelLoad') == Step(first.result, first.after, [])
  {
    var first := Load(c, path, tokenizerLoad, modelLoad);
    LoadWhenLoadedCallsNothing(first.after, path, tokenizerLoad', modelLoad');
  }

  // ---------------------------------------------------------------------------
  // The pipeline inside the `try`

  /** Every step succeeding: the result is the cleaned decode of `outputs[0]`, generated with the configured length and beams. */
  lemma PipelineSuccess<M, T>(lib: Library<M, T>, m: M, t: T, text: string, cfg: Settings,
                              ids: TokenIds, outputs: seq<TokenIds>, translation: string)
    requires lib.tokenize(t, text, cfg.maxLength, true, true) == Ok(ids)
    requires lib.generate(m, ids, cfg.maxLength, cfg.numBeams, true) == Ok(outputs)
    requires |outputs| > 0 && lib.decode(t, outputs[0], true) == Ok(translation)
    ensures Pipeline(lib, m, t, text, cfg).result == Ok(Cleanup(translation))
  {
  }

  /** Text comes back only when tokenize, generate and decode all succeeded, and it is the cleaned decode. */
  lemma PipelineOkOnlyWhenAllStepsSucceed<M, T>(lib: Library<M, T>, m: M, t: T, text: string, cfg: Settings)
    requires Pipeline(lib, m, t, text, cfg).result.Ok?
    ensures exists ids, outputs, translation ::
      && lib.tokenize(t, text, cfg.maxLength, true, true) == Ok(ids)
      && lib.generate(m, ids, cfg.maxLength, cfg.numBeams, true) == Ok(outputs)
      && |outputs| > 0
      && lib.decode(t, outputs[0], true) == Ok(translation)
      && Pipeline(lib, m, t, text, cfg).result.value == Cleanup(translation)
  {
    var ids := lib.tokenize(t, text, cfg.maxLength, true, true).value;
    var outputs := lib.generate(m, ids, cfg.maxLength, cfg.numBeams, true).value;
    var translation := lib.decode(t, outputs[0], true).value;
    assert Pipeline(lib, m, t, text, cfg).result.value == Cleanup(translation);
  }

  /** A tokenizer failure surfaces as "Translation error: " + its message; nothing else is called. */
  lemma PipelineTokenizeFailure<M, T>(lib: Library<M, T>, m: M, t: T, text: string, cfg: Settings, e: string)
    requires lib.tokenize(t, text, cfg.maxLength, true, true) == Err(e)
    ensures Pipeline(lib, m, t, text, cfg) == Traced(Err(Wrap(e)), [Tokenize(text, cfg.maxLength, true, true)])
  {
  }

  /** A generation failure, or an empty batch at `outputs[0]`, surfaces wrapped; decode is not called. */
  lemma PipelineGenerateFailure<M, T>(lib: Library<M, T>, m: M, t: T, text: string, cfg: Settings, ids: TokenIds)
    requires lib.tokenize(t, text, cfg.maxLength, true, true) == Ok(ids)
    requires lib.generate(m, ids, cfg.maxLength, cfg.numBeams, true).Err?
          || lib.generate(m, ids, cfg.maxLength, cfg.numBeams, true) == Ok([])
    ensures var g := lib.generate(m, ids, cfg.maxLength, cfg.numBeams, true);
            Pipeline(lib, m, t, text, cfg) ==
              Traced(Err(Wrap(if g.Err? then g.message else IndexErrorMessage)),
                     [Tokenize(text, cfg.maxLength, true, true), Generate(cfg.maxLength, cfg.numBeams, true)])
  {
  }

  /** A decode failure surfaces as "Translation error: " + its message. */
  lemma PipelineDecodeFailure<M, T>(lib: Library<M, T>, m: M, t: T, text: string, cfg: Settings,
                                    ids: TokenIds, outputs: seq<TokenIds>, e: string)
    requires lib.tokenize(t, text, cfg.maxLength, true, true) == Ok(ids)
    requires lib.generate(m, ids, cfg.maxLength, cfg.numBeams, true) == Ok(outputs)
    requires |outputs| > 0 && lib.decode(t, outputs[0], true) == Err(e)
    ensures Pipeline(lib, m, t, text, cfg).result == Err(Wrap(e))
  {
  }

  // ---------------------------------------------------------------------------
  // translate_text

  /** A load failure propagates as it is, not wrapped, and no tokenize call is made. */
  lemma TranslateLoadFailureUnwrapped<M, T>(c: Cache<M, T>, cfg: Settings, text: string,
                                            tokenizerLoad: Result<T>, modelLoad: Result<M>, lib: Library<M, T>)
    requires Load(c, cfg.modelPath, tokenizerLoad, modelLoad).result.Err?
    ensures var loaded := Load(c, cfg.modelPath, tokenizerLoad, modelLoad);
            Translate(c, cfg, text, tokenizerLoad, modelLoad, lib) == Step(Err(loaded.result.message), loaded.after, loaded.calls)
    ensures forall k :: 0 <= k < |Translate(c, cfg, text, tokenizerLoad, modelLoad, lib).calls| ==>
              !Translate(c, cfg, text, tokenizerLoad, modelLoad, lib).calls[k].Tokenize?
  {
  }

  /**
    From an empty or partial cache both loaders run before the first tokenize call; a
    successful translation makes exactly the five library calls, in source order.
  */
  lemma TranslateLoadsBeforeTokenize<M, T>(c: Cache<M, T>, cfg: Settings, text: string,
                                           tokenizerLoad: Result<T>, modelLoad: Result<M>, lib: Library<M, T>)
    requires c.NeedsLoad()
    ensures var s := Translate(c, cfg, text, tokenizerLoad, modelLoad, lib);
            && s.calls != [] && s.calls[0] == TokenizerFromPretrained(cfg.modelPath)
            && (s.result.Ok? ==>
                  s.calls == [TokenizerFromPretrained(cfg.modelPath), ModelFromPretrained(cfg.modelPath),
                              Tokenize(text, cfg.maxLength, true, true),
                              Generate(cfg.maxLength, cfg.numBeams, true), Decode(true)])
  {
    var loaded := Load(c, cfg.modelPath, tokenizerLoad, modelLoad);
    if loaded.result.Ok? {
      LoadSuccess(c, cfg.modelPath, tokenizerLoad.value, modelLoad.value);
    }
  }

  /** A failure of `translate_text` is either the loader's own error or carries the translation prefix; text never comes back with it. */
  lemma TranslateErrorKinds<M, T>(c: Cache<M, T>, cfg: Settings, text: string,
                                  tokenizerLoad: Result<T>, modelLoad: Result<M>, lib: Library<M, T>)
    requires Translate(c, cfg, text, tokenizerLoad, modelLoad, lib).result.Err?
    ensures var msg := Translate(c, cfg, text, tokenizerLoad, modelLoad, lib).result.message;
            || (Load(c, cfg.modelPath, tokenizerLoad, modelLoad).result == Err(msg)
                && (tokenizerLoad == Err(msg) || modelLoad == Err(msg)))
            || StartsWith(msg, TranslationErrorPrefix)
  {
  }

  /** Translating the same text twice with the same library gives the same result, and the second call loads nothing. */
  lemma TranslateDeterministic<M, T>(c: Cache<M, T>, cfg: Settings, text: string,
                                     tokenizerLoad: Result<T>, modelLoad: Result<M>,
                                     tokenizerLoad': Result<T>, modelLoad': Result<M>, lib: Library<M, T>)
    requires Translate(c, cfg, text, tokenizerLoad, modelLoad, lib).result.Ok?
    ensures var first := Translate(c, cfg, text, tokenizerLoad, modelLoad, lib);
            var second := Translate(first.after, cfg, text, tokenizerLoad', modelLoad', lib);
            second.result == first.result && second.after == first.after
            && second.calls == [Tokenize(text, cfg.maxLength, true, true),
                                Generate(cfg.maxLength, cfg.numBeams, true), Decode(true)]
  {
    var first := Translate(c, cfg, text, tokenizerLoad, modelLoad, lib);
    LoadWhenLoadedCallsNothing(first.after, cfg.modelPath, tokenizerLoad', modelLoad');
  }

  /**
    With the settings config.py falls back on, a successful first translation tokenizes
    and generates with length 50 and generates with 4 beams, after loading from the default path.
  */
  lemma TranslateWithDefaults<M, T>(c: Cache<M, T>, text: string,
                                    tokenizerLoad: Result<T>, modelLoad: Result<M>, lib: Library<M, T>)
    requires c.NeedsLoad()
    requires Translate(c, Defaults, text, tokenizerLoad, modelLoad, lib).result.Ok?
    ensures Translate(c, Defaults, text, tokenizerLoad, modelLoad, lib).calls ==
      [TokenizerFromPretrained("/app/model/transformer-model"), ModelFromPretrained("/app/model/transformer-model"),
       Tokenize(text, 50, true, true), Generate(50, 4, true), Decode(true)]
  {
    TranslateLoadsBeforeTokenize(c, Defaults, text, tokenizerLoad, modelLoad, lib);
  }

  // ---------------------------------------------------------------------------
  // The module globals and the two functions that update them

  /** The module state of model.py: `_model`, `_tokenizer`, and the library calls made so far. */
  class ModelCache<M, T> {
    var model: Option<M>
    var tokenizer: Option<T>
    ghost var calls: seq<Call>

    /** The current values of the two globals. */
    function Snapshot(): Cache<M, T>
      reads this
    {
      Cache(model, tokenizer)
    }

    /** The globals are never in a state that no sequence of calls reaches. */
    ghost predicate Valid()
      reads this
    {
      Snapshot().Consistent()
    }

    /** Import of model.py: both globals `None` (lines 11-12). */
    constructor ()
      ensures Valid() && model == None && tokenizer == None && calls == []
    {
      model := None;
      tokenizer := None;
      calls := [];
    }

    /** `load_model` (model.py lines 15-29). */
    method LoadModel(cfg: Settings, tokenizerLoad: Result<T>, modelLoad: Result<M>) returns (r: Result<(M, T)>)
      modifies this
      ensures old(Valid()) ==> Valid()
      ensures var s := Load(old(Snapshot()), cfg.modelPath, tokenizerLoad, modelLoad);
              r == s.result && Snapshot() == s.after && calls == old(calls) + s.calls
    {
      if model.None? || tokenizer.None? {
        calls := calls + [TokenizerFromPretrained(cfg.modelPath)];
        if tokenizerLoad.Err? {
          return Err(tokenizerLoad.message);
        }
        tokenizer := Some(tokenizerLoad.value);
        calls := calls + [ModelFromPretrained(cfg.modelPath)];
        if modelLoad.Err? {
          return Err(modelLoad.message);
        }
        model := Some(modelLoad.value);
      }
      r := Ok((model.value, tokenizer.value));
    }

    /** `translate_text` (model.py lines 32-76). */
    method TranslateText(text: string, cfg: Settings, tokenizerLoad: Result<T>, modelLoad: Result<M>, lib: Library<M, T>)
      returns (r: Result<string>)
      modifies this
      ensures old(Valid()) ==> Valid()
      ensures var s := Translate(old(Snapshot()), cfg, text, tokenizerLoad, modelLoad, lib);
              r == s.result && Snapshot() == s.after && calls == old(calls) + s.calls
    {
      ghost var loaded := Load(Snapshot(), cfg.modelPath, tokenizerLoad, modelLoad);
      if model.None? || tokenizer.None? {
        var pair := LoadModel(cfg, tokenizerLoad, modelLoad);
        if pair.Err? {
          return Err(pair.message);
        }
        model, tokenizer := Some(pair.value.0), Some(pair.value.1);
      }
      assert loaded.result == Ok((model.value, tokenizer.value)) && Snapshot() == loaded.after;
      r := RunInference(model.value, tokenizer.value, text, cfg, lib);
    }

    /** The `try` block of `translate_text` (model.py lines 48-76), with the globals already loaded. */
    method RunInference(m: M, t: T, text: string, cfg: Settings, lib: Library<M, T>) returns (r: Result<string>)
      modifies this`calls
      ensures var p := Pipeline(lib, m, t, text, cfg);
              r == p.result && calls == old(calls) + p.calls
    {
      calls := calls + [Tokenize(text, cfg.maxLength, true, true)];
      var inputs := lib.tokenize(t, text, cfg.maxLength, true, true);
      if inputs.Err? {
        return Err(Wrap(inputs.message));
      }

      calls := calls + [Generate(cfg.maxLength, cfg.numBeams, true)];
      var outputs := lib.generate(m, inputs.value, cfg.maxLength, cfg.numBeams, true);
      if outputs.Err? {
        return Err(Wrap(outputs.message));
      }
      if |outputs.value| == 0 {
        return Err(Wrap(IndexErrorMessage));
      }

      calls := calls + [Decode(true)];
      var translation := lib.decode(t, outputs.value[0], true);
      if translation.Err? {
        return Err(Wrap(translation.message));
      }

      var cleaned := translation.value;
      if StartsWith(cleaned, ArtifactPrefix) {
        cleaned := LStrip(cleaned[1..]);
      }
      r := Ok(cleaned);
    }
  }

  // ---------------------------------------------------------------------------
  // Sequences of calls on one cache

  /**
    A model loader that fails once leaves the tokenizer set; the next call loads both
    again and returns the new pair.
  */
  method RetryAfterModelFailure<M, T>(cfg: Settings, t: T, e: string, t': T, m': M)
    returns (first: Result<(M, T)>, second: Result<(M, T)>, partial: Cache<M, T>)
    ensures first == Err(e) && partial == Cache(None, Some(t))
    ensures second == Ok((m', t'))
  {
    var cache := new ModelCache<M, T>();
    first := cache.LoadModel(cfg, Ok(t), Err(e));
    partial := cache.Snapshot();
    second := cache.LoadModel(cfg, Ok(t'), Ok(m'));
  }

  /**
    Startup loads the pair once; two translations of the same text then load nothing
    and return the same text, whatever the loaders would have done.
  */
  method TranslateTwiceAfterStartup<M, T>(cfg: Settings, text: string, t: T, m: M, lib: Library<M, T>,
                                          load1: Result<T>, load2: Result<M>, load3: Result<T>, load4: Result<M>)
    returns (first: Result<string>, second: Result<string>)
    ensures first == second == Pipeline(lib, m, t, text, cfg).result
  {
    var cache := new ModelCache<M, T>();
    var started := cache.LoadModel(cfg, Ok(t), Ok(m));
    first := cache.TranslateText(text, cfg, load1, load2, lib);
    second := cache.TranslateText(text, cfg, load3, load4, lib);
  }
}
