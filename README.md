# English-to-Spanish translation core: model cache and `translate_text`

This project models `app/backend/app/model.py` of an English-to-Spanish translation
service. That file holds the only behaviour of the service beyond framework plumbing:

- **The lazy model/tokenizer cache.** `load_model` keeps a model and a tokenizer in two
  module globals, `_model` and `_tokenizer`, both `None` at import. It loads both when
  either is `None`. It assigns the tokenizer before it loads the model, and it raises a
  loader's exception again unchanged.
- **`translate_text`.** It loads the pair when needed, outside its `try`. It then
  tokenizes (with `max_length = MAX_LENGTH`, truncation, padding), generates (with
  `max_length = MAX_LENGTH`, `num_beams = NUM_BEAMS`, early stopping) and decodes
  `outputs[0]` with special tokens skipped. Then it cleans the decoded string. Any failure
  inside the `try` is raised again as `"Translation error: " + message`.
- **The cleanup rule.** If the decoded string begins with the two characters U+00C2 U+00BF
  (`Â¿`), the result is `translation[1:].lstrip()`. Only the `Â` is removed. The `¿` that
  follows is not whitespace, so `lstrip` removes nothing.

Layout:

- `wrappers.dfy` (module `Wrappers`): `Option` stands for Python's `None`. `Result` stands
  for a returned value or a raised exception; the exception is kept as its message.
- `config.dfy` (module `Config`): `MODEL_PATH`, `MAX_LENGTH` and `NUM_BEAMS` as a record,
  with the defaults of `app/backend/app/config.py`.
- `cleanup.dfy` (module `OutputCleanup`): Python's whitespace test, `startswith`,
  `lstrip`, and the cleanup itself, with lemmas.
- `model.dfy` (module `TranslationModel`) has three parts:
  - `Load`, `Pipeline` and `Translate` are pure functions. They give the result, the
    globals afterwards and the library calls made.
  - The class `ModelCache` has the two globals as fields. Its methods `LoadModel`,
    `TranslateText` and `RunInference` (the `try` block) follow the source statement by statement. Each is proved equal to
    the matching function.
  - Lemmas and two client methods cover sequences of calls.

The transformer library is replaced by parameters:

- What `from_pretrained` returns on a given call is a `Result` argument of that call.
- Tokenize, generate and decode are total functions in a `Library` value. Each returns
  `Ok` or `Err`.
- A ghost field `calls` of the class records every library call, with the arguments that
  matter: the model path, the text, the configured length and beam count, and the fixed
  flags. It leaves out the handles, the token ids passed to generate and decode, and
  `return_tensors`. This record is what lets "no loader is called" and "the loaders run
  before tokenization" be stated.

Where the written description of the system and the code disagree, the model follows the
code:

- **Partial state.** The description says the model and the tokenizer are either both
  set or both unset, and that a failed load leaves the cache empty. In the code, a model
  load that fails after the tokenizer load succeeded leaves `_tokenizer` set and `_model`
  `None`. `LoadModelFailureLeavesPartialCache` proves this. The invariant that does hold
  is `Cache.Consistent`: the model is never set without the tokenizer. The cache is still
  not poisoned, because the guard uses `or` (`LoadRetryAfterFailure`).
- **Load failures are not wrapped.** The description says load failures come out of
  `translate` as translation errors. In the code the load sits before the `try`, so its
  exception comes out unchanged (`TranslateLoadFailureUnwrapped`).
- **The cleanup example.** The description's example says `"¿Hola"` is cleaned to
  `"Hola"`. The code leaves `"¿Hola"` as it is and turns `"Â¿Hola"` into `"¿Hola"`
  (`CleanupHolaExample`).
- **What is stripped.** The description says the whole artifact and the whitespace after
  it are stripped. The code strips one character and then whitespace, and whitespace can
  never follow in that position (`CleanupDropsOnlyFirstChar`).
- **Padding.** The description says tokenization pads to a fixed length. The code passes
  `padding=True`, which pads to the longest input and does nothing for one input. Only the
  flag is recorded.
- **Empty output.** The description says every translation is non-empty. The code
  guarantees that only when the decoded string is non-empty: `Cleanup` keeps a string
  non-empty and keeps the empty string empty (its contract).

## Model

| member | source | states |
|---|---|---|
| `OutputCleanup.IsSpace` | app/backend/app/model.py:71 | the characters `lstrip()` removes: Python 3's whitespace set (category Zs or bidirectional class WS, B or S) |
| `OutputCleanup.StartsWith` | app/backend/app/model.py:70 | `str.startswith`: the prefix fits and the first characters equal it exactly |
| `OutputCleanup.LStrip` | app/backend/app/model.py:71 | `lstrip()`: the result is a suffix of the input; it is empty or starts with a non-whitespace character; everything removed before it is whitespace |
| `OutputCleanup.Cleanup` | app/backend/app/model.py:69-73 | the cleaned string is a suffix of the decoded one, at most one character shorter, and empty exactly when the decoded one is |
| `OutputCleanup.InvertedQuestionMarkIsNotSpace` | app/backend/app/model.py:71 | `¿` (U+00BF) is not in Python's whitespace set, so `lstrip` stops at it |
| `OutputCleanup.CleanupDropsOnlyFirstChar` | app/backend/app/model.py:70-71 | on a string starting with `Â¿` the result is exactly `s[1:]`: one character shorter and still starting with `¿` |
| `OutputCleanup.CleanupKeepsOtherStrings` | app/backend/app/model.py:70-73 | a string not starting with `Â¿` is returned unchanged |
| `OutputCleanup.CleanupIgnoresLaterArtifact` | app/backend/app/model.py:70-73 | `Â¿` anywhere after a first character other than `Â` is left untouched |
| `OutputCleanup.CleanupIsDropOfFirstChar` | app/backend/app/model.py:70-71 | the cleanup equals a definition without `lstrip`: drop the first character on the exact prefix, else identity |
| `OutputCleanup.CleanupIdempotent` | app/backend/app/model.py:70-71 | cleaning a cleaned string changes nothing |
| `OutputCleanup.CleanupHolaExample` | app/backend/app/model.py:69-71 | `"Â¿Hola"` becomes `"¿Hola"`, and `"¿Hola"` stays `"¿Hola"` |
| `TranslationModel.Wrap` | app/backend/app/model.py:75-76 | the raised message starts with `"Translation error: "` and the original message follows it intact |
| `TranslationModel.Cache.NeedsLoad` | app/backend/app/model.py:19 | the guard `_model is None or _tokenizer is None`, also used at line 45 |
| `TranslationModel.Load` | app/backend/app/model.py:15-29 | after a normal return both globals are set and the returned pair equals them; the invariant "no model without tokenizer" is kept; after a failure from a reachable state the guard asks for a load again |
| `TranslationModel.Pipeline` | app/backend/app/model.py:48-76 | every failure carries the `"Translation error: "` prefix; a success made exactly the tokenize, generate (configured length and beams, early stopping) and decode calls; tokenization is always the first call |
| `TranslationModel.Translate` | app/backend/app/model.py:32-76 | the invariant is kept, and a successful translation leaves both globals set |
| `TranslationModel.LoadWhenLoadedCallsNothing` | app/backend/app/model.py:19-29 | with both globals set no loader is called, nothing changes and the cached pair is returned |
| `TranslationModel.LoadSuccess` | app/backend/app/model.py:19-29 | with both loaders succeeding, both globals hold the new handles, which are returned, after a tokenizer load then a model load from `MODEL_PATH` |
| `TranslationModel.LoadTokenizerFailure` | app/backend/app/model.py:21-27 | a tokenizer loader's error is raised as it is; the model loader is not called and the globals do not change |
| `TranslationModel.LoadModelFailureLeavesPartialCache` | app/backend/app/model.py:21-27 | a model loader's error is raised as it is, leaving the tokenizer set and the model `None`, a state in which the guard still asks for a load |
| `TranslationModel.LoadRetryAfterFailure` | app/backend/app/model.py:19-27 | after any failed load from a reachable state, the next call runs both loaders again and returns their pair when they succeed |
| `TranslationModel.LoadTwiceSameHandles` | app/backend/app/model.py:19-29 | after a successful load, a second call loads nothing and returns the same handles |
| `TranslationModel.PipelineSuccess` | app/backend/app/model.py:50-73 | when tokenize, generate and decode all succeed, the result is the cleaned decode of `outputs[0]` |
| `TranslationModel.PipelineOkOnlyWhenAllStepsSucceed` | app/backend/app/model.py:50-73 | a text result implies that all three steps succeeded, generation used the configured length and beams, the batch was not empty, and the text is the cleaned decode |
| `TranslationModel.PipelineTokenizeFailure` | app/backend/app/model.py:50-56 | a tokenizer failure comes out as `"Translation error: " + message`; generate and decode are not called |
| `TranslationModel.PipelineGenerateFailure` | app/backend/app/model.py:59-67 | a generate failure, or an empty batch at `outputs[0]`, comes out wrapped; decode is not called |
| `TranslationModel.PipelineDecodeFailure` | app/backend/app/model.py:67 | a decode failure comes out as `"Translation error: " + message` |
| `TranslationModel.TranslateLoadFailureUnwrapped` | app/backend/app/model.py:45-48 | a load failure comes out of `translate_text` unchanged, not wrapped, and no tokenize call is made |
| `TranslationModel.TranslateLoadsBeforeTokenize` | app/backend/app/model.py:45-67 | from an unloaded cache the tokenizer loader is the first call, and a success makes exactly the five library calls in source order |
| `TranslationModel.TranslateErrorKinds` | app/backend/app/model.py:45-76 | every failure is either a loader's own error, unchanged, or carries the translation prefix |
| `TranslationModel.TranslateDeterministic` | app/backend/app/model.py:45-73 | given a deterministic library, once a translation succeeded, translating the same text again gives the same result, leaves the globals alone and calls no loader |
| `TranslationModel.ModelCache.constructor` | app/backend/app/model.py:11-12 | at import both globals are `None` and no library call has been made |
| `TranslationModel.ModelCache.LoadModel` | app/backend/app/model.py:15-29 | the statement-by-statement `load_model` gives the result, the globals and the calls of `Load`, and keeps the invariant |
| `TranslationModel.ModelCache.TranslateText` | app/backend/app/model.py:32-76 | `translate_text`, loading as at lines 45-46, gives the result, the globals and the calls of `Translate`, and keeps the invariant |
| `TranslationModel.ModelCache.RunInference` | app/backend/app/model.py:48-76 | the statement-by-statement `try` block gives the result and the calls of `Pipeline` and touches nothing but the call record |
| `TranslationModel.RetryAfterModelFailure` | app/backend/app/model.py:19-27 | on one cache, a model loader that fails once raises its error and leaves the tokenizer set; the next call returns the newly loaded pair |
| `TranslationModel.TranslateWithDefaults` | app/backend/app/config.py:6-8 | with the default settings, a successful first translation loads from `/app/model/transformer-model` and then tokenizes with length 50 and generates with length 50 and 4 beams |
| `TranslationModel.TranslateTwiceAfterStartup` | app/backend/app/model.py:19-73 | given a deterministic library, after a successful load at startup, two translations of the same text return the same result, whatever the loaders would do |

## Left out

- app/backend/app/config.py: reading the environment and `int()` parsing are not modelled. The three settings are a parameter (`Config.Settings`); a parse failure at import is not modelled.
- app/backend/app/main.py and app/frontend/app.js: HTTP routing, CORS, request length validation, the mapping to HTTP 500, static files and the browser UI are not part of this model.
- Tensor and transformer internals: what tokenize, generate and decode compute is not modelled; they are arbitrary total functions that may fail. This covers beam search, early stopping, truncation, padding to the longest input and skipping special tokens. Only the arguments passed to them are recorded.
- Determinism of the library: because tokenize, generate and decode are functions, each gives the same result, or fails the same way, every time it gets the same arguments. The model cannot express a call that fails once and then succeeds on the same text. The "same result" parts of `TranslateDeterministic` and `TranslateTwiceAfterStartup` rest on this assumption, not on anything in model.py. The assumption is reasonable, since generation uses beam search with no sampling.
- `return_tensors="tf"` and the `inputs["input_ids"]` lookup: the tokenizer is taken to return the ids directly, so a missing key cannot occur.
- `IndexErrorMessage`: indexing an empty batch with `outputs[0]` is modelled as a failure wrapped like any other. Its inner message is a fixed placeholder, not the tensor library's exact text.
- Exceptions are kept as their messages only. Exception classes are not modelled, and neither are exceptions outside `Exception` that `except Exception` would not catch.
- `print` logging and the `os.environ['TF_USE_LEGACY_KERAS']` write (model.py line 8) have no effect on results and are not modelled.
- Concurrency: the model is sequential. Races between first calls on the unguarded globals are not modelled.
- Object identity of handles: handles are opaque values of type parameters. "The same handle" means an equal value.
- `OutputCleanup.IsSpace` is the fixed character set of Python 3's `str.isspace`. It does not follow changes to that set across Unicode database versions.
