# Dictionary scraper and user store, modelled in Dafny

This project models two parts of the pandora lexical-data service.

The first part is the Cambridge dictionary scraper. `get_data(text, lang)` loads the English
dictionary page of a headword and fills an eight-category record:
- audio and visual files;
- tags;
- transcriptions;
- definitions;
- usage examples (the `in` key);
- collocations;
- translations.

It does this by walking the page's dictionary, pronunciation, definition and dataset blocks
in document order. `get_translations` then appends the comma-separated translations found on
the English–Russian, English–French and English–German pages. `find_audio` returns just the
audio list.

The second part is the auth module's user store. It covers:
- how a decoded users-query result becomes a user or an error;
- which lookups ask the database to check the password;
- the six-key input that `CreateUser` writes.

## Modules

- `Wrappers` (`wrappers.dfy`): `Option` and `Result`.
- `Strings` (`strings.dfy`): Python's `str.strip()`, `str.split(sep)` for a one-character
  separator, `sep.join` and single-character `str.replace`, with their laws.
- `Html` (`html.dfy`): a parsed document as an immutable tree of elements and text nodes.
  - `find`, `find_all` and `get_text` are searches over the nodes below a node, in document
    order.
  - `stripped_text` and `find_strip` sit on top of them.
- `Cambridge` (`cambridge.dfy`):
  - the record, the terms and files, and the failure outcomes;
  - the grammar-code table and the host constant;
  - specification functions that say, rule by rule, what an extraction produces (`Extraction`,
    `DictionaryFold`, `PronPhase`, `DefPhase`, `DatasetFold`, `TranslationsFrom`, …);
  - the scraper's own procedures as methods. They append one value at a time inside the same
    nested loops as the scraper, carry the `posgram_found`/`gram_found` flags, and are each
    proved equal to their specification function.
- `CambridgeProperties` (`cambridge_properties.dfy`): what the extraction guarantees, such as:
  - the shape of every entry;
  - which phase touches which category, and that phases only append;
  - where the one part-of-speech tag and the one grammar tag come from;
  - the audio repetition per pronunciation block;
  - the order of translations;
  - which failures come from where.
- `UserStore` (`userstore.dfy`): `FindUser`'s result handling, the three lookups and the
  `CreateUser` input map.

## External pieces

- The network is the parameter `fetch: string -> Response`, a fixed snapshot that maps a URL
  to a status and a parsed document. `raise_for_status` becomes a failure for every status
  from 400 to 599.
- `utils.is_word` and `utils.is_empty` belong to a helper module that is not part of this
  model. They are the two uninterpreted predicates of `Utils`. `is_empty` takes an optional
  text, because the scraper also applies it to `stripped_text` results that may be `None`.
- The database's answer to a users query is a sequence of decoded `UserRecord`s. `checkPwd`
  is an optional boolean.

## Design decisions

- The scraper never guards some lookups: the page wrapper, a part-of-speech header or body, the
  header's audio element, and an element's `src` attribute. Python raises when one is
  missing. The model does not make these preconditions. Each becomes a `Failure` outcome,
  raised in the order the code would reach it.
- `get_translations` mutates the caller's dictionary. The model returns the updated record
  instead.
- Two quirks are kept as the code has them. First, the audio element is searched in the
  pronunciation header (`header.find('amp-audio')`), not in the pronunciation block. Every
  block therefore re-collects the header's first audio element, with its own region
  (`CambridgeProperties.PronPhaseAudioCount`). Second, the part-of-speech text may be absent
  and is still appended as a tag (`Term.text` is an `Option`).
- Translation fragments are not trimmed. Only the whole translation span is stripped before
  it is split on commas, so `" sprint"` keeps its leading space
  (`CambridgeProperties.FragmentsKeepSpaces`).
- Media URLs are the host concatenated with `src` as it stands. No `/` is inserted or checked,
  so "starts with the host" below is a statement about the URL string.

## Model

| member | source | states |
|---|---|---|
| Cambridge.GetData | scripts/cambridge.py:63-154 | The nested-loop extraction produces exactly the specified `Extraction` outcome. Its result is "no record" exactly when the language is not `en`. |
| Cambridge.GetTranslations | scripts/cambridge.py:33-60 | The loop over the three bilingual dictionaries, their senses and their words yields exactly `TranslationsFrom` over `ru`, `fr`, `de` in that order, including the HTTP failure of the first failing page. |
| Cambridge.FindAudio | scripts/cambridge.py:157-161 | It fails exactly when the extraction fails, with the same error. It is "none" exactly when the extraction gives no record. Otherwise it is the record's audio list, unchanged and in order. |
| Cambridge.CollectDictionaries | scripts/cambridge.py:96-139 | The loop over dictionary blocks, with both flags starting false, equals `DictionaryFold`. |
| Cambridge.ScanDictionary | scripts/cambridge.py:97-139 | One dictionary block (header, body, part of speech, grammar, pronunciations, definitions) equals `DictionaryStep`, including its missing-header and missing-body failures. |
| Cambridge.CollectGrammar | scripts/cambridge.py:106-113 | The doubly nested grammar loop equals `GrammarPhase`: nothing once a grammar tag was found, otherwise the label of the first tabled code over all `gram` spans. |
| Cambridge.ScanGrammarCodes | scripts/cambridge.py:108-113 | The inner loop over `gc` spans adds the first tabled code's label once and then only skips. |
| Cambridge.CollectPronunciations | scripts/cambridge.py:116-126 | The pronunciation loop of a header equals `PronPhase`, including the missing-audio and missing-`src` failures. |
| Cambridge.AppendAudio | scripts/cambridge.py:119-121 | Appending the audio sources one at a time gives the files `AudioFiles` specifies, or its missing-`src` error. |
| Cambridge.CollectDefinitions | scripts/cambridge.py:128-139 | The definition-block loop equals `DefPhase`. |
| Cambridge.CollectDefBlock | scripts/cambridge.py:129-139 | One definition block equals `DefBlock`: definition, image, then usage examples. |
| Cambridge.CollectDatasets | scripts/cambridge.py:141-150 | The dataset loop equals `DatasetFold`. |
| Cambridge.CollectDataset | scripts/cambridge.py:142-150 | One dataset appends its `deg` examples, then the `hdib` collocations of every `lbb` under its `cpegs` block, as `DatasetBlock` says. |
| Cambridge.AppendTextTerms | scripts/cambridge.py:137-139 | Appending the stripped texts of nodes one at a time gives the terms `TextTerms` lists. |
| Cambridge.AppendSenseTranslations | scripts/cambridge.py:49-58 | The sense loop of one bilingual page appends exactly `SenseTerms` of its senses. |
| Cambridge.AppendSense | scripts/cambridge.py:50-58 | One sense appends exactly the terms of `SenseWords`. |
| Cambridge.AppendWordTerms | scripts/cambridge.py:56-58 | Each kept word becomes one regionless term of the target language, in order. |
| Cambridge.AudioFilesErrIsMissingSrc | scripts/cambridge.py:120 | The only way the audio file list fails is a source without `src`. |
| Html.StrippedText | scripts/cambridge.py:19-22 | The result is absent exactly when the node is absent. Otherwise it is the node's text with no whitespace at either edge, no longer than the text, and empty exactly when the text is all whitespace. |
| Html.FindStrip | scripts/cambridge.py:25-27 | The result is absent exactly when `find` finds nothing, and a present result has no whitespace at either edge. |
| Html.FindIsFirstOfFindAll | scripts/cambridge.py:26 | `find` gives the first element `find_all` would give, and nothing exactly when `find_all` is empty. |
| Html.FindAllSelectsDescendants | scripts/cambridge.py:96 | `find_all` lists exactly the matching nodes below a node, in document order. |
| Html.Find | scripts/cambridge.py:26 | A found node has the requested tag and class. |
| Strings.StripSpec | scripts/cambridge.py:22 | A stripped text has no whitespace at either edge, is no longer than the input, and is empty exactly when the input is all whitespace. |
| Strings.StripRemovesPadding | scripts/cambridge.py:22 | Stripping removes exactly the whitespace padding around a core without edge whitespace. |
| Strings.StripIdempotent | scripts/cambridge.py:22 | Stripping twice is stripping once. |
| Strings.SplitSpec | scripts/cambridge.py:54 | `split(',')` gives at least one piece, no piece contains a comma, and joining the pieces with commas gives the text back. |
| Strings.SplitJoin | scripts/cambridge.py:54 | Splitting a comma-join of comma-free pieces gives the pieces back. |
| Strings.ReplaceCharSpec | scripts/cambridge.py:41 | The space-to-hyphen rewrite keeps the length and changes exactly the spaces. |
| CambridgeProperties.UrlsOnHost | scripts/cambridge.py:67-68 | Both page URLs start with the dictionary host. The headword in them has the same length and no space left, and its other characters are unchanged. |
| CambridgeProperties.ExtractionWellFormed | scripts/cambridge.py:63-154 | Every record has the expected shape. Every file URL starts with the host string and images have no region. Every term is in the extraction language, with no region except on transcriptions. Transcriptions, definitions and translations are never empty text. Translations are in `ru`, `fr` or `de`. |
| CambridgeProperties.ExtractionTags | scripts/cambridge.py:88-113 | The tags are the optional `word` tag, then at most one part-of-speech tag (from the first dictionary block that has a `posgram`) and at most one grammar tag (the first tabled code across all bodies), in one of the two orders. |
| CambridgeProperties.DictionaryTags | scripts/cambridge.py:88-113 | Over any sequence of dictionary blocks, the flags end true exactly when a part of speech or a tabled grammar code exists. The tags grow by exactly those two optional entries. |
| CambridgeProperties.DictionaryStepSpec | scripts/cambridge.py:97-139 | A successful block has a header and a body. It sets each flag once. It adds the part-of-speech tag only if none was found before, and likewise the grammar tag. It only appends to audio, images, transcriptions, definitions and examples, and leaves collocations and translations alone. |
| CambridgeProperties.FirstGrammarSpec | scripts/cambridge.py:106-113 | A grammar tag exists exactly when some code is `C`, `U` or `S`. It is the label of the first such code, so it is always countable, uncountable or singular. |
| CambridgeProperties.DictionaryStepWellFormed | scripts/cambridge.py:97-139 | One dictionary block keeps a record well formed. |
| CambridgeProperties.DictionaryFoldSpec | scripts/cambridge.py:96-139 | The dictionary loop only appends to audio, images, transcriptions, definitions and examples, and never touches collocations or translations. |
| CambridgeProperties.DictionaryFoldWellFormed | scripts/cambridge.py:96-139 | The dictionary loop keeps a record well formed. |
| CambridgeProperties.AudioFilesSpec | scripts/cambridge.py:119-121 | The audio list succeeds exactly when every source has `src`. Then there is one file per source, in order, with URL host + `src` and the block's region. |
| CambridgeProperties.PronBlockSpec | scripts/cambridge.py:116-126 | One pronunciation block needs the header's audio element. It appends all of that element's files with the block's region and at most one transcription. Nothing else changes, and the record stays well formed. |
| CambridgeProperties.PronBlockTranscription | scripts/cambridge.py:123-126 | A transcription is appended exactly when the IPA text is not empty, and it carries that text and the block's region. |
| CambridgeProperties.PronPhaseFrame | scripts/cambridge.py:116-126 | The pronunciation loop only appends audio and transcriptions, at most one transcription per block. |
| CambridgeProperties.PronPhaseAudioCount | scripts/cambridge.py:116-121 | The loop appends the header's audio sources once per pronunciation block. |
| CambridgeProperties.PronPhaseWellFormed | scripts/cambridge.py:116-126 | The pronunciation loop keeps a record well formed. |
| CambridgeProperties.PronPhaseFailure | scripts/cambridge.py:118-120 | The pronunciation loop fails only for a missing audio element or a missing `src`. |
| CambridgeProperties.DefBlockSpec | scripts/cambridge.py:128-139 | One definition block appends at most one definition, at most one image and exactly its usage examples. Nothing else changes. |
| CambridgeProperties.DefBlockEntries | scripts/cambridge.py:129-136 | The definition is appended exactly when its text is not empty. The image, when present, becomes a regionless file with URL host + `src`. |
| CambridgeProperties.DefBlockWellFormed | scripts/cambridge.py:128-139 | One definition block keeps a record well formed. |
| CambridgeProperties.DefPhaseSpec | scripts/cambridge.py:128-139 | The definition loop only appends definitions, images and examples, at most one definition and one image per block. |
| CambridgeProperties.DefPhaseWellFormed | scripts/cambridge.py:128-139 | The definition loop keeps a record well formed. |
| CambridgeProperties.DefPhaseFailure | scripts/cambridge.py:133-135 | The definition loop fails only for an image without `src`. |
| CambridgeProperties.DatasetFoldSpec | scripts/cambridge.py:141-150 | The dataset loop only appends examples and collocations. |
| CambridgeProperties.DatasetFoldWellFormed | scripts/cambridge.py:141-150 | The dataset loop keeps a record well formed. |
| CambridgeProperties.TextTermsSpec | scripts/cambridge.py:142-144 | The i-th term is the stripped text of the i-th node, in the extraction language, without region. |
| CambridgeProperties.CollocationsPlain | scripts/cambridge.py:147-150 | Collocations are in the extraction language and have no region. |
| CambridgeProperties.KeepNonEmptySpec | scripts/cambridge.py:55 | Every kept word is an input word that is not empty. Every such word is kept. When none is empty, the words are unchanged. |
| CambridgeProperties.KeepNonEmptyAppend | scripts/cambridge.py:55 | Filtering a concatenation of fragments is concatenating the filtered parts, so the kept fragments stay in order and keep their multiplicity. |
| CambridgeProperties.KeepNonEmptyEach | scripts/cambridge.py:55 | Each fragment, wherever it stands, contributes itself exactly when it is not empty. |
| CambridgeProperties.WordTermsSpec | scripts/cambridge.py:56-58 | The i-th term holds the i-th word, in the target language, without region. |
| CambridgeProperties.SenseWordsSpec | scripts/cambridge.py:50-55 | A sense with a phrase block, or without a `trans` span, gives no words. Every word is comma-free and not empty. When no fragment is empty, the words comma-join back to the stripped translation text. |
| CambridgeProperties.SenseTermsSpec | scripts/cambridge.py:49-58 | Sense translations are regionless terms of the target language that are never empty. |
| CambridgeProperties.FragmentsKeepSpaces | scripts/cambridge.py:54-55 | A worked split: `"run, sprint, , dash"` gives `"run"`, `" sprint"`, `" "`, `" dash"`, so the fragments keep their spaces. |
| CambridgeProperties.TranslationsInOrder | scripts/cambridge.py:35-58 | The Russian page is fetched first, then the French, then the German. The first failing status aborts with that URL. Otherwise the translations of the three pages are appended in that order. |
| CambridgeProperties.TranslationsAppended | scripts/cambridge.py:42-58 | A successful translation step appends the three pages' translations in order to what was there. |
| CambridgeProperties.TranslationsFromSpec | scripts/cambridge.py:42-58 | The translation step changes only the translations and only appends to them. |
| CambridgeProperties.TranslationsFromWellFormed | scripts/cambridge.py:42-58 | The translation step over target languages `ru`, `fr`, `de` keeps a record well formed. |
| CambridgeProperties.ExtractionTranslations | scripts/cambridge.py:152 | A record's translations are exactly those of the Russian, French and German pages, in that order, because nothing before that step adds any. |
| CambridgeProperties.ExtractionSteps | scripts/cambridge.py:63-154 | A successful extraction is for `en`, has a page wrapper and a successful dictionary loop. Its record is the translation step applied to the dataset loop's result. |
| CambridgeProperties.ExtractionHttpFailure | scripts/cambridge.py:70-71 | An HTTP failure names one of the four page URLs (the English page or one bilingual page), and that URL's status is an error status. |
| CambridgeProperties.DictionaryFailureIsNotHttp | scripts/cambridge.py:96-139 | The dictionary loop never fails for HTTP reasons: it fetches nothing. |
| UserStore.FindUser | modules/auth/userstore.go:112-130 | No record is "user not found". Only the first record decides. "Wrong password" happens exactly when the check is requested and the first record's verdict is present and false. Otherwise the user is built from the first record. |
| UserStore.UserInfoOf | modules/auth/userstore.go:121-130 | ID, name and email are copied. `admin` holds exactly when the role is `admin`. The claims have exactly the keys email and role, holding the record's values. |
| UserStore.FirstRecordWins | modules/auth/userstore.go:116 | Records after the first never change a lookup's outcome. |
| UserStore.UncheckedLookupFailsOnlyWhenNotFound | modules/auth/userstore.go:112-119 | Without the password check a lookup fails exactly when there is no record. |
| UserStore.ValidateCredentials | modules/auth/userstore.go:21-39 | The credential lookup requests the check. No record gives "user not found by" the username. It gives "wrong password" exactly when there is a first record and its verdict is false, and a user exactly when there is a first record and its verdict is not false. |
| UserStore.FindUserByEmail | modules/auth/userstore.go:41-56 | The email lookup does not request the check. It fails exactly when nothing is found, with "not found by" the email. |
| UserStore.FindUserByID | modules/auth/userstore.go:58-73 | The ID lookup does not request the check. It fails exactly when nothing is found, with "not found by" the ID. |
| UserStore.NewUserData | modules/auth/userstore.go:143-150 | The new record copies name, first and last name, and email. Avatar and location stay empty. |
| UserStore.CreateUserInput | modules/auth/userstore.go:161-167 | The mutation input has exactly the six keys. Avatar and location are empty. Decoding it by the record's field tags gives the record built from the account. |
| UserStore.CreateUser | modules/auth/userstore.go:142-181 | It writes that input and returns the email lookup of the new user's email. |

## Left out

- HTTP: fetching, request headers, the user agent and the transport. A fetched page is a
  parameter. A failure is an error status from 400 to 599. Exceptions `requests` raises
  without a status (connection errors, timeouts) are not modelled.
- HTML parsing: the parser itself is a foreign library, so documents are given as trees. A
  `find`/`find_all` filter is only a tag name with an optional class. That is all the scraper
  uses.
- The helper module: `utils.is_word`, `utils.is_empty` and the CLI-argument helper are not
  part of this model. The first two are uninterpreted predicates.
- Command-line entry and JSON printing (`main`) are I/O.
- `find_audio` turns each file into a dictionary with `_asdict()`. The model returns the file
  values themselves.
- Unicode: strings are sequences of characters. `strip` removes the characters Python's
  `str.isspace` accepts, and there is no normalisation.
- The user store's database side is out of scope: the client, transactions, the query texts
  and their variables, JSON decoding of the response, and their error returns. A lookup
  receives the decoded records.
- `CreateUser`'s mutation call, its error return and the store's `Close` are database I/O. The
  model returns the input it would write together with the lookup that follows.
- UserStore.CreateUserInput: the source fills an insertion-ordered JSON object. The model's `map` has
  no key order, so the order in which the six keys are written is not captured. The mutation's
  meaning does not depend on it.
- The error message text is defined (`UserStore.Message`) but carries no contract of its own.
- CambridgeProperties.DictionaryTags: the relative order of the part-of-speech tag and the
  grammar tag is stated only as one of two possibilities. Which one comes first depends on
  which block supplies each, and the lemma does not pin that down.
- CambridgeProperties.ExtractionTags: stated up to the same two orders, for the same reason.
