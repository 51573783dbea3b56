/** The dictionary-page scraper: from a headword and a language code, the lexical record
    built from one English dictionary page and three bilingual pages.

    The functions below say, rule by rule, what the extraction produces; the methods at the
    end perform it the way the scraper does, appending one value at a time inside nested
    loops, and each is proved to produce what its function says. */
module Cambridge {
  import opened Wrappers
  import opened Html
  import Strings

  /** The dictionary host; media urls and page urls start with it. */
  const Base := "https://dictionary.cambridge.org"

  /** A labelled piece of lexical information. The text is optional because a part-of-speech
      block without a `pos` span still yields a tag, with no text. */
  datatype Term = Term(text: Option<string>, lang: string, region: Option<string>)

  /** A media file: its absolute url and an optional region. */
  datatype File = File(url: string, region: Option<string>)

  /** The lexical record: the eight categories, each in extraction order. `examples` is the
      category the scraper keys `in` (usage examples); `translatedAs` is `translated_as`. */
  datatype Record = Record(
    audio: seq<File>,
    visual: seq<File>,
    tag: seq<Term>,
    transcription: seq<Term>,
    definition: seq<Term>,
    examples: seq<Term>,
    collocation: seq<Term>,
    translatedAs: seq<Term>)

  /** The record every extraction starts from: eight empty categories. */
  function EmptyRecord(): Record {
    Record([], [], [], [], [], [], [], [])
  }

  /** The two predicates the scraper takes from its helper module, which is not part of this
      model: whether a headword is a plain word, and whether an optional text counts as empty. */
  datatype Utils = Utils(isWord: string -> bool, isEmpty: Option<string> -> bool)

  /** A fetched page: the HTTP status and the parsed document. */
  datatype Response = Response(status: int, doc: Node)

  /** `raise_for_status` raises for every client-error and server-error status. */
  predicate HttpFailed(resp: Response) {
    400 <= resp.status < 600
  }

  /** Why an extraction aborts: an HTTP error status, or an access the code does not guard
      (a missing page wrapper, part-of-speech header or body, audio element, or `src` attribute). */
  datatype Failure =
    | HttpFailure(url: string, status: int)
    | MissingPage
    | MissingHeader
    | MissingBody
    | MissingAmpAudio
    | MissingSrc

  type Outcome<T> = Result<T, Failure>

  /** The grammar-code table. */
  const GrammarCodes: map<string, string> :=
    map["C" := "countable", "U" := "uncountable", "S" := "singular"]

  /** The target languages of the translation step and their bilingual dictionaries, in order. */
  const TranslationDictionaries: seq<(string, string)> :=
    [("ru", "english-russian"), ("fr", "english-french"), ("de", "english-german")]

  /** The headword as it appears in a page url: spaces become hyphens. */
  function Hyphenated(text: string): string {
    Strings.ReplaceChar(text, ' ', '-')
  }

  function EnglishUrl(text: string): string {
    Base + "/dictionary/english/" + Hyphenated(text)
  }

  function BilingualUrl(dictionary: string, text: string): string {
    Base + "/dictionary/" + dictionary + "/" + Hyphenated(text)
  }

  /** The tag that marks a headword that is a plain word. */
  function WordTag(lang: string): Term {
    Term(Some("word"), lang, None)
  }

  /** `Term(text=stripped_text(n), lang=lang, region=None)` for a found element `n`. */
  function TextTerm(n: Node, lang: string): Term {
    Term(StrippedText(Some(n)), lang, None)
  }

  function TextTerms(ns: seq<Node>, lang: string): (r: seq<Term>)
    ensures |r| == |ns|
  {
    if ns == [] then [] else TextTerms(ns[..|ns| - 1], lang) + [TextTerm(ns[|ns| - 1], lang)]
  }

  // ---------------------------------------------------------------------------------------
  // Tags: part of speech and grammar code, each first-wins across the dictionary blocks.

  /** The scanning state of the dictionary loop: the record so far and the two flags. */
  datatype Scan = Scan(data: Record, posFound: bool, gramFound: bool)

  function AddTag(d: Record, t: Term): Record {
    d.(tag := d.tag + [t])
  }

  /** The part-of-speech tag a header offers: present exactly when the header has a `posgram`
      block; its text is that of the block's `pos` span, `None` when there is none. */
  function PosTag(header: Node, lang: string): Option<Term> {
    match Find(header, "div", Some("posgram"))
    case None => None
    case Some(posgram) => Some(Term(FindStrip(posgram, "span", "pos"), lang, None))
  }

  function PosPhase(st: Scan, header: Node, lang: string): Scan {
    var pos := PosTag(header, lang);
    if pos.Some? && !st.posFound then st.(data := AddTag(st.data, pos.value), posFound := true)
    else st
  }

  /** The stripped texts of the `gc` spans, in order. */
  function GcCodes(gcs: seq<Node>): (r: seq<string>)
    ensures |r| == |gcs|
  {
    if gcs == [] then []
    else GcCodes(gcs[..|gcs| - 1]) + [Strings.Strip(GetText(gcs[|gcs| - 1]))]
  }

  /** The grammar codes of a sequence of `gram` spans: the codes of their `gc` spans, in order. */
  function GramCodes(grams: seq<Node>): seq<string> {
    if grams == [] then []
    else GramCodes(grams[..|grams| - 1]) + GcCodes(FindAll(grams[|grams| - 1], "span", Some("gc")))
  }

  /** The grammar codes a part-of-speech body carries, in document order. */
  function BodyCodes(body: Node): seq<string> {
    GramCodes(FindAll(body, "span", Some("gram")))
  }

  /** The label of the first code of `codes` that is in the grammar-code table. */
  function FirstGrammar(codes: seq<string>): Option<string> {
    if codes == [] then None
    else if codes[0] in GrammarCodes then Some(GrammarCodes[codes[0]])
    else FirstGrammar(codes[1..])
  }

  /** The state after the grammar scan has seen `codes`, starting from a state without a
      grammar tag: the label of the first known code is tagged, if there is one. */
  function GrammarAfter(st: Scan, codes: seq<string>, lang: string): Scan {
    match FirstGrammar(codes)
    case None => st
    case Some(grammar) => st.(data := AddTag(st.data, Term(Some(grammar), lang, None)), gramFound := true)
  }

  /** The grammar step of one body: only while no grammar tag has been found. */
  function GrammarPhase(st: Scan, body: Node, lang: string): Scan {
    if st.gramFound then st else GrammarAfter(st, BodyCodes(body), lang)
  }

  /** Scanning more codes changes the first known code only when there was none. */
  lemma {:induction false} FirstGrammarAppend(a: seq<string>, b: seq<string>)
    ensures FirstGrammar(a + b) == if FirstGrammar(a).Some? then FirstGrammar(a) else FirstGrammar(b)
  {
    if a == [] {
      assert a + b == b;
    } else {
      assert (a + b)[1..] == a[1..] + b;
      FirstGrammarAppend(a[1..], b);
    }
  }

  // ---------------------------------------------------------------------------------------
  // Pronunciations.

  /** The audio files of a sequence of `source` elements, all with the given region; a source
      without a `src` attribute aborts the extraction. */
  function AudioFiles(sources: seq<Node>, region: Option<string>): Outcome<seq<File>> {
    if sources == [] then Ok([])
    else
      match AudioFiles(sources[..|sources| - 1], region)
      case Err(e) => Err(e)
      case Ok(files) =>
        var source := sources[|sources| - 1];
        if source.Element? && "src" in source.attrs then Ok(files + [File(Base + source.attrs["src"], region)])
        else Err(MissingSrc)
  }

  /** One pronunciation block. Its audio comes from the first `amp-audio` element of the whole
      header, not of the block itself, tagged with the block's region. */
  function PronBlock(d: Record, header: Node, dpron: Node, lang: string, utils: Utils): Outcome<Record> {
    var region := FindStrip(dpron, "span", "region");
    var amp := Find(header, "amp-audio", None);
    if amp.None? then Err(MissingAmpAudio)
    else
      match AudioFiles(FindAll(amp.value, "source", None), region)
      case Err(e) => Err(e)
      case Ok(files) =>
        var d1 := d.(audio := d.audio + files);
        var ipa := FindStrip(dpron, "span", "ipa");
        if utils.isEmpty(ipa) then Ok(d1)
        else Ok(d1.(transcription := d1.transcription + [Term(ipa, lang, region)]))
  }

  function PronPhase(d: Record, header: Node, dprons: seq<Node>, lang: string, utils: Utils): Outcome<Record> {
    if dprons == [] then Ok(d)
    else
      match PronPhase(d, header, dprons[..|dprons| - 1], lang, utils)
      case Err(e) => Err(e)
      case Ok(d1) => PronBlock(d1, header, dprons[|dprons| - 1], lang, utils)
  }

  // ---------------------------------------------------------------------------------------
  // Definition blocks.

  function DefBlock(d: Record, dblock: Node, lang: string, utils: Utils): Outcome<Record> {
    var defText := StrippedText(Find(dblock, "div", Some("def")));
    var d1 := if utils.isEmpty(defText) then d else d.(definition := d.definition + [Term(defText, lang, None)]);
    var img := Find(dblock, "amp-img", None);
    if img.Some? && "src" !in img.value.attrs then Err(MissingSrc)
    else
      var d2 := if img.Some? then d1.(visual := d1.visual + [File(Base + img.value.attrs["src"], None)]) else d1;
      Ok(d2.(examples := d2.examples + TextTerms(FindAll(dblock, "span", Some("eg")), lang)))
  }

  function DefPhase(d: Record, dblocks: seq<Node>, lang: string, utils: Utils): Outcome<Record> {
    if dblocks == [] then Ok(d)
    else
      match DefPhase(d, dblocks[..|dblocks| - 1], lang, utils)
      case Err(e) => Err(e)
      case Ok(d1) => DefBlock(d1, dblocks[|dblocks| - 1], lang, utils)
  }

  // ---------------------------------------------------------------------------------------
  // One `dictionary` block, and the loop over all of them.

  /** One dictionary block: the part-of-speech tag, the grammar tag while none is found, the
      pronunciations of the header, then the definition blocks of the body. The header is
      needed first; the body is needed at the grammar step while no grammar tag is found, and
      in any case at the definition step. */
  function DictionaryStep(st: Scan, dict: Node, lang: string, utils: Utils): Outcome<Scan> {
    var header := Find(dict, "div", Some("pos-header"));
    var body := Find(dict, "div", Some("pos-body"));
    if header.None? then Err(MissingHeader)
    else
      var st1 := PosPhase(st, header.value, lang);
      if !st1.gramFound && body.None? then Err(MissingBody)
      else
        var st2 := if body.Some? then GrammarPhase(st1, body.value, lang) else st1;
        match PronPhase(st2.data, header.value, FindAll(header.value, "span", Some("dpron-i")), lang, utils)
        case Err(e) => Err(e)
        case Ok(d3) =>
          if body.None? then Err(MissingBody)
          else
            match DefPhase(d3, FindAll(body.value, "div", Some("def-block")), lang, utils)
            case Err(e) => Err(e)
            case Ok(d4) => Ok(st2.(data := d4))
  }

  function DictionaryFold(st: Scan, dicts: seq<Node>, lang: string, utils: Utils): Outcome<Scan> {
    if dicts == [] then Ok(st)
    else
      match DictionaryFold(st, dicts[..|dicts| - 1], lang, utils)
      case Err(e) => Err(e)
      case Ok(st1) => DictionaryStep(st1, dicts[|dicts| - 1], lang, utils)
  }

  // ---------------------------------------------------------------------------------------
  // The dataset section: more usage examples and the collocations.

  function Collocations(lbbs: seq<Node>, lang: string): seq<Term> {
    if lbbs == [] then []
    else Collocations(lbbs[..|lbbs| - 1], lang) + TextTerms(FindAll(lbbs[|lbbs| - 1], "a", Some("hdib")), lang)
  }

  function DatasetBlock(d: Record, dataset: Node, lang: string): Record {
    var d1 := d.(examples := d.examples + TextTerms(FindAll(dataset, "span", Some("deg")), lang));
    match Find(dataset, "div", Some("cpegs"))
    case None => d1
    case Some(cpegs) => d1.(collocation := d1.collocation + Collocations(FindAll(cpegs, "div", Some("lbb")), lang))
  }

  function DatasetFold(d: Record, datasets: seq<Node>, lang: string): Record {
    if datasets == [] then d
    else DatasetBlock(DatasetFold(d, datasets[..|datasets| - 1], lang), datasets[|datasets| - 1], lang)
  }

  // ---------------------------------------------------------------------------------------
  // Translations.

  /** `[w for w in words if not is_empty(w)]`. */
  function KeepNonEmpty(words: seq<string>, utils: Utils): seq<string> {
    if words == [] then []
    else (if utils.isEmpty(Some(words[0])) then [] else [words[0]]) + KeepNonEmpty(words[1..], utils)
  }

  /** The translation fragments of one sense: none for a phrase sense or a sense without a
      translation span; otherwise the comma-separated pieces of the span's stripped text that
      do not count as empty. */
  function SenseWords(sense: Node, utils: Utils): seq<string> {
    if Find(sense, "div", Some("phrase-block")).Some? then []
    else
      match Find(sense, "span", Some("trans"))
      case None => []
      case Some(trans) => KeepNonEmpty(Strings.Split(Strings.Strip(GetText(trans)), ','), utils)
  }

  function WordTerms(words: seq<string>, lang: string): (r: seq<Term>)
    ensures |r| == |words|
  {
    if words == [] then [] else WordTerms(words[..|words| - 1], lang) + [Term(Some(words[|words| - 1]), lang, None)]
  }

  function SenseTerms(senses: seq<Node>, lang: string, utils: Utils): seq<Term> {
    if senses == [] then []
    else SenseTerms(senses[..|senses| - 1], lang, utils) + WordTerms(SenseWords(senses[|senses| - 1], utils), lang)
  }

  /** The translations one bilingual page yields into `lang`. */
  function PageTranslations(doc: Node, lang: string, utils: Utils): seq<Term> {
    SenseTerms(FindAll(doc, "div", Some("sense-body")), lang, utils)
  }

  function TranslationsFrom(d: Record, text: string, dicts: seq<(string, string)>, fetch: string -> Response, utils: Utils): Outcome<Record> {
    if dicts == [] then Ok(d)
    else
      match TranslationsFrom(d, text, dicts[..|dicts| - 1], fetch, utils)
      case Err(e) => Err(e)
      case Ok(d1) =>
        var (lang, dictionary) := dicts[|dicts| - 1];
        var url := BilingualUrl(dictionary, text);
        var resp := fetch(url);
        if HttpFailed(resp) then Err(HttpFailure(url, resp.status))
        else Ok(d1.(translatedAs := d1.translatedAs + PageTranslations(resp.doc, lang, utils)))
  }

  // ---------------------------------------------------------------------------------------
  // The whole extraction.

  /** What `get_data(text, lang)` returns: `Ok(None)` for any language other than English,
      otherwise the record built from the English page and the three bilingual pages, or the
      failure that aborts the extraction. */
  function Extraction(text: string, lang: string, fetch: string -> Response, utils: Utils): Outcome<Option<Record>> {
    if lang != "en" then Ok(None)
    else
      var url := EnglishUrl(text);
      var resp := fetch(url);
      if HttpFailed(resp) then Err(HttpFailure(url, resp.status))
      else
        var d0 := if utils.isWord(text) then AddTag(EmptyRecord(), WordTag(lang)) else EmptyRecord();
        match Find(resp.doc, "div", Some("page"))
        case None => Err(MissingPage)
        case Some(page) =>
          match DictionaryFold(Scan(d0, false, false), FindAll(page, "div", Some("dictionary")), lang, utils)
          case Err(e) => Err(e)
          case Ok(st) =>
            var d1 := DatasetFold(st.data, FindAll(page, "div", Some("dataset")), lang);
            match TranslationsFrom(d1, text, TranslationDictionaries, fetch, utils)
            case Err(e) => Err(e)
            case Ok(d2) => Ok(Some(d2))
  }


  // ---------------------------------------------------------------------------------------
  // The scraper's loops. Each appends to one list of the record, one value at a time.

  /** `for n in nodes: terms.append(Term(text=stripped_text(n), lang=lang, region=None))`. */
  method AppendTextTerms(terms: seq<Term>, nodes: seq<Node>, lang: string) returns (r: seq<Term>)
    ensures r == terms + TextTerms(nodes, lang)
  {
    r := terms;
    var k := 0;
    while k < |nodes|
      invariant 0 <= k <= |nodes|
      invariant r == terms + TextTerms(nodes[..k], lang)
    {
      assert nodes[..k + 1][..k] == nodes[..k];
      r := r + [TextTerm(nodes[k], lang)];
      k := k + 1;
    }
    assert nodes[..k] == nodes;
  }

  /** The loop over the `gc` spans of one `gram` span: a known code is tagged while no
      grammar tag has been found. */
  method ScanGrammarCodes(st: Scan, gcs: seq<Node>, lang: string) returns (r: Scan)
    ensures r == if st.gramFound then st else GrammarAfter(st, GcCodes(gcs), lang)
  {
    r := st;
    var j := 0;
    while j < |gcs|
      invariant 0 <= j <= |gcs|
      invariant r == if st.gramFound then st else GrammarAfter(st, GcCodes(gcs[..j]), lang)
    {
      var code := Strings.Strip(GetText(gcs[j]));
      assert gcs[..j + 1][..j] == gcs[..j];
      FirstGrammarAppend(GcCodes(gcs[..j]), [code]);
      if code in GrammarCodes && !r.gramFound {
        r := r.(data := AddTag(r.data, Term(Some(GrammarCodes[code]), lang, None)), gramFound := true);
      }
      j := j + 1;
    }
    assert gcs[..j] == gcs;
  }

  /** The grammar loop of one body, entered only while no grammar tag has been found. */
  method CollectGrammar(st: Scan, body: Node, lang: string) returns (r: Scan)
    ensures r == GrammarPhase(st, body, lang)
  {
    r := st;
    if !st.gramFound {
      var grams := FindAll(body, "span", Some("gram"));
      var i := 0;
      while i < |grams|
        invariant 0 <= i <= |grams|
        invariant r == GrammarAfter(st, GramCodes(grams[..i]), lang)
      {
        assert grams[..i + 1][..i] == grams[..i];
        var gcs := FindAll(grams[i], "span", Some("gc"));
        FirstGrammarAppend(GramCodes(grams[..i]), GcCodes(gcs));
        r := ScanGrammarCodes(r, gcs, lang);
        i := i + 1;
      }
      assert grams[..i] == grams;
    }
  }

  /** The loop over the `source` elements of an audio element: one file per source, or the
      failure of the first source without a `src` attribute. */
  method AppendAudio(files: seq<File>, sources: seq<Node>, region: Option<string>) returns (r: Outcome<seq<File>>)
    ensures AudioFiles(sources, region).Ok? ==> r == Ok(files + AudioFiles(sources, region).value)
    ensures AudioFiles(sources, region).Err? ==> r == Err(AudioFiles(sources, region).error)
  {
    var acc := files;
    ghost var added: seq<File> := [];
    var k := 0;
    while k < |sources|
      invariant 0 <= k <= |sources|
      invariant AudioFiles(sources[..k], region) == Ok(added)
      invariant acc == files + added
    {
      assert sources[..k + 1][..k] == sources[..k];
      var source := sources[k];
      if !(source.Element? && "src" in source.attrs) {
        AudioFilesErrSticks(sources, k + 1, region);
        return Err(MissingSrc);
      }
      var file := File(Base + source.attrs["src"], region);
      acc := acc + [file];
      added := added + [file];
      k := k + 1;
    }
    assert sources[..k] == sources;
    return Ok(acc);
  }

  lemma {:induction false} AudioFilesErrSticks(sources: seq<Node>, k: nat, region: Option<string>)
    requires k <= |sources|
    requires AudioFiles(sources[..k], region).Err?
    ensures AudioFiles(sources, region) == Err(MissingSrc)
    decreases |sources| - k
  {
    AudioFilesErrIsMissingSrc(sources[..k], region);
    if k < |sources| {
      assert sources[..k + 1][..k] == sources[..k];
      AudioFilesErrSticks(sources, k + 1, region);
    } else {
      assert sources[..k] == sources;
    }
  }

  lemma {:induction false} AudioFilesErrIsMissingSrc(sources: seq<Node>, region: Option<string>)
    requires AudioFiles(sources, region).Err?
    ensures AudioFiles(sources, region) == Err(MissingSrc)
  {
    if sources != [] && AudioFiles(sources[..|sources| - 1], region).Err? {
      AudioFilesErrIsMissingSrc(sources[..|sources| - 1], region);
    }
  }

  /** The pronunciation loop of one header. */
  method CollectPronunciations(d: Record, header: Node, lang: string, utils: Utils) returns (r: Outcome<Record>)
    ensures r == PronPhase(d, header, FindAll(header, "span", Some("dpron-i")), lang, utils)
  {
    var dprons := FindAll(header, "span", Some("dpron-i"));
    var data := d;
    var i := 0;
    while i < |dprons|
      invariant 0 <= i <= |dprons|
      invariant PronPhase(d, header, dprons[..i], lang, utils) == Ok(data)
    {
      PronPhaseStep(d, header, dprons, i, lang, utils);
      var region := FindStrip(dprons[i], "span", "region");
      var amp := Find(header, "amp-audio", None);
      if amp.None? {
        PronPhaseErrSticks(d, header, dprons, i + 1, lang, utils);
        return Err(MissingAmpAudio);
      }
      var audio := AppendAudio(data.audio, FindAll(amp.value, "source", None), region);
      if audio.Err? {
        PronPhaseErrSticks(d, header, dprons, i + 1, lang, utils);
        return Err(audio.error);
      }
      data := data.(audio := audio.value);
      var ipa := FindStrip(dprons[i], "span", "ipa");
      if !utils.isEmpty(ipa) {
        data := data.(transcription := data.transcription + [Term(ipa, lang, region)]);
      }
      i := i + 1;
    }
    assert dprons[..i] == dprons;
    return Ok(data);
  }

  lemma PronPhaseStep(d: Record, header: Node, dprons: seq<Node>, i: nat, lang: string, utils: Utils)
    requires i < |dprons|
    ensures PronPhase(d, header, dprons[..i + 1], lang, utils)
         == match PronPhase(d, header, dprons[..i], lang, utils)
            case Err(e) => Err(e)
            case Ok(d1) => PronBlock(d1, header, dprons[i], lang, utils)
  {
    assert dprons[..i + 1][..i] == dprons[..i];
  }

  lemma {:induction false} PronPhaseErrSticks(d: Record, header: Node, dprons: seq<Node>, k: nat, lang: string, utils: Utils)
    requires k <= |dprons|
    requires PronPhase(d, header, dprons[..k], lang, utils).Err?
    ensures PronPhase(d, header, dprons, lang, utils) == PronPhase(d, header, dprons[..k], lang, utils)
    decreases |dprons| - k
  {
    if k < |dprons| {
      assert dprons[..k + 1][..k] == dprons[..k];
      PronPhaseErrSticks(d, header, dprons, k + 1, lang, utils);
    } else {
      assert dprons[..k] == dprons;
    }
  }

  /** The body of the definition-block loop: the definition text, the image, the examples. */
  method CollectDefBlock(d: Record, dblock: Node, lang: string, utils: Utils) returns (r: Outcome<Record>)
    ensures r == DefBlock(d, dblock, lang, utils)
  {
    var data := d;
    var defText := StrippedText(Find(dblock, "div", Some("def")));
    if !utils.isEmpty(defText) {
      data := data.(definition := data.definition + [Term(defText, lang, None)]);
    }
    var img := Find(dblock, "amp-img", None);
    if img.Some? {
      if "src" !in img.value.attrs {
        return Err(MissingSrc);
      }
      data := data.(visual := data.visual + [File(Base + img.value.attrs["src"], None)]);
    }
    var examples := AppendTextTerms(data.examples, FindAll(dblock, "span", Some("eg")), lang);
    return Ok(data.(examples := examples));
  }

  /** The definition-block loop of one body. */
  method CollectDefinitions(d: Record, body: Node, lang: string, utils: Utils) returns (r: Outcome<Record>)
    ensures r == DefPhase(d, FindAll(body, "div", Some("def-block")), lang, utils)
  {
    var dblocks := FindAll(body, "div", Some("def-block"));
    var data := d;
    var i := 0;
    while i < |dblocks|
      invariant 0 <= i <= |dblocks|
      invariant DefPhase(d, dblocks[..i], lang, utils) == Ok(data)
    {
      DefPhaseStep(d, dblocks, i, lang, utils);
      var next := CollectDefBlock(data, dblocks[i], lang, utils);
      if next.Err? {
        DefPhaseErrSticks(d, dblocks, i + 1, lang, utils);
        return Err(next.error);
      }
      data := next.value;
      i := i + 1;
    }
    assert dblocks[..i] == dblocks;
    return Ok(data);
  }

  lemma DefPhaseStep(d: Record, dblocks: seq<Node>, i: nat, lang: string, utils: Utils)
    requires i < |dblocks|
    ensures DefPhase(d, dblocks[..i + 1], lang, utils)
         == match DefPhase(d, dblocks[..i], lang, utils)
            case Err(e) => Err(e)
            case Ok(d1) => DefBlock(d1, dblocks[i], lang, utils)
  {
    assert dblocks[..i + 1][..i] == dblocks[..i];
  }

  lemma {:induction false} DefPhaseErrSticks(d: Record, dblocks: seq<Node>, k: nat, lang: string, utils: Utils)
    requires k <= |dblocks|
    requires DefPhase(d, dblocks[..k], lang, utils).Err?
    ensures DefPhase(d, dblocks, lang, utils) == DefPhase(d, dblocks[..k], lang, utils)
    decreases |dblocks| - k
  {
    if k < |dblocks| {
      assert dblocks[..k + 1][..k] == dblocks[..k];
      DefPhaseErrSticks(d, dblocks, k + 1, lang, utils);
    } else {
      assert dblocks[..k] == dblocks;
    }
  }

  /** The body of the loop over `dictionary` blocks. */
  method ScanDictionary(st: Scan, dict: Node, lang: string, utils: Utils) returns (r: Outcome<Scan>)
    ensures r == DictionaryStep(st, dict, lang, utils)
  {
    var header := Find(dict, "div", Some("pos-header"));
    var body := Find(dict, "div", Some("pos-body"));
    if header.None? {
      return Err(MissingHeader);
    }
    var cur := st;
    var pos := PosTag(header.value, lang);
    if pos.Some? && !cur.posFound {
      cur := cur.(data := AddTag(cur.data, pos.value), posFound := true);
    }
    if !cur.gramFound {
      if body.None? {
        return Err(MissingBody);
      }
      cur := CollectGrammar(cur, body.value, lang);
    }
    var prons := CollectPronunciations(cur.data, header.value, lang, utils);
    if prons.Err? {
      return Err(prons.error);
    }
    if body.None? {
      return Err(MissingBody);
    }
    var defs := CollectDefinitions(prons.value, body.value, lang, utils);
    if defs.Err? {
      return Err(defs.error);
    }
    return Ok(cur.(data := defs.value));
  }

  /** One `dataset` section: its `deg` examples, then the collocation links of its `cpegs` block. */
  method CollectDataset(d: Record, dataset: Node, lang: string) returns (r: Record)
    ensures r == DatasetBlock(d, dataset, lang)
  {
    var examples := AppendTextTerms(d.examples, FindAll(dataset, "span", Some("deg")), lang);
    r := d.(examples := examples);
    var cpegs := Find(dataset, "div", Some("cpegs"));
    if cpegs.Some? {
      var lbbs := FindAll(cpegs.value, "div", Some("lbb"));
      ghost var before := r;
      var i := 0;
      while i < |lbbs|
        invariant 0 <= i <= |lbbs|
        invariant r == before.(collocation := before.collocation + Collocations(lbbs[..i], lang))
      {
        assert lbbs[..i + 1][..i] == lbbs[..i];
        AppendAssoc(before.collocation, Collocations(lbbs[..i], lang), TextTerms(FindAll(lbbs[i], "a", Some("hdib")), lang));
        var collocation := AppendTextTerms(r.collocation, FindAll(lbbs[i], "a", Some("hdib")), lang);
        r := r.(collocation := collocation);
        i := i + 1;
      }
      assert lbbs[..i] == lbbs;
    }
  }

  /** `for word in words: translated_as.append(Term(text=word, lang=lang, region=None))`. */
  method AppendWordTerms(terms: seq<Term>, words: seq<string>, lang: string) returns (r: seq<Term>)
    ensures r == terms + WordTerms(words, lang)
  {
    r := terms;
    var k := 0;
    while k < |words|
      invariant 0 <= k <= |words|
      invariant r == terms + WordTerms(words[..k], lang)
    {
      assert words[..k + 1][..k] == words[..k];
      r := r + [Term(Some(words[k]), lang, None)];
      k := k + 1;
    }
    assert words[..k] == words;
  }

  /** The body of the sense loop: a phrase sense is skipped; otherwise the fragments of the
      translation span are appended. */
  method AppendSense(terms: seq<Term>, sense: Node, lang: string, utils: Utils) returns (r: seq<Term>)
    ensures r == terms + WordTerms(SenseWords(sense, utils), lang)
  {
    r := terms;
    var phrase := Find(sense, "div", Some("phrase-block"));
    if phrase.Some? {
      assert terms + WordTerms([], lang) == terms;
      return;
    }
    var trans := Find(sense, "span", Some("trans"));
    if trans.Some? {
      var words := Strings.Split(Strings.Strip(GetText(trans.value)), ',');
      words := KeepNonEmpty(words, utils);
      r := AppendWordTerms(r, words, lang);
    } else {
      assert terms + WordTerms([], lang) == terms;
    }
  }

  /** The loop over the sense blocks of one bilingual page. */
  method AppendSenseTranslations(terms: seq<Term>, senses: seq<Node>, lang: string, utils: Utils) returns (r: seq<Term>)
    ensures r == terms + SenseTerms(senses, lang, utils)
  {
    r := terms;
    var i := 0;
    while i < |senses|
      invariant 0 <= i <= |senses|
      invariant r == terms + SenseTerms(senses[..i], lang, utils)
    {
      SenseTermsStep(senses, i, lang, utils);
      AppendAssoc(terms, SenseTerms(senses[..i], lang, utils), WordTerms(SenseWords(senses[i], utils), lang));
      r := AppendSense(r, senses[i], lang, utils);
      i := i + 1;
    }
    assert senses[..i] == senses;
  }

  lemma AppendAssoc<T>(a: seq<T>, b: seq<T>, c: seq<T>)
    ensures a + (b + c) == (a + b) + c
  {
  }

  lemma SenseTermsStep(senses: seq<Node>, i: nat, lang: string, utils: Utils)
    requires i < |senses|
    ensures SenseTerms(senses[..i + 1], lang, utils)
         == SenseTerms(senses[..i], lang, utils) + WordTerms(SenseWords(senses[i], utils), lang)
  {
    assert senses[..i + 1][..i] == senses[..i];
  }

  /** `get_translations(data, text, src_lang)`: appends the translations of the three
      bilingual pages to `data`, or aborts on the first HTTP error. The source language is
      not used. */
  method GetTranslations(data: Record, text: string, srcLang: string, fetch: string -> Response, utils: Utils)
    returns (r: Outcome<Record>)
    ensures r == TranslationsFrom(data, text, TranslationDictionaries, fetch, utils)
  {
    var dicts := TranslationDictionaries;
    var d := data;
    var n := 0;
    while n < |dicts|
      invariant 0 <= n <= |dicts|
      invariant TranslationsFrom(data, text, dicts[..n], fetch, utils) == Ok(d)
    {
      TranslationsStep(data, text, dicts, n, fetch, utils);
      var (lang, dictionary) := dicts[n];
      var url := BilingualUrl(dictionary, text);
      var resp := fetch(url);
      if HttpFailed(resp) {
        TranslationsErrSticks(data, text, dicts, n + 1, fetch, utils);
        return Err(HttpFailure(url, resp.status));
      }
      var translated := AppendSenseTranslations(d.translatedAs, FindAll(resp.doc, "div", Some("sense-body")), lang, utils);
      d := d.(translatedAs := translated);
      n := n + 1;
    }
    assert dicts[..n] == dicts;
    return Ok(d);
  }

  lemma TranslationsStep(d: Record, text: string, dicts: seq<(string, string)>, n: nat,
                         fetch: string -> Response, utils: Utils)
    requires n < |dicts|
    ensures TranslationsFrom(d, text, dicts[..n + 1], fetch, utils)
         == match TranslationsFrom(d, text, dicts[..n], fetch, utils)
            case Err(e) => Err(e)
            case Ok(d1) =>
              var url := BilingualUrl(dicts[n].1, text);
              if HttpFailed(fetch(url)) then Err(HttpFailure(url, fetch(url).status))
              else Ok(d1.(translatedAs := d1.translatedAs + PageTranslations(fetch(url).doc, dicts[n].0, utils)))
  {
    assert dicts[..n + 1][..n] == dicts[..n];
  }

  lemma {:induction false} TranslationsErrSticks(d: Record, text: string, dicts: seq<(string, string)>, k: nat,
                                                  fetch: string -> Response, utils: Utils)
    requires k <= |dicts|
    requires TranslationsFrom(d, text, dicts[..k], fetch, utils).Err?
    ensures TranslationsFrom(d, text, dicts, fetch, utils) == TranslationsFrom(d, text, dicts[..k], fetch, utils)
    decreases |dicts| - k
  {
    if k < |dicts| {
      assert dicts[..k + 1][..k] == dicts[..k];
      TranslationsErrSticks(d, text, dicts, k + 1, fetch, utils);
    } else {
      assert dicts[..k] == dicts;
    }
  }

  /** The loop over the `dictionary` blocks of the page, from a state with neither flag set. */
  method CollectDictionaries(d: Record, page: Node, lang: string, utils: Utils) returns (r: Outcome<Scan>)
    ensures r == DictionaryFold(Scan(d, false, false), FindAll(page, "div", Some("dictionary")), lang, utils)
  {
    var dicts := FindAll(page, "div", Some("dictionary"));
    var st := Scan(d, false, false);
    ghost var start := st;
    var i := 0;
    while i < |dicts|
      invariant 0 <= i <= |dicts|
      invariant DictionaryFold(start, dicts[..i], lang, utils) == Ok(st)
    {
      DictionaryFoldStep(start, dicts, i, lang, utils);
      var next := ScanDictionary(st, dicts[i], lang, utils);
      if next.Err? {
        DictionaryErrSticks(start, dicts, i + 1, lang, utils);
        return Err(next.error);
      }
      st := next.value;
      i := i + 1;
    }
    assert dicts[..i] == dicts;
    return Ok(st);
  }

  lemma DictionaryFoldStep(st: Scan, dicts: seq<Node>, i: nat, lang: string, utils: Utils)
    requires i < |dicts|
    ensures DictionaryFold(st, dicts[..i + 1], lang, utils)
         == match DictionaryFold(st, dicts[..i], lang, utils)
            case Err(e) => Err(e)
            case Ok(st1) => DictionaryStep(st1, dicts[i], lang, utils)
  {
    assert dicts[..i + 1][..i] == dicts[..i];
  }

  /** The loop over the `dataset` sections of the page. */
  method CollectDatasets(d: Record, page: Node, lang: string) returns (r: Record)
    ensures r == DatasetFold(d, FindAll(page, "div", Some("dataset")), lang)
  {
    var datasets := FindAll(page, "div", Some("dataset"));
    r := d;
    var j := 0;
    while j < |datasets|
      invariant 0 <= j <= |datasets|
      invariant r == DatasetFold(d, datasets[..j], lang)
    {
      DatasetFoldStep(d, datasets, j, lang);
      r := CollectDataset(r, datasets[j], lang);
      j := j + 1;
    }
    assert datasets[..j] == datasets;
  }

  lemma DatasetFoldStep(d: Record, datasets: seq<Node>, j: nat, lang: string)
    requires j < |datasets|
    ensures DatasetFold(d, datasets[..j + 1], lang) == DatasetBlock(DatasetFold(d, datasets[..j], lang), datasets[j], lang)
  {
    assert datasets[..j + 1][..j] == datasets[..j];
  }

  /** `get_data(text, lang)`. */
  method GetData(text: string, lang: string, fetch: string -> Response, utils: Utils)
    returns (r: Outcome<Option<Record>>)
    ensures r == Extraction(text, lang, fetch, utils)
    ensures r == Ok(None) <==> lang != "en"
  {
    if lang != "en" {
      return Ok(None);
    }
    var url := EnglishUrl(text);
    var resp := fetch(url);
    if HttpFailed(resp) {
      return Err(HttpFailure(url, resp.status));
    }
    var data := EmptyRecord();
    if utils.isWord(text) {
      data := AddTag(data, WordTag(lang));
    }
    var page := Find(resp.doc, "div", Some("page"));
    if page.None? {
      return Err(MissingPage);
    }
    var scanned := CollectDictionaries(data, page.value, lang, utils);
    if scanned.Err? {
      return Err(scanned.error);
    }
    data := CollectDatasets(scanned.value.data, page.value, lang);
    var translated := GetTranslations(data, text, lang, fetch, utils);
    if translated.Err? {
      return Err(translated.error);
    }
    return Ok(Some(translated.value));
  }

  lemma {:induction false} DictionaryErrSticks(st: Scan, dicts: seq<Node>, k: nat, lang: string, utils: Utils)
    requires k <= |dicts|
    requires DictionaryFold(st, dicts[..k], lang, utils).Err?
    ensures DictionaryFold(st, dicts, lang, utils) == DictionaryFold(st, dicts[..k], lang, utils)
    decreases |dicts| - k
  {
    if k < |dicts| {
      assert dicts[..k + 1][..k] == dicts[..k];
      DictionaryErrSticks(st, dicts, k + 1, lang, utils);
    } else {
      assert dicts[..k] == dicts;
    }
  }

  /** `find_audio(text, lang)`: the audio files of the extraction, or `None` exactly when the
      extraction returns `None`; failures propagate. */
  method FindAudio(text: string, lang: string, fetch: string -> Response, utils: Utils)
    returns (r: Outcome<Option<seq<File>>>)
    ensures r.Err? <==> Extraction(text, lang, fetch, utils).Err?
    ensures r.Err? ==> r.error == Extraction(text, lang, fetch, utils).error
    ensures r == Ok(None) <==> Extraction(text, lang, fetch, utils) == Ok(None)
    ensures r.Ok? && r.value.Some? ==> r.value.value == Extraction(text, lang, fetch, utils).value.value.audio
  {
    var data := GetData(text, lang, fetch, utils);
    if data.Err? {
      return Err(data.error);
    }
    if data.value.None? {
      return Ok(None);
    }
    return Ok(Some(data.value.value.audio));
  }
}
