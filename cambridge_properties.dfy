/** What the extraction guarantees about the record it returns: which categories each phase
    touches and only appends to, what every entry of every category looks like, where the tags
    come from, how the audio of a header is repeated per pronunciation block, and the order of
    the translations. */
module CambridgeProperties {
  import opened Wrappers
  import opened Html
  import opened Cambridge
  import Strings

  // ---------------------------------------------------------------------------------------
  // The shape of a well-formed record.

  /** Every url is on the dictionary host. */
  predicate HostedFiles(files: seq<File>) {
    forall i :: 0 <= i < |files| ==> Base <= files[i].url
  }

  predicate Regionless(files: seq<File>) {
    forall i :: 0 <= i < |files| ==> files[i].region.None?
  }

  /** Terms in the extraction language without a region. */
  predicate PlainTerms(terms: seq<Term>, lang: string) {
    forall i :: 0 <= i < |terms| ==> terms[i].lang == lang && terms[i].region.None?
  }

  /** Terms in the extraction language (a transcription keeps its block's region). */
  predicate InLanguage(terms: seq<Term>, lang: string) {
    forall i :: 0 <= i < |terms| ==> terms[i].lang == lang
  }

  /** Terms whose text the helper module does not count as empty. */
  predicate Shown(terms: seq<Term>, utils: Utils) {
    forall i :: 0 <= i < |terms| ==> !utils.isEmpty(terms[i].text)
  }

  /** Terms in one of the three target languages, without a region. */
  predicate Translated(terms: seq<Term>) {
    forall i :: 0 <= i < |terms| ==> terms[i].lang in {"ru", "fr", "de"} && terms[i].region.None?
  }

  /** The shape of every record the extraction builds in language `lang`. */
  predicate WellFormed(d: Record, lang: string, utils: Utils) {
    && HostedFiles(d.audio)
    && HostedFiles(d.visual) && Regionless(d.visual)
    && PlainTerms(d.tag, lang)
    && InLanguage(d.transcription, lang) && Shown(d.transcription, utils)
    && PlainTerms(d.definition, lang) && Shown(d.definition, utils)
    && PlainTerms(d.examples, lang)
    && PlainTerms(d.collocation, lang)
    && Translated(d.translatedAs) && Shown(d.translatedAs, utils)
  }

  // ---------------------------------------------------------------------------------------
  // Urls.

  /** Page urls are on the dictionary host and the headword in them has no space left. */
  lemma UrlsOnHost(dictionary: string, text: string)
    ensures Base <= EnglishUrl(text) && Base <= BilingualUrl(dictionary, text)
    ensures |Hyphenated(text)| == |text| && ' ' !in Hyphenated(text)
    ensures forall i :: 0 <= i < |text| && text[i] != ' ' ==> Hyphenated(text)[i] == text[i]
  {
    Strings.ReplaceCharSpec(text, ' ', '-');
    assert EnglishUrl(text) == Base + ("/dictionary/english/" + Hyphenated(text));
    assert BilingualUrl(dictionary, text) == Base + ("/dictionary/" + dictionary + "/" + Hyphenated(text));
  }

  // ---------------------------------------------------------------------------------------
  // Texts.

  lemma {:induction false} TextTermsSpec(ns: seq<Node>, lang: string)
    ensures forall i :: 0 <= i < |ns| ==> TextTerms(ns, lang)[i] == TextTerm(ns[i], lang)
    ensures PlainTerms(TextTerms(ns, lang), lang)
  {
    if ns != [] {
      TextTermsSpec(ns[..|ns| - 1], lang);
    }
  }

  lemma {:induction false} CollocationsPlain(lbbs: seq<Node>, lang: string)
    ensures PlainTerms(Collocations(lbbs, lang), lang)
  {
    if lbbs != [] {
      CollocationsPlain(lbbs[..|lbbs| - 1], lang);
      TextTermsSpec(FindAll(lbbs[|lbbs| - 1], "a", Some("hdib")), lang);
    }
  }

  // ---------------------------------------------------------------------------------------
  // Pronunciations.

  predicate HasSrc(n: Node) {
    n.Element? && "src" in n.attrs
  }

  /** The audio of a source list fails exactly when a source has no `src`; otherwise there is
      one hosted file per source, in order, each with the given region. */
  lemma {:induction false} AudioFilesSpec(sources: seq<Node>, region: Option<string>)
    ensures AudioFiles(sources, region).Ok? <==> forall i :: 0 <= i < |sources| ==> HasSrc(sources[i])
    ensures AudioFiles(sources, region).Ok? ==>
      && |AudioFiles(sources, region).value| == |sources|
      && (forall i :: 0 <= i < |sources| ==>
            HasSrc(sources[i]) && AudioFiles(sources, region).value[i] == File(Base + sources[i].attrs["src"], region))
      && HostedFiles(AudioFiles(sources, region).value)
  {
    if sources != [] {
      var init := sources[..|sources| - 1];
      AudioFilesSpec(init, region);
      assert forall i :: 0 <= i < |init| ==> init[i] == sources[i];
    }
  }

  /** The sources of the first audio element of a header, none when it has no audio element. */
  function HeaderSources(header: Node): seq<Node> {
    match Find(header, "amp-audio", None)
    case None => []
    case Some(amp) => FindAll(amp, "source", None)
  }

  /** One pronunciation block appends all files of the header's first audio element, with the
      block's region, and at most one transcription; nothing else changes. */
  lemma PronBlockSpec(d: Record, header: Node, dpron: Node, lang: string, utils: Utils)
    requires PronBlock(d, header, dpron, lang, utils).Ok?
    ensures var r := PronBlock(d, header, dpron, lang, utils).value;
      && r == d.(audio := r.audio, transcription := r.transcription)
      && Find(header, "amp-audio", None).Some?
      && AudioFiles(HeaderSources(header), FindStrip(dpron, "span", "region")).Ok?
      && r.audio == d.audio + AudioFiles(HeaderSources(header), FindStrip(dpron, "span", "region")).value
      && d.transcription <= r.transcription && |r.transcription| <= |d.transcription| + 1
      && (WellFormed(d, lang, utils) ==> WellFormed(r, lang, utils))
  {
    var region := FindStrip(dpron, "span", "region");
    AudioFilesSpec(HeaderSources(header), region);
  }

  /** A block appends a transcription exactly when its IPA text is not empty, and that
      transcription carries the IPA text and the block's region. */
  lemma PronBlockTranscription(d: Record, header: Node, dpron: Node, lang: string, utils: Utils)
    requires PronBlock(d, header, dpron, lang, utils).Ok?
    ensures var ipa := FindStrip(dpron, "span", "ipa");
      var region := FindStrip(dpron, "span", "region");
      PronBlock(d, header, dpron, lang, utils).value.transcription
        == d.transcription + (if utils.isEmpty(ipa) then [] else [Term(ipa, lang, region)])
  {
  }

  /** The pronunciation loop of a header only appends to audio and transcriptions. */
  lemma {:induction false} PronPhaseFrame(d: Record, header: Node, dprons: seq<Node>, lang: string, utils: Utils)
    requires PronPhase(d, header, dprons, lang, utils).Ok?
    ensures var r := PronPhase(d, header, dprons, lang, utils).value;
      && r == d.(audio := r.audio, transcription := r.transcription)
      && d.audio <= r.audio && d.transcription <= r.transcription
      && |r.transcription| <= |d.transcription| + |dprons|
  {
    if dprons != [] {
      var init := dprons[..|dprons| - 1];
      PronPhaseFrame(d, header, init, lang, utils);
      PronBlockSpec(PronPhase(d, header, init, lang, utils).value, header, dprons[|dprons| - 1], lang, utils);
    }
  }

  /** It appends `|dprons|` copies of the header's audio, one per block, whatever audio the
      block itself has. */
  lemma {:induction false} PronPhaseAudioCount(d: Record, header: Node, dprons: seq<Node>, lang: string, utils: Utils)
    requires PronPhase(d, header, dprons, lang, utils).Ok?
    ensures |PronPhase(d, header, dprons, lang, utils).value.audio| == |d.audio| + |dprons| * |HeaderSources(header)|
  {
    if dprons != [] {
      var init := dprons[..|dprons| - 1];
      var m := |HeaderSources(header)|;
      var region := FindStrip(dprons[|dprons| - 1], "span", "region");
      PronPhaseAudioCount(d, header, init, lang, utils);
      PronBlockSpec(PronPhase(d, header, init, lang, utils).value, header, dprons[|dprons| - 1], lang, utils);
      AudioFilesSpec(HeaderSources(header), region);
      MulSucc(|init|, m);
    }
  }

  lemma MulSucc(k: nat, m: nat)
    ensures (k + 1) * m == k * m + m
  {
  }

  lemma {:induction false} PronPhaseWellFormed(d: Record, header: Node, dprons: seq<Node>, lang: string, utils: Utils)
    requires PronPhase(d, header, dprons, lang, utils).Ok?
    requires WellFormed(d, lang, utils)
    ensures WellFormed(PronPhase(d, header, dprons, lang, utils).value, lang, utils)
  {
    if dprons != [] {
      var init := dprons[..|dprons| - 1];
      PronPhaseWellFormed(d, header, init, lang, utils);
      PronBlockSpec(PronPhase(d, header, init, lang, utils).value, header, dprons[|dprons| - 1], lang, utils);
    }
  }

  // ---------------------------------------------------------------------------------------
  // Definitions.

  /** One definition block appends at most one definition, at most one image and its usage
      examples; nothing else changes. */
  lemma DefBlockSpec(d: Record, dblock: Node, lang: string, utils: Utils)
    requires DefBlock(d, dblock, lang, utils).Ok?
    ensures var r := DefBlock(d, dblock, lang, utils).value;
      && r == d.(definition := r.definition, visual := r.visual, examples := r.examples)
      && d.definition <= r.definition && |r.definition| <= |d.definition| + 1
      && d.visual <= r.visual && |r.visual| <= |d.visual| + 1
      && r.examples == d.examples + TextTerms(FindAll(dblock, "span", Some("eg")), lang)
  {
  }

  /** The definition is appended exactly when its text is not empty; the image, when the
      block has one, becomes a regionless file at the host followed by its `src`. */
  lemma DefBlockEntries(d: Record, dblock: Node, lang: string, utils: Utils)
    requires DefBlock(d, dblock, lang, utils).Ok?
    ensures var r := DefBlock(d, dblock, lang, utils).value;
      var defText := StrippedText(Find(dblock, "div", Some("def")));
      var img := Find(dblock, "amp-img", None);
      && r.definition == d.definition + (if utils.isEmpty(defText) then [] else [Term(defText, lang, None)])
      && (img.None? ==> r.visual == d.visual)
      && (img.Some? ==> "src" in img.value.attrs && r.visual == d.visual + [File(Base + img.value.attrs["src"], None)])
  {
  }

  lemma DefBlockWellFormed(d: Record, dblock: Node, lang: string, utils: Utils)
    requires DefBlock(d, dblock, lang, utils).Ok?
    requires WellFormed(d, lang, utils)
    ensures WellFormed(DefBlock(d, dblock, lang, utils).value, lang, utils)
  {
    TextTermsSpec(FindAll(dblock, "span", Some("eg")), lang);
  }

  /** The definition loop of a body only appends to definitions, images and examples, at most
      one definition and one image per block. */
  lemma {:induction false} DefPhaseSpec(d: Record, dblocks: seq<Node>, lang: string, utils: Utils)
    requires DefPhase(d, dblocks, lang, utils).Ok?
    ensures var r := DefPhase(d, dblocks, lang, utils).value;
      && r == d.(definition := r.definition, visual := r.visual, examples := r.examples)
      && d.definition <= r.definition && |r.definition| <= |d.definition| + |dblocks|
      && d.visual <= r.visual && |r.visual| <= |d.visual| + |dblocks|
      && d.examples <= r.examples
  {
    if dblocks != [] {
      var init := dblocks[..|dblocks| - 1];
      DefPhaseSpec(d, init, lang, utils);
      DefBlockSpec(DefPhase(d, init, lang, utils).value, dblocks[|dblocks| - 1], lang, utils);
    }
  }

  lemma {:induction false} DefPhaseWellFormed(d: Record, dblocks: seq<Node>, lang: string, utils: Utils)
    requires DefPhase(d, dblocks, lang, utils).Ok?
    requires WellFormed(d, lang, utils)
    ensures WellFormed(DefPhase(d, dblocks, lang, utils).value, lang, utils)
  {
    if dblocks != [] {
      var init := dblocks[..|dblocks| - 1];
      DefPhaseWellFormed(d, init, lang, utils);
      DefBlockWellFormed(DefPhase(d, init, lang, utils).value, dblocks[|dblocks| - 1], lang, utils);
    }
  }

  // ---------------------------------------------------------------------------------------
  // Datasets.

  /** The dataset sections only append to the usage examples and the collocations. */
  lemma {:induction false} DatasetFoldSpec(d: Record, datasets: seq<Node>, lang: string)
    ensures var r := DatasetFold(d, datasets, lang);
      && r == d.(examples := r.examples, collocation := r.collocation)
      && d.examples <= r.examples && d.collocation <= r.collocation
  {
    if datasets != [] {
      DatasetFoldSpec(d, datasets[..|datasets| - 1], lang);
    }
  }

  lemma {:induction false} DatasetFoldWellFormed(d: Record, datasets: seq<Node>, lang: string, utils: Utils)
    requires WellFormed(d, lang, utils)
    ensures WellFormed(DatasetFold(d, datasets, lang), lang, utils)
  {
    if datasets != [] {
      var init := datasets[..|datasets| - 1];
      var dataset := datasets[|datasets| - 1];
      DatasetFoldWellFormed(d, init, lang, utils);
      TextTermsSpec(FindAll(dataset, "span", Some("deg")), lang);
      match Find(dataset, "div", Some("cpegs"))
      case None =>
      case Some(cpegs) => CollocationsPlain(FindAll(cpegs, "div", Some("lbb")), lang);
    }
  }

  // ---------------------------------------------------------------------------------------
  // Dictionary blocks and tags.

  /** The grammar tag for a grammar label. */
  function GrammarTag(grammar: Option<string>, lang: string): Option<Term> {
    match grammar
    case None => None
    case Some(g) => Some(Term(Some(g), lang, None))
  }

  /** The grammar tag is the label of the first code in the table; codes outside it add
      nothing, and there is a grammar tag exactly when some code is in the table. */
  lemma {:induction false} FirstGrammarSpec(codes: seq<string>)
    ensures FirstGrammar(codes).Some? <==> exists i :: 0 <= i < |codes| && codes[i] in GrammarCodes
    ensures FirstGrammar(codes).Some? ==>
      exists i :: 0 <= i < |codes| && codes[i] in GrammarCodes && FirstGrammar(codes).value == GrammarCodes[codes[i]]
        && forall j :: 0 <= j < i ==> codes[j] !in GrammarCodes
    ensures FirstGrammar(codes).Some? ==> FirstGrammar(codes).value in {"countable", "uncountable", "singular"}
  {
    if codes != [] && codes[0] !in GrammarCodes {
      FirstGrammarSpec(codes[1..]);
      if FirstGrammar(codes).Some? {
        var i :| 0 <= i < |codes[1..]| && codes[1..][i] in GrammarCodes
          && FirstGrammar(codes[1..]).value == GrammarCodes[codes[1..][i]]
          && forall j :: 0 <= j < i ==> codes[1..][j] !in GrammarCodes;
        assert codes[i + 1] == codes[1..][i];
        assert forall j :: 0 <= j < i + 1 ==> codes[j] !in GrammarCodes by {
          forall j | 0 <= j < i + 1 ensures codes[j] !in GrammarCodes {
            if j > 0 { assert codes[j] == codes[1..][j - 1]; }
          }
        }
      } else {
        forall i | 0 <= i < |codes| ensures codes[i] !in GrammarCodes {
          if i > 0 { assert codes[i] == codes[1..][i - 1]; }
        }
      }
    } else if codes != [] {
      assert 0 < |codes| && codes[0] in GrammarCodes;
    }
  }

  /** A dictionary block that succeeds has a header and a body; it adds the part-of-speech tag
      of its header unless one was found before, then the grammar tag of its body unless one
      was found before; it only appends to audio, images, transcriptions, definitions and
      examples, and leaves collocations and translations alone. */
  lemma DictionaryStepSpec(st: Scan, dict: Node, lang: string, utils: Utils)
    requires DictionaryStep(st, dict, lang, utils).Ok?
    ensures var header := Find(dict, "div", Some("pos-header"));
      var body := Find(dict, "div", Some("pos-body"));
      var r := DictionaryStep(st, dict, lang, utils).value;
      && header.Some? && body.Some?
      && var pos := PosTag(header.value, lang);
      && var grammar := FirstGrammar(BodyCodes(body.value));
      && r.posFound == (st.posFound || pos.Some?)
      && r.gramFound == (st.gramFound || grammar.Some?)
      && r.data.tag == st.data.tag + (if st.posFound then [] else OptionToSeq(pos))
                                   + (if st.gramFound then [] else OptionToSeq(GrammarTag(grammar, lang)))
      && st.data.audio <= r.data.audio && st.data.visual <= r.data.visual
      && st.data.transcription <= r.data.transcription && st.data.definition <= r.data.definition
      && st.data.examples <= r.data.examples
      && r.data.collocation == st.data.collocation && r.data.translatedAs == st.data.translatedAs
  {
    var header := Find(dict, "div", Some("pos-header")).value;
    var body := Find(dict, "div", Some("pos-body")).value;
    var st1 := PosPhase(st, header, lang);
    var st2 := GrammarPhase(st1, body, lang);
    var dprons := FindAll(header, "span", Some("dpron-i"));
    PronPhaseFrame(st2.data, header, dprons, lang, utils);
    var d3 := PronPhase(st2.data, header, dprons, lang, utils).value;
    DefPhaseSpec(d3, FindAll(body, "div", Some("def-block")), lang, utils);
  }

  lemma DictionaryStepWellFormed(st: Scan, dict: Node, lang: string, utils: Utils)
    requires DictionaryStep(st, dict, lang, utils).Ok?
    requires WellFormed(st.data, lang, utils)
    ensures WellFormed(DictionaryStep(st, dict, lang, utils).value.data, lang, utils)
  {
    var header := Find(dict, "div", Some("pos-header")).value;
    var body := Find(dict, "div", Some("pos-body")).value;
    var st2 := GrammarPhase(PosPhase(st, header, lang), body, lang);
    TagPhasesWellFormed(st, header, body, lang, utils);
    var dprons := FindAll(header, "span", Some("dpron-i"));
    PronPhaseWellFormed(st2.data, header, dprons, lang, utils);
    var d3 := PronPhase(st2.data, header, dprons, lang, utils).value;
    DefPhaseWellFormed(d3, FindAll(body, "div", Some("def-block")), lang, utils);
  }

  lemma TagPhasesWellFormed(st: Scan, header: Node, body: Node, lang: string, utils: Utils)
    requires WellFormed(st.data, lang, utils)
    ensures WellFormed(GrammarPhase(PosPhase(st, header, lang), body, lang).data, lang, utils)
  {
  }

  /** The part-of-speech tag of the first dictionary block whose header offers one. */
  function FirstPos(dicts: seq<Node>, lang: string): Option<Term> {
    if dicts == [] then None
    else
      var before := FirstPos(dicts[..|dicts| - 1], lang);
      if before.Some? then before
      else
        match Find(dicts[|dicts| - 1], "div", Some("pos-header"))
        case None => None
        case Some(header) => PosTag(header, lang)
  }

  /** The grammar codes of the bodies of all dictionary blocks, in document order. */
  function AllCodes(dicts: seq<Node>): seq<string> {
    if dicts == [] then []
    else
      AllCodes(dicts[..|dicts| - 1])
      + match Find(dicts[|dicts| - 1], "div", Some("pos-body"))
        case None => []
        case Some(body) => BodyCodes(body)
  }

  /** `tag` is `start` followed by the first part-of-speech tag and the first grammar label of
      the blocks `dicts`, each once, in one order or the other. */
  predicate TagsFound(tag: seq<Term>, start: seq<Term>, dicts: seq<Node>, lang: string) {
    var pos := OptionToSeq(FirstPos(dicts, lang));
    var grammar := OptionToSeq(GrammarTag(FirstGrammar(AllCodes(dicts)), lang));
    tag == start + pos + grammar || tag == start + grammar + pos
  }

  /** Across the dictionary loop, the tags added are exactly the first part-of-speech tag and
      the label of the first known grammar code, each once, in the order they were found; the
      flags say which of the two exists. */
  lemma {:induction false} DictionaryTags(d: Record, dicts: seq<Node>, lang: string, utils: Utils)
    requires DictionaryFold(Scan(d, false, false), dicts, lang, utils).Ok?
    ensures var r := DictionaryFold(Scan(d, false, false), dicts, lang, utils).value;
      var pos := OptionToSeq(FirstPos(dicts, lang));
      var grammar := OptionToSeq(GrammarTag(FirstGrammar(AllCodes(dicts)), lang));
      && r.posFound == FirstPos(dicts, lang).Some?
      && r.gramFound == FirstGrammar(AllCodes(dicts)).Some?
      && (r.data.tag == d.tag + pos + grammar || r.data.tag == d.tag + grammar + pos)
  {
    if dicts != [] {
      var init := dicts[..|dicts| - 1];
      var dict := dicts[|dicts| - 1];
      DictionaryTags(d, init, lang, utils);
      var st1 := DictionaryFold(Scan(d, false, false), init, lang, utils).value;
      DictionaryStepSpec(st1, dict, lang, utils);
      var header := Find(dict, "div", Some("pos-header")).value;
      var body := Find(dict, "div", Some("pos-body")).value;
      var pos0 := FirstPos(init, lang);
      var gram0 := GrammarTag(FirstGrammar(AllCodes(init)), lang);
      var gramNew := GrammarTag(FirstGrammar(BodyCodes(body)), lang);
      assert FirstPos(dicts, lang) == if pos0.Some? then pos0 else PosTag(header, lang);
      assert AllCodes(dicts) == AllCodes(init) + BodyCodes(body);
      FirstGrammarAppend(AllCodes(init), BodyCodes(body));
      assert GrammarTag(FirstGrammar(AllCodes(dicts)), lang) == if gram0.Some? then gram0 else gramNew;
      TagsStep(d.tag, pos0, gram0, st1.data.tag, PosTag(header, lang), gramNew,
               DictionaryFold(Scan(d, false, false), dicts, lang, utils).value.data.tag);
    }
  }

  /** One more block keeps the tag list in the shape `TagsFound` describes: a tag is added only
      for a kind not found before. */
  lemma TagsStep(start: seq<Term>, pos0: Option<Term>, gram0: Option<Term>, tag1: seq<Term>,
                 pos: Option<Term>, gram: Option<Term>, tag2: seq<Term>)
    requires tag1 == start + OptionToSeq(pos0) + OptionToSeq(gram0) || tag1 == start + OptionToSeq(gram0) + OptionToSeq(pos0)
    requires tag2 == tag1 + (if pos0.Some? then [] else OptionToSeq(pos)) + (if gram0.Some? then [] else OptionToSeq(gram))
    ensures var pos1 := if pos0.Some? then pos0 else pos;
      var gram1 := if gram0.Some? then gram0 else gram;
      tag2 == start + OptionToSeq(pos1) + OptionToSeq(gram1) || tag2 == start + OptionToSeq(gram1) + OptionToSeq(pos1)
  {
  }

  /** The dictionary loop only appends to the categories the blocks fill and never touches
      collocations or translations. */
  lemma {:induction false} DictionaryFoldSpec(st: Scan, dicts: seq<Node>, lang: string, utils: Utils)
    requires DictionaryFold(st, dicts, lang, utils).Ok?
    ensures var r := DictionaryFold(st, dicts, lang, utils).value;
      && st.data.audio <= r.data.audio && st.data.visual <= r.data.visual
      && st.data.transcription <= r.data.transcription && st.data.definition <= r.data.definition
      && st.data.examples <= r.data.examples
      && r.data.collocation == st.data.collocation && r.data.translatedAs == st.data.translatedAs
  {
    if dicts != [] {
      var init := dicts[..|dicts| - 1];
      DictionaryFoldSpec(st, init, lang, utils);
      DictionaryStepSpec(DictionaryFold(st, init, lang, utils).value, dicts[|dicts| - 1], lang, utils);
    }
  }

  lemma {:induction false} DictionaryFoldWellFormed(st: Scan, dicts: seq<Node>, lang: string, utils: Utils)
    requires DictionaryFold(st, dicts, lang, utils).Ok?
    requires WellFormed(st.data, lang, utils)
    ensures WellFormed(DictionaryFold(st, dicts, lang, utils).value.data, lang, utils)
  {
    if dicts != [] {
      var init := dicts[..|dicts| - 1];
      DictionaryFoldWellFormed(st, init, lang, utils);
      DictionaryStepWellFormed(DictionaryFold(st, init, lang, utils).value, dicts[|dicts| - 1], lang, utils);
    }
  }

  // ---------------------------------------------------------------------------------------
  // Translations.

  /** The filter keeps, in order, exactly the words that do not count as empty. */
  lemma {:induction false} KeepNonEmptySpec(words: seq<string>, utils: Utils)
    ensures forall i :: 0 <= i < |KeepNonEmpty(words, utils)| ==>
      KeepNonEmpty(words, utils)[i] in words && !utils.isEmpty(Some(KeepNonEmpty(words, utils)[i]))
    ensures forall w :: w in words && !utils.isEmpty(Some(w)) ==> w in KeepNonEmpty(words, utils)
    ensures (forall i :: 0 <= i < |words| ==> !utils.isEmpty(Some(words[i]))) ==> KeepNonEmpty(words, utils) == words
  {
    if words != [] {
      KeepNonEmptySpec(words[1..], utils);
      assert words == [words[0]] + words[1..];
    }
  }

  /** The filter works fragment by fragment: filtering a concatenation is concatenating the
      filtered parts, so the kept words stay in order and keep their multiplicity. */
  lemma {:induction false} KeepNonEmptyAppend(a: seq<string>, b: seq<string>, utils: Utils)
    ensures KeepNonEmpty(a + b, utils) == KeepNonEmpty(a, utils) + KeepNonEmpty(b, utils)
  {
    if a != [] {
      assert (a + b)[1..] == a[1..] + b;
      KeepNonEmptyAppend(a[1..], b, utils);
    } else {
      assert a + b == b;
    }
  }

  /** Each fragment, wherever it stands, contributes itself exactly when it is not empty. */
  lemma KeepNonEmptyEach(before: seq<string>, w: string, after: seq<string>, utils: Utils)
    ensures KeepNonEmpty(before + [w] + after, utils)
         == KeepNonEmpty(before, utils) + (if utils.isEmpty(Some(w)) then [] else [w]) + KeepNonEmpty(after, utils)
  {
    KeepNonEmptyAppend(before + [w], after, utils);
    KeepNonEmptyAppend(before, [w], utils);
  }

  lemma {:induction false} WordTermsSpec(words: seq<string>, lang: string)
    ensures forall i :: 0 <= i < |words| ==> WordTerms(words, lang)[i] == Term(Some(words[i]), lang, None)
  {
    if words != [] {
      WordTermsSpec(words[..|words| - 1], lang);
    }
  }

  /** The fragments of a sense: none for a phrase sense; otherwise comma-free pieces of the
      translation text, none counting as empty, and when no piece counts as empty they join
      back, commas restored, to the stripped translation text. */
  lemma SenseWordsSpec(sense: Node, utils: Utils)
    ensures Find(sense, "div", Some("phrase-block")).Some? ==> SenseWords(sense, utils) == []
    ensures Find(sense, "span", Some("trans")).None? ==> SenseWords(sense, utils) == []
    ensures forall i :: 0 <= i < |SenseWords(sense, utils)| ==>
      ',' !in SenseWords(sense, utils)[i] && !utils.isEmpty(Some(SenseWords(sense, utils)[i]))
    ensures Find(sense, "div", Some("phrase-block")).None? && Find(sense, "span", Some("trans")).Some? ==>
      var pieces := Strings.Split(Strings.Strip(GetText(Find(sense, "span", Some("trans")).value)), ',');
      (forall i :: 0 <= i < |pieces| ==> !utils.isEmpty(Some(pieces[i]))) ==>
        Strings.Join(SenseWords(sense, utils), ',') == Strings.Strip(GetText(Find(sense, "span", Some("trans")).value))
  {
    var trans := Find(sense, "span", Some("trans"));
    if Find(sense, "div", Some("phrase-block")).None? && trans.Some? {
      var text := Strings.Strip(GetText(trans.value));
      Strings.SplitSpec(text, ',');
      KeepNonEmptySpec(Strings.Split(text, ','), utils);
    }
  }

  /** Every translation of a page is a shown, region-free term in the page's language. */
  lemma {:induction false} SenseTermsSpec(senses: seq<Node>, lang: string, utils: Utils)
    ensures PlainTerms(SenseTerms(senses, lang, utils), lang)
    ensures Shown(SenseTerms(senses, lang, utils), utils)
  {
    if senses != [] {
      var sense := senses[|senses| - 1];
      SenseTermsSpec(senses[..|senses| - 1], lang, utils);
      SenseWordsSpec(sense, utils);
      WordTermsSpec(SenseWords(sense, utils), lang);
    }
  }

  /** The translation step changes only the translations, and only appends to them. */
  lemma {:induction false} TranslationsFromSpec(d: Record, text: string, dicts: seq<(string, string)>,
                                                 fetch: string -> Response, utils: Utils)
    requires TranslationsFrom(d, text, dicts, fetch, utils).Ok?
    ensures var r := TranslationsFrom(d, text, dicts, fetch, utils).value;
      && r == d.(translatedAs := r.translatedAs)
      && d.translatedAs <= r.translatedAs
  {
    if dicts != [] {
      TranslationsFromSpec(d, text, dicts[..|dicts| - 1], fetch, utils);
    }
  }

  lemma {:induction false} TranslationsFromWellFormed(d: Record, text: string, dicts: seq<(string, string)>,
                                                       fetch: string -> Response, utils: Utils, lang: string)
    requires forall k :: 0 <= k < |dicts| ==> dicts[k].0 in {"ru", "fr", "de"}
    requires TranslationsFrom(d, text, dicts, fetch, utils).Ok?
    requires WellFormed(d, lang, utils)
    ensures WellFormed(TranslationsFrom(d, text, dicts, fetch, utils).value, lang, utils)
  {
    if dicts != [] {
      var init := dicts[..|dicts| - 1];
      assert forall k :: 0 <= k < |init| ==> init[k] == dicts[k];
      TranslationsFromWellFormed(d, text, init, fetch, utils, lang);
      var (target, dictionary) := dicts[|dicts| - 1];
      var resp := fetch(BilingualUrl(dictionary, text));
      SenseTermsSpec(FindAll(resp.doc, "div", Some("sense-body")), target, utils);
    }
  }

  /** The three bilingual pages are fetched in the order Russian, French, German; the first
      HTTP error aborts the step, and otherwise their translations are appended in that order. */
  lemma TranslationsInOrder(d: Record, text: string, fetch: string -> Response, utils: Utils)
    ensures var ru := fetch(BilingualUrl("english-russian", text));
      var fr := fetch(BilingualUrl("english-french", text));
      var de := fetch(BilingualUrl("english-german", text));
      var r := TranslationsFrom(d, text, TranslationDictionaries, fetch, utils);
      && (HttpFailed(ru) ==> r == Err(HttpFailure(BilingualUrl("english-russian", text), ru.status)))
      && (!HttpFailed(ru) && HttpFailed(fr) ==> r == Err(HttpFailure(BilingualUrl("english-french", text), fr.status)))
      && (!HttpFailed(ru) && !HttpFailed(fr) && HttpFailed(de) ==>
            r == Err(HttpFailure(BilingualUrl("english-german", text), de.status)))
      && (!HttpFailed(ru) && !HttpFailed(fr) && !HttpFailed(de) ==>
            r == Ok(d.(translatedAs := d.translatedAs + PageTranslations(ru.doc, "ru", utils)
                                      + PageTranslations(fr.doc, "fr", utils) + PageTranslations(de.doc, "de", utils))))
  {
    var ru := fetch(BilingualUrl("english-russian", text));
    var fr := fetch(BilingualUrl("english-french", text));
    var one := [("ru", "english-russian")];
    var two := one + [("fr", "english-french")];
    assert one[..0] == [];
    assert TranslationsFrom(d, text, one[..0], fetch, utils) == Ok(d);
    assert two[..1] == one;
    assert TranslationDictionaries[..2] == two;
    var r1 := TranslationsFrom(d, text, one, fetch, utils);
    assert r1 == if HttpFailed(ru) then Err(HttpFailure(BilingualUrl("english-russian", text), ru.status))
                 else Ok(d.(translatedAs := d.translatedAs + PageTranslations(ru.doc, "ru", utils)));
    var r2 := TranslationsFrom(d, text, two, fetch, utils);
    assert !HttpFailed(ru) ==>
      r2 == if HttpFailed(fr) then Err(HttpFailure(BilingualUrl("english-french", text), fr.status))
            else Ok(d.(translatedAs := d.translatedAs + PageTranslations(ru.doc, "ru", utils)
                                       + PageTranslations(fr.doc, "fr", utils)));
  }

  /** A successful translation step appends the Russian, French and German translations. */
  lemma TranslationsAppended(d: Record, text: string, fetch: string -> Response, utils: Utils)
    requires TranslationsFrom(d, text, TranslationDictionaries, fetch, utils).Ok?
    ensures TranslationsFrom(d, text, TranslationDictionaries, fetch, utils).value.translatedAs
         == d.translatedAs
          + PageTranslations(fetch(BilingualUrl("english-russian", text)).doc, "ru", utils)
          + PageTranslations(fetch(BilingualUrl("english-french", text)).doc, "fr", utils)
          + PageTranslations(fetch(BilingualUrl("english-german", text)).doc, "de", utils)
  {
    TranslationsInOrder(d, text, fetch, utils);
  }

  /** Splitting keeps the spaces after each comma: fragments are not trimmed one by one. */
  lemma FragmentsKeepSpaces()
    ensures Strings.Split("run, sprint, , dash", ',') == ["run", " sprint", " ", " dash"]
  {
    var parts := ["run", " sprint", " ", " dash"];
    Strings.SplitJoin(parts, ',');
    assert parts[1..][1..][1..] == [" dash"];
    var tail := Strings.Join(parts[1..][1..], ',');
    assert tail == " " + [','] + " dash";
    assert Strings.Join(parts, ',') == "run" + [','] + (" sprint" + [','] + tail);
    assert "run" + [','] + (" sprint" + [','] + (" " + [','] + " dash")) == "run, sprint, , dash";
  }

  // ---------------------------------------------------------------------------------------
  // The whole extraction.

  /** The record at the start of the dictionary loop. */
  function StartRecord(text: string, lang: string, utils: Utils): Record {
    if utils.isWord(text) then AddTag(EmptyRecord(), WordTag(lang)) else EmptyRecord()
  }

  /** Every record the extraction returns is well formed. */
  lemma ExtractionWellFormed(text: string, lang: string, fetch: string -> Response, utils: Utils)
    requires Extraction(text, lang, fetch, utils).Ok? && Extraction(text, lang, fetch, utils).value.Some?
    ensures lang == "en"
    ensures WellFormed(Extraction(text, lang, fetch, utils).value.value, lang, utils)
  {
    ExtractionSteps(text, lang, fetch, utils);
    var page := Find(fetch(EnglishUrl(text)).doc, "div", Some("page")).value;
    var st := DictionaryFold(Scan(StartRecord(text, lang, utils), false, false), FindAll(page, "div", Some("dictionary")), lang, utils).value;
    var d1 := DatasetFold(st.data, FindAll(page, "div", Some("dataset")), lang);
    PhasesWellFormed(text, lang, page, fetch, utils);
    assert Extraction(text, lang, fetch, utils).value.value == TranslationsFrom(d1, text, TranslationDictionaries, fetch, utils).value;
  }

  /** The three phases run on a page keep the starting record's shape. */
  lemma PhasesWellFormed(text: string, lang: string, page: Node, fetch: string -> Response, utils: Utils)
    requires DictionaryFold(Scan(StartRecord(text, lang, utils), false, false), FindAll(page, "div", Some("dictionary")), lang, utils).Ok?
    requires var st := DictionaryFold(Scan(StartRecord(text, lang, utils), false, false), FindAll(page, "div", Some("dictionary")), lang, utils).value;
      TranslationsFrom(DatasetFold(st.data, FindAll(page, "div", Some("dataset")), lang), text, TranslationDictionaries, fetch, utils).Ok?
    ensures var st := DictionaryFold(Scan(StartRecord(text, lang, utils), false, false), FindAll(page, "div", Some("dictionary")), lang, utils).value;
      WellFormed(TranslationsFrom(DatasetFold(st.data, FindAll(page, "div", Some("dataset")), lang), text, TranslationDictionaries, fetch, utils).value, lang, utils)
  {
    var st := DictionaryFold(Scan(StartRecord(text, lang, utils), false, false), FindAll(page, "div", Some("dictionary")), lang, utils).value;
    DictionariesWellFormed(text, lang, page, utils);
    DatasetsWellFormed(st.data, page, lang, utils);
    TranslationsWellFormed(DatasetFold(st.data, FindAll(page, "div", Some("dataset")), lang), text, lang, fetch, utils);
  }

  lemma DictionariesWellFormed(text: string, lang: string, page: Node, utils: Utils)
    requires DictionaryFold(Scan(StartRecord(text, lang, utils), false, false), FindAll(page, "div", Some("dictionary")), lang, utils).Ok?
    ensures WellFormed(DictionaryFold(Scan(StartRecord(text, lang, utils), false, false), FindAll(page, "div", Some("dictionary")), lang, utils).value.data, lang, utils)
  {
    var start := Scan(StartRecord(text, lang, utils), false, false);
    assert WellFormed(start.data, lang, utils);
    DictionaryFoldWellFormed(start, FindAll(page, "div", Some("dictionary")), lang, utils);
  }

  lemma DatasetsWellFormed(d: Record, page: Node, lang: string, utils: Utils)
    requires WellFormed(d, lang, utils)
    ensures WellFormed(DatasetFold(d, FindAll(page, "div", Some("dataset")), lang), lang, utils)
  {
    DatasetFoldWellFormed(d, FindAll(page, "div", Some("dataset")), lang, utils);
  }

  lemma TranslationsWellFormed(d: Record, text: string, lang: string, fetch: string -> Response, utils: Utils)
    requires WellFormed(d, lang, utils)
    requires TranslationsFrom(d, text, TranslationDictionaries, fetch, utils).Ok?
    ensures WellFormed(TranslationsFrom(d, text, TranslationDictionaries, fetch, utils).value, lang, utils)
  {
    TranslationsFromWellFormed(d, text, TranslationDictionaries, fetch, utils, lang);
  }

  /** The translations of a returned record are exactly those of the Russian, French and German
      pages, in that order: the English page contributes none. */
  lemma ExtractionTranslations(text: string, lang: string, fetch: string -> Response, utils: Utils)
    requires Extraction(text, lang, fetch, utils).Ok? && Extraction(text, lang, fetch, utils).value.Some?
    ensures Extraction(text, lang, fetch, utils).value.value.translatedAs
         == PageTranslations(fetch(BilingualUrl("english-russian", text)).doc, "ru", utils)
          + PageTranslations(fetch(BilingualUrl("english-french", text)).doc, "fr", utils)
          + PageTranslations(fetch(BilingualUrl("english-german", text)).doc, "de", utils)
  {
    ExtractionSteps(text, lang, fetch, utils);
    var page := Find(fetch(EnglishUrl(text)).doc, "div", Some("page")).value;
    var start := Scan(StartRecord(text, lang, utils), false, false);
    var dicts := FindAll(page, "div", Some("dictionary"));
    DictionaryFoldSpec(start, dicts, lang, utils);
    var st := DictionaryFold(start, dicts, lang, utils).value;
    DatasetFoldSpec(st.data, FindAll(page, "div", Some("dataset")), lang);
    var d1 := DatasetFold(st.data, FindAll(page, "div", Some("dataset")), lang);
    assert d1.translatedAs == [];
    TranslationsAppended(d1, text, fetch, utils);
    var ru := PageTranslations(fetch(BilingualUrl("english-russian", text)).doc, "ru", utils);
    var r := TranslationsFrom(d1, text, TranslationDictionaries, fetch, utils).value;
    assert Extraction(text, lang, fetch, utils).value.value == r;
    assert d1.translatedAs + ru == ru;
  }

  /** The tags of a returned record: the word tag first when the headword is a plain word, then
      the first part-of-speech tag and the first grammar label of the page's dictionary blocks,
      in the order they were found. */
  lemma ExtractionTags(text: string, lang: string, fetch: string -> Response, utils: Utils, page: Node)
    requires Extraction(text, lang, fetch, utils).Ok? && Extraction(text, lang, fetch, utils).value.Some?
    requires Find(fetch(EnglishUrl(text)).doc, "div", Some("page")) == Some(page)
    ensures TagsFound(Extraction(text, lang, fetch, utils).value.value.tag,
                      if utils.isWord(text) then [WordTag(lang)] else [],
                      FindAll(page, "div", Some("dictionary")), lang)
  {
    ExtractionSteps(text, lang, fetch, utils);
    var st := DictionaryFold(Scan(StartRecord(text, lang, utils), false, false), FindAll(page, "div", Some("dictionary")), lang, utils).value;
    var d1 := DatasetFold(st.data, FindAll(page, "div", Some("dataset")), lang);
    assert Extraction(text, lang, fetch, utils).value.value == TranslationsFrom(d1, text, TranslationDictionaries, fetch, utils).value;
    PhasesTags(text, lang, page, fetch, utils);
  }

  /** The dataset and translation phases keep the tags of the dictionary loop. */
  lemma PhasesTags(text: string, lang: string, page: Node, fetch: string -> Response, utils: Utils)
    requires DictionaryFold(Scan(StartRecord(text, lang, utils), false, false), FindAll(page, "div", Some("dictionary")), lang, utils).Ok?
    requires var st := DictionaryFold(Scan(StartRecord(text, lang, utils), false, false), FindAll(page, "div", Some("dictionary")), lang, utils).value;
      TranslationsFrom(DatasetFold(st.data, FindAll(page, "div", Some("dataset")), lang), text, TranslationDictionaries, fetch, utils).Ok?
    ensures var st := DictionaryFold(Scan(StartRecord(text, lang, utils), false, false), FindAll(page, "div", Some("dictionary")), lang, utils).value;
      TagsFound(TranslationsFrom(DatasetFold(st.data, FindAll(page, "div", Some("dataset")), lang), text, TranslationDictionaries, fetch, utils).value.tag,
                if utils.isWord(text) then [WordTag(lang)] else [],
                FindAll(page, "div", Some("dictionary")), lang)
  {
    var d0 := StartRecord(text, lang, utils);
    var dicts := FindAll(page, "div", Some("dictionary"));
    var st := DictionaryFold(Scan(d0, false, false), dicts, lang, utils).value;
    var d1 := DatasetFold(st.data, FindAll(page, "div", Some("dataset")), lang);
    var r := TranslationsFrom(d1, text, TranslationDictionaries, fetch, utils).value;
    assert r.tag == st.data.tag by {
      TranslationsFromSpec(d1, text, TranslationDictionaries, fetch, utils);
      DatasetFoldSpec(st.data, FindAll(page, "div", Some("dataset")), lang);
    }
    DictionaryTags(d0, dicts, lang, utils);
    assert d0.tag == if utils.isWord(text) then [WordTag(lang)] else [];
  }

  /** A returned record is the result of the dictionary loop, the dataset loop and the
      translation step run in turn on the page. */
  lemma ExtractionSteps(text: string, lang: string, fetch: string -> Response, utils: Utils)
    requires Extraction(text, lang, fetch, utils).Ok? && Extraction(text, lang, fetch, utils).value.Some?
    ensures lang == "en"
    ensures Find(fetch(EnglishUrl(text)).doc, "div", Some("page")).Some?
    ensures var page := Find(fetch(EnglishUrl(text)).doc, "div", Some("page")).value;
      DictionaryFold(Scan(StartRecord(text, lang, utils), false, false), FindAll(page, "div", Some("dictionary")), lang, utils).Ok?
    ensures var page := Find(fetch(EnglishUrl(text)).doc, "div", Some("page")).value;
      var st := DictionaryFold(Scan(StartRecord(text, lang, utils), false, false), FindAll(page, "div", Some("dictionary")), lang, utils).value;
      var d1 := DatasetFold(st.data, FindAll(page, "div", Some("dataset")), lang);
      Extraction(text, lang, fetch, utils) == Ok(Some(TranslationsFrom(d1, text, TranslationDictionaries, fetch, utils).value))
  {
  }

  /** An HTTP failure names a page the extraction fetched, the English page or one of the three
      bilingual ones, and carries that page's error status. */
  lemma ExtractionHttpFailure(text: string, lang: string, fetch: string -> Response, utils: Utils)
    requires Extraction(text, lang, fetch, utils).Err? && Extraction(text, lang, fetch, utils).error.HttpFailure?
    ensures var e := Extraction(text, lang, fetch, utils).error;
      && e.url in {EnglishUrl(text), BilingualUrl("english-russian", text),
                   BilingualUrl("english-french", text), BilingualUrl("english-german", text)}
      && e.status == fetch(e.url).status && HttpFailed(fetch(e.url))
  {
    var resp := fetch(EnglishUrl(text));
    if !HttpFailed(resp) {
      var page := Find(resp.doc, "div", Some("page")).value;
      var start := Scan(StartRecord(text, lang, utils), false, false);
      var dicts := FindAll(page, "div", Some("dictionary"));
      if DictionaryFold(start, dicts, lang, utils).Ok? {
        var st := DictionaryFold(start, dicts, lang, utils).value;
        var d1 := DatasetFold(st.data, FindAll(page, "div", Some("dataset")), lang);
        TranslationsInOrder(d1, text, fetch, utils);
      } else {
        DictionaryFailureIsNotHttp(start, dicts, lang, utils);
      }
    }
  }

  /** The dictionary loop fetches nothing, so it never fails with an HTTP error. */
  lemma {:induction false} DictionaryFailureIsNotHttp(st: Scan, dicts: seq<Node>, lang: string, utils: Utils)
    requires DictionaryFold(st, dicts, lang, utils).Err?
    ensures !DictionaryFold(st, dicts, lang, utils).error.HttpFailure?
  {
    var init := dicts[..|dicts| - 1];
    if DictionaryFold(st, init, lang, utils).Err? {
      DictionaryFailureIsNotHttp(st, init, lang, utils);
    } else {
      var st1 := DictionaryFold(st, init, lang, utils).value;
      var dict := dicts[|dicts| - 1];
      var header := Find(dict, "div", Some("pos-header"));
      if header.Some? {
        var body := Find(dict, "div", Some("pos-body"));
        var st1p := PosPhase(st1, header.value, lang);
        var st2 := if body.Some? then GrammarPhase(st1p, body.value, lang) else st1p;
        var dprons := FindAll(header.value, "span", Some("dpron-i"));
        PronPhaseFailure(st2.data, header.value, dprons, lang, utils);
        if body.Some? && PronPhase(st2.data, header.value, dprons, lang, utils).Ok? {
          DefPhaseFailure(PronPhase(st2.data, header.value, dprons, lang, utils).value,
                          FindAll(body.value, "div", Some("def-block")), lang, utils);
        }
      }
    }
  }

  lemma {:induction false} PronPhaseFailure(d: Record, header: Node, dprons: seq<Node>, lang: string, utils: Utils)
    ensures PronPhase(d, header, dprons, lang, utils).Err? ==>
      PronPhase(d, header, dprons, lang, utils).error in {MissingAmpAudio, MissingSrc}
  {
    if dprons != [] {
      var init := dprons[..|dprons| - 1];
      PronPhaseFailure(d, header, init, lang, utils);
      if PronPhase(d, header, init, lang, utils).Ok? {
        var region := FindStrip(dprons[|dprons| - 1], "span", "region");
        var amp := Find(header, "amp-audio", None);
        if amp.Some? && AudioFiles(FindAll(amp.value, "source", None), region).Err? {
          AudioFilesErrIsMissingSrc(FindAll(amp.value, "source", None), region);
        }
      }
    }
  }

  lemma {:induction false} DefPhaseFailure(d: Record, dblocks: seq<Node>, lang: string, utils: Utils)
    ensures DefPhase(d, dblocks, lang, utils).Err? ==> DefPhase(d, dblocks, lang, utils).error == MissingSrc
  {
    if dblocks != [] {
      DefPhaseFailure(d, dblocks[..|dblocks| - 1], lang, utils);
    }
  }
}
