/** The helpers of the simple Streamlit page: the `tr` translation lookup,
    the text guard of `generate_audio_from_text` with its `st.cache_data`
    store, the text the page reads out after a diagnosis, and the gTTS
    language code it reads it with.

    The speech synthesiser (gTTS) is an opaque function from a text and a
    language code to audio bytes or a failure. */
module Speech {
  import opened Results
  import opened PyStrings
  import Languages

  const Translations: map<string, map<string, string>> := map[
    "English" := map[
      "title" := "Vaidya AI - Healthcare Assistant",
      "subtitle" := "Your AI-powered medical diagnosis companion",
      "voice_recording" := "Voice Recording",
      "text_input" := "Text Input",
      "image_upload" := "Image Upload",
      "language" := "Language",
      "symptoms" := "Describe your symptoms",
      "days_suffering" := "How many days have you been suffering?",
      "submit" := "Get Diagnosis",
      "diagnosis" := "Diagnosis",
      "prescription" := "Prescription",
      "recommendations" := "Recommendations",
      "audio_output" := "Audio Output"
    ],
    "Hindi" := map[
      "title" := "वैद्य AI - स्वास्थ्य सहायक",
      "subtitle" := "आपका AI-संचालित चिकित्सा निदान साथी",
      "voice_recording" := "आवाज रिकॉर्डिंग",
      "text_input" := "टेक्स्ट इनपुट",
      "image_upload" := "छवि अपलोड",
      "language" := "भाषा",
      "symptoms" := "अपने लक्षणों का वर्णन करें",
      "days_suffering" := "आप कितने दिनों से पीड़ित हैं?",
      "submit" := "निदान प्राप्त करें",
      "diagnosis" := "निदान",
      "prescription" := "पर्चे",
      "recommendations" := "सिफारिशें",
      "audio_output" := "ऑडियो आउटपुट"
    ],
    "Marathi" := map[
      "title" := "वैद्य AI - आरोग्य सहायक",
      "subtitle" := "तुमचा AI-चालित वैद्यकीय निदान साथी",
      "voice_recording" := "आवाज रेकॉर्डिंग",
      "text_input" := "मजकूर इनपुट",
      "image_upload" := "प्रतिमा अपलोड",
      "language" := "भाषा",
      "symptoms" := "तुमच्या लक्षणांचे वर्णन करा",
      "days_suffering" := "तुम्ही किती दिवसांपासून त्रास होत आहात?",
      "submit" := "निदान मिळवा",
      "diagnosis" := "निदान",
      "prescription" := "औषधपत्र",
      "recommendations" := "शिफारसी",
      "audio_output" := "ऑडिओ आउटपुट"
    ]
  ]

  /** `tr(key)`, where `session` is the `"language"` entry of the session
      state, if any. */
  function Tr(session: Option<string>, key: string): (r: string)
    ensures key !in Translations[Languages.English] ==> r == key
    ensures key in Translations[Languages.English] ==>
      exists l :: l in Translations && key in Translations[l] && r == Translations[l][key]
    ensures session.Some? && session.value in Languages.Known && key in Translations[session.value] ==>
      r == Translations[session.value][key]
  {
    var language := if session.Some? then session.value else Languages.English;
    var table := if language in Translations then Translations[language] else Translations[Languages.English];
    if key in table then table[key] else key
  }

  /** Every language has a table, and the three tables have the same keys. */
  lemma TranslationTables()
    ensures Translations.Keys == Languages.Known
    ensures forall l :: l in Translations ==> Translations[l].Keys == Translations[Languages.English].Keys
  {
  }

  /** An unknown language, or none in the session, reads the English
      table. */
  lemma TrFallbacks(session: Option<string>, key: string)
    ensures session.None? || session.value !in Languages.Known ==>
      Tr(session, key) == Tr(Some(Languages.English), key)
  {
  }

  // ---------------------------------------------------------------------
  // Speech synthesis

  newtype byte = x: int | 0 <= x < 256

  const MaxSpeechChars := 500

  /** What the synthesiser makes of a text and a language code: the bytes
      it writes, or the exception it raises. */
  datatype Synthesis = Audio(bytes: seq<byte>) | SynthesisFailed(message: string)

  type Synthesizer = (string, string) -> Synthesis

  /** The text `generate_audio_from_text` hands to the synthesiser, or None
      when it returns without synthesising. A non-string value is treated
      as rejected. */
  function SpeechText(text: PyValue): (r: Option<string>)
    ensures r.None? <==> !text.Str? || Blank(text.s)
    ensures r.Some? ==>
      var stripped := Strip(text.s);
      r.value <= stripped && |r.value| <= MaxSpeechChars
      && |r.value| == (if |stripped| < MaxSpeechChars then |stripped| else MaxSpeechChars)
    ensures r.Some? ==> r.value != [] && !IsSpace(r.value[0])
  {
    match text
    case Obj(_, _) => None
    case Str(s) =>
      if s == [] || Strip(s) == [] then None
      else
        var stripped := Strip(s);
        Some(if |stripped| <= MaxSpeechChars then stripped else stripped[..MaxSpeechChars])
  }

  /** `generate_audio_from_text(text, lang)` without its cache: empty audio
      and any exception give None, other audio is returned unchanged. */
  function GenerateAudio(text: PyValue, lang: string, synth: Synthesizer): (r: Option<seq<byte>>)
    ensures SpeechText(text).None? ==> r.None?
    ensures r.Some? ==> |r.value| > 0 && synth(SpeechText(text).value, lang) == Audio(r.value)
    ensures (SpeechText(text).Some? && synth(SpeechText(text).value, lang).Audio?
             && |synth(SpeechText(text).value, lang).bytes| > 0) ==>
        r == Some(synth(SpeechText(text).value, lang).bytes)
  {
    match SpeechText(text)
    case None => None
    case Some(t) =>
      match synth(t, lang)
      case Audio(bytes) => if |bytes| > 0 then Some(bytes) else None
      case SynthesisFailed(_) => None
  }

  /** Blank or non-string text never reaches the synthesiser: the result
      is None whatever the synthesiser would do. */
  lemma BlankNeverSynthesised(text: PyValue, lang: string, synth1: Synthesizer, synth2: Synthesizer)
    requires !text.Str? || Blank(text.s)
    ensures GenerateAudio(text, lang, synth1) == None
    ensures GenerateAudio(text, lang, synth2) == None
  {
  }

  /** The `st.cache_data` store of `generate_audio_from_text`, keyed by the
      text and the language code, without bound. */
  class AudioCache {
    var store: map<(PyValue, string), Option<seq<byte>>>

    /** A stored audio is never empty. */
    ghost predicate Valid()
      reads this
    {
      forall key :: key in store && store[key].Some? ==> |store[key].value| > 0
    }

    constructor ()
      ensures Valid() && store == map[]
    {
      store := map[];
    }

    /** One call: a stored result, None included, is returned without
        synthesising; otherwise the result is computed and stored.
        `synthesized` tells whether the synthesiser was called. */
    method Generate(text: PyValue, lang: string, synth: Synthesizer) returns (audio: Option<seq<byte>>, synthesized: bool)
      requires Valid()
      modifies this
      ensures Valid()
      ensures audio.Some? ==> |audio.value| > 0
      ensures (text, lang) in old(store) ==>
        audio == old(store)[(text, lang)] && !synthesized && store == old(store)
      ensures (text, lang) !in old(store) ==>
        audio == GenerateAudio(text, lang, synth) && synthesized == SpeechText(text).Some?
        && store == old(store)[(text, lang) := audio]
    {
      if (text, lang) in store {
        return store[(text, lang)], false;
      }
      audio := GenerateAudio(text, lang, synth);
      synthesized := SpeechText(text).Some?;
      store := store[(text, lang) := audio];
    }
  }

  // ---------------------------------------------------------------------
  // Read-out text and language code

  /** The gTTS language code for a language of the interface. */
  function SpeechCode(language: string): (code: string)
    ensures code == "hi" <==> language == "Hindi"
    ensures code == "mr" <==> language == "Marathi"
    ensures code == "en" <==> language != "Hindi" && language != "Marathi"
  {
    if language == "Hindi" then "hi" else if language == "Marathi" then "mr" else "en"
  }

  datatype AudioLabels = AudioLabels(diagnosis: string, prescription: string, recommendations: string)

  /** The labels of the read-out text: English, Hindi, and Marathi for every
      other language. For each interface language they are the on-screen
      headings of the same language. */
  function AudioLabelsFor(language: string): (r: AudioLabels)
    ensures language in Languages.Known ==> r == AudioLabels(
      Tr(Some(language), "diagnosis"), Tr(Some(language), "prescription"), Tr(Some(language), "recommendations"))
  {
    if language == "English" then AudioLabels("Diagnosis", "Prescription", "Recommendations")
    else if language == "Hindi" then AudioLabels("निदान", "पर्चे", "सिफारिशें")
    else AudioLabels("निदान", "औषधपत्र", "शिफारसी")
  }

  /** `f"{label}: {value}"`. */
  function Labelled(heading: string, value: string): string {
    heading + ": " + value
  }

  /** The text read out after a diagnosis: the three results under their
      labels, separated by `". "`. */
  function AudioText(language: string, diagnosis: string, prescription: string, recommendations: string): string {
    var l := AudioLabelsFor(language);
    Labelled(l.diagnosis, diagnosis) + ". " + Labelled(l.prescription, prescription) + ". "
    + Labelled(l.recommendations, recommendations)
  }

  /** Another language (never offered by the language selector) is read out
      with the Marathi labels by the English voice, while the headings are
      English. */
  lemma UnknownLanguageReadOut(language: string)
    requires language !in Languages.Known
    ensures AudioLabelsFor(language) == AudioLabelsFor("Marathi")
    ensures SpeechCode(language) == "en"
    ensures Tr(Some(language), "diagnosis") == "Diagnosis"
  {
  }

  /** The read-out text carries each result under the label chosen for the
      language. */
  lemma {:induction false} AudioTextLabels(language: string, diagnosis: string, prescription: string, recommendations: string)
    ensures var l := AudioLabelsFor(language);
      var text := AudioText(language, diagnosis, prescription, recommendations);
      Contains(text, Labelled(l.diagnosis, diagnosis))
      && Contains(text, Labelled(l.prescription, prescription))
      && Contains(text, Labelled(l.recommendations, recommendations))
  {
    var l := AudioLabelsFor(language);
    var d := Labelled(l.diagnosis, diagnosis);
    var p := Labelled(l.prescription, prescription);
    var r := Labelled(l.recommendations, recommendations);
    var text := AudioText(language, diagnosis, prescription, recommendations);
    ContainsInfix([], d, ". " + p + ". " + r);
    assert [] + d + (". " + p + ". " + r) == text;
    ContainsInfix(d + ". ", p, ". " + r);
    assert d + ". " + p + (". " + r) == text;
    ContainsInfix(d + ". " + p + ". ", r, []);
    assert d + ". " + p + ". " + r + [] == text;
  }

  /** The read-out text carries the three results verbatim. */
  lemma {:induction false} AudioTextParts(language: string, diagnosis: string, prescription: string, recommendations: string)
    ensures Contains(AudioText(language, diagnosis, prescription, recommendations), diagnosis)
    ensures Contains(AudioText(language, diagnosis, prescription, recommendations), prescription)
    ensures Contains(AudioText(language, diagnosis, prescription, recommendations), recommendations)
  {
    var l := AudioLabelsFor(language);
    var d := Labelled(l.diagnosis, diagnosis);
    var p := Labelled(l.prescription, prescription);
    var r := Labelled(l.recommendations, recommendations);
    var p0 := d + ". ";
    var p1 := p0 + p;
    var p2 := p1 + ". ";
    ContainsInfix(l.diagnosis + ": ", diagnosis, []);
    assert l.diagnosis + ": " + diagnosis + [] == d;
    ContainsInfix(l.prescription + ": ", prescription, []);
    assert l.prescription + ": " + prescription + [] == p;
    ContainsInfix(l.recommendations + ": ", recommendations, []);
    assert l.recommendations + ": " + recommendations + [] == r;
    ContainsAppend(d, ". ", diagnosis);
    ContainsAppend(p0, p, diagnosis);
    ContainsPrepend(p0, p, prescription);
    forall x | x in [diagnosis, prescription] ensures Contains(p2 + r, x) {
      ContainsAppend(p1, ". ", x);
      ContainsAppend(p2, r, x);
    }
    ContainsPrepend(p2, r, recommendations);
  }
}
