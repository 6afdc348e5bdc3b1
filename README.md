# Vaidya AI doctor: prescription formatter, inference control logic and speech helpers

This project models in Dafny the logic at the centre of the AI doctor
application, and proves properties of it. The application is a Streamlit
front end that sends symptoms to a chat-completion service, turns the
diagnosis into a prescription and reads the results out with a speech
synthesiser. There are three parts.

- **Prescription formatter** (`generate_prescription`): the diagnosis text
  is checked, then the primary condition is extracted. The extraction uses
  the first line naming the condition, or else the first line with content,
  or else the whole text. The condition is looked up in a condition-by-language
  treatment table, with a "consult a professional" fallback and English as
  the default language. The result is rendered into a language-selected
  template with bulleted lists. Python's `splitlines`, `strip` and the `in`
  operator on strings are modelled with Python's own rules. `lower()` is
  reduced to ASCII lower case, which is all the marker test needs.
- **Inference control logic** (`analyze_text_query`,
  `analyze_image_with_query`):
  - The chat-completion service is an oracle. It gives one outcome per
    request: content; an empty list of choices; a `GroqError`; or any other
    exception.
  - Modelled on the text path: the input guard; the bounded retry loop, as a
    `method` with a `while` loop proved against a specification function,
    with its sleeps recorded as a sequence of seconds; and the
    empty-response sentinels.
  - Modelled on the image path: the single request; the language note; and
    the fallback to the text path when the error names `model_not_found`.
  - Both functions sit behind `lru_cache(maxsize=100)`. This is modelled as
    a class holding at most 100 entries in least-recently-used order.
- **Speech helpers** of the simple page: the `tr` translation lookup; the
  guard of `generate_audio_from_text`, with its `strip()[:500]` and its
  cache per (text, language code); the labels of the read-out text; and
  the gTTS language code.

Modules: `Results` (Option, Result), `Languages` (the three languages and
the English fallback), `PyStrings` (Python string operations and
`PyValue`, a value that may not be a string), `Prescription`, `Inference`,
`Lru`, `Analyzers` (the two memoised entry points) and `Speech`.

Facts about the code that the model keeps:
- The two memo tables are bounded LRU caches of 100 entries. They are keyed
  by the arguments as passed, `model` and `max_retries` included, so an
  omitted default and the same value passed explicitly are different keys.
- Each path has its own sentinel strings, and the text path has two for an
  empty answer: `Error: Empty response from text analysis.` for a response
  without choices, and `Error: Empty content from text analysis.` for blank
  content.
- The image itself is never sent. Only the query goes into the request, and
  the encoded image is only tested for truthiness.
- The text path retries on every `GroqError`, whatever its cause. The
  delays grow linearly (1 s, 2 s, ...), even though the code's comment says
  "Exponential backoff".

## Model

| member | source | states |
|---|---|---|
| PyStrings.Strip | brain_of_the_doctor.py:108 | `strip()` is empty exactly for an all-white-space string; otherwise it is the substring after the leading white space, starts and ends with a non-space, and only white space follows it |
| PyStrings.SplitLines | brain_of_the_doctor.py:105 | the lines hold no line boundary of Python's set, and there are none exactly for the empty string; which lines come out is stated by SplitLinesCons and SplitLinesSingle |
| PyStrings.SplitLinesCons | brain_of_the_doctor.py:105 | a line without boundaries followed by one boundary (`\r\n`, or any single boundary character, with a lone `\r` not followed by `\n`) is the first line, and the rest splits on its own |
| PyStrings.SplitLinesSingle | brain_of_the_doctor.py:105 | a non-empty text without boundaries is exactly one line |
| PyStrings.SplitLinesContained | brain_of_the_doctor.py:105 | every line of `splitlines()` occurs in the text |
| PyStrings.SplitJoinLines | brain_of_the_doctor.py:217-218 | splitting the `"\n"`-join of lines without boundaries, whose last line is not empty, gives the lines back |
| PyStrings.AsciiLower | brain_of_the_doctor.py:107 | lower-casing keeps the length and maps each character through ASCII lower case |
| PyStrings.ContainsOccurrence | brain_of_the_doctor.py:107 | `sub in s` holds exactly when `sub` occurs in `s` at some index |
| Prescription.GeneratePrescription | brain_of_the_doctor.py:96-220 | the error "Diagnosis must be a non-empty string" is raised exactly for an empty string or a non-string diagnosis; the Ok result is characterised by PrescriptionContents |
| Prescription.PrimaryCondition | brain_of_the_doctor.py:103-112 | the primary condition is always a piece of the diagnosis text; which piece is stated by MarkerLineDecides, FirstContentLineDecides and NoLineDecides |
| Prescription.LabelledPartContained | brain_of_the_doctor.py:108 | the stripped text after the last colon of a piece of the diagnosis is itself a piece of it |
| Prescription.FirstMatch | brain_of_the_doctor.py:106-112 | the search finds the first line that satisfies the test, and finds none exactly when no line does |
| Prescription.AfterLastColon | brain_of_the_doctor.py:108 | `split(":")[-1]` is the suffix of the line without a colon, preceded by a colon when it is not the whole line |
| Prescription.AfterLastColonWhole | brain_of_the_doctor.py:108 | a line without a colon is taken whole |
| Prescription.AfterLastColonLabel | brain_of_the_doctor.py:108 | for `prefix + ":" + rest` with no colon in `rest`, the text taken is `rest`, whatever colons the prefix holds |
| Prescription.MarkerLineDecides | brain_of_the_doctor.py:105-109 | when line i is the first containing "condition identified" in any case, the condition is that line's text after its last colon, stripped |
| Prescription.FirstContentLineDecides | brain_of_the_doctor.py:110-112 | without a marker line, the condition is the first line with non-white-space content, not stripped |
| Prescription.NoLineDecides | brain_of_the_doctor.py:112 | without a marker line or a line with content, the condition is the whole diagnosis |
| Prescription.OnlyDandruffKnown | brain_of_the_doctor.py:115-210 | "Dandruff" is the only condition key; it, the fallback and the templates each have exactly the English, Hindi and Marathi entries |
| Prescription.SelectTemplate | brain_of_the_doctor.py:212 | the template of the language when it is known, the English one otherwise |
| Prescription.Render | brain_of_the_doctor.py:161-220 | no contract of its own; characterised by Prescription.RenderedSections |
| Prescription.SelectTreatment | brain_of_the_doctor.py:115-158 | a known condition gets its own entry in the language when it is known, in English otherwise; any other condition gets the fallback entry the same way; the selected treatment never has an empty medication or instruction list |
| Prescription.UnknownConditionFallsBack | brain_of_the_doctor.py:136-158 | any condition other than "Dandruff" (the lookup is case-sensitive) gets the fallback block in the language, or in English for an unknown language |
| Prescription.UnknownLanguageIsEnglish | brain_of_the_doctor.py:157-212 | an unknown language gets the English treatment entry and the English template |
| Prescription.DandruffInEnglish | brain_of_the_doctor.py:116-121 | Dandruff in English: Ketoconazole 2% shampoo and Selenium sulfide 2.5% shampoo, the two instructions, the two-week follow-up |
| Prescription.Bullets | brain_of_the_doctor.py:217-218 | one `- item` line per item, in table order |
| Prescription.BulletListLines | brain_of_the_doctor.py:217-218 | the joined bullet list splits back into exactly the `- item` lines, in order |
| Prescription.RenderedSections | brain_of_the_doctor.py:161-220 | the rendered template contains the diagnosis verbatim, each heading followed by its bullet lines, and the follow-up line |
| Prescription.PrescriptionContents | brain_of_the_doctor.py:96-220 | a non-empty string diagnosis always gives a prescription holding the diagnosis, the non-empty medication and instruction sections of the selected treatment, and its follow-up |
| Languages.Resolve | brain_of_the_doctor.py:327 | `table.get(language, table["English"])` uses the language's own entry exactly when the language is known, and English otherwise |
| Inference.TextReply | brain_of_the_doctor.py:444-467 | empty choices give the empty-response sentinel; blank content (after `str`) gives the empty-content sentinel; other content is returned unchanged; an exception gives "Text analysis failed: " and its message |
| Inference.Attempts | brain_of_the_doctor.py:436-463 | 1 to `max_retries` requests; every request but the last got a `GroqError`; stopping early means a non-`GroqError` outcome; the result answers the last outcome; the sleeps are 1, 2, ... seconds, one per retry |
| Inference.AttemptsDecidedBy | brain_of_the_doctor.py:436-463 | the run is fixed by its first attempt without a `GroqError`, or by the last attempt: result, sleeps and request count are determined |
| Inference.AnalyzeTextQuery | brain_of_the_doctor.py:411-467 | the loop computes exactly the result, sleeps and request count of the specification |
| Inference.TextQuery | brain_of_the_doctor.py:411-467 | no request is sent exactly for an empty or non-string query (answered "Error: Invalid query parameter.") or `max_retries <= 0`; None only for a valid query with `max_retries <= 0`; at most `max_retries` requests |
| Inference.NoRetryUnlessGroqError | brain_of_the_doctor.py:444-467 | an outcome other than a `GroqError` is answered after one request with no sleep |
| Inference.TwoFailuresThenContent | brain_of_the_doctor.py:457-461 | two `GroqError`s, then content: three requests, sleeps of 1 and 2 seconds, the content returned |
| Inference.AllGroqErrors | brain_of_the_doctor.py:457-463 | only `GroqError`s: `max_retries` requests, sleeps 1..`max_retries - 1`, and "Text analysis failed: " with the last message |
| Inference.FailureStep | brain_of_the_doctor.py:369-373 | an exception falls back to the text path exactly when its message contains `model_not_found`; otherwise it is answered "Vision analysis failed: " and its message |
| Inference.ImageQuery | brain_of_the_doctor.py:223-373 | at most one request, none exactly when the query or the encoded image is falsy, which is answered "Error: Missing required parameters for image analysis." |
| Inference.ImageContent | brain_of_the_doctor.py:353-367 | blank content gives "Error: Empty response from image analysis."; other content is returned with the note of the language, English by default |
| Inference.IndexErrorIsReported | brain_of_the_doctor.py:353-373 | the `IndexError` message "list index out of range" does not trigger the fallback |
| Inference.ImageNoChoices | brain_of_the_doctor.py:353-373 | empty choices give "Vision analysis failed: list index out of range" |
| Inference.ImageErrors | brain_of_the_doctor.py:369-373 | an exception falls back to the text path exactly when its message contains `model_not_found`, and is otherwise answered "Vision analysis failed: " and its message; there is no retry |
| Inference.ImageIgnored | brain_of_the_doctor.py:226-345 | the encoded image affects the answer only through its truthiness |
| Lru.LruCache.constructor | brain_of_the_doctor.py:222 | a new memo table is empty |
| Lru.LruCache.SizeBound | brain_of_the_doctor.py:222 | the table holds at most 100 results |
| Lru.LruCache.Get | brain_of_the_doctor.py:410 | a hit returns the stored result and makes the key most recently used; a miss changes nothing |
| Lru.LruCache.Put | brain_of_the_doctor.py:410 | a new result is stored as most recently used; in a full table the least recently used entry is evicted first |
| Analyzers.TextAnalyzer.constructor | brain_of_the_doctor.py:410 | the text path starts with an empty memo table |
| Analyzers.TextAnalyzer.Analyze | brain_of_the_doctor.py:410-467 | a hit returns the stored result, sentinels and None included, with no request and no sleep, and makes the key most recently used; a miss returns exactly the run of `analyze_text_query` on the arguments with defaults filled in, and stores it as most recently used, evicting the least recently used entry of a full table |
| Analyzers.ImageAnalyzer.constructor | brain_of_the_doctor.py:222 | the image path starts with an empty memo table and shares the text path's |
| Analyzers.ImageAnalyzer.Analyze | brain_of_the_doctor.py:222-373 | a hit returns the stored answer with no request and makes the key most recently used; a miss answers as the image path does, or returns the memoised `analyze_text_query(query, language)` (never None), and stores the answer as most recently used, evicting the least recently used entry of a full table; on a fallback the shared text table changes exactly as a text call with those arguments changes it, and it is untouched otherwise |
| Analyzers.RepeatedTextCall | brain_of_the_doctor.py:410 | a repeated text call returns the first result without a request, whatever the service would now answer |
| Speech.TranslationTables | ai_doctor_simple.py:15-61 | English, Hindi and Marathi each have a table, and all tables have the same keys |
| Speech.Tr | ai_doctor_simple.py:63-66 | a key of no table is shown as itself; a known session language shows its own translation of a key; any other key is shown as one of its translations |
| Speech.TrFallbacks | ai_doctor_simple.py:63-66 | an unknown or missing session language reads the English table |
| Speech.SpeechText | ai_doctor_simple.py:72-76 | nothing is handed to the synthesiser exactly for a non-string, empty or all-white-space text; otherwise the text handed is the first `min(500, len)` characters of `text.strip()`, non-empty and starting with a non-space |
| Speech.GenerateAudio | ai_doctor_simple.py:69-89 | blank text gives None; a result is the synthesiser's non-empty bytes for the stripped, truncated text; non-empty synthesised bytes are returned unchanged, and empty audio or a failure gives None |
| Speech.BlankNeverSynthesised | ai_doctor_simple.py:72-73 | for blank or non-string text the result is None whatever the synthesiser would do |
| Speech.AudioCache.constructor | ai_doctor_simple.py:68 | the audio store starts empty |
| Speech.AudioCache.Generate | ai_doctor_simple.py:68-89 | a stored (text, code) pair returns its stored result, None included, without synthesising; otherwise the result is computed, stored and never empty audio |
| Speech.SpeechCode | ai_doctor_simple.py:181 | "Hindi" gives "hi", "Marathi" gives "mr", every other language "en" |
| Speech.AudioLabelsFor | ai_doctor_simple.py:174-179 | for each interface language the read-out labels are that language's on-screen headings |
| Speech.AudioText | ai_doctor_simple.py:174-179 | no contract of its own; characterised by Speech.AudioTextLabels and Speech.AudioTextParts |
| Speech.AudioTextLabels | ai_doctor_simple.py:174-179 | the read-out text carries each result after the label chosen for the language, as `label: value` |
| Speech.UnknownLanguageReadOut | ai_doctor_simple.py:174-181 | any other language is read out with the Marathi labels by the English voice, while the headings are English |
| Speech.AudioTextParts | ai_doctor_simple.py:174-179 | the read-out text contains the diagnosis, the prescription and the recommendations verbatim |

## Left out

- The chat-completion service is an oracle: each call is given a function from (request, attempt number) to outcome. Also not modelled: the network; the client construction (`Groq(api_key=get_api_key())`), which could raise outside the `try` blocks; `get_api_key`; `test_api_key`; the module-level key check and its `sys.exit`; and the `os.system` entry point.
- The texts of the system prompts and of the image-context paragraph (brain_of_the_doctor.py:237-345, 420-425) are opaque. A request records only the prompt's language, the query, the model and the 800-token limit.
- `time.sleep` delays are recorded as seconds and not slept. Logging and the `print` of the raw model output are left out.
- `last_error` (brain_of_the_doctor.py:435, 458) is assigned but never read, and is not modelled.
- `encode_image`, `handle_long_path` and `analyze_image` are not modelled: they are file I/O, OpenCV, JPEG and base64 work. The encoded image appears only as a value tested for truthiness.
- `PRESCRIPTION_TEMPLATE` is never used. `get_diagnosis_and_prescription`, which the simple page imports, is not part of brain_of_the_doctor.py. The diagnosis, prescription and recommendations of the read-out text are therefore plain string parameters.
- The date of the prescription is a parameter, already formatted as `dd/mm/yyyy`. The clock and `strftime` are left out.
- `lower()` is ASCII lower case. The Unicode lower case of U+0130 and of the Kelvin sign U+212A, which contain ASCII letters, is not modelled.
- A non-string Python value is reduced to its truthiness and its `str()`. Two such values are the same cache key when both agree.
- Memoisation keys: the model keys a call by its positional arguments. Not modelled: keyword-argument calls (a separate key in `lru_cache`), `TypeError` for unhashable arguments, the equality of `3` and `3.0` as keys, and a non-integer `max_retries`.
- Prescription.BulletListLines: is not applied to the literal table entries. That their medications and instructions hold no line boundary is not proved: it would mean a case split on every character of each literal.
- `lru_cache` thread safety and concurrent calls are not modelled. Calls are sequential.
- gTTS is an opaque function from text and language code to bytes or a failure. The `BytesIO` buffer it writes and rewinds is folded into that result. The `st.warning` shown on a failure is not modelled.
- `st.cache_data` is modelled as an unbounded map keyed by (text, language code). Not modelled: its hashing of the function's code, and the copying of returned values.
- The Streamlit session state is a parameter of `tr`. Widgets, tabs, temporary files, `st.stop` and the whole of ai_doctor_streamlit.py and voice_of_the_patient.py are not modelled: they are UI and I/O code.
