/** The two memoised entry points, `analyze_text_query` and
    `analyze_image_with_query`, each behind its own
    `lru_cache(maxsize=100)`. A call is looked up by the arguments as
    passed; a hit returns the stored result, sentinel strings included,
    without a request; a miss runs the function and stores its result. */
module Analyzers {
  import opened Results
  import opened PyStrings
  import opened Inference
  import opened Lru

  /** A default parameter's value: the one passed, or the default. */
  function Given<T>(passed: Option<T>, default: T): T {
    if passed.Some? then passed.value else default
  }

  /** The arguments of an `analyze_text_query` call as passed. `lru_cache`
      keys a call by the arguments it is given, so leaving out a default and
      passing the same value are two different keys. */
  datatype TextArgs = TextArgs(query: PyValue, language: Option<string>, model: Option<string>, maxRetries: Option<int>)

  /** The arguments of an `analyze_image_with_query` call as passed. */
  datatype ImageArgs = ImageArgs(query: PyValue, encodedImage: PyValue, language: Option<string>, model: Option<string>)

  function RunText(a: TextArgs, remote: Remote): TextRun {
    TextQuery(a.query, Given(a.language, DefaultLanguage), Given(a.model, DefaultModel),
      Given(a.maxRetries, DefaultRetries), remote)
  }

  function RunImage(a: ImageArgs, remote: Remote): ImageRun {
    ImageQuery(a.query, a.encodedImage, Given(a.language, DefaultLanguage), Given(a.model, DefaultModel), remote)
  }

  /** The call the image path falls back to: `analyze_text_query(query,
      language)`, with the model and the retry count left to their
      defaults. */
  function FallbackCall(a: ImageArgs): TextArgs {
    TextArgs(a.query, Some(Given(a.language, DefaultLanguage)), None, None)
  }

  /** A text-path result that some call with these arguments can return:
      None only from a valid query with `max_retries <= 0`. */
  predicate Possible(a: TextArgs, r: Option<string>) {
    r.None? ==> IsNonEmptyStr(a.query) && Given(a.maxRetries, DefaultRetries) <= 0
  }

  class TextAnalyzer {
    const cache: LruCache<TextArgs, Option<string>>

    ghost predicate Valid()
      reads this, cache
    {
      cache.Valid() && forall a :: a in cache.entries ==> Possible(a, cache.entries[a])
    }

    constructor ()
      ensures Valid() && fresh(cache) && cache.entries == map[]
    {
      cache := new LruCache();
    }

    /** One call, with its sleeps and the number of requests sent. */
    method Analyze(args: TextArgs, remote: Remote) returns (result: Option<string>, delays: seq<nat>, sent: nat)
      requires Valid()
      modifies cache
      ensures Valid()
      ensures Possible(args, result)
      ensures args in old(cache.entries) ==>
        result == old(cache.entries[args]) && delays == [] && sent == 0 && cache.entries == old(cache.entries)
        && cache.order == Remove(old(cache.order), args) + [args]
      ensures args !in old(cache.entries) ==>
        TextRun(result, delays, sent) == RunText(args, remote)
        && args in cache.entries && cache.entries[args] == result
        && cache.entries.Keys <= old(cache.entries.Keys) + {args}
        && cache.entries == (if |old(cache.order)| < MaxSize then old(cache.entries)
                             else old(cache.entries) - {old(cache.order)[0]})[args := result]
        && cache.order == (if |old(cache.order)| < MaxSize then old(cache.order) else old(cache.order)[1..]) + [args]
    {
      var hit := cache.Get(args);
      if hit.Some? {
        return hit.value, [], 0;
      }
      result, delays, sent := AnalyzeTextQuery(args.query, Given(args.language, DefaultLanguage),
        Given(args.model, DefaultModel), Given(args.maxRetries, DefaultRetries), remote);
      cache.Put(args, result);
    }
  }

  class ImageAnalyzer {
    const cache: LruCache<ImageArgs, string>
    /** The memoised text path the fallback calls. */
    const text: TextAnalyzer

    ghost predicate Valid()
      reads this, cache, text, text.cache
    {
      cache.Valid() && text.Valid()
    }

    constructor (text: TextAnalyzer)
      requires text.Valid()
      ensures Valid() && fresh(cache) && cache.entries == map[] && this.text == text
    {
      cache := new LruCache();
      this.text := text;
    }

    /** One call, with the number of requests sent, those of a fallback to
        the text path included. */
    method Analyze(args: ImageArgs, remote: Remote) returns (result: string, sent: nat)
      requires Valid()
      modifies cache, text.cache
      ensures Valid()
      ensures args in old(cache.entries) ==>
        result == old(cache.entries[args]) && sent == 0
        && cache.entries == old(cache.entries) && unchanged(text.cache)
        && cache.order == Remove(old(cache.order), args) + [args]
      ensures args !in old(cache.entries) ==>
        args in cache.entries && cache.entries[args] == result
        && cache.entries.Keys <= old(cache.entries.Keys) + {args}
        && cache.entries == (if |old(cache.order)| < MaxSize then old(cache.entries)
                             else old(cache.entries) - {old(cache.order)[0]})[args := result]
        && cache.order == (if |old(cache.order)| < MaxSize then old(cache.order) else old(cache.order)[1..]) + [args]
      ensures args !in old(cache.entries) && RunImage(args, remote).step.Answer? ==>
        result == RunImage(args, remote).step.text && sent == RunImage(args, remote).sent
        && unchanged(text.cache)
      ensures args !in old(cache.entries) && RunImage(args, remote).step.DelegateToText? ==>
        FallbackCall(args) in text.cache.entries && text.cache.entries[FallbackCall(args)] == Some(result)
        && (FallbackCall(args) in old(text.cache.entries) ==>
              Some(result) == old(text.cache.entries[FallbackCall(args)]) && sent == 1
              && text.cache.entries == old(text.cache.entries)
              && text.cache.order == Remove(old(text.cache.order), FallbackCall(args)) + [FallbackCall(args)])
        && (FallbackCall(args) !in old(text.cache.entries) ==>
              Some(result) == RunText(FallbackCall(args), remote).result
              && sent == 1 + RunText(FallbackCall(args), remote).sent
              && text.cache.entries == (if |old(text.cache.order)| < MaxSize then old(text.cache.entries)
                                        else old(text.cache.entries) - {old(text.cache.order)[0]})[FallbackCall(args) := Some(result)]
              && text.cache.order == (if |old(text.cache.order)| < MaxSize then old(text.cache.order)
                                      else old(text.cache.order)[1..]) + [FallbackCall(args)])
    {
      var hit := cache.Get(args);
      if hit.Some? {
        return hit.value, 0;
      }
      var run := RunImage(args, remote);
      sent := run.sent;
      if run.step.Answer? {
        result := run.step.text;
      } else {
        var answer, _, textSent := text.Analyze(FallbackCall(args), remote);
        result := answer.value;
        sent := sent + textSent;
      }
      cache.Put(args, result);
    }
  }

  /** The same text call made twice: the second returns the first result,
      sentinel strings and None included, without a request and whatever
      the service would now answer. */
  method RepeatedTextCall(analyzer: TextAnalyzer, args: TextArgs, first: Remote, second: Remote)
    returns (result1: Option<string>, result2: Option<string>, sent2: nat)
    requires analyzer.Valid()
    modifies analyzer.cache
    ensures analyzer.Valid()
    ensures result2 == result1 && sent2 == 0
  {
    var delays1, sent1, delays2;
    result1, delays1, sent1 := analyzer.Analyze(args, first);
    result2, delays2, sent2 := analyzer.Analyze(args, second);
  }
}
