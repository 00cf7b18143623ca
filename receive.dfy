/**
 * The middleware built by `receive(options)`: it fills `req.webmention`
 * with the claimed source and target and, once `verify` has answered,
 * with its error or with the verified matches and data.
 */
module Receive {
  import opened Wrappers
  import opened Errors
  import opened Mf2
  import opened Verification

  /** `options.maxRedirects || 5`: an absent or zero limit becomes 5, any other is kept. */
  function EffectiveMaxRedirects(configured: Option<int>): (r: int)
    ensures r != 0
    ensures configured.Some? && configured.value != 0 ==> r == configured.value
    ensures configured.None? || configured == Some(0) ==> r == 5
  {
    if configured.Some? && configured.value != 0 then configured.value else 5
  }

  /** The options object passed to `receive`; the middleware writes its default back into it. */
  class Options {
    var maxRedirects: Option<int>

    constructor (maxRedirects: Option<int>)
      ensures this.maxRedirects == maxRedirects
    {
      this.maxRedirects := maxRedirects;
    }
  }

  /** `req.webmention`; a `None` field is a property that is absent or `undefined`. */
  class Webmention {
    var source: Option<string>
    var target: Option<string>
    var error: Option<ErrorKind>
    var verified: Option<bool>
    var matches: Option<seq<string>>
    var data: Option<Document>

    /** `{}` */
    constructor ()
      ensures source.None? && target.None? && error.None?
      ensures verified.None? && matches.None? && data.None?
    {
      source, target, error := None, None, None;
      verified, matches, data := None, None, None;
    }
  }

  /** The parts of the incoming request the middleware reads and writes. */
  class Request {
    /** The url-encoded form fields, as the body parser left them. */
    var body: map<string, string>
    var webmention: Webmention?

    constructor (body: map<string, string>)
      ensures this.body == body && webmention == null
    {
      this.body := body;
      webmention := null;
    }
  }

  /** `req.body[key]`, absent when the form has no such field. */
  function Field(body: map<string, string>, key: string): Option<string> {
    if key in body then Some(body[key]) else None
  }

  /**
   * `verify` applied to form fields that may be missing: `isValidUrl`
   * of an absent field is falsy, so a missing field is an invalid URI.
   */
  function VerifyFields(source: Option<string>, target: Option<string>, maxRedirects: Option<int>,
                        isUri: string -> bool,
                        fetch: (string, Option<int>) -> FetchResult,
                        parse: string -> ParseResult): Outcome
  {
    if source.None? || target.None? then Rejected(InvalidUris)
    else Verify(source.value, target.value, maxRedirects, isUri, fetch, parse)
  }

  /**
   * A missing field is refused exactly as a present field that is not a URI
   * would be: the outcome equals `verify` run on any refused value in its place.
   */
  lemma MissingFieldActsAsInvalidUri(source: string, target: string, maxRedirects: Option<int>,
                                     isUri: string -> bool,
                                     fetch: (string, Option<int>) -> FetchResult,
                                     parse: string -> ParseResult)
    ensures !isUri(source) ==>
              VerifyFields(None, Some(target), maxRedirects, isUri, fetch, parse)
              == Verify(source, target, maxRedirects, isUri, fetch, parse)
    ensures !isUri(target) ==>
              VerifyFields(Some(source), None, maxRedirects, isUri, fetch, parse)
              == Verify(source, target, maxRedirects, isUri, fetch, parse)
    ensures VerifyFields(None, None, maxRedirects, isUri, fetch, parse) == Rejected(InvalidUris)
  {
  }

  class Middleware {
    const options: Options

    /** The redirect limit in the options has been defaulted; the caller keeps the options and may change it later. */
    ghost predicate Defaulted()
      reads this, options
    {
      options.maxRedirects.Some? && options.maxRedirects.value != 0
    }

    /** `receive(options)`: `options || {}`, then `options.maxRedirects || 5` written back. */
    constructor (options: Options?)
      modifies options
      ensures options != null ==> this.options == options
      ensures options == null ==> fresh(this.options)
      ensures this.options.maxRedirects ==
                Some(EffectiveMaxRedirects(if options == null then None else old(options.maxRedirects)))
      ensures Defaulted()
    {
      var opts := options;
      if opts == null {
        opts := new Options(None);
      }
      opts.maxRedirects := Some(EffectiveMaxRedirects(opts.maxRedirects));
      this.options := opts;
    }

    /**
     * The middleware on one request. A request that already carries a
     * webmention is left alone; otherwise a fresh record is attached, which
     * stays empty for an empty body and otherwise receives the source, the
     * target and the outcome of `verify`.
     */
    method Receive(req: Request, isUri: string -> bool,
                   fetch: (string, Option<int>) -> FetchResult, parse: string -> ParseResult)
      modifies req
      ensures req.body == old(req.body)
      ensures old(req.webmention) != null ==>
                req.webmention == old(req.webmention) && unchanged(req.webmention)
      ensures old(req.webmention) == null ==> req.webmention != null && fresh(req.webmention)
      ensures old(req.webmention) == null && |req.body| == 0 ==>
                && req.webmention.source.None? && req.webmention.target.None?
                && req.webmention.error.None? && req.webmention.verified.None?
                && req.webmention.matches.None? && req.webmention.data.None?
      ensures old(req.webmention) == null && |req.body| > 0 ==>
                var w := req.webmention;
                var o := VerifyFields(Field(req.body, "source"), Field(req.body, "target"),
                                      options.maxRedirects, isUri, fetch, parse);
                && w.source == Field(req.body, "source")
                && w.target == Field(req.body, "target")
                && (o.Rejected? ==>
                      w.error == Some(o.error) && w.verified.None? && w.matches.None? && w.data.None?)
                && (o.Accepted? ==>
                      w.error.None? && w.verified == Some(true)
                      && w.matches == Some(o.matches) && w.data == Some(o.data))
    {
      if req.webmention != null {
        return;
      }
      var w := new Webmention();
      req.webmention := w;
      if |req.body| == 0 {
        return;
      }
      var source := Field(req.body, "source");
      var target := Field(req.body, "target");
      w.source := source;
      w.target := target;
      var outcome := VerifyFields(source, target, options.maxRedirects, isUri, fetch, parse);
      match outcome {
        case Rejected(e) =>
          w.error := Some(e);
        case Accepted(matches, data) =>
          w.verified := Some(true);
          w.matches := Some(matches);
          w.data := Some(data);
      }
    }
  }

}
