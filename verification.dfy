/**
 * `verify`: the guard, then one fetch of the source, then the parser, then
 * the matcher, each failure ending the pipeline with its error. The fetch,
 * the microformats parser and the URI validator are passed in as functions.
 */
module Verification {
  import opened Wrappers
  import opened Errors
  import opened Mf2
  import opened UrlGuard
  import opened Matcher

  /** What `request.get` hands to its callback: a transport error, or a response. */
  datatype FetchResult = TransportError(cause: string) | Response(statusCode: int, body: string)

  /** What `Microformats.get` hands to its callback: a parser error, or the parsed document. */
  datatype ParseResult = ParseError(cause: string) | Parsed(doc: Document)

  /** The callback's arguments: an error, or the matched property names with the parsed data. */
  datatype Outcome = Rejected(error: ErrorKind) | Accepted(matches: seq<string>, data: Document)

  /** The pair passes all three guard checks. */
  predicate PassesGuard(isUri: string -> bool, source: string, target: string) {
    isUri(source) && isUri(target) && source != target && !IsLoopback(source)
  }

  /**
   * `verify(source, target, callback)`, with `fetch(source, maxRedirects)`
   * standing for `request.get` and `parse(body)` for `Microformats.get`.
   * `maxRedirects` is `options.maxRedirects` as read at the time of the
   * request, `None` when the property is absent.
   */
  function Verify(source: string, target: string, maxRedirects: Option<int>,
                  isUri: string -> bool,
                  fetch: (string, Option<int>) -> FetchResult,
                  parse: string -> ParseResult): (o: Outcome)
    // the guard's checks, first failure first
    ensures o == Rejected(InvalidUris) <==> !isUri(source) || !isUri(target)
    ensures o == Rejected(SelfReference) <==> isUri(source) && isUri(target) && source == target
    ensures o == Rejected(LoopbackSource) <==>
              isUri(source) && isUri(target) && source != target && IsLoopback(source)
    // the fetch
    ensures PassesGuard(isUri, source, target) && fetch(source, maxRedirects).TransportError? ==>
              o == Rejected(Transport(fetch(source, maxRedirects).cause))
    ensures PassesGuard(isUri, source, target) && fetch(source, maxRedirects).Response?
            && fetch(source, maxRedirects).statusCode != 200 ==>
              o == Rejected(NotFound)
    // the parser
    ensures PassesGuard(isUri, source, target) && fetch(source, maxRedirects).Response?
            && fetch(source, maxRedirects).statusCode == 200
            && parse(fetch(source, maxRedirects).body).ParseError? ==>
              o == Rejected(Parser(parse(fetch(source, maxRedirects).body).cause))
    // the matcher
    ensures PassesGuard(isUri, source, target) && fetch(source, maxRedirects).Response?
            && fetch(source, maxRedirects).statusCode == 200
            && parse(fetch(source, maxRedirects).body).Parsed? ==>
              var doc := parse(fetch(source, maxRedirects).body).doc;
              (o == Rejected(NoMention) <==> forall q :: !Mentions(doc, target, q))
    // what an accepted mention carries
    ensures o.Accepted? ==>
              && PassesGuard(isUri, source, target)
              && fetch(source, maxRedirects).Response?
              && fetch(source, maxRedirects).statusCode == 200
              && parse(fetch(source, maxRedirects).body) == Parsed(o.data)
              && |o.matches| > 0
              && o.matches == MatchedNames(o.data, target)
  {
    match Guard(isUri, source, target)
    case Some(e) => Rejected(e)
    case None =>
      match fetch(source, maxRedirects)
      case TransportError(cause) => Rejected(Transport(cause))
      case Response(statusCode, body) =>
        if statusCode != 200 then Rejected(NotFound)
        else
          match parse(body)
          case ParseError(cause) => Rejected(Parser(cause))
          case Parsed(doc) =>
            var nodes := QueryNodes(doc, target);
            if |nodes| == 0 then Rejected(NoMention)
            else
              assert Mentions(doc, target, MatchPositions(doc, target)[0]);
              Accepted(MatchedNames(doc, target), doc)
  }

  /**
   * A pair the guard refuses is refused without looking at the network:
   * the outcome is the same whatever the fetch, the parser and the
   * redirect limit would have done.
   */
  lemma GuardFailureSkipsFetch(source: string, target: string, isUri: string -> bool,
                               maxRedirects1: Option<int>, fetch1: (string, Option<int>) -> FetchResult, parse1: string -> ParseResult,
                               maxRedirects2: Option<int>, fetch2: (string, Option<int>) -> FetchResult, parse2: string -> ParseResult)
    requires !PassesGuard(isUri, source, target)
    ensures Verify(source, target, maxRedirects1, isUri, fetch1, parse1)
            == Verify(source, target, maxRedirects2, isUri, fetch2, parse2)
    ensures Verify(source, target, maxRedirects1, isUri, fetch1, parse1).Rejected?
  {
  }

  /**
   * A response other than 200 is refused as not found whatever its body,
   * and the parser is never consulted.
   */
  lemma NonOkStatusSkipsParser(source: string, target: string, maxRedirects: Option<int>, isUri: string -> bool,
                               fetch: (string, Option<int>) -> FetchResult,
                               parse1: string -> ParseResult, parse2: string -> ParseResult)
    requires PassesGuard(isUri, source, target)
    requires fetch(source, maxRedirects).Response? && fetch(source, maxRedirects).statusCode != 200
    ensures Verify(source, target, maxRedirects, isUri, fetch, parse1) == Rejected(NotFound)
    ensures Verify(source, target, maxRedirects, isUri, fetch, parse1)
            == Verify(source, target, maxRedirects, isUri, fetch, parse2)
  {
  }

  /**
   * Any top-level value that passes the filter makes the mention accepted,
   * with that value's property name among the matches.
   */
  lemma MentionAccepted(source: string, target: string, maxRedirects: Option<int>, isUri: string -> bool,
                        fetch: (string, Option<int>) -> FetchResult, parse: string -> ParseResult, q: Pos)
    requires PassesGuard(isUri, source, target)
    requires fetch(source, maxRedirects).Response? && fetch(source, maxRedirects).statusCode == 200
    requires parse(fetch(source, maxRedirects).body).Parsed?
    requires Mentions(parse(fetch(source, maxRedirects).body).doc, target, q)
    ensures Verify(source, target, maxRedirects, isUri, fetch, parse).Accepted?
    ensures PropertyAt(parse(fetch(source, maxRedirects).body).doc, q).name
            in Verify(source, target, maxRedirects, isUri, fetch, parse).matches
  {
    var doc := parse(fetch(source, maxRedirects).body).doc;
    MentionIsNamed(doc, target, q);
  }

  /**
   * A property such as `in-reply-to` whose value is the target URL itself
   * makes the mention accepted with that property among the matches.
   */
  lemma ReplyToTargetAccepted(source: string, target: string, maxRedirects: Option<int>, isUri: string -> bool,
                              fetch: (string, Option<int>) -> FetchResult, parse: string -> ParseResult, q: Pos)
    requires PassesGuard(isUri, source, target)
    requires fetch(source, maxRedirects).Response? && fetch(source, maxRedirects).statusCode == 200
    requires parse(fetch(source, maxRedirects).body).Parsed?
    requires InDoc(parse(fetch(source, maxRedirects).body).doc, q)
    requires ValueAt(parse(fetch(source, maxRedirects).body).doc, q) == Text(target)
    ensures Verify(source, target, maxRedirects, isUri, fetch, parse).Accepted?
    ensures PropertyAt(parse(fetch(source, maxRedirects).body).doc, q).name
            in Verify(source, target, maxRedirects, isUri, fetch, parse).matches
  {
    TextEqualToTargetMatches(target);
    MentionAccepted(source, target, maxRedirects, isUri, fetch, parse, q);
  }

}
