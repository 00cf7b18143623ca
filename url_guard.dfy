/**
 * The checks `verify` applies to the claimed `source` and `target` before
 * any network access.
 */
module UrlGuard {
  import opened Wrappers
  import opened Strings
  import opened Errors

  /** The part `(?:127|192|10)\.` of the loopback regular expression. */
  predicate OctetDot(r: string) {
    StartsWithIgnoreCase(r, "127.") || StartsWithIgnoreCase(r, "192.") || StartsWithIgnoreCase(r, "10.")
  }

  /** The prefixes the loopback rule rejects, written out one by one. */
  const LoopbackPrefixes: seq<string> := [
    "localhost",
    "127.", "192.", "10.",
    "http://127.", "http://192.", "http://10.",
    "https://127.", "https://192.", "https://10."
  ]

  /** One choice of the optional scheme group followed by `(?:127|192|10)\.`. */
  lemma SchemeOctetDot(s: string, scheme: string)
    ensures StartsWithIgnoreCase(s, scheme) && OctetDot(s[|scheme|..]) <==>
              StartsWithIgnoreCase(s, scheme + "127.")
              || StartsWithIgnoreCase(s, scheme + "192.")
              || StartsWithIgnoreCase(s, scheme + "10.")
  {
    StartsWithConcat(s, scheme, "127.");
    StartsWithConcat(s, scheme, "192.");
    StartsWithConcat(s, scheme, "10.");
  }

  /**
   * `/^localhost|^(?:http:\/\/|https:\/\/)?(?:127|192|10)\./i.test(s)`, written
   * as the regular expression's alternatives: the literal `localhost`, or
   * each choice of the optional scheme group followed by an octet and a dot.
   * It rejects exactly the strings that start, ignoring case, with one of
   * the ten listed prefixes.
   */
  predicate IsLoopback(s: string): (b: bool)
    ensures b <==> exists k :: 0 <= k < |LoopbackPrefixes| && StartsWithIgnoreCase(s, LoopbackPrefixes[k])
  {
    var P := LoopbackPrefixes;
    SchemeOctetDot(s, "http://");
    SchemeOctetDot(s, "https://");
    assert P[4] == "http://" + "127." && P[5] == "http://" + "192." && P[6] == "http://" + "10.";
    assert P[7] == "https://" + "127." && P[8] == "https://" + "192." && P[9] == "https://" + "10.";
    assert P[0] == "localhost" && P[1] == "127." && P[2] == "192." && P[3] == "10.";
    StartsWithIgnoreCase(s, "localhost")
    || (StartsWithIgnoreCase(s, "http://") && OctetDot(s[7..]))
    || (StartsWithIgnoreCase(s, "https://") && OctetDot(s[8..]))
    || OctetDot(s)
  }

  /** `localhost` is refused at the very start, whatever follows it and whatever its case. */
  lemma LoopbackRejectsLocalhost(rest: string)
    ensures IsLoopback("localhost" + rest)
    ensures IsLoopback("LocalHost" + rest)
  {
    StartsWithConcat("localhost" + rest, "localhost", rest);
    StartsWithConcat("LocalHost" + rest, "LocalHost", rest);
    assert StartsWithIgnoreCase("LocalHost", "localhost");
  }

  /** An address such as `Https://10.0.0.1/` is refused whatever case its scheme is written in. */
  lemma LoopbackRejectsHttpsTen(rest: string)
    ensures IsLoopback("Https://10." + rest)
  {
    var s := "Https://10." + rest;
    StartsWithConcat(s, "Https://", "10." + rest);
    assert s == "Https://" + ("10." + rest);
    assert StartsWithIgnoreCase("Https://", "https://");
    StartsWithConcat("10." + rest, "10.", rest);
  }

  /** A host name that merely starts with `127.` is refused too. */
  lemma LoopbackRejectsNamePrefix(rest: string)
    ensures IsLoopback("192." + rest)
    ensures IsLoopback("http://127." + rest)
  {
    StartsWithConcat("192." + rest, "192.", rest);
    var s := "http://127." + rest;
    StartsWithConcat(s, "http://", "127." + rest);
    assert s == "http://" + ("127." + rest);
    StartsWithConcat("127." + rest, "127.", rest);
  }

  /**
   * After a plain `http://` scheme only the octet alternative can reject:
   * the string no longer starts with `localhost`, with a digit or with `https://`.
   */
  lemma HttpNotLoopback(s: string, rest: string)
    requires s == "http://" + rest && !OctetDot(rest)
    ensures !IsLoopback(s)
  {
    assert s[0] == 'h' && s[4] == ':';
    MismatchAt(s, "localhost", 0);
    MismatchAt(s, "127.", 0);
    MismatchAt(s, "192.", 0);
    MismatchAt(s, "10.", 0);
    MismatchAt(s, "https://", 4);
    assert s[7..] == rest;
  }

  /** The rule lets `http://localhost...` through: `localhost` is refused only at the very start. */
  lemma LoopbackAdmitsSchemeLocalhost(rest: string)
    ensures !IsLoopback("http://localhost" + rest)
  {
    var r := "localhost" + rest;
    assert r[0] == 'l';
    MismatchAt(r, "127.", 0);
    MismatchAt(r, "192.", 0);
    MismatchAt(r, "10.", 0);
    assert "http://localhost" + rest == "http://" + r;
    HttpNotLoopback("http://localhost" + rest, r);
  }

  /** An octet must be followed by its dot: `http://100.` is not refused. */
  lemma LoopbackAdmitsOctet100(rest: string)
    ensures !IsLoopback("http://100." + rest)
  {
    var r := "100." + rest;
    assert r[1] == '0' && r[2] == '0';
    MismatchAt(r, "127.", 1);
    MismatchAt(r, "192.", 1);
    MismatchAt(r, "10.", 2);
    assert "http://100." + rest == "http://" + r;
    HttpNotLoopback("http://100." + rest, r);
  }

  /** An octet must be followed by its dot: `http://1270.` is not refused. */
  lemma LoopbackAdmitsOctet1270(rest: string)
    ensures !IsLoopback("http://1270." + rest)
  {
    var r := "1270." + rest;
    assert r[1] == '2' && r[3] == '0';
    MismatchAt(r, "127.", 3);
    MismatchAt(r, "192.", 1);
    MismatchAt(r, "10.", 1);
    assert "http://1270." + rest == "http://" + r;
    HttpNotLoopback("http://1270." + rest, r);
  }

  /** Private ranges other than `127.`, `192.` and `10.` are not refused: `http://172.`. */
  lemma LoopbackAdmitsOtherRange(rest: string)
    ensures !IsLoopback("http://172." + rest)
  {
    var r := "172." + rest;
    assert r[1] == '7';
    MismatchAt(r, "127.", 1);
    MismatchAt(r, "192.", 1);
    MismatchAt(r, "10.", 1);
    assert "http://172." + rest == "http://" + r;
    HttpNotLoopback("http://172." + rest, r);
  }

  /** Schemes other than http and https are not stripped before the octet. */
  lemma LoopbackAdmitsOtherScheme(rest: string)
    ensures !IsLoopback("ftp://127." + rest)
  {
    var s := "ftp://127." + rest;
    assert s[0] == 'f';
    MismatchAt(s, "localhost", 0);
    MismatchAt(s, "127.", 0);
    MismatchAt(s, "192.", 0);
    MismatchAt(s, "10.", 0);
    MismatchAt(s, "http://", 0);
    MismatchAt(s, "https://", 0);
  }

  /**
   * The three ordered checks of `verify`: both strings are URIs, they
   * differ, and the source is not a loopback or local address. The first
   * failing check decides the error.
   */
  function Guard(isUri: string -> bool, source: string, target: string): (r: Option<ErrorKind>)
    ensures r == Some(InvalidUris) <==> !isUri(source) || !isUri(target)
    ensures r == Some(SelfReference) <==> isUri(source) && isUri(target) && source == target
    ensures r == Some(LoopbackSource) <==>
              isUri(source) && isUri(target) && source != target && IsLoopback(source)
    ensures r == None <==> isUri(source) && isUri(target) && source != target && !IsLoopback(source)
  {
    if !isUri(source) || !isUri(target) then Some(InvalidUris)
    else if source == target then Some(SelfReference)
    else if IsLoopback(source) then Some(LoopbackSource)
    else None
  }

}
