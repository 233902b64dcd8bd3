/**
 * The API-key guard: a request passes only with an `Authorization` header of
 * the form `Bearer <key>` (a simplified form of the bearer scheme of section
 * 2.1 of RFC 6750) whose key equals the configured one. The scheme name is
 * compared case-sensitively and the header is cut at single spaces.
 */
module AuthGuard {
  import opened Wrappers
  import opened Text

  /** The configured key when no key is set in the environment. */
  const DefaultApiKey: string := ""

  datatype AuthError = MissingHeader | InvalidFormat | InvalidKey

  /** The message of the `401 Unauthorized` each rejection raises. */
  function ErrorMessage(e: AuthError): string {
    match e
    case MissingHeader => "Missing Authorization header"
    case InvalidFormat => "Invalid Authorization format. Use: Bearer <api-key>"
    case InvalidKey => "Invalid API key"
  }

  /**
   * `canActivate`: an absent or empty header is missing; the first
   * space-separated part must be `Bearer` and the second must be present and
   * non-empty; the second part must equal the configured key. Parts after the
   * second are ignored.
   */
  function CanActivate(header: Option<string>, apiKey: string): (r: Result<bool, AuthError>)
    ensures r.Success? ==> r.value
    ensures r == Failure(MissingHeader) <==> header.None? || header.value == []
  {
    if header.None? || header.value == [] then Failure(MissingHeader)
    else
      var parts := Split(header.value, ' ');
      if parts[0] != "Bearer" || |parts| < 2 || parts[1] == [] then Failure(InvalidFormat)
      else if parts[1] != apiKey then Failure(InvalidKey)
      else Success(true)
  }

  /**
   * The accepted headers, stated without splitting: `Bearer`, one space, the
   * key, and then either nothing or a space followed by anything at all.
   */
  ghost predicate AcceptedHeader(h: string, apiKey: string) {
    apiKey != [] && ' ' !in apiKey &&
    exists rest: string :: h == "Bearer " + apiKey + rest && (rest == [] || rest[0] == ' ')
  }

  /** The first piece of a split and, when there is a separator, the rest. */
  lemma SplitHead(s: string, c: char)
    ensures IndexOfChar(s, c) < 0 ==> Split(s, c) == [s]
    ensures IndexOfChar(s, c) >= 0 ==>
      Split(s, c) == [s[..IndexOfChar(s, c)]] + Split(s[IndexOfChar(s, c) + 1..], c)
  {
  }

  /** Splitting after a separator-free prefix yields the prefix first. */
  lemma SplitAfterPrefix(p: string, c: char, tail: string)
    requires c !in p
    ensures Split(p + [c] + tail, c) == [p] + Split(tail, c)
  {
    var s := p + [c] + tail;
    IndexOfCharAfterPrefix(p, c, tail);
    SplitHead(s, c);
    assert s[..|p|] == p;
    assert s[|p| + 1..] == tail;
  }

  /** A separator-free piece followed by nothing or by a separator is split off first. */
  lemma SplitFirstPiece(piece: string, c: char, rest: string)
    requires c !in piece
    requires rest == [] || rest[0] == c
    ensures Split(piece + rest, c)[0] == piece
  {
    if rest == [] {
      assert piece + rest == piece;
      SplitHead(piece, c);
    } else {
      assert piece + rest == piece + [c] + rest[1..];
      SplitAfterPrefix(piece, c, rest[1..]);
    }
  }

  /** Every header of the accepted form passes. */
  lemma AcceptedPasses(h: string, apiKey: string, rest: string)
    requires apiKey != [] && ' ' !in apiKey
    requires h == "Bearer " + apiKey + rest && (rest == [] || rest[0] == ' ')
    ensures CanActivate(Some(h), apiKey) == Success(true)
  {
    var tail := apiKey + rest;
    assert h == "Bearer" + [' '] + tail;
    SplitAfterPrefix("Bearer", ' ', tail);
    SplitFirstPiece(apiKey, ' ', rest);
  }

  /** Every header that passes has the accepted form. */
  lemma PassingIsAccepted(h: string, apiKey: string)
    requires CanActivate(Some(h), apiKey).Success?
    ensures AcceptedHeader(h, apiKey)
  {
    var parts := Split(h, ' ');
    assert parts[0] == "Bearer" && |parts| >= 2 && parts[1] == apiKey && apiKey != [];
    var k := IndexOfChar(h, ' ');
    SplitHead(h, ' ');
    assert k >= 0;
    var tail := h[k + 1..];
    assert parts == [h[..k]] + Split(tail, ' ');
    var rest := FirstPieceRest(tail, ' ');
    CutAround(h, k);
    assert h == "Bearer" + [' '] + (apiKey + rest);
    assert h == "Bearer " + apiKey + rest;
  }

  lemma CutAround(s: string, k: nat)
    requires k < |s|
    ensures s == s[..k] + [s[k]] + s[k + 1..]
  {
  }

  /** The first piece of a split runs up to the first separator, or is the whole string. */
  lemma SplitFirst(s: string, c: char)
    ensures var k := IndexOfChar(s, c); Split(s, c)[0] == if k < 0 then s else s[..k]
  {
    SplitHead(s, c);
  }

  /** The first piece of a split is followed by nothing or by the separator. */
  lemma FirstPieceRest(s: string, c: char) returns (rest: string)
    ensures s == Split(s, c)[0] + rest && (rest == [] || rest[0] == c)
    ensures c !in Split(s, c)[0]
  {
    var k := IndexOfChar(s, c);
    var first := Split(s, c)[0];
    SplitFirst(s, c);
    if k < 0 {
      rest := [];
      assert first == s;
    } else {
      rest := s[k..];
      assert first == s[..k];
      PrefixThenRest(s, k);
    }
  }

  lemma PrefixThenRest(s: string, k: nat)
    requires k <= |s|
    ensures s == s[..k] + s[k..]
  {
  }

  /** The guard lets a header through exactly when it has the accepted form. */
  lemma CanActivateSpec(header: Option<string>, apiKey: string)
    ensures CanActivate(header, apiKey).Success? <==> header.Some? && AcceptedHeader(header.value, apiKey)
  {
    if header.Some? {
      if CanActivate(header, apiKey).Success? {
        PassingIsAccepted(header.value, apiKey);
      }
      if AcceptedHeader(header.value, apiKey) {
        var rest: string :| header.value == "Bearer " + apiKey + rest && (rest == [] || rest[0] == ' ');
        AcceptedPasses(header.value, apiKey, rest);
      }
    }
  }

  /** With the default empty key configured, the guard rejects every request. */
  lemma DefaultKeyRejectsAll(header: Option<string>)
    ensures CanActivate(header, DefaultApiKey).Failure?
  {
    CanActivateSpec(header, DefaultApiKey);
  }

  /** The scheme name is case-sensitive: `bearer` is a format error. */
  lemma LowerCaseSchemeRejected(key: string)
    requires key != [] && ' ' !in key
    ensures CanActivate(Some("bearer " + key), key) == Failure(InvalidFormat)
  {
    assert "bearer " + key == "bearer" + [' '] + key;
    SplitAfterPrefix("bearer", ' ', key);
  }

  /** Two spaces after `Bearer` leave an empty token, which is a format error. */
  lemma DoubleSpaceRejected(key: string)
    ensures CanActivate(Some("Bearer  " + key), key) == Failure(InvalidFormat)
  {
    assert "Bearer  " + key == "Bearer" + [' '] + ([] + [' '] + key);
    SplitAfterPrefix("Bearer", ' ', [] + [' '] + key);
    SplitAfterPrefix([], ' ', key);
  }
}
