/**
  The token helper: the sanitiser that strips `Bearer ` from an
  authorization header, the gate that verifies the token before a protected
  handler runs, and the shape of a freshly issued token. Signing, verifying
  and calendar arithmetic belong to libraries and are parameters here.
 */
module Security {
  import opened Wrappers
  import opened Strings
  import opened Js
  import opened Database
  import opened Http

  const BearerPrefix := "Bearer "

  /** The text between the first and the second space of a `Bearer ` value: `value.split(' ')[1]`. */
  function BearerToken(s: string): (t: string)
    requires StartsWith(s, BearerPrefix)
    ensures |BearerPrefix| + |t| <= |s| && t == s[|BearerPrefix|..|BearerPrefix| + |t|]
    ensures ' ' !in t
    ensures |BearerPrefix| + |t| == |s| || s[|BearerPrefix| + |t|] == ' '
  {
    SecondPiece(s);
    Split(s, ' ')[1]
  }

  /** Splitting a `Bearer ` value on spaces: the second piece is the first piece of what follows the prefix. */
  lemma SecondPiece(s: string)
    requires StartsWith(s, BearerPrefix)
    ensures |Split(s, ' ')| >= 2
    ensures Split(s, ' ')[1] == Split(s[|BearerPrefix|..], ' ')[0]
    ensures var t := Split(s, ' ')[1];
            && |BearerPrefix| + |t| <= |s| && t == s[|BearerPrefix|..|BearerPrefix| + |t|]
            && (|BearerPrefix| + |t| == |s| || s[|BearerPrefix| + |t|] == ' ')
  {
    SplitAfterPrefix(s);
    var rest := s[7..];
    FirstPieceShape(rest, ' ');
    var t := Split(rest, ' ')[0];
    assert |BearerPrefix| == 7;
    assert s[7..7 + |t|] == rest[..|t|];
    if 7 + |t| < |s| {
      assert s[7 + |t|] == rest[|t|];
    }
  }

  /** The first space of a `Bearer ` value is the prefix's own, so the pieces after it are those of the rest. */
  lemma SplitAfterPrefix(s: string)
    requires StartsWith(s, BearerPrefix)
    ensures Split(s, ' ') == [s[..6]] + Split(s[7..], ' ')
  {
    assert s[..7] == BearerPrefix;
    assert s[6] == ' ';
    assert ' ' !in s[..6] by {
      forall k | 0 <= k < 6 ensures s[..6][k] != ' ' {
        assert s[..6][k] == BearerPrefix[k];
      }
    }
    IndexOfUnique(s, ' ', 6);
  }

  /** A token without spaces after the prefix comes back whole. */
  lemma BearerRoundTrip(token: string)
    requires ' ' !in token
    ensures BearerToken(BearerPrefix + token) == token
  {
    var s := BearerPrefix + token;
    assert s[..7] == BearerPrefix;
    SecondPiece(s);
    assert s[7..] == token;
    FirstPiece(token, ' ');
  }

  /** Whatever follows a further space is dropped. */
  lemma BearerDropsRest(token: string, rest: string)
    requires ' ' !in token
    ensures BearerToken(BearerPrefix + token + " " + rest) == token
  {
    var u := token + [' '] + rest;
    var s := BearerPrefix + u;
    assert BearerPrefix + token + " " + rest == s;
    assert s[..7] == BearerPrefix && s[7..] == u;
    SecondPiece(s);
    FirstPieceBefore(token, ' ', rest);
  }

  /** Where the validation library found the `authorization` field. */
  datatype Location = Headers | Body

  /**
    The schema's custom sanitiser for `authorization`: a header value that
    is truthy and starts with `Bearer ` becomes the text between its first
    and second space; anything else, and every body value, is left as it is.
    A truthy header value that is not a string has no `startsWith`, which
    throws.
   */
  function SanitizeAuthorization(value: JsValue, location: Location): (r: Result<JsValue, Thrown>)
    ensures location == Body ==> r == Success(value)
    ensures r.Failure? <==> location == Headers && Truthy(value) && !value.Str?
    ensures r.Success? && r.value != value ==>
              && location == Headers && value.Str? && StartsWith(value.s, BearerPrefix)
              && r.value.Str? && ' ' !in r.value.s
              && |BearerPrefix| + |r.value.s| <= |value.s|
              && value.s[|BearerPrefix|..|BearerPrefix| + |r.value.s|] == r.value.s
    ensures location == Headers && value.Str? && StartsWith(value.s, BearerPrefix) ==>
              r == Success(Str(BearerToken(value.s)))
  {
    if location == Headers && Truthy(value) then
      if !value.Str? then Failure(TypeError)
      else if StartsWith(value.s, BearerPrefix) then Success(Str(BearerToken(value.s)))
      else Success(value)
    else Success(value)
  }

  /** The payload of a token. */
  datatype Claims = Claims(id: JsValue, name: JsValue, email: JsValue, level: JsValue)

  /** The outcome of the gate: a response that ends the request, or the handler runs with the decoded payload. */
  datatype Gate = Halted(response: Response) | Proceed(decoded: Claims)

  /** The token `check` verifies: the header with `Bearer ` stripped, or the header as it is. */
  function HeaderToken(header: Option<string>): (t: JsValue)
    ensures header.None? ==> t == Undefined
    ensures header.Some? && !StartsWith(header.value, BearerPrefix) ==> t == Str(header.value)
    ensures header.Some? && StartsWith(header.value, BearerPrefix) ==>
              t.Str? && ' ' !in t.s && t.s == BearerToken(header.value)
  {
    match header
    case None => Undefined
    case Some(s) =>
      if s != "" && StartsWith(s, BearerPrefix) then Str(BearerToken(s)) else Str(s)
  }

  /**
    `check`: validation errors end the request with 422 before anything is
    verified; otherwise the header's token is verified with the
    application's key, and a rejected token ends the request with 401 while
    an accepted one lets the handler run, once, with the decoded payload.
   */
  function Check(errors: seq<ValidationError>, header: Option<string>, appKey: JsValue,
                 verify: (JsValue, JsValue) -> Option<Claims>): (g: Gate)
    ensures |errors| > 0 ==> g == Halted(Response(422, Errors(errors)))
    ensures |errors| == 0 ==>
              match verify(HeaderToken(header), appKey)
              case None => g == Halted(ErrorResponse(401, "Token inválido", Str("401")))
              case Some(claims) => g == Proceed(claims)
    ensures g.Proceed? ==> |errors| == 0
  {
    if |errors| > 0 then Halted(Response(422, Errors(errors)))
    else
      match verify(HeaderToken(header), appKey)
      case None => Halted(ErrorResponse(401, "Token inválido", Str("401")))
      case Some(claims) => Proceed(claims)
  }

  /** What is handed to the signing library. */
  datatype SignCall = SignCall(payload: Claims, key: JsValue, expiresIn: int)

  /** `createJWT`'s result: the signing call it made, the token, and the expiry moment (as its timestamp). */
  datatype Issued = Issued(call: SignCall, token: string, expiresIn: int)

  /**
    `createJWT`: the payload is exactly id, name, email and level; the key
    is the given private key when truthy, else the environment's; the
    expiry is thirty calendar days after `now`, and the signing option
    `expiresIn` receives that moment's absolute timestamp.
   */
  function CreateJWT(id: JsValue, name: JsValue, email: JsValue, level: JsValue, tokenPrivateKey: JsValue,
                     envKey: JsValue, now: int, addDays: (int, int) -> int,
                     sign: (Claims, JsValue, int) -> string): (r: Issued)
    ensures r.call.payload == Claims(id, name, email, level)
    ensures Truthy(tokenPrivateKey) ==> r.call.key == tokenPrivateKey
    ensures !Truthy(tokenPrivateKey) ==> r.call.key == envKey
    ensures r.expiresIn == addDays(now, 30) && r.call.expiresIn == r.expiresIn
    ensures r.token == sign(r.call.payload, r.call.key, r.call.expiresIn)
  {
    var expiresIn := addDays(now, 30);
    var call := SignCall(Claims(id, name, email, level), Or(tokenPrivateKey, envKey), expiresIn);
    Issued(call, sign(call.payload, call.key, call.expiresIn), expiresIn)
  }

  /** The private key never reaches the payload: two keys sign the same claims. */
  lemma KeyNotInPayload(id: JsValue, name: JsValue, email: JsValue, level: JsValue, k1: JsValue, k2: JsValue,
                        envKey: JsValue, now: int, addDays: (int, int) -> int, sign: (Claims, JsValue, int) -> string)
    ensures CreateJWT(id, name, email, level, k1, envKey, now, addDays, sign).call.payload
         == CreateJWT(id, name, email, level, k2, envKey, now, addDays, sign).call.payload
  {
  }

  /** Thirty days in milliseconds, the unit of a moment's `valueOf()`. */
  const ThirtyDaysMs := 30 * 24 * 60 * 60 * 1000

  /**
    The `expiresIn` option is a timestamp, not a duration: when the calendar
    adds thirty days as thirty days' worth of milliseconds, the option is
    the absolute `valueOf()` of `now` plus thirty days, which is neither the
    thirty-day span in milliseconds nor in seconds once `now` is after the
    epoch.
   */
  lemma ExpiryOptionIsAbsolute(id: JsValue, name: JsValue, email: JsValue, level: JsValue, key: JsValue,
                               envKey: JsValue, now: int, addDays: (int, int) -> int,
                               sign: (Claims, JsValue, int) -> string)
    requires addDays(now, 30) == now + ThirtyDaysMs
    ensures var option := CreateJWT(id, name, email, level, key, envKey, now, addDays, sign).call.expiresIn;
            && option == now + ThirtyDaysMs
            && (now > 0 ==> option != ThirtyDaysMs && option != ThirtyDaysMs / 1000)
  {
  }

  /**
    A token issued with the application's key passes `check` with that key,
    when verification inverts signing under the same key and tokens hold no
    spaces: the handler runs with exactly the issued claims.
   */
  lemma IssuedTokenPassesCheck(id: JsValue, name: JsValue, email: JsValue, level: JsValue, appKey: JsValue,
                               envKey: JsValue, now: int, addDays: (int, int) -> int,
                               sign: (Claims, JsValue, int) -> string, verify: (JsValue, JsValue) -> Option<Claims>)
    requires Truthy(appKey)
    requires forall p, k, e :: ' ' !in sign(p, k, e) && verify(Str(sign(p, k, e)), k) == Some(p)
    ensures var issued := CreateJWT(id, name, email, level, appKey, envKey, now, addDays, sign);
            Check([], Some(BearerPrefix + issued.token), appKey, verify) == Proceed(Claims(id, name, email, level))
  {
    var issued := CreateJWT(id, name, email, level, appKey, envKey, now, addDays, sign);
    BearerRoundTrip(issued.token);
    assert StartsWith(BearerPrefix + issued.token, BearerPrefix);
  }
}
