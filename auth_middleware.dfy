/** The `authenticateToken` middleware: the token is the second
    space-separated field of the `Authorization` header, in the manner of the
    Bearer scheme of section 2.1 of RFC 6750, except that the scheme word is
    never looked at. */
module AuthMiddleware {
  import opened Common

  const TOKEN_REQUIRED: string := "Token d'authentification requis"
  const TOKEN_INVALID: string := "Token invalide ou expiré"

  /** `h` is a space-free scheme word, one space, `token`, then either
      nothing or more text starting with a space. */
  predicate TokenAt(h: string, scheme: string, token: string, rest: string)
  {
    ' ' !in scheme && h == scheme + " " + token + rest && (rest == "" || rest[0] == ' ')
  }

  /** `authHeader && authHeader.split(' ')[1]`, none when that is falsy. */
  function ExtractToken(header: Option<string>): (r: Option<string>)
    ensures r.Some? ==> r.value != "" && ' ' !in r.value
    ensures r.Some? ==> header.Some? && exists scheme, rest :: TokenAt(header.value, scheme, r.value, rest)
    ensures header.Some? && ' ' !in header.value ==> r.None?
  {
    if header.None? || header.value == "" then None
    else
      var parts := Split(header.value, ' ');
      SplitWithoutSeparator(header.value, ' ');
      if |parts| >= 2 && parts[1] != "" then
        SecondPart(header.value);
        Some(parts[1])
      else None
  }

  /** The converse: a space-free scheme word, one space, then a non-empty
      space-free token ending the header or followed by a space always gives
      that token. */
  lemma TokenFound(scheme: string, t: string, rest: string)
    requires ' ' !in scheme && t != "" && ' ' !in t && (rest == "" || rest[0] == ' ')
    ensures ExtractToken(Some(scheme + " " + t + rest)) == Some(t)
  {
    var h := scheme + " " + t + rest;
    assert h == scheme + [' '] + (t + rest);
    SplitAfterPrefix(scheme, ' ', t + rest);
    if rest == "" {
      SplitWithoutSeparator(t, ' ');
      assert t + rest == t;
    } else {
      assert t + rest == t + [' '] + rest[1..];
      SplitAfterPrefix(t, ' ', rest[1..]);
    }
  }

  /** The second part sits between the first separator and the next one. */
  lemma SecondPart(h: string)
    requires |Split(h, ' ')| >= 2
    ensures exists scheme, rest :: TokenAt(h, scheme, Split(h, ' ')[1], rest)
  {
    var parts := Split(h, ' ');
    JoinShape(parts);
    var rest := if |parts| == 2 then "" else " " + Join(parts[2..], ' ');
    assert h == parts[0] + " " + parts[1] + rest;
    assert TokenAt(h, parts[0], parts[1], rest);
  }

  /** How `Join` lays out the first two parts. */
  lemma JoinShape(parts: seq<string>)
    requires |parts| >= 2
    ensures Join(parts, ' ') == parts[0] + " " + parts[1]
              + (if |parts| == 2 then "" else " " + Join(parts[2..], ' '))
  {
    var tail := Join(parts[1..], ' ');
    assert Join(parts, ' ') == parts[0] + [' '] + tail;
    if |parts| == 2 {
      assert tail == parts[1];
    } else {
      var rest := Join(parts[2..], ' ');
      assert parts[1..][1..] == parts[2..];
      assert tail == parts[1] + [' '] + rest;
      assert parts[0] + [' '] + (parts[1] + [' '] + rest) == parts[0] + " " + parts[1] + (" " + rest);
    }
  }

  /** The scheme word does not matter: `Basic t`, `Bearer t` and ` t` all
      yield the same token. */
  lemma SchemeIgnored(a: string, b: string, t: string)
    requires ' ' !in a && ' ' !in b
    ensures ExtractToken(Some(a + " " + t)) == ExtractToken(Some(b + " " + t))
  {
    SplitAfterPrefix(a, ' ', t);
    SplitAfterPrefix(b, ' ', t);
    assert a + " " + t == a + [' '] + t;
    assert b + " " + t == b + [' '] + t;
  }

  /** What the middleware does with the request. */
  datatype AuthResult = Authenticated(user: User) | Denied(status: nat, error: string)

  /** The decision, with `verify` standing for `jwt.verify` under the
      server's secret: the decoded payload, or none when the token is
      invalid or expired. */
  function AuthenticateToken(header: Option<string>, verify: string -> Option<User>): (r: AuthResult)
    ensures ExtractToken(header).None? <==> r == Denied(401, TOKEN_REQUIRED)
    ensures ExtractToken(header).Some? && verify(ExtractToken(header).value).None? <==> r == Denied(403, TOKEN_INVALID)
    ensures r.Authenticated? ==> verify(ExtractToken(header).value) == Some(r.user)
    ensures ExtractToken(header).Some? && verify(ExtractToken(header).value).Some? ==>
              r == Authenticated(verify(ExtractToken(header).value).value)
  {
    var token := ExtractToken(header);
    if token.None? then Denied(401, TOKEN_REQUIRED)
    else
      var decoded := verify(token.value);
      if decoded.None? then Denied(403, TOKEN_INVALID) else Authenticated(decoded.value)
  }
}
