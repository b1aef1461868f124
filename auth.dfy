/**
  The `authenticateToken` middleware: the bearer token is the second
  space-separated word of the `authorization` header, and the signature
  check of the token library is a parameter `verify` from token to the
  account id it was signed for.
 */
module Auth {
  import opened Wrappers
  import opened Text

  /** The id of an account in the store. */
  type UserId = nat

  /**
    `header?.split(' ')[1]`, where an empty or absent second word counts as
    no token. A token found is one non-empty word without spaces.
   */
  function ExtractToken(header: Option<string>): (t: Option<string>)
    ensures t.Some? ==> header.Some? && t.value != "" && ' ' !in t.value
  {
    if header.None? then None
    else
      var parts := Split(header.value);
      if |parts| < 2 || parts[1] == "" then None else Some(parts[1])
  }

  /** The gate's three outcomes: 401, 403, or the identity handed to the route. */
  datatype Gate = NoToken | BadToken | Admitted(id: UserId)

  /** The middleware's decision for one request. */
  function Authenticate(header: Option<string>, verify: string -> Option<UserId>): (g: Gate)
    ensures g.NoToken? <==> ExtractToken(header).None?
    ensures g.BadToken? <==> ExtractToken(header).Some? && verify(ExtractToken(header).value).None?
    ensures g.Admitted? ==> ExtractToken(header).Some? && verify(ExtractToken(header).value) == Some(g.id)
  {
    match ExtractToken(header)
    case None => NoToken
    case Some(token) =>
      match verify(token)
      case None => BadToken
      case Some(id) => Admitted(id)
  }

  /**
    A header `scheme token` (or `scheme token ...`) yields `token`, whatever
    the scheme word is: the middleware does not check for "Bearer".
   */
  lemma {:induction false} TokenOfHeader(scheme: string, token: string, tail: string)
    requires ' ' !in scheme && ' ' !in token && token != ""
    requires tail == "" || tail[0] == ' '
    ensures ExtractToken(Some(scheme + " " + token + tail)) == Some(token)
  {
    var h := scheme + " " + token + tail;
    if tail == "" {
      assert h == scheme + " " + token;
      SplitAfterWord(scheme, token);
      SplitWord(token);
    } else {
      assert h == scheme + " " + (token + " " + tail[1..]) by {
        assert tail == " " + tail[1..];
      }
      SplitAfterWord(scheme, token + " " + tail[1..]);
      SplitAfterWord(token, tail[1..]);
    }
  }

  /**
    Conversely, a token taken from a header sits right after the first
    space, and after it comes the end of the header or another space.
   */
  lemma {:induction false} HeaderOfToken(h: string, token: string) returns (scheme: string, tail: string)
    requires ExtractToken(Some(h)) == Some(token)
    ensures ' ' !in scheme && (tail == "" || tail[0] == ' ')
    ensures h == scheme + " " + token + tail
  {
    var parts := Split(h);
    JoinSplit(h);
    scheme := parts[0];
    if |parts| == 2 {
      tail := "";
      assert Join(parts) == parts[0] + " " + Join(parts[1..]);
      assert Join(parts[1..]) == parts[1];
    } else {
      tail := " " + Join(parts[2..]);
      assert Join(parts) == parts[0] + " " + Join(parts[1..]);
      assert parts[1..][1..] == parts[2..];
      assert Join(parts[1..]) == parts[1] + " " + Join(parts[2..]);
    }
  }

  /** A header without a space, or with two spaces after the first word, is answered 401. */
  lemma {:induction false} NoTokenHeaders(word: string, rest: string)
    requires ' ' !in word
    ensures ExtractToken(Some(word)) == None
    ensures ExtractToken(Some(word + "  " + rest)) == None
  {
    SplitWord(word);
    assert word + "  " + rest == word + " " + (" " + rest);
    SplitAfterWord(word, " " + rest);
    SplitAfterWord("", rest);
  }

  /**
    The token issued at login for account `id` passes the gate as `id` and
    as no other account, provided the token library verifies what it signs
    and its tokens contain no space.
   */
  lemma IssuedTokenAdmits(id: UserId, sign: UserId -> string, verify: string -> Option<UserId>)
    requires verify(sign(id)) == Some(id)
    requires sign(id) != "" && ' ' !in sign(id)
    ensures Authenticate(Some("Bearer " + sign(id)), verify) == Admitted(id)
  {
    assert "Bearer " + sign(id) == "Bearer" + " " + sign(id) + "";
    TokenOfHeader("Bearer", sign(id), "");
  }
}
