/** The per-request token filter: the bearer token is taken from the
  * Authorization header; a valid token authenticates the request, an
  * expired or otherwise invalid one ends it with 401, and a request without
  * a token goes on unauthenticated. A valid token whose user no longer
  * exists makes the user lookup throw an exception the filter does not
  * catch, so the request ends without a 401 and without going on. Token
  * validation and the user lookup are inputs. */
module JwtFilter {
  import opened Common

  const BEARER_PREFIX: string := "Bearer "

  /** Character.isWhitespace: the ASCII controls it lists and the Unicode
    * space, line and paragraph separators other than the no-break ones. */
  predicate IsWhitespace(c: char)
  {
    var k := c as int;
    (9 <= k <= 13) || (28 <= k <= 32) || k == 0x1680 || (0x2000 <= k <= 0x2006) || (0x2008 <= k <= 0x200A) ||
    k == 0x2028 || k == 0x2029 || k == 0x205F || k == 0x3000
  }

  /** StringUtils.hasText: present, and some character is not whitespace. */
  predicate HasText(s: Option<string>)
  {
    s.Some? && exists i :: 0 <= i < |s.value| && !IsWhitespace(s.value[i])
  }

  /** String.startsWith, which compares case-sensitively. */
  predicate StartsWith(s: string, prefix: string)
  {
    |prefix| <= |s| && s[..|prefix|] == prefix
  }

  /** resolveToken: what follows "Bearer " in a header that has text and
    * starts with it; nothing otherwise. */
  function ResolveToken(authorization: Option<string>): (token: Option<string>)
    ensures token.Some? <==> authorization.Some? && StartsWith(authorization.value, BEARER_PREFIX)
    ensures token.Some? ==> BEARER_PREFIX + token.value == authorization.value
    ensures token.Some? ==> |token.value| == |authorization.value| - |BEARER_PREFIX|
  {
    if HasText(authorization) && StartsWith(authorization.value, BEARER_PREFIX) then
      assert authorization.value == BEARER_PREFIX + authorization.value[|BEARER_PREFIX|..];
      Some(authorization.value[|BEARER_PREFIX|..])
    else
      assert authorization.Some? && StartsWith(authorization.value, BEARER_PREFIX) ==> HasText(authorization) by {
        if authorization.Some? && StartsWith(authorization.value, BEARER_PREFIX) {
          assert authorization.value[0] == 'B';
        }
      }
      None
  }

  /** Every token survives the header: "Bearer " followed by any token,
    * even an empty one, gives that token back. */
  lemma ResolveRoundTrip(token: string)
    ensures ResolveToken(Some(BEARER_PREFIX + token)) == Some(token)
  {
    assert (BEARER_PREFIX + token)[..|BEARER_PREFIX|] == BEARER_PREFIX;
  }

  /** The prefix match is case-sensitive, and a missing, empty or blank
    * header carries no token. */
  lemma ResolveRejects(token: string)
    ensures ResolveToken(Some("bearer " + token)) == None
    ensures ResolveToken(None) == None
    ensures ResolveToken(Some("")) == None
    ensures ResolveToken(Some("   ")) == None
  {
    assert ("bearer " + token)[0] == 'b';
  }

  /** What validateToken does with a token: true, false, or one of the two
    * exceptions the filter catches. */
  datatype Validation = Valid | NotValid | Expired | Invalid

  /** The filter's decision: go on down the chain, authenticated as a
    * principal or not; answer 401 with an error code; or let the user
    * lookup's UsernameNotFoundException escape the filter. */
  datatype Decision = Continue(principal: Option<string>) | Reject(code: string) | Escapes

  const TOKEN_EXPIRED: string := "TOKEN_EXPIRED"
  const INVALID_TOKEN: string := "INVALID_TOKEN"
  const SC_UNAUTHORIZED: int := 401

  /** `principalOf` is the user lookup of getAuthentication: the user a
    * token names, or None when loadUserByUsername finds no such user. */
  function Decide(authorization: Option<string>, validate: string -> Validation,
                  principalOf: string -> Option<string>)
    : (d: Decision)
    ensures ResolveToken(authorization).None? ==> d == Continue(None)
    ensures d.Reject? <==> ResolveToken(authorization).Some? &&
                           validate(ResolveToken(authorization).value) in {Expired, Invalid}
    ensures d.Escapes? <==> ResolveToken(authorization).Some? &&
                            validate(ResolveToken(authorization).value) == Valid &&
                            principalOf(ResolveToken(authorization).value).None?
    ensures d.Continue? && d.principal.Some? <==>
      ResolveToken(authorization).Some? && validate(ResolveToken(authorization).value) == Valid &&
      principalOf(ResolveToken(authorization).value).Some?
    ensures d.Continue? && d.principal.Some? ==> d.principal == principalOf(ResolveToken(authorization).value)
  {
    var token := ResolveToken(authorization);
    if token.None? then Continue(None)
    else
      match validate(token.value)
      case Valid => if principalOf(token.value).None? then Escapes else Continue(principalOf(token.value))
      case NotValid => Continue(None)
      case Expired => Reject(TOKEN_EXPIRED)
      case Invalid => Reject(INVALID_TOKEN)
  }

  /** The request and response as the filter sees them: the response status
    * and error code, the security context's authentication, and whether
    * the chain was continued. */
  class FilterExchange {
    var status: int
    var errorCode: Option<string>
    var authentication: Option<string>
    var chainContinued: bool

    constructor (initialStatus: int, authenticatedAs: Option<string>)
      ensures status == initialStatus && errorCode == None && authentication == authenticatedAs
      ensures !chainContinued
    {
      status := initialStatus;
      errorCode := None;
      authentication := authenticatedAs;
      chainContinued := false;
    }

    /** doFilterInternal: a rejected request gets 401 and an error code and
      * goes no further; a valid token for a missing user throws out of the
      * filter with nothing written and the chain not continued; any other
      * request continues down the chain, with the token's principal in the
      * security context when it was valid. */
    method DoFilterInternal(authorization: Option<string>, validate: string -> Validation,
                            principalOf: string -> Option<string>)
      modifies this
      ensures var d := Decide(authorization, validate, principalOf);
        match d
        case Reject(code) =>
          status == SC_UNAUTHORIZED && errorCode == Some(code) && chainContinued == old(chainContinued) &&
          authentication == old(authentication)
        case Continue(principal) =>
          status == old(status) && errorCode == old(errorCode) && chainContinued &&
          authentication == (if principal.Some? then principal else old(authentication))
        case Escapes =>
          status == old(status) && errorCode == old(errorCode) && chainContinued == old(chainContinued) &&
          authentication == old(authentication)
    {
      var token := ResolveToken(authorization);
      if token.Some? {
        var outcome := validate(token.value);
        if outcome == Expired {
          status := SC_UNAUTHORIZED;
          errorCode := Some(TOKEN_EXPIRED);
          return;
        } else if outcome == Invalid {
          status := SC_UNAUTHORIZED;
          errorCode := Some(INVALID_TOKEN);
          return;
        } else if outcome == Valid {
          var principal := principalOf(token.value);
          if principal.None? {
            return;
          }
          authentication := principal;
        }
      }
      chainContinued := true;
    }
  }
}
