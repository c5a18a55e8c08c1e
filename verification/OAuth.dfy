/** internal/oauth: access tokens, their expiry arithmetic, and the token endpoint. Times are in
    nanoseconds since the epoch, as Go's time.Time resolves them; Unix() truncates to seconds. */
module OAuth {
  import opened Wrappers
  import opened AppErrors
  import opened Platform
  import opened Runs
  import opened Worlds

  const SECOND: int := 1_000_000_000
  const INT64_MIN: int := -0x8000_0000_0000_0000
  const INT64_MAX: int := 0x7FFF_FFFF_FFFF_FFFF

  /** A time whose seconds are an int64. */
  type Time = t: nat | t < INT64_MAX * SECOND

  /** Go's int64 addition: two's complement wrap-around. */
  function Wrap64(x: int): (r: int)
    ensures INT64_MIN <= r <= INT64_MAX
    ensures x <= INT64_MAX && INT64_MIN <= x ==> r == x
    ensures INT64_MIN <= x ==> r <= x
  {
    (x - INT64_MIN) % 0x1_0000_0000_0000_0000 + INT64_MIN
  }

  datatype Token = Token(accessToken: string, expiration: int) {
    /** At the given time. An expiration second that has just begun is not yet over. */
    predicate EmptyOrExpired(now: nat) {
      accessToken == "" || now > expiration * SECOND
    }
  }

  /** A token that the endpoint issued: when, and with what `expires_in`. */
  datatype Grant = Grant(accessToken: string, issuedAt: nat, expiresIn: int) {
    /** The last moment of the token's lifetime (section 5.1 of RFC 6749). */
    function End(): int { issuedAt + expiresIn * SECOND }
  }

  ghost predicate BackedBy(token: Token, g: Grant) {
    g.accessToken == token.accessToken && token.expiration * SECOND <= g.End()
  }

  class OAuthClient {
    const outside: Outside
    var clock: Time
    /** The token endpoint's answer is a failed call if the token has expired when the clock is next read; after
        another answer, `deadline` is the end of the token, which that reading is not later than. */
    var deadline: Option<int>
    ghost var grants: set<Grant>

    ghost predicate Valid()
      reads this, outside
    {
      outside.Valid() && (deadline.Some? ==> clock <= deadline.value)
    }

    constructor (outside: Outside)
      requires outside.Valid()
      ensures Valid() && this.outside == outside && grants == {}
    {
      this.outside, clock, deadline, grants := outside, 0, None, {};
    }

    /** time.Now(): the clock never goes back. */
    method Now() returns (now: Time)
      requires Valid()
      modifies `clock, `deadline
      ensures Valid() && now == clock && old(clock) <= clock && deadline == None
      ensures old(deadline).Some? ==> clock <= old(deadline).value
    {
      var passed: int := *;
      var later := clock + passed;
      if passed > 0 && later < INT64_MAX * SECOND && (deadline == None || later <= deadline.value) {
        clock := later;
      }
      deadline := None;
      now := clock;
    }

    /** What the endpoint issues, as access token and `expires_in`; without a failure it does not expire at once. */
    method Issue(unix: nat, issued: Time, fails: bool) returns (accessToken: string, expiresIn: int)
      requires unix <= issued / SECOND
      ensures INT64_MIN <= expiresIn <= INT64_MAX
      ensures !fails ==> !Token(accessToken, Wrap64(expiresIn + unix)).EmptyOrExpired(issued)
    {
      accessToken, expiresIn := *, *;
      expiresIn := Wrap64(expiresIn);
      if !fails && Token(accessToken, Wrap64(expiresIn + unix)).EmptyOrExpired(issued) {
        accessToken, expiresIn := "token", issued / SECOND + 1 - unix;
      }
    }

    /** The clock is read before the request is sent, so the expiration that is computed from it is
        never later than the end of the lifetime that the issuer grants. Unless the call fails there is a token,
        and it is still valid when the clock is next read. */
    method GetAuthorizationToken() returns (token: Token, err: Option<AppError>, ghost grant: Grant)
      requires Valid()
      modifies `clock, `deadline, `grants, outside`log, outside`faults
      ensures Valid() && old(grants) <= grants && old(clock) <= clock
      ensures old(outside.log) <= outside.log && old(outside.faults) <= outside.faults
      ensures err == None ==> grant in grants && old(clock) <= grant.issuedAt <= clock && BackedBy(token, grant)
      ensures err.Some? ==> token == Token("", 0) && err.value.cause == Unknown
      ensures if outside.faults == old(outside.faults) then
                err == None && token.accessToken != "" && deadline == Some(token.expiration * SECOND)
              else FailsIn(outside.log, |old(outside.log)|, {AccessTokenRequest})
    {
      hide Recorded;
      hide FailsIn;
      token, grant := Token("", 0), Grant("", 0, 0);
      var now := Now();
      var unix := now / SECOND;
      var fails := outside.Try(AccessTokenRequest);
      var called: bool := *;
      if fails && !called {
        return token, Some(Internal("Failed to execute http call")), grant;
      }
      var issued := Now();
      var accessToken, expiresIn := Issue(unix, issued, fails);
      grant := Grant(accessToken, issued, expiresIn);
      grants := grants + {grant};
      var accepted: bool, readable: bool := *, *;
      if fails && !accepted {
        return token, Some(External("Get token call returned unexpected status")), grant;
      }
      if fails && !readable {
        return token, Some(Internal("failed to unmarshal token response body")), grant;
      }
      token := Token(accessToken, expiresIn);
      token := token.(expiration := Wrap64(token.expiration + unix));
      err := None;
      if !fails {
        deadline := Some(token.expiration * SECOND);
      }
    }
  }
}
