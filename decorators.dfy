/** The `require_auth` guard of backend/utils/decorators.py, as a decision on
    the Authorization header and the session map. */
module Decorators {
  import opened Common
  import Validators
  import AuthService

  const MissingTokenMessage := "Unauthorized - Missing token"
  const InvalidTokenMessage := "Unauthorized - Invalid or expired token"

  /** Either the 401 the guard answers with, or the call of the wrapped handler
      with the user id it injects. */
  datatype Guard = Reject(status: int, error: string) | Invoke(userId: int)

  function RequireAuth(header: Option<string>, sessions: map<string, int>): (g: Guard)
    ensures !Validators.Given(Validators.ExtractToken(header)) ==> g == Reject(401, MissingTokenMessage)
    ensures (Validators.Given(Validators.ExtractToken(header)) &&
             (Validators.ExtractToken(header).value !in sessions ||
              sessions[Validators.ExtractToken(header).value] == 0)) ==>
      g == Reject(401, InvalidTokenMessage)
    ensures g.Invoke? <==>
      exists t :: header == Some(Validators.BearerPrefix + t) && t != "" && t in sessions && sessions[t] != 0
    ensures forall t :: header == Some(Validators.BearerPrefix + t) && g.Invoke? ==> g.userId == sessions[t]
  {
    var token := Validators.ExtractToken(header);
    if !Validators.Given(token) then Reject(401, MissingTokenMessage)
    else
      var userId := AuthService.LookupSession(sessions, token.value);
      if userId.None? || userId.value == 0 then Reject(401, InvalidTokenMessage)
      else
        Validators.ExtractTokenRoundTrip(token.value);
        PrefixedTokenUnique(header.value, token.value);
        Invoke(userId.value)
  }

  lemma PrefixedTokenUnique(h: string, t: string)
    requires h == Validators.BearerPrefix + t
    ensures forall u :: h == Validators.BearerPrefix + u ==> u == t
  {
    forall u | h == Validators.BearerPrefix + u ensures u == t {
      assert u == h[|Validators.BearerPrefix|..];
      assert t == h[|Validators.BearerPrefix|..];
    }
  }
}
