/** The two coroutines that use and replace the hub's credentials, each run by itself. */
module TokenClient {
  import opened Wrappers
  import opened SseFraming
  import opened TokenSwap

  /** What the exchange endpoint answers: an API token or an error. */
  datatype Answer = Granted(token: string, endpoint: string, expiresAt: int) | Denied

  datatype Reply = Token(api: Api) | NotAuthenticated | ExchangeFailed | TokenRequired

  /** More than five minutes, in seconds, are left of the token. */
  predicate LastsFive(cache: Option<Api>, now: int) {
    match cache
    case None => false
    case Some(api) => api.expiresAt > now + 5 * 60
  }

  predicate Given(x: Option<string>) { x.Some? && |x.value| > 0 }

  /** A stored token wins over the deployed one; neither counts when it is empty. */
  function InUse(store: Option<string>, deployed: Option<string>): Option<string> {
    if Given(store) then store else if Given(deployed) then deployed else None
  }

  class Credentials {
    var store: Option<string>
    var deployed: Option<string>
    var cache: Option<Api>

    ghost function View(): State
      reads this
    {
      State(store, deployed, cache, None)
    }

    constructor (s: Option<string>, d: Option<string>)
      ensures View() == State(s, d, None, None) && Matches(View())
    {
      store, deployed, cache := s, d, None;
    }

    /** `get_api_token` */
    method GetApiToken(now: int, id: int, answer: Answer) returns (reply: Reply)
      requires Matches(View())
      modifies this`cache
      ensures Matches(View())
      ensures View() == if Usable(old(cache), now) || Current(old(View())).None? then old(View())
                        else Apply(Apply(old(View()), Get(id, now)), Outcome(answer))
      ensures reply.Token? ==> Current(View()) == Some(reply.api.from) && cache == Some(reply.api)
      ensures LastsFive(old(cache), now) ==> reply == Token(old(cache).value)
      ensures !LastsFive(old(cache), now) ==>
                match InUse(store, deployed)
                case None => reply == NotAuthenticated
                case Some(oauth) =>
                  if answer.Denied? then reply == ExchangeFailed
                  else reply == Token(Api(answer.token, answer.endpoint, answer.expiresAt, oauth))
    {
      if cache.Some? && cache.value.expiresAt - 300 > now { return Token(cache.value); }
      var oauth := Resolve(store, deployed);
      if oauth.None? { return NotAuthenticated; }
      match answer {
        case Denied => return ExchangeFailed;
        case Granted(token, endpoint, expiresAt) =>
          cache := Some(Api(token, endpoint, expiresAt, oauth.value));
          return Token(cache.value);
      }
    }

    /** `install_oauth_token` */
    method InstallOauthToken(raw: string, id: int, answer: Answer) returns (reply: Reply)
      requires Matches(View())
      modifies this
      ensures Matches(View()) && deployed == old(deployed)
      ensures Strip(raw) != "" ==> View() == Apply(Apply(old(View()), Install(id, Strip(raw))), Outcome(answer))
      ensures reply.Token? ==> store == Some(Strip(raw)) && cache == Some(reply.api) && reply.api.from == Strip(raw)
      ensures !reply.Token? ==> store == old(store) && cache == old(cache)
      ensures reply.TokenRequired? <==> Strip(raw) == ""
    {
      var token := Strip(raw);
      if token == "" { return TokenRequired; }
      var (previousOauth, previousApi) := (store, cache);
      store := Some(token);
      cache := None;
      match answer {
        case Denied =>
          store := if previousOauth.None? then None else previousOauth;
          cache := previousApi;
          return ExchangeFailed;
        case Granted(api, endpoint, expiresAt) =>
          cache := Some(Api(api, endpoint, expiresAt, token));
          return Token(cache.value);
      }
    }
  }

  /** The section that follows the await. */
  function Outcome(answer: Answer): Step {
    match answer
    case Granted(token, endpoint, expiresAt) => Exchanged(token, endpoint, expiresAt)
    case Denied => Refused
  }
}
