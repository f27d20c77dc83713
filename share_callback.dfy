/** The OAuth callback for share links: the query-parameter guards, and the
    choice of where to send the user afterwards. The session id is read from
    the OAuth state, or failing that from the referer, with the pattern
    `/compare/` followed by one or more characters other than `/` and `?`.
    The token exchange, the JWT and the cookie are outside the model; whether
    the exchange succeeded is a parameter. */
module ShareCallback {
  import opened Common

  const Marker := "/compare/"

  /** A character the capture group `[^\/\?]` accepts. */
  predicate IdChar(c: char)
  {
    c != '/' && c != '?'
  }

  /** The pattern matches at `i`: the marker, then at least one id character. */
  predicate MatchesAt(s: string, i: int)
  {
    OccursAt(s, Marker, i) && i + |Marker| < |s| && IdChar(s[i + |Marker|])
  }

  /** The number of id characters from position `j` on: how far the greedy
      `+` extends. */
  function RunLength(s: string, j: nat): (n: nat)
    requires j <= |s|
    ensures j + n <= |s|
    ensures forall k :: j <= k < j + n ==> IdChar(s[k])
    ensures j + n == |s| || !IdChar(s[j + n])
    decreases |s| - j
  {
    if j == |s| || !IdChar(s[j]) then 0 else 1 + RunLength(s, j + 1)
  }

  /** The leftmost position from `i` on where the pattern matches. */
  function FindMatch(s: string, i: nat): (r: Option<nat>)
    ensures r.Some? ==> i <= r.value && MatchesAt(s, r.value)
    decreases |s| - i
  {
    if i + |Marker| >= |s| then None
    else if MatchesAt(s, i) then Some(i)
    else FindMatch(s, i + 1)
  }

  /** The search finds the first matching position at or after `i`, and
      finds nothing exactly when there is none. */
  lemma {:induction false} FindMatchSpec(s: string, i: nat)
    ensures FindMatch(s, i).Some? ==> forall j :: i <= j < FindMatch(s, i).value ==> !MatchesAt(s, j)
    ensures FindMatch(s, i).None? ==> forall j :: i <= j ==> !MatchesAt(s, j)
    decreases |s| - i
  {
    if i + |Marker| < |s| && !MatchesAt(s, i) {
      FindMatchSpec(s, i + 1);
    }
  }

  /** `s.match(/\/compare\/([^\/\?]+)/)?.[1]`. */
  function ExtractSessionId(s: string): Option<string>
  {
    match FindMatch(s, 0)
    case None => None
    case Some(p) => Some(s[p + |Marker| .. p + |Marker| + RunLength(s, p + |Marker|)])
  }

  /** A session id is found exactly when the pattern matches somewhere. It is
      then taken from the leftmost match: the longest run of id characters
      right after the marker, which is non-empty and holds neither `/` nor
      `?`. */
  lemma ExtractSpec(s: string)
    ensures ExtractSessionId(s).Some? <==> exists i :: 0 <= i && MatchesAt(s, i)
    ensures ExtractSessionId(s).Some? ==>
              var p := FindMatch(s, 0).value;
              var id := ExtractSessionId(s).value;
              && MatchesAt(s, p)
              && (forall j :: 0 <= j < p ==> !MatchesAt(s, j))
              && id == s[p + |Marker| .. p + |Marker| + |id|]
              && id != []
              && (forall k :: 0 <= k < |id| ==> IdChar(id[k]))
              && (p + |Marker| + |id| == |s| || !IdChar(s[p + |Marker| + |id|]))
  {
    FindMatchSpec(s, 0);
  }

  /** Appending the path to a valid id and extracting the id again gives it
      back. */
  lemma ExtractFromPath(id: string)
    requires id != [] && forall k :: 0 <= k < |id| ==> IdChar(id[k])
    ensures ExtractSessionId(Marker + id) == Some(id)
  {
    var s := Marker + id;
    assert OccursAt(s, Marker, 0) by {
      assert s[..|Marker|] == Marker;
    }
    assert s[|Marker|] == id[0];
    assert FindMatch(s, 0) == Some(0);
    RunToEnd(s, |Marker|);
    assert s[|Marker|..|s|] == id;
  }

  /** A run of id characters reaching the end of the string is taken whole. */
  lemma {:induction false} RunToEnd(s: string, j: nat)
    requires j <= |s| && forall k :: j <= k < |s| ==> IdChar(s[k])
    ensures RunLength(s, j) == |s| - j
    decreases |s| - j
  {
    if j < |s| {
      RunToEnd(s, j + 1);
    }
  }

  /** The session id in the state parameter, when that is present and non-empty. */
  function SessionIdFromState(state: Option<string>): Option<string>
  {
    if Truthy(state) then ExtractSessionId(state.value) else None
  }

  /** The session id from the (already decoded) state, or else from the
      referer. */
  function SessionIdOf(state: Option<string>, referer: Option<string>): Option<string>
  {
    var fromState := SessionIdFromState(state);
    if Truthy(fromState) then fromState
    else if Truthy(referer) then ExtractSessionId(referer.value)
    else None
  }

  /** A session id in the state wins and the referer is not consulted; when
      the state yields none, the referer decides. */
  lemma StateBeforeReferer(state: Option<string>, referer: Option<string>)
    ensures SessionIdFromState(state).Some? ==> SessionIdOf(state, referer) == SessionIdFromState(state)
    ensures SessionIdFromState(state).None? ==>
              SessionIdOf(state, referer) == if referer.Some? then ExtractSessionId(referer.value) else None
  {
    if Truthy(state) {
      ExtractSpec(state.value);
    }
    if referer.Some? && referer.value == "" {
      assert FindMatch(referer.value, 0) == None;
    }
  }

  /** Whatever its source, a found session id is non-empty and holds neither
      `/` nor `?`. */
  lemma SessionIdShape(state: Option<string>, referer: Option<string>)
    ensures SessionIdOf(state, referer).Some? ==>
              var id := SessionIdOf(state, referer).value;
              id != [] && forall k :: 0 <= k < |id| ==> IdChar(id[k])
  {
    if Truthy(state) {
      ExtractSpec(state.value);
    }
    if Truthy(referer) {
      ExtractSpec(referer.value);
    }
  }

  /** `sessionId ? `/compare/${sessionId}` : '/dashboard'`. */
  function CallbackPath(sessionId: Option<string>): string
  {
    if Truthy(sessionId) then Marker + sessionId.value else "/dashboard"
  }

  /** The comparison page is chosen exactly when a session id was found, and
      the session id can be read back from the path. */
  lemma CallbackPathSpec(state: Option<string>, referer: Option<string>)
    ensures var id := SessionIdOf(state, referer);
            && (id.Some? ==> CallbackPath(id) == Marker + id.value
                             && ExtractSessionId(CallbackPath(id)) == id)
            && (id.None? ==> CallbackPath(id) == "/dashboard")
  {
    SessionIdShape(state, referer);
    var id := SessionIdOf(state, referer);
    if id.Some? {
      ExtractFromPath(id.value);
    }
  }

  // ---------------------------------------------------------------------------
  // The handler

  datatype Response =
    | JsonError(status: int, message: string)
    | Redirect(path: string)

  /** The route: an `error` parameter is answered first, then a missing
      `code`; a failed token exchange gives 500; otherwise the user is
      redirected. */
  function HandleCallback(code: Option<string>, error: Option<string>, exchangeSucceeded: bool,
                          state: Option<string>, referer: Option<string>): Response
  {
    if Truthy(error) then JsonError(400, "Spotify OAuth error: " + error.value)
    else if !Truthy(code) then JsonError(400, "No code provided")
    else if !exchangeSucceeded then JsonError(500, "Spotify authentication failed")
    else Redirect(CallbackPath(SessionIdOf(state, referer)))
  }

  /** An OAuth error is reported whatever the code, the exchange, the state and
      the referer; a missing code is reported only when there is no error;
      a redirect happens only after both checks and a successful exchange. */
  lemma GuardOrder(code: Option<string>, error: Option<string>, exchangeSucceeded: bool,
                   state: Option<string>, referer: Option<string>)
    ensures Truthy(error) ==>
              HandleCallback(code, error, exchangeSucceeded, state, referer)
              == JsonError(400, "Spotify OAuth error: " + error.value)
    ensures HandleCallback(code, error, exchangeSucceeded, state, referer) == JsonError(400, "No code provided")
            <==> !Truthy(error) && !Truthy(code)
    ensures HandleCallback(code, error, exchangeSucceeded, state, referer).Redirect?
            <==> !Truthy(error) && Truthy(code) && exchangeSucceeded
  {
    if Truthy(error) {
      var m := "Spotify OAuth error: " + error.value;
      assert m[..5] == "Spoti";
      assert "No code provided"[..5] == "No co";
    }
  }
}
