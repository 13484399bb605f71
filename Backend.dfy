/**
 * The request-side decisions of the Flask backend: the bearer-token guard,
 * the Google sign-in field check, and the dashboard's task-status counts.
 * The identity provider and the document store are parameters.
 */
module Backend {
  import opened Base
  import opened RecordList

  datatype Response = Response(status: nat, message: string)

  // ---------------------------------------------------------------------------
  // Python's str.split(sep)

  predicate OccursAt(s: string, sep: string, k: int)
  {
    0 <= k && k + |sep| <= |s| && s[k..k + |sep|] == sep
  }

  /** `s.find(sep)`: the first position where `sep` occurs. */
  function Find(s: string, sep: string): (r: Option<nat>)
    requires |sep| > 0
    ensures r.Some? ==> r.value + |sep| <= |s|
    decreases |s|
  {
    if |s| < |sep| then None
    else if s[..|sep|] == sep then Some(0)
    else match Find(s[1..], sep)
      case None => None
      case Some(i) => Some(i + 1)
  }

  /** Find answers the first occurrence, and `None` exactly when there is none. */
  lemma {:induction false} FindIsFirstOccurrence(s: string, sep: string)
    requires |sep| > 0
    ensures Find(s, sep).Some? ==> OccursAt(s, sep, Find(s, sep).value) && forall k :: 0 <= k < Find(s, sep).value ==> !OccursAt(s, sep, k)
    ensures Find(s, sep).None? ==> forall k :: !OccursAt(s, sep, k)
    decreases |s|
  {
    if |s| >= |sep| && s[..|sep|] != sep {
      FindIsFirstOccurrence(s[1..], sep);
      forall k | OccursAt(s, sep, k) && k > 0 ensures OccursAt(s[1..], sep, k - 1) {
        assert s[1..][k - 1..k - 1 + |sep|] == s[k..k + |sep|];
      }
      if Find(s[1..], sep).Some? {
        var i := Find(s[1..], sep).value;
        assert Find(s, sep) == Some(i + 1) && i + |sep| <= |s| - 1;
        assert s[1..][i..i + |sep|] == s[i + 1..i + 1 + |sep|];
      }
    }
  }

  /** `s.split(sep)`: the pieces between non-overlapping occurrences, left to right. */
  function Split(s: string, sep: string): (r: seq<string>)
    requires |sep| > 0
    ensures |r| >= 1
    decreases |s|
  {
    match Find(s, sep)
    case None => [s]
    case Some(i) => [s[..i]] + Split(s[i + |sep|..], sep)
  }

  lemma OccursAtShift(s: string, sep: string, a: nat, k: int)
    requires a <= |s|
    ensures OccursAt(s[a..], sep, k) <==> k >= 0 && OccursAt(s, sep, a + k)
  {
    if k >= 0 && k + |sep| <= |s| - a {
      assert s[a..][k..k + |sep|] == s[a + k..a + k + |sep|];
    }
  }

  const Bearer: string := "Bearer "

  /** `header.split('Bearer ')[1]`, `None` where Python raises IndexError. */
  function BearerToken(header: string): (r: Option<string>)
    ensures r.None? <==> Find(header, Bearer).None?
  {
    var parts := Split(header, Bearer);
    if |parts| >= 2 then Some(parts[1]) else None
  }

  /**
   * The token is the text after the first "Bearer " up to the next one or to
   * the end of the header; the header need not start with it.
   */
  lemma BearerTokenSpan(header: string)
    requires BearerToken(header).Some?
    ensures var token := BearerToken(header).value;
      var start := Find(header, Bearer).value + |Bearer|;
      var end := start + |token|;
      && end <= |header| && header[start..end] == token
      && (end == |header| || OccursAt(header, Bearer, end))
      && forall k :: start <= k < end ==> !OccursAt(header, Bearer, k)
  {
    var start := Find(header, Bearer).value + |Bearer|;
    BearerTokenIsFirstPiece(header);
    FirstPieceSpan(header, start);
  }

  lemma BearerTokenIsFirstPiece(header: string)
    requires Find(header, Bearer).Some?
    ensures Find(header, Bearer).value + |Bearer| <= |header|
    ensures BearerToken(header) == Some(Split(header[Find(header, Bearer).value + |Bearer|..], Bearer)[0])
  {
    SecondPiece(header, Bearer);
  }

  /** After a separator has been found, the second piece is the first piece of what follows it. */
  lemma SecondPiece(s: string, sep: string)
    requires |sep| > 0 && Find(s, sep).Some?
    ensures Find(s, sep).value + |sep| <= |s|
    ensures |Split(s, sep)| >= 2 && Split(s, sep)[1] == Split(s[Find(s, sep).value + |sep|..], sep)[0]
  {
    var i := Find(s, sep).value;
    var tail := Split(s[i + |sep|..], sep);
    assert Split(s, sep) == [s[..i]] + tail;
  }

  /** The first piece of the split of `header[start..]`, located in `header`. */
  lemma FirstPieceSpan(header: string, start: nat)
    requires start <= |header|
    ensures var token := Split(header[start..], Bearer)[0];
      var end := start + |token|;
      && end <= |header| && header[start..end] == token
      && (end == |header| || OccursAt(header, Bearer, end))
      && forall k :: start <= k < end ==> !OccursAt(header, Bearer, k)
  {
    if Find(header[start..], Bearer).None? {
      TokenRunsToEnd(header, start);
    } else {
      TokenStopsAtNext(header, start);
    }
  }

  lemma TokenRunsToEnd(header: string, start: nat)
    requires start <= |header| && Find(header[start..], Bearer).None?
    ensures Split(header[start..], Bearer)[0] == header[start..]
    ensures forall k :: start <= k < |header| ==> !OccursAt(header, Bearer, k)
  {
    FindIsFirstOccurrence(header[start..], Bearer);
    forall k | start <= k < |header| ensures !OccursAt(header, Bearer, k) {
      OccursAtShift(header, Bearer, start, k - start);
    }
  }

  lemma TokenStopsAtNext(header: string, start: nat)
    requires start <= |header| && Find(header[start..], Bearer).Some?
    ensures var j := Find(header[start..], Bearer).value;
      && Split(header[start..], Bearer)[0] == header[start..start + j]
      && OccursAt(header, Bearer, start + j)
      && forall k :: start <= k < start + j ==> !OccursAt(header, Bearer, k)
  {
    var rest := header[start..];
    FindIsFirstOccurrence(rest, Bearer);
    var j := Find(rest, Bearer).value;
    assert header[start..start + j] == rest[..j];
    OccursAtShift(header, Bearer, start, j);
    forall k | start <= k < start + j ensures !OccursAt(header, Bearer, k) {
      OccursAtShift(header, Bearer, start, k - start);
    }
  }

  /**
   * check_token: no (or an empty) Authorization header, or a header without
   * "Bearer ", or a token the identity provider rejects, all end in 401.
   * `verify` stands for the identity provider's verify_id_token.
   */
  function CheckToken<Identity>(header: Option<string>, verify: string -> Option<Identity>): (r: Result<Identity, Response>)
    ensures !Truthy(header) ==> r == Err(Response(401, "No token provided"))
    ensures Truthy(header) && BearerToken(header.value).None? ==> r == Err(Response(401, "Invalid token provided"))
    ensures Truthy(header) && BearerToken(header.value).Some? ==>
      r == (match verify(BearerToken(header.value).value)
            case Some(user) => Ok(user)
            case None => Err(Response(401, "Invalid token provided")))
  {
    if !Truthy(header) then Err(Response(401, "No token provided"))
    else match BearerToken(header.value)
      case None => Err(Response(401, "Invalid token provided"))
      case Some(token) =>
        match verify(token)
        case Some(user) => Ok(user)
        case None => Err(Response(401, "Invalid token provided"))
  }

  /** A token is accepted only when it is the identity provider's: the guard adds no other way in. */
  lemma AcceptedTokenIsVerified<Identity>(header: Option<string>, verify: string -> Option<Identity>)
    ensures CheckToken(header, verify).Ok? ==>
      Truthy(header) && BearerToken(header.value).Some?
      && verify(BearerToken(header.value).value) == Some(CheckToken(header, verify).value)
  {
  }

  // ---------------------------------------------------------------------------
  // google_auth

  datatype GoogleAuthOutcome =
    | Rejected(response: Response)
    | CreatedUser(uid: string)   // a new users/<uid> document, then 200
    | UpdatedUser(uid: string)   // lastLogin and profile refreshed, then 200

  /**
   * google_auth: email and uid are both required before the store is touched;
   * `userExists` stands for the users/<uid> document lookup.
   */
  function GoogleAuth(email: Option<string>, uid: Option<string>, userExists: bool): (r: GoogleAuthOutcome)
    ensures r.Rejected? <==> !Truthy(email) || !Truthy(uid)
    ensures r.Rejected? ==> r.response == Response(400, "Email and UID are required")
    ensures r.CreatedUser? ==> !userExists && Some(r.uid) == uid
    ensures r.UpdatedUser? ==> userExists && Some(r.uid) == uid
  {
    if !Truthy(email) || !Truthy(uid) then Rejected(Response(400, "Email and UID are required"))
    else if !userExists then CreatedUser(uid.value)
    else UpdatedUser(uid.value)
  }

  /** The rejection does not depend on the store: it is decided before any lookup. */
  lemma GoogleAuthValidatesFirst(email: Option<string>, uid: Option<string>)
    requires !Truthy(email) || !Truthy(uid)
    ensures GoogleAuth(email, uid, true) == GoogleAuth(email, uid, false)
  {
  }

  // ---------------------------------------------------------------------------
  // Dashboard statistics

  predicate IsCompletedStatus(s: Option<string>) { s == Some("completed") }
  predicate IsInProgressStatus(s: Option<string>) { s == Some("in-progress") }
  predicate IsUpcomingStatus(s: Option<string>) { !IsCompletedStatus(s) && !IsInProgressStatus(s) }

  /** Appending one status adds one to exactly the bucket it belongs to. */
  lemma CountStep(prefix: seq<Option<string>>, status: Option<string>)
    ensures |Keep(prefix + [status], IsCompletedStatus)| == |Keep(prefix, IsCompletedStatus)| + (if IsCompletedStatus(status) then 1 else 0)
    ensures |Keep(prefix + [status], IsInProgressStatus)| == |Keep(prefix, IsInProgressStatus)| + (if IsInProgressStatus(status) then 1 else 0)
    ensures |Keep(prefix + [status], IsUpcomingStatus)| == |Keep(prefix, IsUpcomingStatus)| + (if IsUpcomingStatus(status) then 1 else 0)
  {
    KeepAppend(prefix, [status], IsCompletedStatus);
    KeepAppend(prefix, [status], IsInProgressStatus);
    KeepAppend(prefix, [status], IsUpcomingStatus);
  }

  /**
   * The counting loop of get_dashboard_overview over the `status` of each of
   * the user's tasks (`None` where the field is missing): 'completed',
   * 'in-progress', and everything else as upcoming.
   */
  method DashboardStats(statuses: seq<Option<string>>) returns (completed: nat, inProgress: nat, upcoming: nat)
    ensures completed == |Keep(statuses, IsCompletedStatus)|
    ensures inProgress == |Keep(statuses, IsInProgressStatus)|
    ensures upcoming == |Keep(statuses, IsUpcomingStatus)|
    ensures completed + inProgress + upcoming == |statuses|
  {
    completed, inProgress, upcoming := 0, 0, 0;
    var i := 0;
    while i < |statuses|
      invariant 0 <= i <= |statuses|
      invariant completed == |Keep(statuses[..i], IsCompletedStatus)|
      invariant inProgress == |Keep(statuses[..i], IsInProgressStatus)|
      invariant upcoming == |Keep(statuses[..i], IsUpcomingStatus)|
      invariant completed + inProgress + upcoming == i
    {
      var status := statuses[i];
      assert statuses[..i + 1] == statuses[..i] + [status];
      CountStep(statuses[..i], status);
      if status == Some("completed") {
        completed := completed + 1;
      } else if status == Some("in-progress") {
        inProgress := inProgress + 1;
      } else {
        upcoming := upcoming + 1;
      }
      i := i + 1;
    }
    assert statuses[..|statuses|] == statuses;
  }
}
