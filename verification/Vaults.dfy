/**
 OAuth credentials and their refresh (section 6 of RFC 6749). A reservation is stored before a
 refresh request goes out and removed only with a recorded answer, a rotation or a deletion, so a
 request whose outcome nobody knows is never followed by another, and a refresh never overwrites
 secrets it did not start from.
 */
module Vaults {
  import opened Options

  type CredentialId = string

  datatype Method = NoSecret | Basic(secret: string) | Post(secret: string)
  datatype Refresh = Refresh(client: string, token: string, endpoint: string, auth: Method,
                             resource: Option<string>, scope: Option<string>)
  datatype Auth =
    | Bearer(server: string, token: string)
    | OAuth(server: string, access: string, expires: Option<int>, refresh: Option<Refresh>)

  datatype Reservation = Reservation(fingerprint: string, operation: nat)
  datatype Store = Store(credentials: map<CredentialId, Auth>, reservations: map<CredentialId, Reservation>,
                         rejected: set<CredentialId>)

  datatype Error =
    | RefreshRejected | RefreshIndeterminate | RefreshFailed | Expired | Changed | NotFound | RotationInvalid
  datatype Result<+T> = Ok(value: T) | Err(error: Error)

  const EXPIRY_MARGIN: int := 30_000

  /** The token to use now; none when it must be refreshed first. */
  function UsableToken(s: Store, id: CredentialId, auth: Auth, now: int): Result<Option<string>> {
    if auth.Bearer? then Ok(Some(auth.token))
    else if id in s.rejected then Err(RefreshRejected)
    else if auth.expires.None? || auth.expires.value > now + EXPIRY_MARGIN then Ok(Some(auth.access))
    else if auth.refresh.None? then if auth.expires.value > now then Ok(Some(auth.access)) else Err(Expired)
    else Ok(None)
  }

  // --- Transactions ----------------------------------------------------------------------------------------

  function Reserve(s: Store, id: CredentialId, reservation: Reservation): Result<Store> {
    if id in s.reservations then Err(RefreshIndeterminate)
    else Ok(s.(reservations := s.reservations[id := reservation]))
  }

  predicate Holds(s: Store, id: CredentialId, operation: nat) {
    id in s.reservations && s.reservations[id].operation == operation
  }

  /** The endpoint answered without consuming the grant. */
  function Release(s: Store, id: CredentialId, operation: nat, final: bool): Store {
    s.(reservations := if Holds(s, id, operation) then s.reservations - {id} else s.reservations,
       rejected := if final then s.rejected + {id} else s.rejected)
  }

  datatype Grant = Grant(access: string, lifetime: Option<int>, token: Option<string>, scope: Option<string>)

  function Renewed(auth: Auth, grant: Grant, now: int): Auth
    requires auth.OAuth? && auth.refresh.Some?
  {
    auth.(access := grant.access,
          expires := if grant.lifetime.Some? then Some(now + grant.lifetime.value) else None,
          refresh := Some(auth.refresh.value.(
            token := if grant.token.Some? then grant.token.value else auth.refresh.value.token,
            scope := if grant.scope.Some? then grant.scope else auth.refresh.value.scope)))
  }

  function Commit(form: Auth -> string, s: Store, id: CredentialId, auth: Auth, operation: nat, grant: Grant, now: int)
    : Result<Store>
    requires auth.OAuth? && auth.refresh.Some?
  {
    if id !in s.credentials then Err(NotFound)
    else if form(s.credentials[id]) != form(auth) || !Holds(s, id, operation) then Err(Changed)
    else Ok(s.(credentials := s.credentials[id := Renewed(auth, grant, now)], reservations := s.reservations - {id}))
  }

  datatype MethodUpdate = MethodUpdate(basic: bool, secret: Option<string>)
  datatype RefreshUpdate = RefreshUpdate(token: Option<string>, scope: Option<Option<string>>, auth: Option<MethodUpdate>)
  datatype Rotation =
    | NewBearer(token: string)
    | NewOAuth(access: Option<string>, expires: Option<Option<int>>, refresh: Option<RefreshUpdate>)

  function RotatedMethod(current: Method, update: MethodUpdate): Result<Method> {
    if !(if update.basic then current.Basic? else current.Post?) then Err(RotationInvalid)
    else if update.secret.None? then Ok(current)
    else Ok(if update.basic then Basic(update.secret.value) else Post(update.secret.value))
  }

  function RotatedRefresh(current: Refresh, update: RefreshUpdate): Result<Refresh> {
    var next := current.(token := if update.token.Some? then update.token.value else current.token,
                         scope := if update.scope.Some? then update.scope.value else current.scope);
    if update.auth.None? then Ok(next)
    else
      match RotatedMethod(current.auth, update.auth.value)
      case Err(error) => Err(error)
      case Ok(auth) => Ok(next.(auth := auth))
  }

  function RotatedAuth(auth: Auth, update: Rotation): Result<Auth> {
    match update
    case NewBearer(token) => if auth.Bearer? then Ok(auth.(token := token)) else Err(RotationInvalid)
    case NewOAuth(access, expires, refresh) =>
      if !auth.OAuth? then Err(RotationInvalid)
      else
        var accessed := if access.Some? then auth.(access := access.value, expires := None) else auth;
        var dated := if expires.Some? then accessed.(expires := expires.value) else accessed;
        if refresh.None? then Ok(dated)
        else if auth.refresh.None? then Err(RotationInvalid)
        else
          match RotatedRefresh(auth.refresh.value, refresh.value)
          case Err(error) => Err(error)
          case Ok(next) => Ok(dated.(refresh := Some(next)))
  }

  function Cleared(s: Store, id: CredentialId): Store {
    s.(reservations := s.reservations - {id}, rejected := s.rejected - {id})
  }

  function Rotate(s: Store, id: CredentialId, update: Rotation): Result<Store> {
    if id !in s.credentials then Err(NotFound)
    else
      match RotatedAuth(s.credentials[id], update)
      case Err(error) => Err(error)
      case Ok(auth) => Ok(Cleared(s.(credentials := s.credentials[id := auth]), id))
  }

  function DeleteCredential(s: Store, id: CredentialId): Result<Store> {
    if id !in s.credentials then Err(NotFound)
    else Ok(Cleared(s.(credentials := s.credentials - {id}), id))
  }

  // --- A refresh under way -------------------------------------------------------------------------------------

  /** How the token endpoint's answer looks from here. */
  datatype Outcome = Granted(grant: Grant) | Refused(final: bool) | Unknown

  datatype Stage = Loaded | Reserved | Sent | Answered(outcome: Outcome)
  /** One refresh at a time holds the gate; it works from the credential as it read it. */
  datatype Flight = Flight(id: CredentialId, auth: Auth, operation: nat, stage: Stage)
  datatype World = World(store: Store, flight: Option<Flight>, minted: nat)

  datatype Step =
    | Ask(id: CredentialId, now: int)
    | ReserveIt
    | SendIt
    | Hear(outcome: Outcome)
    | Settle(now: int)
    | Crash
    | Turn(id: CredentialId, update: Rotation)
    | Discard(id: CredentialId)
    | Create(id: CredentialId, auth: Auth)

  /** A refusal is a definite answer, a grant is one if it can be recorded, silence is none. */
  function Settled(form: Auth -> string, s: Store, f: Flight, now: int): Store
    requires f.stage.Answered? && f.auth.OAuth? && f.auth.refresh.Some?
  {
    match f.stage.outcome
    case Unknown => s
    case Refused(final) => Release(s, f.id, f.operation, final)
    case Granted(grant) =>
      var result := Commit(form, s, f.id, f.auth, f.operation, grant, now);
      if result.Ok? then result.value else s
  }

  predicate Refreshable(f: Flight) { f.auth.OAuth? && f.auth.refresh.Some? }

  function Next(form: Auth -> string, w: World, step: Step): World {
    match step
    case Ask(id, now) =>
      if w.flight.Some? || id !in w.store.credentials then w
      else if UsableToken(w.store, id, w.store.credentials[id], now) != Ok(None) then w
      else World(w.store, Some(Flight(id, w.store.credentials[id], w.minted, Loaded)), w.minted + 1)
    case ReserveIt =>
      if w.flight.None? || !w.flight.value.stage.Loaded? then w
      else
        var f := w.flight.value;
        var result := Reserve(w.store, f.id, Reservation(form(f.auth), f.operation));
        if result.Ok? then World(result.value, Some(f.(stage := Reserved)), w.minted) else w.(flight := None)
    case SendIt =>
      if w.flight.None? || !w.flight.value.stage.Reserved? then w
      else w.(flight := Some(w.flight.value.(stage := Sent)))
    case Hear(outcome) =>
      if w.flight.None? || !w.flight.value.stage.Sent? then w
      else w.(flight := Some(w.flight.value.(stage := Answered(outcome))))
    case Settle(now) =>
      if w.flight.None? || !w.flight.value.stage.Answered? || !Refreshable(w.flight.value) then w
      else World(Settled(form, w.store, w.flight.value, now), None, w.minted)
    case Crash => w.(flight := None)
    case Turn(id, update) =>
      var result := Rotate(w.store, id, update);
      if result.Ok? then w.(store := result.value) else w
    case Discard(id) =>
      var result := DeleteCredential(w.store, id);
      if result.Ok? then w.(store := result.value) else w
    case Create(id, auth) =>
      if id in w.store.credentials then w else w.(store := w.store.(credentials := w.store.credentials[id := auth]))
  }

  // --- Requests with an unknown outcome ---------------------------------------------------------------------------

  /** The credentials for which a reserved request went out whose answer was never recorded, and whose. */
  datatype Watched = Watched(world: World, open: map<CredentialId, nat>)

  predicate Sends(w: World, step: Step) { step.SendIt? && w.flight.Some? && w.flight.value.stage.Reserved? }

  /** The request goes out while its own reservation stands: nothing was rotated in between. */
  predicate SendsReserved(w: World, step: Step) {
    Sends(w, step) && Holds(w.store, w.flight.value.id, w.flight.value.operation)
  }

  /** The answer to a request is recorded when its reservation goes. */
  predicate Records(before: World, after: World, step: Step, id: CredentialId) {
    && step.Settle? && before.flight.Some? && before.flight.value.id == id
    && Holds(before.store, id, before.flight.value.operation) && id !in after.store.reservations
  }

  /** A rotation or a deletion of this credential that took effect. */
  predicate Renews(before: World, step: Step, id: CredentialId) {
    match step
    case Turn(other, update) => other == id && Rotate(before.store, id, update).Ok?
    case Discard(other) => other == id && DeleteCredential(before.store, id).Ok?
    case _ => false
  }

  function Watch(form: Auth -> string, w: Watched, step: Step): Watched {
    var next := Next(form, w.world, step);
    var open :=
      if SendsReserved(w.world, step) then w.open[w.world.flight.value.id := w.world.flight.value.operation]
      else if step.Settle? && w.world.flight.Some? && Records(w.world, next, step, w.world.flight.value.id) then
        w.open - {w.world.flight.value.id}
      else if step.Turn? && Renews(w.world, step, step.id) then w.open - {step.id}
      else if step.Discard? && Renews(w.world, step, step.id) then w.open - {step.id}
      else w.open;
    Watched(next, open)
  }

  function WatchAll(form: Auth -> string, w: Watched, steps: seq<Step>): Watched
    decreases |steps|
  {
    if steps == [] then w else WatchAll(form, Watch(form, w, steps[0]), steps[1..])
  }

  /** Every request without a recorded answer still has its reservation. */
  ghost predicate Guarded(w: Watched) {
    && (forall id | id in w.open :: Holds(w.world.store, id, w.open[id]))
    && (w.world.flight.Some? ==>
        var f := w.world.flight.value;
        && Refreshable(f) && f.operation < w.world.minted
        && (f.stage.Loaded? || f.stage.Reserved? ==> forall id | id in w.open :: w.open[id] != f.operation)
        && (f.stage.Reserved? ==> f.id !in w.open)
        && (f.stage.Sent? || f.stage.Answered? ==> f.id in w.open ==> w.open[f.id] == f.operation))
    && forall id | id in w.open :: w.open[id] < w.world.minted
  }

  lemma StepKeepsGuard(form: Auth -> string, w: Watched, step: Step)
    requires Guarded(w)
    ensures Guarded(Watch(form, w, step))
    ensures Sends(w.world, step) ==> w.world.flight.value.id !in w.open
  {
  }

  lemma {:induction false} RunKeepsGuard(form: Auth -> string, w: Watched, steps: seq<Step>)
    requires Guarded(w)
    ensures Guarded(WatchAll(form, w, steps))
    decreases |steps|
  {
    if steps != [] {
      StepKeepsGuard(form, w, steps[0]);
      RunKeepsGuard(form, Watch(form, w, steps[0]), steps[1..]);
    }
  }

  /** Nothing on the way records an answer for this credential, rotates it or deletes it. */
  ghost predicate Unresolved(form: Auth -> string, w: Watched, id: CredentialId, steps: seq<Step>)
    decreases |steps|
  {
    steps == [] ||
    (!Records(w.world, Next(form, w.world, steps[0]), steps[0], id) && !Renews(w.world, steps[0], id)
     && Unresolved(form, Watch(form, w, steps[0]), id, steps[1..]))
  }

  lemma OpenStaysOpen(form: Auth -> string, w: Watched, id: CredentialId, step: Step)
    requires Guarded(w) && id in w.open
    requires !Records(w.world, Next(form, w.world, step), step, id) && !Renews(w.world, step, id)
    ensures id in Watch(form, w, step).open
  {
  }

  lemma {:induction false} OpenRunsStayOpen(form: Auth -> string, w: Watched, id: CredentialId, steps: seq<Step>)
    requires Guarded(w) && id in w.open && Unresolved(form, w, id, steps)
    ensures id in WatchAll(form, w, steps).open && Guarded(WatchAll(form, w, steps))
    decreases |steps|
  {
    if steps != [] {
      StepKeepsGuard(form, w, steps[0]);
      OpenStaysOpen(form, w, id, steps[0]);
      OpenRunsStayOpen(form, Watch(form, w, steps[0]), id, steps[1..]);
    }
  }

  const NOTHING: Store := Store(map[], map[], {})
  const START: Watched := Watched(World(NOTHING, None, 0), map[])

  /**
   After a refresh request is sent under its reservation, and until its answer is recorded or the
   credential is rotated or deleted, no further request goes out for the credential: not by another
   caller, and not after any number of crashes.
   */
  lemma UnansweredRequestsAreNotRepeated(
      form: Auth -> string, before: seq<Step>, send: Step, since: seq<Step>, again: Step)
    requires var w := WatchAll(form, START, before);
             SendsReserved(w.world, send) && Unresolved(form, Watch(form, w, send), w.world.flight.value.id, since)
    ensures var w := WatchAll(form, START, before);
            var later := WatchAll(form, Watch(form, w, send), since);
            Sends(later.world, again) ==> later.world.flight.value.id != w.world.flight.value.id
  {
    RunKeepsGuard(form, START, before);
    var w := WatchAll(form, START, before);
    var id := w.world.flight.value.id;
    StepKeepsGuard(form, w, send);
    OpenRunsStayOpen(form, Watch(form, w, send), id, since);
    StepKeepsGuard(form, WatchAll(form, Watch(form, w, send), since), again);
  }

  /** The credential is there, nothing is reserved for it, and its token has to be refreshed. */
  predicate Due(s: Store, id: CredentialId, now: int) {
    id in s.credentials && id !in s.reservations && UsableToken(s, id, s.credentials[id], now) == Ok(None)
  }

  /** A request is sent, nobody hears its answer, and the next caller comes as far as its own. */
  function AskedAgain(form: Auth -> string, w: World, id: CredentialId, now: int): World {
    var heard := Next(form, Next(form, Next(form, w, SendIt), Hear(Unknown)), Settle(now));
    Next(form, Next(form, heard, Ask(id, now)), ReserveIt)
  }

  /**
   The reservation is what matters. After a request whose answer nobody heard the next caller sends
   another if and only if, when the first went out, nothing was reserved for the credential any more and
   it was due: then nothing was recorded, rotated or deleted in between.
   */
  lemma OvertakenRequestsCanBeFollowed(form: Auth -> string, w: World, now: int)
    requires Sends(w, SendIt) && Refreshable(w.flight.value)
    ensures var id := w.flight.value.id;
            var again := AskedAgain(form, w, id, now);
            && (Sends(again, SendIt) <==> Due(w.store, id, now))
            && (Sends(again, SendIt) ==> again.flight.value.id == id && again.flight.value.auth == w.store.credentials[id])
  {
  }

  predicate DueAuth(auth: Auth, now: int) {
    auth.OAuth? && auth.refresh.Some? && auth.expires.Some? && auth.expires.value <= now + EXPIRY_MARGIN
  }

  /**
   It happens: any credential that is due, and any rotation that leaves it due, made after a refresh
   reserved and before it sent, let two requests go out with no answer to either.
   */
  lemma RotationsOvertakeRequests(form: Auth -> string, id: CredentialId, auth: Auth, update: Rotation, now: int)
    requires DueAuth(auth, now) && RotatedAuth(auth, update).Ok? && DueAuth(RotatedAuth(auth, update).value, now)
    ensures var w := WatchAll(form, START, [Create(id, auth), Ask(id, now), ReserveIt, Turn(id, update)]).world;
            var again := AskedAgain(form, w, id, now);
            && Sends(w, SendIt) && w.flight.value.id == id
            && Sends(again, SendIt) && again.flight.value.id == id
  {
    var steps := [Create(id, auth), Ask(id, now), ReserveIt, Turn(id, update)];
    var one := Watch(form, START, steps[0]);
    var two := Watch(form, one, steps[1]);
    var three := Watch(form, two, steps[2]);
    var four := Watch(form, three, steps[3]);
    assert steps[1..][1..][1..][1..] == [];
    assert steps[1..][0] == steps[1] && steps[1..][1..][0] == steps[2] && steps[1..][1..][1..][0] == steps[3];
    assert WatchAll(form, four, []) == four;
    assert WatchAll(form, three, steps[1..][1..][1..]) == four;
    assert WatchAll(form, two, steps[1..][1..]) == four;
    assert WatchAll(form, one, steps[1..]) == four;
    OvertakenRequestsCanBeFollowed(form, four.world, now);
  }

  // --- What a commit replaces -------------------------------------------------------------------------------------

  ghost predicate Injective(form: Auth -> string) { forall a, b | form(a) == form(b) :: a == b }

  /** Only access token, expiry, refresh token and scope come from a grant, the last two only if it names them. */
  predicate Carries(before: Auth, after: Auth, grant: Grant, now: int) {
    && before.OAuth? && before.refresh.Some? && after.OAuth? && after.refresh.Some?
    && after.server == before.server && after.access == grant.access
    && (after.expires.Some? <==> grant.lifetime.Some?)
    && (grant.lifetime.Some? ==> after.expires.value - now == grant.lifetime.value)
    && (var was, next := before.refresh.value, after.refresh.value;
        && next.client == was.client && next.endpoint == was.endpoint && next.auth == was.auth && next.resource == was.resource
        && Some(next.token) in {grant.token, Some(was.token)} && (grant.token.Some? ==> next.token == grant.token.value)
        && next.scope in {grant.scope, was.scope} && (grant.scope.Some? ==> next.scope == grant.scope))
  }

  /** A grant is in hand whose reservation stands, and nothing was written to the credential since it was read. */
  predicate Recordable(w: World, id: CredentialId) {
    && w.flight.Some? && w.flight.value.id == id && Refreshable(w.flight.value)
    && w.flight.value.stage.Answered? && w.flight.value.stage.outcome.Granted?
    && id in w.store.credentials && w.store.credentials[id] == w.flight.value.auth
    && Holds(w.store, id, w.flight.value.operation)
  }

  /**
   Settling changes a credential if and only if there is a grant for it and it still is what the refresh
   read, under its own reservation: anything rotated in since makes it change nothing. It then carries the
   grant and loses the reservation, and no other credential, reservation or mark changes.
   */
  lemma CommitsReplaceWhatWasRead(form: Auth -> string, w: World, now: int, id: CredentialId)
    requires Injective(form)
    ensures var next := Next(form, w, Settle(now)).store;
            && next.credentials.Keys == w.store.credentials.Keys
            && (Recordable(w, id) ==>
                && Carries(w.store.credentials[id], next.credentials[id], w.flight.value.stage.outcome.grant, now)
                && id !in next.reservations && next.rejected == w.store.rejected
                && next.reservations == w.store.reservations - {id})
            && (!Recordable(w, id) && id in w.store.credentials ==> next.credentials[id] == w.store.credentials[id])
  {
  }

  /** A refusal gives back the refresh's own reservation and, if final, marks the credential; silence does neither. */
  lemma OtherAnswersChangeNoSecret(form: Auth -> string, w: World, now: int, id: CredentialId)
    requires w.flight.Some? && w.flight.value.stage.Answered? && Refreshable(w.flight.value)
    requires !w.flight.value.stage.outcome.Granted?
    ensures var f, next := w.flight.value, Next(form, w, Settle(now));
            var definite := f.stage.outcome.Refused? && f.id == id;
            && next.flight.None? && next.store.credentials == w.store.credentials
            && (id in next.store.reservations
                <==> id in w.store.reservations && !(definite && w.store.reservations[id].operation == f.operation))
            && (id in next.store.reservations ==> next.store.reservations[id] == w.store.reservations[id])
            && (id in next.store.rejected <==> id in w.store.rejected || (definite && f.stage.outcome.final))
  {
  }

  // --- When a refresh begins ----------------------------------------------------------------------------------------

  /** A token is good until half a minute before its expiry, or until its expiry if it cannot be renewed. */
  predicate Good(auth: Auth, now: int) {
    match auth
    case Bearer(_, _) => true
    case OAuth(_, _, expires, refresh) =>
      expires.None? || expires.value > (if refresh.Some? then now + EXPIRY_MARGIN else now)
  }

  function Secret(auth: Auth): string { if auth.Bearer? then auth.token else auth.access }

  /** A rejected credential yields no token, a good one its own, and one past that is refreshed if it can be. */
  lemma TokensAreUsableWhileGood(s: Store, id: CredentialId, auth: Auth, now: int)
    ensures var answer, barred := UsableToken(s, id, auth, now), auth.OAuth? && id in s.rejected;
            && (barred <==> answer == Err(RefreshRejected))
            && (!barred && Good(auth, now) <==> answer.Ok? && answer.value.Some?)
            && (answer.Ok? && answer.value.Some? ==> answer.value.value == Secret(auth))
            && (!barred && DueAuth(auth, now) <==> answer == Ok(None))
            && (!barred && !Good(auth, now) && !DueAuth(auth, now) <==> answer == Err(Expired))
  {
  }

  /** A refresh begins only with no other under way, on a credential that is due, and from its stored secrets. */
  lemma RefreshesBeginIff(form: Auth -> string, w: World, id: CredentialId, now: int)
    ensures var next := Next(form, w, Ask(id, now));
            var due := id in w.store.credentials && id !in w.store.rejected && DueAuth(w.store.credentials[id], now);
            && next.store == w.store
            && (next != w <==> w.flight.None? && due)
            && (next != w ==> next.flight == Some(Flight(id, w.store.credentials[id], w.minted, Loaded))
                              && next.minted == w.minted + 1)
  {
  }

  /** It goes on exactly if nothing is reserved for the credential, and then its own reservation is. */
  lemma RefreshesReserveIff(form: Auth -> string, w: World)
    requires w.flight.Some? && w.flight.value.stage.Loaded?
    ensures var f, next := w.flight.value, Next(form, w, ReserveIt);
            && (next.flight.Some? <==> f.id !in w.store.reservations)
            && next.store.credentials == w.store.credentials && next.store.rejected == w.store.rejected
            && (next.flight.None? ==> next.store == w.store)
            && (next.flight.Some? ==>
                && next.flight == Some(f.(stage := Reserved)) && Holds(next.store, f.id, f.operation)
                && next.store.reservations[f.id].fingerprint == form(f.auth)
                && next.store.reservations - {f.id} == w.store.reservations - {f.id})
  {
  }

  // --- Rotation ---------------------------------------------------------------------------------------------------------

  function Given<T>(update: Option<T>, kept: T): T { if update.Some? then update.value else kept }

  /** What may be rotated in: secrets of the kind that is there. */
  predicate Fits(auth: Auth, update: Rotation) {
    match update
    case NewBearer(_) => auth.Bearer?
    case NewOAuth(_, _, refresh) =>
      auth.OAuth? && (refresh.None? || (auth.refresh.Some? && FitsRefresh(auth.refresh.value, refresh.value)))
  }

  predicate FitsRefresh(current: Refresh, update: RefreshUpdate) {
    update.auth.None? || (if update.auth.value.basic then current.auth.Basic? else current.auth.Post?)
  }

  function SecretOf(auth: Method): Option<string> { if auth.NoSecret? then None else Some(auth.secret) }

  /** What it makes of the secrets; a new access token without an expiry has none. */
  predicate Rotates(before: Auth, after: Auth, update: Rotation) {
    && after.server == before.server
    && match update
       case NewBearer(token) => after.Bearer? && after.token == token
       case NewOAuth(access, expires, refresh) =>
         && before.OAuth? && after.OAuth? && after.access == Given(access, before.access)
         && after.expires == Given(expires, if access.Some? then None else before.expires)
         && (refresh.None? ==> after.refresh == before.refresh)
         && (refresh.Some? ==> before.refresh.Some? && after.refresh.Some?
                               && RotatesRefresh(before.refresh.value, after.refresh.value, refresh.value))
  }

  predicate RotatesRefresh(before: Refresh, after: Refresh, update: RefreshUpdate) {
    && after.client == before.client && after.endpoint == before.endpoint && after.resource == before.resource
    && after.token == Given(update.token, before.token) && after.scope == Given(update.scope, before.scope)
    && after.auth.NoSecret? == before.auth.NoSecret? && after.auth.Basic? == before.auth.Basic?
    && SecretOf(after.auth) == if update.auth.Some? && update.auth.value.secret.Some? then update.auth.value.secret
                               else SecretOf(before.auth)
  }

  /**
   A rotation takes effect if and only if it fits what is stored. It then replaces exactly the secrets it
   names and clears the credential's reservation and mark; no other credential is touched.
   */
  lemma RotationsReplaceWhatTheyName(form: Auth -> string, w: World, id: CredentialId, update: Rotation)
    ensures var next := Next(form, w, Turn(id, update));
            var fits := id in w.store.credentials && Fits(w.store.credentials[id], update);
            && (Rotate(w.store, id, update).Ok? <==> fits)
            && (!fits ==> next == w && Rotate(w.store, id, update)
                                       == Err(if id in w.store.credentials then RotationInvalid else NotFound))
            && (fits ==>
                && id in next.store.credentials
                && Rotates(w.store.credentials[id], next.store.credentials[id], update)
                && next.store.credentials - {id} == w.store.credentials - {id}
                && next.store.reservations == w.store.reservations - {id} && next.store.rejected == w.store.rejected - {id}
                && next.flight == w.flight)
  {
  }

  /** A deleted credential is gone with its reservation and mark, and no other; a new one replaces none. */
  lemma CredentialsComeAndGo(form: Auth -> string, w: World, id: CredentialId, auth: Auth)
    ensures var gone := Next(form, w, Discard(id));
            && gone.store.credentials == w.store.credentials - {id} && gone.flight == w.flight
            && (id in w.store.credentials ==>
                && gone.store.reservations == w.store.reservations - {id} && gone.store.rejected == w.store.rejected - {id})
            && (id !in w.store.credentials ==> gone == w)
    ensures var made := Next(form, w, Create(id, auth));
            && made.store.reservations == w.store.reservations && made.store.rejected == w.store.rejected
            && made.store.credentials.Keys == w.store.credentials.Keys + {id} && made.flight == w.flight
            && (id !in w.store.credentials ==> made.store.credentials[id] == auth)
            && forall other | other in w.store.credentials :: made.store.credentials[other] == w.store.credentials[other]
  {
  }

  // --- What a credential holds ------------------------------------------------------------------------------------------

  function Run(form: Auth -> string, w: World, steps: seq<Step>): World
    decreases |steps|
  {
    if steps == [] then w else Run(form, Next(form, w, steps[0]), steps[1..])
  }

  /** On the way no grant is recorded for this credential, and it is not rotated or deleted. */
  ghost predicate Undisturbed(form: Auth -> string, w: World, id: CredentialId, steps: seq<Step>)
    decreases |steps|
  {
    steps == [] ||
    (!(steps[0].Settle? && Recordable(w, id)) && !Renews(w, steps[0], id)
     && Undisturbed(form, Next(form, w, steps[0]), id, steps[1..]))
  }

  lemma StepsLeaveAlone(form: Auth -> string, w: World, id: CredentialId, step: Step)
    requires Injective(form) && id in w.store.credentials
    requires !(step.Settle? && Recordable(w, id)) && !Renews(w, step, id)
    ensures var next := Next(form, w, step).store; id in next.credentials && next.credentials[id] == w.store.credentials[id]
  {
    match step
    case Settle(now) => CommitsReplaceWhatWasRead(form, w, now, id);
    case _ =>
  }

  lemma {:induction false} RunsLeaveAlone(form: Auth -> string, w: World, id: CredentialId, steps: seq<Step>)
    requires Injective(form) && id in w.store.credentials && Undisturbed(form, w, id, steps)
    ensures var last := Run(form, w, steps).store;
            id in last.credentials && last.credentials[id] == w.store.credentials[id]
    decreases |steps|
  {
    if steps != [] {
      StepsLeaveAlone(form, w, id, steps[0]);
      RunsLeaveAlone(form, Next(form, w, steps[0]), id, steps[1..]);
    }
  }

  /**
   What was written last is what the next refresh starts from: after a recorded grant, and through any run
   in which no other is recorded and nothing is rotated or deleted, the credential carries that grant, and
   a refresh then begun for it sends the refresh token the grant brought, or the old one if it brought none.
   */
  lemma TheNextRefreshStartsFromTheLastGrant(
      form: Auth -> string, w: World, now: int, steps: seq<Step>, id: CredentialId, later: int)
    requires Injective(form) && Recordable(w, id) && Undisturbed(form, Next(form, w, Settle(now)), id, steps)
    ensures var grant, last := w.flight.value.stage.outcome.grant, Run(form, Next(form, w, Settle(now)), steps);
            var asked := Next(form, last, Ask(id, later));
            && id in last.store.credentials && Carries(w.store.credentials[id], last.store.credentials[id], grant, now)
            && (asked != last ==>
                && asked.flight.Some? && Refreshable(asked.flight.value)
                && asked.flight.value.auth.refresh.value.token
                   == Given(grant.token, w.store.credentials[id].refresh.value.token))
  {
    CommitsReplaceWhatWasRead(form, w, now, id);
    var committed := Next(form, w, Settle(now));
    RunsLeaveAlone(form, committed, id, steps);
    RefreshesBeginIff(form, Run(form, committed, steps), id, later);
  }

  /** How often each credential was rotated or deleted, and how often it had been when the refresh read it. */
  datatype Dated = Dated(world: World, turns: nat, loaded: nat, reserved: nat)

  function Date(form: Auth -> string, t: Dated, id: CredentialId, step: Step): Dated {
    var next := Next(form, t.world, step);
    Dated(next, t.turns + if Renews(t.world, step, id) then 1 else 0,
          if step.Ask? && next.flight != t.world.flight then t.turns else t.loaded,
          if step.ReserveIt? && next.store != t.world.store then t.turns else t.reserved)
  }

  function DateAll(form: Auth -> string, t: Dated, id: CredentialId, steps: seq<Step>): Dated
    decreases |steps|
  {
    if steps == [] then t else DateAll(form, Date(form, t, id, steps[0]), id, steps[1..])
  }

  /** A refresh holds its reservation only while nothing was rotated since it was made. */
  ghost predicate Timely(t: Dated, id: CredentialId) {
    && (forall other | other in t.world.store.reservations :: t.world.store.reservations[other].operation < t.world.minted)
    && (t.world.flight.Some? ==> t.world.flight.value.operation < t.world.minted)
    && (t.world.flight.Some? && t.world.flight.value.id == id ==>
        var f := t.world.flight.value;
        && t.loaded <= t.turns
        && (f.stage.Loaded? ==> !Holds(t.world.store, id, f.operation))
        && (!f.stage.Loaded? && Holds(t.world.store, id, f.operation) ==> t.reserved == t.turns))
  }

  lemma StepIsTimely(form: Auth -> string, t: Dated, id: CredentialId, step: Step)
    requires Timely(t, id)
    ensures Timely(Date(form, t, id, step), id)
  {
  }

  lemma {:induction false} RunIsTimely(form: Auth -> string, t: Dated, id: CredentialId, steps: seq<Step>)
    requires Timely(t, id)
    ensures Timely(DateAll(form, t, id, steps), id)
    decreases |steps|
  {
    if steps != [] {
      StepIsTimely(form, t, id, steps[0]);
      RunIsTimely(form, Date(form, t, id, steps[0]), id, steps[1..]);
    }
  }

  /** On every run, a refresh whose reservation was made before a rotation or deletion changes nothing. */
  lemma OvertakenRefreshesChangeNothing(form: Auth -> string, id: CredentialId, steps: seq<Step>, now: int)
    ensures var t := DateAll(form, Dated(World(NOTHING, None, 0), 0, 0, 0), id, steps);
            t.world.flight.Some? && t.world.flight.value.id == id && t.world.flight.value.stage.Answered?
            && t.world.flight.value.stage.outcome.Granted? && t.reserved < t.turns
            ==> Next(form, t.world, Settle(now)).store == t.world.store
  {
    RunIsTimely(form, Dated(World(NOTHING, None, 0), 0, 0, 0), id, steps);
  }

  // --- The repository in place ---------------------------------------------------------------------------------------

  class VaultRepository {
    var credentials: map<CredentialId, Auth>
    var reservations: map<CredentialId, Reservation>
    var rejected: set<CredentialId>

    function State(): Store reads this { Store(credentials, reservations, rejected) }

    constructor ()
      ensures State() == NOTHING
    {
      credentials, reservations, rejected := map[], map[], {};
    }

    method TakeReservation(form: Auth -> string, f: Flight) returns (error: Option<Error>)
      modifies `reservations
      ensures Reserve(old(State()), f.id, Reservation(form(f.auth), f.operation))
              == if error.None? then Ok(State()) else Err(error.value)
      ensures error.Some? ==> State() == old(State())
    {
      if f.id in reservations { return Some(RefreshIndeterminate); }
      reservations := reservations[f.id := Reservation(form(f.auth), f.operation)];
      return None;
    }

    method GiveBack(f: Flight, final: bool)
      modifies `reservations, `rejected
      ensures State() == Release(old(State()), f.id, f.operation, final)
    {
      if f.id in reservations && reservations[f.id].operation == f.operation { reservations := reservations - {f.id}; }
      if final { rejected := rejected + {f.id}; }
    }

    method Record(form: Auth -> string, f: Flight, grant: Grant, now: int) returns (error: Option<Error>)
      requires Refreshable(f)
      modifies `credentials, `reservations
      ensures Commit(form, old(State()), f.id, f.auth, f.operation, grant, now)
              == if error.None? then Ok(State()) else Err(error.value)
      ensures error.Some? ==> State() == old(State())
    {
      if f.id !in credentials { return Some(NotFound); }
      if form(credentials[f.id]) != form(f.auth) || !(f.id in reservations && reservations[f.id].operation == f.operation) {
        return Some(Changed);
      }
      credentials := credentials[f.id := Renewed(f.auth, grant, now)];
      reservations := reservations - {f.id};
      return None;
    }

    /** Ends a refresh: commits a grant, gives back a refused reservation, leaves an unknown one. */
    method Conclude(form: Auth -> string, f: Flight, now: int) returns (error: Option<Error>)
      requires f.stage.Answered? && Refreshable(f)
      modifies this
      ensures State() == Settled(form, old(State()), f, now)
      ensures error.None? <==> f.stage.outcome.Granted?
                               && Commit(form, old(State()), f.id, f.auth, f.operation, f.stage.outcome.grant, now).Ok?
      ensures f.stage.outcome.Unknown? ==> error == Some(RefreshFailed)
      ensures f.stage.outcome.Refused? ==> error == Some(if f.stage.outcome.final then RefreshRejected else RefreshFailed)
      ensures f.stage.outcome.Granted? && error.Some? ==> error.value == if f.id in old(credentials) then Changed else NotFound
    {
      match f.stage.outcome {
        case Unknown => return Some(RefreshFailed);
        case Refused(final) =>
          GiveBack(f, final);
          return Some(if final then RefreshRejected else RefreshFailed);
        case Granted(grant) => error := Record(form, f, grant, now);
      }
    }

    method Clear(id: CredentialId)
      modifies `reservations, `rejected
      ensures State() == Cleared(old(State()), id)
    {
      reservations := reservations - {id};
      rejected := rejected - {id};
    }

    method RotateCredential(id: CredentialId, update: Rotation) returns (error: Option<Error>)
      modifies this
      ensures Rotate(old(State()), id, update) == if error.None? then Ok(State()) else Err(error.value)
      ensures error.Some? ==> State() == old(State())
    {
      if id !in credentials { return Some(NotFound); }
      var rotated := RotatedAuth(credentials[id], update);
      if rotated.Err? { return Some(rotated.error); }
      credentials := credentials[id := rotated.value];
      Clear(id);
      return None;
    }

    method RemoveCredential(id: CredentialId) returns (error: Option<Error>)
      modifies this
      ensures DeleteCredential(old(State()), id) == if error.None? then Ok(State()) else Err(error.value)
      ensures error.Some? ==> State() == old(State())
    {
      if id !in credentials { return Some(NotFound); }
      credentials := credentials - {id};
      Clear(id);
      return None;
    }
  }
}
