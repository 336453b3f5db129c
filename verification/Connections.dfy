/**
 One integration connection and the ingestion sources that depend on it
 (`services/integration_connections.py`, the status rules of
 `services/ingestion_sources.py`, and the health recording of
 `services/integration_lifecycle.py`).
 */
module Connections {
  import opened Prelude

  datatype ConnectionStatus = Draft | Connected | Expired | ReauthRequired | Revoked | Errored | Disconnected

  const NEEDS_AUTHORIZATION := {Expired, ReauthRequired, Revoked, Disconnected}

  datatype SourceStatus = Ready | Paused | Failed | ConnectionRequired | Disabled

  /** The statuses an operator may assign. */
  const ASSIGNABLE_STATUSES := {Ready, Paused, Disabled}

  datatype Authentication = OAuth | Credentials | NoAuthentication

  datatype Source = Source(status: SourceStatus, deleted: bool)

  datatype Connection = Connection(
    authentication: Authentication, status: ConnectionStatus, account: Option<string>,
    credential: bool, expiresAt: Option<int>, deleted: bool)

  datatype State = State(connection: Connection, sources: seq<Source>)

  /** An access token is refreshed from this many seconds before it expires. */
  const REFRESH_MARGIN := 300

  datatype Refresh = Refreshed(expiresAt: Option<int>) | NothingToRefresh | GrantGone | RefreshUnavailable

  datatype Reach = Reached | Rejected | Unreachable | GrantRefused

  /** What an attempt meets outside this model: the clock, the provider and its answers. */
  datatype Probe = Probe(now: int, keyConfigured: bool, provider: bool, refresh: Refresh, configValid: bool,
                         reach: Reach)

  datatype Outcome = Done | AuthorizationRequired(status: ConnectionStatus) | Unavailable | Invalid | NotFound

  function Expiring(expiresAt: Option<int>, now: int): bool {
    expiresAt.Some? && expiresAt.value <= now + REFRESH_MARGIN
  }

  predicate NeedsAuthorization(c: Connection) { c.status in NEEDS_AUTHORIZATION }

  /** `_suspend_sources` and `_restore_sources`. */
  function SuspendedSource(s: Source): Source {
    if !s.deleted && s.status.Ready? then s.(status := ConnectionRequired) else s
  }

  function RestoredSource(s: Source): Source {
    if !s.deleted && s.status.ConnectionRequired? then s.(status := Ready) else s
  }

  function Suspended(sources: seq<Source>): (r: seq<Source>)
    ensures |r| == |sources| && forall k :: 0 <= k < |r| ==> r[k] == SuspendedSource(sources[k])
  {
    seq(|sources|, k requires 0 <= k < |sources| => SuspendedSource(sources[k]))
  }

  function Restored(sources: seq<Source>): (r: seq<Source>)
    ensures |r| == |sources| && forall k :: 0 <= k < |r| ==> r[k] == RestoredSource(sources[k])
  {
    seq(|sources|, k requires 0 <= k < |sources| => RestoredSource(sources[k]))
  }

  // ----- what each operation makes of the state

  /** `_require_reauthorization`. */
  function Reauthorization(c: Connection, now: int): Outcome {
    AuthorizationRequired(if Expiring(c.expiresAt, now) then Expired else ReauthRequired)
  }

  /** `_usable_credentials`: the state of the open transaction, and how the attempt ends. */
  function UsableCredentials(c: Connection, p: Probe): (Outcome, Connection) {
    if c.authentication.NoAuthentication? then (Done, c)
    else if NeedsAuthorization(c) then (AuthorizationRequired(ReauthRequired), c)
    else if !p.keyConfigured then (Unavailable, c)
    else if !c.credential then (Reauthorization(c, p.now), c)
    else if !p.provider || c.account.None? || !Expiring(c.expiresAt, p.now) then (Done, c)
    else match p.refresh
      case GrantGone => (Reauthorization(c, p.now), c)
      case RefreshUnavailable => (Unavailable, c)
      case NothingToRefresh => (Done, c)
      case Refreshed(expiresAt) => (Done, c.(expiresAt := expiresAt, status := Connected))
  }

  /** `runtime_for`. */
  function RuntimeFor(c: Connection, p: Probe): (Outcome, Connection) {
    var (outcome, used) := UsableCredentials(c, p);
    if outcome.Done? && !p.configValid then (Invalid, used) else (outcome, used)
  }

  /** `validate_connection`, inside its transaction. */
  function Validated(s: State, p: Probe): (Outcome, State) {
    var (outcome, used) := RuntimeFor(s.connection, p);
    if !outcome.Done? then (outcome, s.(connection := used))
    else if !p.reach.Reached? then (Unavailable, s.(connection := used))
    else (Done, State(used.(status := Connected), Restored(s.sources)))
  }

  /** `list_resources`, inside its transaction; `offered` says whether the provider has the capability. */
  function Listed(s: State, offered: bool, p: Probe): (Outcome, State) {
    if !p.provider || s.connection.account.None? || !offered then (Invalid, s)
    else
      var (outcome, used) := UsableCredentials(s.connection, p);
      if !outcome.Done? then (outcome, s.(connection := used))
      else match p.reach
        case Reached => (Done, s.(connection := used))
        case GrantRefused => (Reauthorization(used, p.now), s.(connection := used))
        case _ => (Unavailable, s.(connection := used))
  }

  /** `record_health`. */
  function WithHealth(s: State, status: ConnectionStatus): State {
    if s.connection.deleted then s
    else State(s.connection.(status := status),
               if status in NEEDS_AUTHORIZATION then Suspended(s.sources) else s.sources)
  }

  /** `_recording_health`: a failed attempt is rolled back, and what it learned is written in a second transaction. */
  function Recording(before: State, outcome: Outcome, after: State): State {
    match outcome
    case Done => after
    case AuthorizationRequired(status) => WithHealth(before, status)
    case Unavailable => WithHealth(before, Errored)
    case _ => before
  }

  datatype Op =
    | RecordAuthorization(account: Option<string>, expiresAt: Option<int>)
    | UpdateConnection(credentials: bool)
    | DisconnectConnection
    | DeleteConnection
    | ValidateConnection(probe: Probe)
    | ListResources(offered: bool, probe: Probe)
    | PersistRotatedCredentials(expiresAt: Option<int>)
    | CreateSource
    | UpdateSource(k: nat, chosen: SourceStatus)
    | DeleteSource(k: nat)
    | RecordFailure(k: nat)
    | RunSource(k: nat, probe: Probe)

  function LiveSource(s: State, k: nat): bool {
    k < |s.sources| && !s.sources[k].deleted
  }

  /** `disconnect_connection`. */
  function AfterDisconnect(s: State): State {
    State(s.connection.(status := Disconnected, credential := false, expiresAt := None), Suspended(s.sources))
  }

  /** `record_authorization` for this connection. */
  function AfterAuthorization(s: State, account: Option<string>, expiresAt: Option<int>): State {
    State(s.connection.(status := Connected, account := account, credential := true, expiresAt := expiresAt),
          Restored(s.sources))
  }

  function Removed(sources: seq<Source>): (r: seq<Source>)
    ensures |r| == |sources| && forall k :: 0 <= k < |r| ==> r[k] == sources[k].(deleted := true)
  {
    seq(|sources|, k requires 0 <= k < |sources| => sources[k].(deleted := true))
  }

  /** The committed state after one operation; a refused operation commits nothing. */
  function Step(s: State, op: Op): State {
    if s.connection.deleted then s
    else match op
      case RecordAuthorization(account, expiresAt) => AfterAuthorization(s, account, expiresAt)
      case UpdateConnection(credentials) =>
        if !credentials || s.connection.account.Some? then s
        else s.(connection := s.connection.(status := Draft, credential := true))
      case DisconnectConnection => AfterDisconnect(s)
      case DeleteConnection =>
        State(AfterDisconnect(s).connection.(deleted := true), Removed(AfterDisconnect(s).sources))
      case ValidateConnection(probe) => Recording(s, Validated(s, probe).0, Validated(s, probe).1)
      case ListResources(offered, probe) => Recording(s, Listed(s, offered, probe).0, Listed(s, offered, probe).1)
      case PersistRotatedCredentials(expiresAt) =>
        s.(connection := s.connection.(credential := true, expiresAt := expiresAt))
      case CreateSource =>
        var status := if NeedsAuthorization(s.connection) then ConnectionRequired else Ready;
        s.(sources := s.sources + [Source(status, false)])
      case UpdateSource(k, chosen) =>
        if !LiveSource(s, k) || chosen !in ASSIGNABLE_STATUSES || s.sources[k].status.ConnectionRequired? then s
        else s.(sources := s.sources[k := s.sources[k].(status := chosen)])
      case DeleteSource(k) =>
        if !LiveSource(s, k) then s else s.(sources := s.sources[k := Source(Disabled, true)])
      case RecordFailure(k) =>
        if !LiveSource(s, k) then s else s.(sources := s.sources[k := s.sources[k].(status := Failed)])
      case RunSource(k, probe) =>
        // The worker's own transaction: a failure rolls it back and records nothing.
        if !LiveSource(s, k) || s.sources[k].status !in {Ready, Failed} then s
        else
          var (outcome, used) := RuntimeFor(s.connection, probe);
          if outcome.Done? then s.(connection := used) else s
  }

  // ----- consistency of a connection with its sources

  predicate Waiting(s: Source) { !s.deleted && s.status.ConnectionRequired? }

  ghost predicate SomeWaiting(sources: seq<Source>) { exists k :: 0 <= k < |sources| && Waiting(sources[k]) }

  /** A source waits only on a connection that cannot refresh itself back to life,
      and never on a connected one. */
  ghost predicate Consistent(s: State) {
    SomeWaiting(s.sources) ==>
      && !s.connection.status.Connected?
      && (NeedsAuthorization(s.connection) || s.connection.account.None?
          || s.connection.authentication.NoAuthentication?)
  }

  /** A connection is refreshed to `connected` only when nothing waits on it. */
  lemma RefreshFindsNobodyWaiting(s: State, p: Probe)
    requires Consistent(s)
    ensures Consistent(s.(connection := UsableCredentials(s.connection, p).1))
    ensures Consistent(s.(connection := RuntimeFor(s.connection, p).1))
  {
  }

  /** An attempt fails as unavailable only when the connection claims to be usable. */
  lemma ErrorsKeepConsistent(s: State, p: Probe)
    requires Consistent(s) && UsableCredentials(s.connection, p).0 in {Done, Unavailable}
    ensures Consistent(WithHealth(s, Errored))
  {
  }

  /** The access token has to be refreshed first: a provider granted it, and it expires within five minutes. */
  predicate MustRefresh(c: Connection, p: Probe) {
    p.provider && c.account.Some? && c.expiresAt.Some? && c.expiresAt.value - p.now <= 300
  }

  /** The connection cannot be used before somebody authorizes it again. */
  predicate Shut(c: Connection) {
    c.status == Expired || c.status == ReauthRequired || c.status == Revoked || c.status == Disconnected
  }

  /** The stored credentials can be used, after a refresh if they need one. */
  predicate HasCredentials(c: Connection, p: Probe) {
    || c.authentication == NoAuthentication
    || (!Shut(c) && p.keyConfigured && c.credential
        && (MustRefresh(c, p) ==> p.refresh == NothingToRefresh || p.refresh.Refreshed?))
  }

  /** When credentials can be used, when a new grant is needed, and when neither can be said. */
  lemma CredentialsUsableIff(c: Connection, p: Probe)
    ensures var (outcome, used) := UsableCredentials(c, p);
            && (outcome == Done <==> HasCredentials(c, p))
            && (outcome.AuthorizationRequired? <==>
                  && c.authentication != NoAuthentication
                  && (Shut(c) || (p.keyConfigured && (!c.credential || (MustRefresh(c, p) && p.refresh == GrantGone)))))
            && (outcome == Unavailable <==>
                  && c.authentication != NoAuthentication && !Shut(c)
                  && (!p.keyConfigured || (c.credential && MustRefresh(c, p) && p.refresh == RefreshUnavailable)))
            && (outcome.AuthorizationRequired? ==>
                  outcome.status == if !Shut(c) && c.expiresAt.Some? && c.expiresAt.value - p.now <= 300 then Expired
                                    else ReauthRequired)
            && used == if c.authentication != NoAuthentication && outcome == Done && MustRefresh(c, p)
                          && p.refresh.Refreshed?
                       then c.(expiresAt := p.refresh.expiresAt, status := Connected) else c
  {
  }

  /**
   A validation succeeds exactly when credentials can be used, the configuration is
   valid and the provider is reached; it then connects, and every live source that
   waited is ready again.
   */
  lemma ValidationSucceedsIff(s: State, p: Probe)
    ensures var (outcome, t) := Validated(s, p);
            && (outcome == Done <==> HasCredentials(s.connection, p) && p.configValid && p.reach == Reached)
            && (outcome == Invalid <==> HasCredentials(s.connection, p) && !p.configValid)
            && (outcome == Done ==>
                  && t.connection.status == Connected && |t.sources| == |s.sources|
                  && forall k :: 0 <= k < |s.sources| ==>
                       t.sources[k].deleted == s.sources[k].deleted && t.sources[k].status ==
                         if !s.sources[k].deleted && s.sources[k].status == ConnectionRequired then Ready
                         else s.sources[k].status)
  {
    hide UsableCredentials;
    CredentialsUsableIff(s.connection, p);
  }

  /** A listing succeeds exactly when a provider account offers the resource, credentials can be used,
      and the provider answers. */
  lemma ListingSucceedsIff(s: State, offered: bool, p: Probe)
    ensures var (outcome, t) := Listed(s, offered, p);
            && (outcome == Done <==>
                  && p.provider && s.connection.account.Some? && offered && HasCredentials(s.connection, p)
                  && p.reach == Reached)
            && (outcome == Invalid <==> !p.provider || s.connection.account.None? || !offered)
            && t.sources == s.sources
  {
    hide UsableCredentials;
    CredentialsUsableIff(s.connection, p);
  }

  /** Everything of a connection but its status, account, credential and expiry. */
  ghost predicate SameElse(c: Connection, d: Connection) {
    d.authentication == c.authentication && d.deleted == c.deleted
  }

  /** What granting, disconnecting and deleting commit, on a connection that is not deleted. */
  lemma GrantsMean(s: State, op: Op, k: nat)
    requires !s.connection.deleted && k < |s.sources|
    requires op.RecordAuthorization? || op.DisconnectConnection? || op.DeleteConnection?
    ensures var t := Step(s, op);
            && |t.sources| == |s.sources|
            && (op.RecordAuthorization? ==>
                  && SameElse(s.connection, t.connection) && t.connection.status == Connected
                  && t.connection.account == op.account && t.connection.credential
                  && t.connection.expiresAt == op.expiresAt && t.sources[k].deleted == s.sources[k].deleted
                  && t.sources[k].status == if !s.sources[k].deleted && s.sources[k].status == ConnectionRequired
                                            then Ready else s.sources[k].status)
            && (!op.RecordAuthorization? ==>
                  && t.connection.authentication == s.connection.authentication
                  && t.connection.status == Disconnected && t.connection.account == s.connection.account
                  && !t.connection.credential && t.connection.expiresAt == None
                  && (t.connection.deleted <==> op.DeleteConnection?)
                  && (t.sources[k].deleted <==> op.DeleteConnection? || s.sources[k].deleted)
                  && t.sources[k].status == if !s.sources[k].deleted && s.sources[k].status == Ready
                                            then ConnectionRequired else s.sources[k].status)
  {
  }

  /** What the operations on one source commit. */
  lemma SourcesMean(s: State, op: Op, k: nat)
    requires !s.connection.deleted && k < |s.sources|
    requires op == DeleteSource(k) || op == RecordFailure(k) || (op.UpdateSource? && op.k == k)
    ensures var t := Step(s, op);
            && |t.sources| == |s.sources| && t.connection == s.connection
            && (forall j :: 0 <= j < |s.sources| && j != k ==> t.sources[j] == s.sources[j])
            && (s.sources[k].deleted ==> t.sources[k] == s.sources[k])
            && (!s.sources[k].deleted && op.DeleteSource? ==> t.sources[k].deleted && t.sources[k].status == Disabled)
            && (!s.sources[k].deleted && op.RecordFailure? ==> !t.sources[k].deleted && t.sources[k].status == Failed)
            && (!s.sources[k].deleted && op.UpdateSource? ==>
                  && !t.sources[k].deleted
                  && t.sources[k].status ==
                       if op.chosen in {Ready, Paused, Disabled} && s.sources[k].status != ConnectionRequired
                       then op.chosen else s.sources[k].status)
  {
  }

  /** A new source waits exactly when the connection cannot be used before it is authorized. */
  lemma CreationMeans(s: State)
    requires !s.connection.deleted
    ensures var t := Step(s, CreateSource);
            && t.connection == s.connection && |t.sources| == |s.sources| + 1 && t.sources[..|s.sources|] == s.sources
            && !t.sources[|s.sources|].deleted
            && t.sources[|s.sources|].status == if Shut(s.connection) then ConnectionRequired else Ready
  {
  }

  /**
   What an attempt commits: a validation that needs a new grant leaves its status and
   puts every live ready source to waiting; one whose provider does not answer leaves
   an error; an invalid one leaves nothing.
   */
  lemma AttemptsMean(s: State, p: Probe, k: nat)
    requires !s.connection.deleted && k < |s.sources|
    ensures var t, outcome := Step(s, ValidateConnection(p)), Validated(s, p).0;
            && |t.sources| == |s.sources|
            && (outcome.AuthorizationRequired? ==>
                  && t.connection == s.connection.(status := outcome.status)
                  && t.sources[k].deleted == s.sources[k].deleted
                  && t.sources[k].status == if !s.sources[k].deleted && s.sources[k].status == Ready
                                            then ConnectionRequired else s.sources[k].status)
            && (outcome == Unavailable ==>
                  t.connection == s.connection.(status := Errored) && t.sources == s.sources)
            && (outcome == Invalid ==> t == s)
  {
  }

  /** A run of a source changes nothing but what a refresh changes, and only when the credentials
      can be used, the configuration is valid, and the source is ready or failed. */
  lemma RunningMeans(s: State, p: Probe, k: nat)
    requires !s.connection.deleted && k < |s.sources|
    ensures var t := Step(s, RunSource(k, p));
            var runs := !s.sources[k].deleted && s.sources[k].status in {Ready, Failed}
              && HasCredentials(s.connection, p) && p.configValid;
            && t.sources == s.sources
            && t.connection == if runs && s.connection.authentication != NoAuthentication
                                  && MustRefresh(s.connection, p) && p.refresh.Refreshed?
                               then s.connection.(expiresAt := p.refresh.expiresAt, status := Connected)
                               else s.connection
  {
    hide UsableCredentials;
    CredentialsUsableIff(s.connection, p);
  }

  /** What storing credentials commits. */
  lemma CredentialsMean(s: State, op: Op)
    requires !s.connection.deleted && (op.UpdateConnection? || op.PersistRotatedCredentials?)
    ensures var t := Step(s, op);
            && t.sources == s.sources && SameElse(s.connection, t.connection)
            && t.connection.account == s.connection.account
            && (op.UpdateConnection? && op.credentials && s.connection.account == None ==>
                  && t.connection.status == Draft && t.connection.credential
                  && t.connection.expiresAt == s.connection.expiresAt)
            && (op.UpdateConnection? && (!op.credentials || s.connection.account != None) ==> t == s)
            && (op.PersistRotatedCredentials? ==>
                  && t.connection.status == s.connection.status && t.connection.credential
                  && t.connection.expiresAt == op.expiresAt)
  {
  }

  /** Every operation keeps connection and sources consistent. */
  lemma StepKeepsConsistent(s: State, op: Op)
    requires Consistent(s)
    ensures Consistent(Step(s, op))
  {
  }

  function Run(s: State, ops: seq<Op>): State
    decreases ops
  {
    if ops == [] then s else Run(Step(s, ops[0]), ops[1..])
  }

  /**
   After any run, no live source of a connected connection waits on it, although
   a credential refresh connects without restoring any source.
   */
  lemma {:induction false} ConnectedMeansNobodyWaits(s: State, ops: seq<Op>)
    requires Consistent(s)
    ensures Consistent(Run(s, ops))
    ensures Run(s, ops).connection.status.Connected? ==> forall source <- Run(s, ops).sources :: !Waiting(source)
    decreases ops
  {
    hide Step;
    if ops != [] {
      StepKeepsConsistent(s, ops[0]);
      ConnectedMeansNobodyWaits(Step(s, ops[0]), ops[1..]);
    } else if s.connection.status.Connected? {
      forall source | source in s.sources ensures !Waiting(source) {
        var k :| 0 <= k < |s.sources| && s.sources[k] == source;
      }
    }
  }

  /** Operations that reach for the provider while a grant is missing. */
  predicate Attempt(op: Op) { op.ValidateConnection? || op.ListResources? || op.RunSource? }

  lemma AttemptChangesNoSource(s: State, op: Op)
    requires Attempt(op) && NeedsAuthorization(s.connection) && !s.connection.authentication.NoAuthentication?
    requires forall k :: 0 <= k < |s.sources| && !s.sources[k].deleted ==> !s.sources[k].status.Ready?
    ensures Step(s, op).sources == s.sources && NeedsAuthorization(Step(s, op).connection)
    ensures Step(s, op).connection.authentication == s.connection.authentication
    ensures Step(s, op).connection.deleted == s.connection.deleted
  {
    assert Suspended(s.sources) == s.sources;
  }

  lemma {:induction false} AttemptsChangeNoSource(s: State, ops: seq<Op>)
    requires (forall op <- ops :: Attempt(op))
    requires NeedsAuthorization(s.connection) && !s.connection.authentication.NoAuthentication?
    requires forall k :: 0 <= k < |s.sources| && !s.sources[k].deleted ==> !s.sources[k].status.Ready?
    ensures Run(s, ops).sources == s.sources && Run(s, ops).connection.deleted == s.connection.deleted
    decreases ops
  {
    hide Step;
    if ops != [] {
      assert ops[0] in ops;
      AttemptChangesNoSource(s, ops[0]);
      AttemptsChangeNoSource(Step(s, ops[0]), ops[1..]);
    }
  }

  /** Every source is as suspending or as restoring the base left it. */
  ghost predicate Swings(base: seq<Source>, sources: seq<Source>) {
    |sources| == |base| && forall k {:trigger sources[k]} :: 0 <= k < |sources| ==>
      sources[k] == SuspendedSource(base[k]) || sources[k] == RestoredSource(base[k])
  }

  /** Attempts only ever suspend or restore. */
  lemma {:induction false} AttemptsSwing(base: seq<Source>, s: State, ops: seq<Op>)
    requires (forall op <- ops :: Attempt(op)) && Swings(base, s.sources)
    ensures Swings(base, Run(s, ops).sources) && Run(s, ops).connection.deleted == s.connection.deleted
    decreases ops
  {
    hide Step, Swings;
    if ops != [] {
      assert ops[0] in ops;
      AttemptSwings(base, s, ops[0]);
      AttemptsSwing(base, Step(s, ops[0]), ops[1..]);
    }
  }

  lemma AttemptSwings(base: seq<Source>, s: State, op: Op)
    requires Attempt(op) && Swings(base, s.sources)
    ensures Swings(base, Step(s, op).sources) && Step(s, op).connection.deleted == s.connection.deleted
  {
  }

  /** Disconnecting, any attempts, and authorizing again: the sources are the earlier ones, restored. */
  lemma ReconnectRestores(s: State, attempts: seq<Op>, account: Option<string>, expiresAt: Option<int>)
    requires !s.connection.deleted && forall op <- attempts :: Attempt(op)
    ensures Step(Run(Step(s, DisconnectConnection), attempts), RecordAuthorization(account, expiresAt)).sources
            == Restored(s.sources)
  {
    hide Run;
    AttemptsSwing(s.sources, Step(s, DisconnectConnection), attempts);
  }

  /**
   Disconnecting is reversible: whatever is attempted in between, authorizing
   again returns a live source to its earlier status, exactly when it was not
   already waiting on the connection.
   */
  lemma ReconnectRestoresIff(s: State, attempts: seq<Op>, account: Option<string>, expiresAt: Option<int>, k: nat)
    requires !s.connection.deleted && (forall op <- attempts :: Attempt(op)) && LiveSource(s, k)
    ensures var down := Step(s, DisconnectConnection);
            var up := Step(Run(down, attempts), RecordAuthorization(account, expiresAt));
            k < |up.sources| && (up.sources[k] == s.sources[k] <==> !s.sources[k].status.ConnectionRequired?)
  {
    hide Run, Step;
    ReconnectRestores(s, attempts, account, expiresAt);
  }

  /** From a connected connection, reconnecting restores every source. */
  lemma ReconnectRestoresAll(s: State, attempts: seq<Op>, account: Option<string>, expiresAt: Option<int>)
    requires Consistent(s) && s.connection.status.Connected? && !s.connection.deleted
    requires forall op <- attempts :: Attempt(op)
    ensures Step(Run(Step(s, DisconnectConnection), attempts), RecordAuthorization(account, expiresAt)).sources
            == s.sources
  {
    hide Run, Step;
    ReconnectRestores(s, attempts, account, expiresAt);
    assert Restored(s.sources) == s.sources;
  }

  // ----- does a ready source have a usable connection?

  /** No live source is ready while the connection needs authorization. */
  ghost predicate ReadyUsable(s: State) {
    NeedsAuthorization(s.connection) ==>
      forall k :: 0 <= k < |s.sources| ==> s.sources[k].deleted || !s.sources[k].status.Ready?
  }

  /** An operator makes a source ready although its connection needs authorization: the guard `update_source` lacks. */
  predicate ResumedTooEarly(s: State, op: Op) {
    && op.UpdateSource? && op.chosen.Ready? && LiveSource(s, op.k) && !s.sources[op.k].status.ConnectionRequired?
    && !s.connection.deleted && NeedsAuthorization(s.connection)
  }

  /** Exactly that operation breaks it, and no other. */
  lemma ReadyUsableIff(s: State, op: Op)
    requires ReadyUsable(s)
    ensures ReadyUsable(Step(s, op)) <==> !ResumedTooEarly(s, op)
  {
    if ResumedTooEarly(s, op) {
      assert Step(s, op).sources[op.k].status.Ready?;
    }
  }

  /** The state after every prefix of a run has it. */
  ghost predicate AlwaysReadyUsable(s: State, ops: seq<Op>)
    decreases ops
  {
    ReadyUsable(s) && (ops != [] ==> AlwaysReadyUsable(Step(s, ops[0]), ops[1..]))
  }

  /** Some operation of a run is such an early resumption. */
  ghost predicate SomeResumedTooEarly(s: State, ops: seq<Op>)
    decreases ops
  {
    ops != [] && (ResumedTooEarly(s, ops[0]) || SomeResumedTooEarly(Step(s, ops[0]), ops[1..]))
  }

  /** Throughout a run every ready source has a usable connection if and only if
      no source is resumed while its connection needs authorization. */
  lemma {:induction false} RunReadyUsableIff(s: State, ops: seq<Op>)
    requires ReadyUsable(s)
    ensures AlwaysReadyUsable(s, ops) <==> !SomeResumedTooEarly(s, ops)
    decreases ops
  {
    hide Step, ReadyUsable, ResumedTooEarly;
    if ops != [] {
      ReadyUsableIff(s, ops[0]);
      if ReadyUsable(Step(s, ops[0])) {
        RunReadyUsableIff(Step(s, ops[0]), ops[1..]);
      }
    }
  }

  /** Such a run: a paused source of a disconnected connection is resumed. */
  lemma ReadyDoesNotMeanUsable()
    ensures var s := State(Connection(OAuth, Connected, Some("a"), true, None, false), [Source(Paused, false)]);
            var t := Step(Step(s, DisconnectConnection), UpdateSource(0, Ready));
            Consistent(s) && ReadyUsable(s) && t.sources[0].status.Ready? && NeedsAuthorization(t.connection)
  {
  }

  // ----- the services

  class IntegrationService {
    var connection: Connection
    var sources: seq<Source>

    ghost function Committed(): State
      reads this
    {
      State(connection, sources)
    }

    constructor (authentication: Authentication)
      ensures Committed() == State(Connection(authentication, Draft, None, false, None, false), [])
      ensures Consistent(Committed())
    {
      connection, sources := Connection(authentication, Draft, None, false, None, false), [];
    }

    method SuspendSources()
      modifies this`sources
      ensures sources == Suspended(old(sources))
    {
      for k := 0 to |sources|
        invariant |sources| == |old(sources)|
        invariant forall j :: 0 <= j < |sources| ==>
                    sources[j] == if j < k then SuspendedSource(old(sources)[j]) else old(sources)[j]
      {
        if !sources[k].deleted && sources[k].status.Ready? {
          sources := sources[k := sources[k].(status := ConnectionRequired)];
        }
      }
    }

    method RestoreSources()
      modifies this`sources
      ensures sources == Restored(old(sources))
    {
      for k := 0 to |sources|
        invariant |sources| == |old(sources)|
        invariant forall j :: 0 <= j < |sources| ==>
                    sources[j] == if j < k then RestoredSource(old(sources)[j]) else old(sources)[j]
      {
        if !sources[k].deleted && sources[k].status.ConnectionRequired? {
          sources := sources[k := sources[k].(status := Ready)];
        }
      }
    }

    method UseCredentials(p: Probe) returns (outcome: Outcome)
      modifies this`connection
      ensures (outcome, connection) == UsableCredentials(old(connection), p)
      ensures old(Consistent(Committed())) ==> Consistent(Committed())
      ensures outcome.Done? && !connection.authentication.NoAuthentication? ==>
        p.keyConfigured && connection.credential && !NeedsAuthorization(connection)
      ensures outcome.AuthorizationRequired? ==> outcome.status in NEEDS_AUTHORIZATION
      ensures !outcome.Done? ==> connection == old(connection)
    {
      if connection.authentication.NoAuthentication? {
        return Done;
      }
      if connection.status in NEEDS_AUTHORIZATION {
        return AuthorizationRequired(ReauthRequired);
      }
      if !p.keyConfigured {
        return Unavailable;
      }
      if !connection.credential {
        return Reauthorization(connection, p.now);
      }
      if !p.provider || connection.account.None? || !Expiring(connection.expiresAt, p.now) {
        return Done;
      }
      match p.refresh
      case GrantGone => return Reauthorization(connection, p.now);
      case RefreshUnavailable => return Unavailable;
      case NothingToRefresh => return Done;
      case Refreshed(expiresAt) =>
        connection := connection.(expiresAt := expiresAt, status := Connected);
        return Done;
    }

    method BuildRuntime(p: Probe) returns (outcome: Outcome)
      modifies this`connection
      ensures (outcome, connection) == RuntimeFor(old(connection), p)
    {
      outcome := UseCredentials(p);
      if outcome.Done? && !p.configValid {
        outcome := Invalid;
      }
    }

    method Validate(p: Probe) returns (outcome: Outcome)
      modifies this
      ensures (outcome, Committed()) == Validated(old(Committed()), p)
      ensures old(Consistent(Committed())) ==> Consistent(Committed())
      ensures outcome.Done? ==> connection.status.Connected? && !SomeWaiting(sources)
      ensures outcome.AuthorizationRequired? ==> outcome.status in NEEDS_AUTHORIZATION
      ensures !outcome.Done? ==> sources == old(sources)
    {
      outcome := BuildRuntime(p);
      if !outcome.Done? {
        return;
      }
      if !p.reach.Reached? {
        return Unavailable;
      }
      connection := connection.(status := Connected);
      RestoreSources();
    }

    method ListAccountResources(offered: bool, p: Probe) returns (outcome: Outcome)
      modifies this
      ensures (outcome, Committed()) == Listed(old(Committed()), offered, p)
      ensures old(Consistent(Committed())) ==> Consistent(Committed())
      ensures outcome.Done? ==> p.provider && offered && connection.account.Some?
      ensures outcome.AuthorizationRequired? ==> outcome.status in NEEDS_AUTHORIZATION
      ensures sources == old(sources)
    {
      if !p.provider || connection.account.None? || !offered {
        return Invalid;
      }
      outcome := UseCredentials(p);
      if !outcome.Done? {
        return;
      }
      match p.reach
      case Reached => return Done;
      case GrantRefused => return Reauthorization(connection, p.now);
      case _ => return Unavailable;
    }

    method RecordHealth(status: ConnectionStatus)
      modifies this
      ensures Committed() == WithHealth(old(Committed()), status)
      ensures !connection.deleted && NeedsAuthorization(connection) ==> ReadyUsable(Committed())
      ensures status in NEEDS_AUTHORIZATION && old(Consistent(Committed())) ==> Consistent(Committed())
    {
      if connection.deleted {
        return;
      }
      connection := connection.(status := status);
      if status in NEEDS_AUTHORIZATION {
        SuspendSources();
      }
    }

    /** The failed transaction rolls back to `before`; a second one records the health. */
    method FinishAttempt(beforeConnection: Connection, beforeSources: seq<Source>, outcome: Outcome)
      modifies this
      ensures Committed() == Recording(State(beforeConnection, beforeSources), outcome, old(Committed()))
      ensures !outcome.Done? ==> connection.(status := beforeConnection.status) == beforeConnection
      ensures !outcome.Done? ==> sources == beforeSources || sources == Suspended(beforeSources)
    {
      if outcome.Done? {
        return;
      }
      connection, sources := beforeConnection, beforeSources;
      match outcome
      case AuthorizationRequired(status) => RecordHealth(status);
      case Unavailable => RecordHealth(Errored);
      case _ =>
    }

    method Disconnect()
      modifies this
      ensures Committed() == AfterDisconnect(old(Committed()))
    {
      connection := connection.(status := Disconnected, credential := false, expiresAt := None);
      SuspendSources();
    }

    method Delete()
      modifies this
      ensures Committed() == State(AfterDisconnect(old(Committed())).connection.(deleted := true),
                                   Removed(AfterDisconnect(old(Committed())).sources))
    {
      Disconnect();
      ghost var before := sources;
      for k := 0 to |sources|
        invariant |sources| == |before|
        invariant forall j :: 0 <= j < |sources| ==>
                    sources[j] == if j < k then before[j].(deleted := true) else before[j]
        invariant connection == AfterDisconnect(old(Committed())).connection
      {
        sources := sources[k := sources[k].(deleted := true)];
      }
      connection := connection.(deleted := true);
    }

    /** One operation, with its transactions. */
    method Perform(op: Op)
      requires Consistent(Committed())
      modifies this
      ensures Committed() == Step(old(Committed()), op) && Consistent(Committed())
    {
      hide Consistent, Validated, Listed, Recording, RuntimeFor, Suspended, Restored, Removed;
      StepKeepsConsistent(Committed(), op);
      if connection.deleted {
        return;
      }
      var beforeConnection, beforeSources := connection, sources;
      match op
      case RecordAuthorization(account, expiresAt) =>
        connection := connection.(status := Connected, account := account, credential := true, expiresAt := expiresAt);
        RestoreSources();
      case UpdateConnection(credentials) =>
        if credentials && connection.account.None? {
          connection := connection.(status := Draft, credential := true);
        }
      case DisconnectConnection => Disconnect();
      case DeleteConnection => Delete();
      case ValidateConnection(probe) =>
        var outcome := Validate(probe);
        FinishAttempt(beforeConnection, beforeSources, outcome);
      case ListResources(offered, probe) =>
        var outcome := ListAccountResources(offered, probe);
        FinishAttempt(beforeConnection, beforeSources, outcome);
      case PersistRotatedCredentials(expiresAt) =>
        connection := connection.(credential := true, expiresAt := expiresAt);
      case CreateSource =>
        var status := if connection.status in NEEDS_AUTHORIZATION then ConnectionRequired else Ready;
        sources := sources + [Source(status, false)];
      case UpdateSource(k, chosen) =>
        if k < |sources| && !sources[k].deleted && chosen in ASSIGNABLE_STATUSES
            && !sources[k].status.ConnectionRequired? {
          sources := sources[k := sources[k].(status := chosen)];
        }
      case DeleteSource(k) =>
        if k < |sources| && !sources[k].deleted {
          sources := sources[k := Source(Disabled, true)];
        }
      case RecordFailure(k) =>
        if k < |sources| && !sources[k].deleted {
          sources := sources[k := sources[k].(status := Failed)];
        }
      case RunSource(k, probe) =>
        if k < |sources| && !sources[k].deleted && sources[k].status in {Ready, Failed} {
          var outcome := BuildRuntime(probe);
          if !outcome.Done? {
            connection := beforeConnection;
          }
        }
    }
  }
}
