/**
 Access sessions and the trigger that links each to the one it replaces
 (`bothesis_validate_access_session` and the CHECK constraints of
 `db/models.py`).  Rows are only inserted; a session is known by its position.
 */
module SessionLineage {
  import opened Prelude

  datatype Kind = Guest | User

  datatype Reason = IdentityUpgrade | TokenRotation | TenantSwitch | OtherReason

  datatype Session = Session(
    kind: Kind, tenant: nat, user: Option<nat>, identity: Option<nat>,
    anonymous: bool, aal0: bool, parent: Option<nat>, reason: Option<Reason>)

  /** What other tables say when a row is inserted: the tenants open to guests,
      and the user of every active identity. */
  datatype Directory = Directory(publicTenants: set<nat>, identities: map<nat, nat>)

  /** The CHECK constraints. */
  predicate Checks(s: Session) {
    && (if s.kind.Guest? then s.user.None? && s.identity.None? && s.anonymous && s.aal0
        else s.user.Some? && !s.anonymous)
    && (s.parent.None? <==> s.reason.None?)
  }

  /** A guest has no user, no identity and no assurance; a user session has a user and is not anonymous;
      a session has a reason exactly when it replaces another. */
  lemma ChecksMean(s: Session)
    ensures Checks(s) && s.kind == Guest <==>
              && s.kind == Guest && s.user == None && s.identity == None && s.anonymous && s.aal0
              && (s.parent == None <==> s.reason == None)
    ensures Checks(s) && s.kind == User <==>
              s.kind == User && s.user != None && !s.anonymous && (s.parent == None <==> s.reason == None)
  {
  }

  /** What the trigger asks of the row by itself. */
  predicate SubjectOk(s: Session, d: Directory) {
    && (s.kind.Guest? ==> s.tenant in d.publicTenants)
    && (s.identity.Some? ==> s.identity.value in d.identities && s.user == Some(d.identities[s.identity.value]))
  }

  /** Every parent was inserted before its child. */
  ghost predicate Ordered(rows: seq<Session>) {
    forall i: nat {:trigger rows[i]} :: i < |rows| ==>
        Checks(rows[i]) && (rows[i].parent.Some? ==> rows[i].parent.value < i)
  }

  /** The sessions a session descends from, oldest first. */
  ghost function Lineage(rows: seq<Session>, i: nat): (chain: seq<Session>)
    requires Ordered(rows) && i < |rows|
    ensures chain != [] && chain[|chain| - 1] == rows[i]
    decreases i
  {
    if rows[i].parent.None? then [rows[i]] else Lineage(rows, rows[i].parent.value) + [rows[i]]
  }

  /** The guests of a lineage come first, in one tenant. */
  ghost predicate GuestsFirst(chain: seq<Session>) {
    forall i, j :: 0 <= i < j < |chain| && chain[j].kind.Guest? ==>
        chain[i].kind.Guest? && chain[i].tenant == chain[j].tenant
  }

  /** Once a user, always the same user. */
  ghost predicate OneUser(chain: seq<Session>) {
    forall i, j :: 0 <= i < j < |chain| && chain[i].kind.User? ==> chain[j].kind.User? && chain[j].user == chain[i].user
  }

  /** Why a session replaced the one before it. */
  predicate LinkExplained(before: Session, after: Session) {
    && (after.reason == Some(IdentityUpgrade) <==> before.kind.Guest? && after.kind.User?)
    && (after.tenant != before.tenant ==> after.reason == Some(TenantSwitch))
    && (after.reason == Some(TenantSwitch) ==> before.kind.User?)
    && after.reason.Some? && !after.reason.value.OtherReason?
  }

  ghost predicate LinksExplained(chain: seq<Session>) {
    forall j :: 0 < j < |chain| ==> LinkExplained(chain[j - 1], chain[j])
  }

  /** What a lineage promises about identity. */
  ghost predicate SoundLineage(chain: seq<Session>) {
    GuestsFirst(chain) && OneUser(chain) && LinksExplained(chain)
  }

  ghost predicate AllSound(rows: seq<Session>) {
    Ordered(rows) && forall i: nat {:trigger Lineage(rows, i)} :: i < |rows| ==> SoundLineage(Lineage(rows, i))
  }

  /** The last step of the trigger: the row against the session it replaces. */
  predicate LinkAccepted(parent: Session, s: Session) {
    match s.reason
    case Some(IdentityUpgrade) => parent.kind.Guest? && s.kind.User? && parent.tenant == s.tenant
    case Some(TokenRotation) => parent.kind == s.kind && parent.tenant == s.tenant && parent.user == s.user
    case Some(TenantSwitch) => parent.kind.User? && s.kind.User? && parent.user == s.user
    case _ => false
  }

  /** Whether the row is stored: the CHECK constraints and the trigger. */
  predicate Accepts(rows: seq<Session>, s: Session, d: Directory) {
    && Checks(s) && SubjectOk(s, d)
    && (s.parent.Some? ==> s.parent.value < |rows| && LinkAccepted(rows[s.parent.value], s))
  }

  lemma {:induction false} LineageKept(rows: seq<Session>, s: Session, i: nat)
    requires Ordered(rows) && Ordered(rows + [s]) && i < |rows|
    ensures Lineage(rows + [s], i) == Lineage(rows, i)
    decreases i
  {
    assert (rows + [s])[i] == rows[i];
    if rows[i].parent.Some? { LineageKept(rows, s, rows[i].parent.value); }
  }

  /** One more link keeps a lineage sound exactly when the trigger accepts it. */
  lemma LinkIsExact(chain: seq<Session>, s: Session)
    requires chain != [] && SoundLineage(chain) && Checks(s) && (forall c <- chain :: Checks(c))
    ensures SoundLineage(chain + [s]) <==> LinkAccepted(chain[|chain| - 1], s)
  {
    var longer, last := chain + [s], chain[|chain| - 1];
    assert longer[|chain| - 1] == last && longer[|chain|] == s;
    assert last in chain;
    if LinkAccepted(last, s) {
      LinkKeepsSound(chain, s);
    }
    if SoundLineage(longer) {
      assert LinkExplained(longer[|chain| - 1], longer[|chain|]);
    }
  }

  lemma LinkKeepsSound(chain: seq<Session>, s: Session)
    requires chain != [] && SoundLineage(chain) && Checks(s) && Checks(chain[|chain| - 1])
    requires LinkAccepted(chain[|chain| - 1], s)
    ensures SoundLineage(chain + [s])
  {
  }

  lemma {:induction false} LineageChecked(rows: seq<Session>, i: nat)
    requires Ordered(rows) && i < |rows|
    ensures forall c <- Lineage(rows, i) :: Checks(c)
    decreases i
  {
    if rows[i].parent.Some? { LineageChecked(rows, rows[i].parent.value); }
  }

  /**
   The trigger, exactly: a row with sound columns of its own is stored if and
   only if its parent exists and its whole lineage stays sound.
   */
  lemma TriggerIsExact(rows: seq<Session>, s: Session, d: Directory)
    requires AllSound(rows) && Checks(s) && SubjectOk(s, d)
    requires s.parent.Some? ==> s.parent.value < |rows|
    ensures Accepts(rows, s, d) <==> AllSound(rows + [s])
  {
    hide SoundLineage, LinkAccepted, Checks;
    var more := rows + [s];
    forall i: nat | i < |rows| ensures more[i] == rows[i] {}
    assert Ordered(more);
    forall i: nat | i < |rows| ensures Lineage(more, i) == Lineage(rows, i) {
      LineageKept(rows, s, i);
    }
    if s.parent.None? {
      assert Lineage(more, |rows|) == [s];
      OneIsSound(s);
    } else {
      var p := s.parent.value;
      LineageChecked(rows, p);
      LinkIsExact(Lineage(rows, p), s);
      assert Lineage(more, |rows|) == Lineage(rows, p) + [s];
    }
  }

  lemma OneIsSound(s: Session)
    ensures SoundLineage([s])
  {
  }

  function Upgrades(chain: seq<Session>): nat {
    if chain == [] then 0
    else Upgrades(chain[..|chain| - 1]) + if chain[|chain| - 1].reason == Some(IdentityUpgrade) then 1 else 0
  }

  /** A lineage contains at most one identity upgrade, and none as long as it ends with a guest. */
  lemma {:induction false} AtMostOneUpgrade(chain: seq<Session>)
    requires SoundLineage(chain) && chain != [] && chain[0].reason.None?
    ensures Upgrades(chain) <= 1 && (Upgrades(chain) == 1 <==> chain[0].kind.Guest? && chain[|chain| - 1].kind.User?)
    decreases |chain|
  {
    var shorter := chain[..|chain| - 1];
    if |chain| == 1 {
      assert shorter == [];
    } else {
      ShorterIsSound(chain);
      AtMostOneUpgrade(shorter);
      assert LinkExplained(chain[|chain| - 2], chain[|chain| - 1]);
    }
  }

  lemma ShorterIsSound(chain: seq<Session>)
    requires SoundLineage(chain) && |chain| > 1
    ensures SoundLineage(chain[..|chain| - 1])
  {
  }

  /**
   A sound lineage in plain terms: first guests, all of one tenant, then sessions of
   one user; the first of these upgrades the guest in its tenant, and any other link
   rotates a token or switches the tenant of the user.
   */
  lemma GuestsThenOneUser(chain: seq<Session>) returns (m: nat)
    requires SoundLineage(chain) && forall c <- chain :: Checks(c)
    ensures m <= |chain|
    ensures forall j :: 0 <= j < m ==>
              && chain[j].kind == Guest && chain[j].tenant == chain[0].tenant
              && chain[j].user == None && chain[j].identity == None && chain[j].anonymous && chain[j].aal0
    ensures forall j :: m <= j < |chain| ==>
              && chain[j].kind == User && chain[j].user == chain[m].user && chain[j].user != None
              && !chain[j].anonymous
    ensures 0 < m < |chain| ==> chain[m].reason == Some(IdentityUpgrade) && chain[m].tenant == chain[0].tenant
    ensures forall j :: 0 < j < |chain| && j != m ==>
              && chain[j].reason in {Some(TokenRotation), Some(TenantSwitch)}
              && (chain[j].reason == Some(TenantSwitch) ==> j > m)
              && (chain[j].tenant != chain[j - 1].tenant ==> chain[j].reason == Some(TenantSwitch))
  {
    forall j | 0 <= j < |chain| ensures Checks(chain[j]) {
      assert chain[j] in chain;
    }
    m := 0;
    while m < |chain| && chain[m].kind.Guest?
      invariant m <= |chain| && forall j :: 0 <= j < m ==> chain[j].kind.Guest?
    {
      m := m + 1;
    }
    if 0 < m < |chain| {
      assert LinkExplained(chain[m - 1], chain[m]);
    }
    forall j | 0 < j < |chain| && j != m
      ensures chain[j].reason in {Some(TokenRotation), Some(TenantSwitch)}
      ensures chain[j].reason == Some(TenantSwitch) ==> j > m
      ensures chain[j].tenant != chain[j - 1].tenant ==> chain[j].reason == Some(TenantSwitch)
    {
      assert LinkExplained(chain[j - 1], chain[j]);
    }
  }

  class AccessSessions {
    var rows: seq<Session>

    constructor ()
      ensures rows == [] && AllSound(rows)
    {
      rows := [];
    }

    /** The CHECK constraints and the trigger, in the order of the source: in a sound table
        they let a row through exactly when its lineage stays sound. */
    method Validate(s: Session, d: Directory) returns (ok: bool)
      ensures ok == Accepts(rows, s, d)
      ensures AllSound(rows) ==> (ok <==>
                && Checks(s) && (s.kind == Guest ==> s.tenant in d.publicTenants)
                && (s.identity != None ==>
                      s.identity.value in d.identities && s.user == Some(d.identities[s.identity.value]))
                && (s.parent.Some? ==> s.parent.value < |rows|) && AllSound(rows + [s]))
    {
      hide AllSound;
      if AllSound(rows) && Checks(s) && SubjectOk(s, d) && (s.parent.Some? ==> s.parent.value < |rows|) {
        TriggerIsExact(rows, s, d);
      }
      if !Checks(s) {
        return false;
      }
      if s.kind.Guest? && s.tenant !in d.publicTenants {
        return false;
      }
      if s.identity.Some? && (s.identity.value !in d.identities || s.user != Some(d.identities[s.identity.value])) {
        return false;
      }
      if s.parent.None? {
        return true;
      }
      if s.parent.value >= |rows| {
        return false;
      }
      var parent := rows[s.parent.value];
      match s.reason
      case Some(IdentityUpgrade) => return parent.kind.Guest? && s.kind.User? && parent.tenant == s.tenant;
      case Some(TokenRotation) => return parent.kind == s.kind && parent.tenant == s.tenant && parent.user == s.user;
      case Some(TenantSwitch) => return parent.kind.User? && s.kind.User? && parent.user == s.user;
      case _ => return false;
    }

    /** Whatever is inserted, every lineage stays sound. */
    method Insert(s: Session, d: Directory) returns (ok: bool)
      requires AllSound(rows)
      modifies this
      ensures AllSound(rows) && rows == (if ok then old(rows) + [s] else old(rows))
      ensures ok <==>
                && Checks(s) && (s.kind == Guest ==> s.tenant in d.publicTenants)
                && (s.identity != None ==>
                      s.identity.value in d.identities && s.user == Some(d.identities[s.identity.value]))
                && (s.parent.Some? ==> s.parent.value < |old(rows)|) && AllSound(old(rows) + [s])
    {
      hide AllSound, Checks, SubjectOk, LinkAccepted;
      ok := Validate(s, d);
      if ok {
        rows := rows + [s];
      }
    }
  }
}
