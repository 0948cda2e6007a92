/**
 The session claim protocol of scripts/agent-session.py.

 Every command touches the claim files only inside sections that hold one lock,
 so a run of many sessions is a sequence of sections, interleaved in any order.
 `checkpoint` and `finish` have two sections each, with unlocked work between
 them; `start` and `takeover` have one.  Session ids are random and never repeat:
 a section that issues an id takes one that was not issued before.
 */
module SessionClaims {
  import opened Wrappers

  type SessionId = nat
  type Worktree = string

  datatype Claim = Claim(session: SessionId, displaced: Option<SessionId>)

  datatype Takeover = Takeover(worktree: Worktree, displaced: SessionId, successor: SessionId)

  datatype Command = Checkpoint | Finish

  // A session that passed the first section of a command and not yet the second.
  datatype Pending = Pending(command: Command, worktree: Worktree, session: SessionId)

  // `started` records which ids were issued by `start`, and where; `issued` holds
  // all ids.  The code keeps neither.
  datatype Store = Store(
    claims: map<Worktree, Claim>, audit: seq<Takeover>, pending: set<Pending>,
    issued: set<SessionId>, started: map<SessionId, Worktree>)

  datatype Section =
    | Start(worktree: Worktree, newId: SessionId)
    | Begin(command: Command, worktree: Worktree, session: SessionId)
    | EndCheckpoint(worktree: Worktree, session: SessionId)
    | EndFinish(worktree: Worktree, session: SessionId)
    | TakeOver(worktree: Worktree, confirm: SessionId, newId: SessionId)

  // verify_claim
  predicate Verified(s: Store, worktree: Worktree, session: SessionId) {
    worktree in s.claims && s.claims[worktree].session == session
  }

  // A section that issues an id draws a new one; a second section follows its first.
  predicate Possible(s: Store, section: Section) {
    match section
    case Start(_, newId) => newId !in s.issued
    case TakeOver(_, _, newId) => newId !in s.issued
    case EndCheckpoint(w, id) => Pending(Checkpoint, w, id) in s.pending
    case EndFinish(w, id) => Pending(Finish, w, id) in s.pending
    case Begin(_, _, _) => true
  }

  // The store after one section, and whether its checks passed.
  function Perform(s: Store, section: Section): (Store, bool) {
    match section
    case Start(w, newId) =>
      if w in s.claims then (s, false)
      else (s.(claims := s.claims[w := Claim(newId, None)], issued := s.issued + {newId},
               started := s.started[newId := w]), true)
    case Begin(command, w, id) =>
      if !Verified(s, w, id) then (s, false)
      else (s.(pending := s.pending + {Pending(command, w, id)}), true)
    case EndCheckpoint(w, id) =>
      (s.(pending := s.pending - {Pending(Checkpoint, w, id)}), Verified(s, w, id))
    case EndFinish(w, id) =>
      var left := s.(pending := s.pending - {Pending(Finish, w, id)});
      if Verified(s, w, id) then (left.(claims := s.claims - {w}), true) else (left, false)
    case TakeOver(w, confirm, newId) =>
      if w !in s.claims || s.claims[w].session != confirm then (s, false)
      else (s.(claims := s.claims[w := Claim(newId, Some(confirm))],
               audit := s.audit + [Takeover(w, confirm, newId)], issued := s.issued + {newId}), true)
  }

  ghost predicate Schedule(s: Store, sections: seq<Section>)
    decreases |sections|
  {
    sections == [] || (Possible(s, sections[0]) && Schedule(Perform(s, sections[0]).0, sections[1..]))
  }

  function After(s: Store, sections: seq<Section>): Store
    decreases |sections|
  {
    if sections == [] then s else After(Perform(s, sections[0]).0, sections[1..])
  }

  const EMPTY := Store(map[], [], {}, {}, map[])

  // ---- invariant ------------------------------------------------------------------

  // Following the audit backwards from a session ends at a `start` on the same
  // worktree: each step goes from the id a takeover issued to the id it displaced.
  ghost predicate Traces(audit: seq<Takeover>, started: map<SessionId, Worktree>, w: Worktree, id: SessionId)
    decreases |audit|
  {
    if id in started then started[id] == w
    else
      && audit != []
      && var last := audit[|audit| - 1];
         Traces(audit[..|audit| - 1], started, w,
                if last.worktree == w && last.successor == id then last.displaced else id)
  }

  ghost predicate HoldersSound(s: Store) {
    && (forall w | w in s.claims :: s.claims[w].session in s.issued)
    && (forall w, v | w in s.claims && v in s.claims && s.claims[w].session == s.claims[v].session :: w == v)
    && s.started.Keys <= s.issued
  }

  // A displaced session holds nothing and is displaced once; no id is issued twice.
  ghost predicate AuditSound(s: Store) {
    && (forall i | 0 <= i < |s.audit| :: s.audit[i].displaced in s.issued && s.audit[i].successor in s.issued)
    && (forall i, w | 0 <= i < |s.audit| && w in s.claims :: s.claims[w].session != s.audit[i].displaced)
    && (forall i, j | 0 <= i < j < |s.audit| ::
          s.audit[i].displaced != s.audit[j].displaced && s.audit[i].successor != s.audit[j].successor)
  }

  // The audit chains without gaps, up to the current holders.
  ghost predicate ChainSound(s: Store) {
    && (forall w | w in s.claims :: Traces(s.audit, s.started, w, s.claims[w].session))
    && (forall i | 0 <= i < |s.audit| :: Traces(s.audit[..i], s.started, s.audit[i].worktree, s.audit[i].displaced))
  }

  // A claim names the session it displaced exactly when the audit does.
  ghost predicate ClaimsMatchAudit(s: Store) {
    forall w, id: SessionId | w in s.claims ::
      s.claims[w].displaced == Some(id) <==> Takeover(w, id, s.claims[w].session) in s.audit
  }

  ghost predicate Inv(s: Store) {
    HoldersSound(s) && AuditSound(s) && ChainSound(s) && ClaimsMatchAudit(s)
  }

  // A later takeover or start of other ids does not disturb an existing trace.
  lemma {:induction false} TracesStable(audit: seq<Takeover>, started: map<SessionId, Worktree>, w: Worktree,
                                        id: SessionId,
                                        newId: SessionId, v: Worktree)
    requires Traces(audit, started, w, id)
    requires newId != id && newId !in started && forall i | 0 <= i < |audit| :: audit[i].displaced != newId
    ensures Traces(audit, started[newId := v], w, id)
    decreases |audit|
  {
    if id !in started {
      var last := audit[|audit| - 1];
      TracesStable(audit[..|audit| - 1], started, w,
                   if last.worktree == w && last.successor == id then last.displaced else id, newId, v);
    }
  }

  lemma TracesExtend(audit: seq<Takeover>, started: map<SessionId, Worktree>, w: Worktree, id: SessionId,
                     record: Takeover)
    requires record.successor !in started
    requires if record.successor == id && record.worktree == w then Traces(audit, started, w, record.displaced)
             else Traces(audit, started, w, id)
    ensures Traces(audit + [record], started, w, id)
  {
    assert (audit + [record])[..|audit|] == audit;
  }

  lemma StartKeeps(s: Store, w: Worktree, newId: SessionId)
    requires Inv(s) && Possible(s, Start(w, newId))
    ensures Inv(Perform(s, Start(w, newId)).0)
  {
    if w !in s.claims {
      var later := Perform(s, Start(w, newId)).0;
      forall v | v in later.claims ensures Traces(later.audit, later.started, v, later.claims[v].session) {
        if v != w { TracesStable(s.audit, s.started, v, s.claims[v].session, newId, w); }
      }
      forall i | 0 <= i < |s.audit|
        ensures Traces(later.audit[..i], later.started, s.audit[i].worktree, s.audit[i].displaced)
      {
        TracesStable(s.audit[..i], s.started, s.audit[i].worktree, s.audit[i].displaced, newId, w);
      }
    }
  }

  lemma TakeOverKeepsChain(s: Store, w: Worktree, confirm: SessionId, newId: SessionId)
    requires Inv(s) && newId !in s.issued && Verified(s, w, confirm)
    ensures ChainSound(Perform(s, TakeOver(w, confirm, newId)).0)
  {
    var later := Perform(s, TakeOver(w, confirm, newId)).0;
    var record := Takeover(w, confirm, newId);
    forall v | v in later.claims ensures Traces(later.audit, later.started, v, later.claims[v].session) {
      TracesExtend(s.audit, s.started, v, later.claims[v].session, record);
    }
    forall i | 0 <= i < |later.audit|
      ensures Traces(later.audit[..i], later.started, later.audit[i].worktree, later.audit[i].displaced)
    {
      assert later.audit[..i] == s.audit[..i];
      if i == |s.audit| { assert s.audit[..i] == s.audit; }
    }
  }

  lemma TakeOverKeepsMatch(s: Store, w: Worktree, confirm: SessionId, newId: SessionId)
    requires Inv(s) && newId !in s.issued && Verified(s, w, confirm)
    ensures ClaimsMatchAudit(Perform(s, TakeOver(w, confirm, newId)).0)
  {
    var later := Perform(s, TakeOver(w, confirm, newId)).0;
    forall v, id: SessionId | v in later.claims
      ensures later.claims[v].displaced == Some(id) <==> Takeover(v, id, later.claims[v].session) in later.audit
    {
      assert later.audit[|s.audit|] == Takeover(w, confirm, newId);
      if v == w {
        assert forall i | 0 <= i < |s.audit| :: s.audit[i].successor != newId;
      } else {
        assert later.claims[v] == s.claims[v] && s.claims[v].session != newId;
        assert Takeover(v, id, s.claims[v].session) in later.audit <==> Takeover(v, id, s.claims[v].session) in s.audit;
      }
    }
  }

  lemma TakeOverKeepsAudit(s: Store, w: Worktree, confirm: SessionId, newId: SessionId)
    requires Inv(s) && newId !in s.issued && Verified(s, w, confirm)
    ensures HoldersSound(Perform(s, TakeOver(w, confirm, newId)).0)
    ensures AuditSound(Perform(s, TakeOver(w, confirm, newId)).0)
  {
    var later := Perform(s, TakeOver(w, confirm, newId)).0;
    var n := |s.audit|;
    assert later.audit[n] == Takeover(w, confirm, newId);
    assert forall i | 0 <= i < n :: later.audit[i] == s.audit[i];
    assert s.claims[w].session == confirm;
    forall i, v | 0 <= i <= n && v in later.claims ensures later.claims[v].session != later.audit[i].displaced {
      if v != w { assert later.claims[v] == s.claims[v]; }
    }
    forall i, j | 0 <= i < j <= n
      ensures later.audit[i].displaced != later.audit[j].displaced
      ensures later.audit[i].successor != later.audit[j].successor
    {
      if j == n { assert s.audit[i].successor in s.issued; }
    }
  }

  lemma TakeOverKeeps(s: Store, w: Worktree, confirm: SessionId, newId: SessionId)
    requires Inv(s) && Possible(s, TakeOver(w, confirm, newId))
    ensures Inv(Perform(s, TakeOver(w, confirm, newId)).0)
  {
    if Verified(s, w, confirm) {
      TakeOverKeepsAudit(s, w, confirm, newId);
      TakeOverKeepsChain(s, w, confirm, newId);
      TakeOverKeepsMatch(s, w, confirm, newId);
    }
  }

  lemma SectionKeeps(s: Store, section: Section)
    requires Inv(s) && Possible(s, section)
    ensures Inv(Perform(s, section).0)
  {
    match section
    case Start(w, newId) => StartKeeps(s, w, newId);
    case TakeOver(w, confirm, newId) => TakeOverKeeps(s, w, confirm, newId);
    case _ =>
  }

  // Under every interleaving, a session holds at most one worktree, every takeover
  // displaces a different session, and from each current holder and each displaced
  // session the audit leads back without a gap to a `start` on that worktree.
  lemma {:induction false} SchedulesKeep(s: Store, sections: seq<Section>)
    requires Inv(s) && Schedule(s, sections)
    ensures Inv(After(s, sections))
    decreases |sections|
  {
    if sections != [] {
      SectionKeeps(s, sections[0]);
      SchedulesKeep(Perform(s, sections[0]).0, sections[1..]);
    }
  }

  lemma EmptyStoreIsSound()
    ensures Inv(EMPTY)
  {
  }

  // ---- how a claim changes ----------------------------------------------------------

  function Holder(s: Store, w: Worktree): Option<SessionId> {
    if w in s.claims then Some(s.claims[w].session) else None
  }

  // The holder of a worktree changes in three ways only: from nobody to a fresh id
  // by a start, from the session a takeover names to a fresh id, and from a session
  // to nobody by that session's own finish.
  lemma HolderChanges(s: Store, section: Section, w: Worktree)
    requires Inv(s) && Possible(s, section)
    requires Holder(Perform(s, section).0, w) != Holder(s, w)
    ensures var before, after := Holder(s, w), Holder(Perform(s, section).0, w);
      || (before.None? && after.Some? && after.value !in s.issued && section == Start(w, after.value))
      || (before.Some? && after.Some? && after.value !in s.issued && section == TakeOver(w, before.value, after.value)
          && Perform(s, section).0.audit == s.audit + [Takeover(w, before.value, after.value)])
      || (before.Some? && after.None? && section == EndFinish(w, before.value)
          && Pending(Finish, w, before.value) in s.pending)
  {
  }

  // And it does change so: what each section does to the holder of every worktree, and
  // what it reports.
  lemma StartClaims(s: Store, w: Worktree, newId: SessionId)
    ensures var (later, passed) := Perform(s, Start(w, newId));
      && (passed <==> Holder(s, w).None?)
      && (forall v :: Holder(later, v) == if v == w && Holder(s, w).None? then Some(newId) else Holder(s, v))
      && later.audit == s.audit && later.pending == s.pending
  {
  }

  lemma TakeOverDisplaces(s: Store, w: Worktree, confirm: SessionId, newId: SessionId)
    ensures var (later, passed) := Perform(s, TakeOver(w, confirm, newId));
      && (passed <==> Holder(s, w) == Some(confirm))
      && (forall v :: Holder(later, v) == if v == w && Holder(s, w) == Some(confirm) then Some(newId) else Holder(s, v))
      && later.audit == s.audit + (if Holder(s, w) == Some(confirm) then [Takeover(w, confirm, newId)] else [])
      && later.pending == s.pending
  {
  }

  lemma FinishReleases(s: Store, w: Worktree, id: SessionId)
    requires Inv(s) && Possible(s, EndFinish(w, id))
    ensures var (later, passed) := Perform(s, EndFinish(w, id));
      && (passed <==> Holder(s, w) == Some(id))
      && (forall v :: Holder(later, v) == if v == w && Holder(s, w) == Some(id) then None else Holder(s, v))
      && (passed ==> Retired(later, id) && forall newId :: Perform(later, Start(w, newId)).1)
      && later.audit == s.audit && later.pending == s.pending - {Pending(Finish, w, id)}
  {
  }

  // The other sections check the holder and leave all claims alone.
  lemma ChecksOnly(s: Store, section: Section)
    requires section.Begin? || section.EndCheckpoint?
    ensures var (later, passed) := Perform(s, section);
      && (passed <==> Holder(s, section.worktree) == Some(section.session))
      && later.claims == s.claims && later.audit == s.audit
      && (section.Begin? ==>
            later.pending == s.pending
                             + if passed then {Pending(section.command, section.worktree, section.session)} else {})
      && (section.EndCheckpoint? ==>
            later.pending == s.pending - {Pending(Checkpoint, section.worktree, section.session)})
  {
  }

  // The section takes the worktree from this session: a takeover that names it, or its
  // own finish.
  predicate Ends(section: Section, w: Worktree, id: SessionId) {
    || (section.TakeOver? && section.worktree == w && section.confirm == id)
    || (section.EndFinish? && section.worktree == w && section.session == id)
  }

  // A holder keeps its worktree through an interleaving exactly when no section in it
  // takes it away.
  lemma {:induction false} HeldIff(s: Store, sections: seq<Section>, w: Worktree, id: SessionId)
    requires Inv(s) && Schedule(s, sections) && Holder(s, w) == Some(id)
    ensures Holder(After(s, sections), w) == Some(id)
            <==> forall i | 0 <= i < |sections| :: !Ends(sections[i], w, id)
    decreases |sections|
  {
    if sections != [] {
      var first, rest := sections[0], sections[1..];
      var next := Perform(s, first).0;
      NoneOf(sections, w, id);
      SectionKeeps(s, first);
      if Ends(first, w, id) {
        EndsTakesAway(s, first, w, id);
        RetiredHoldsNothing(next, rest, w, id);
      } else {
        OthersLeaveHolder(s, first, w, id);
        HeldIff(next, rest, w, id);
      }
    }
  }

  lemma RetiredHoldsNothing(s: Store, sections: seq<Section>, w: Worktree, id: SessionId)
    requires Inv(s) && Schedule(s, sections) && Retired(s, id)
    ensures Holder(After(s, sections), w) != Some(id)
  {
    RetiredForGood(s, sections, id);
  }

  lemma NoneOf(sections: seq<Section>, w: Worktree, id: SessionId)
    requires sections != []
    ensures (forall i | 0 <= i < |sections| :: !Ends(sections[i], w, id))
            <==> !Ends(sections[0], w, id) && forall i | 0 <= i < |sections| - 1 :: !Ends(sections[1..][i], w, id)
  {
    assert forall i | 0 <= i < |sections| - 1 :: sections[1..][i] == sections[i + 1];
    assert forall i | 0 < i < |sections| :: sections[i] == sections[1..][i - 1];
  }

  lemma EndsTakesAway(s: Store, section: Section, w: Worktree, id: SessionId)
    requires Inv(s) && Possible(s, section) && Holder(s, w) == Some(id) && Ends(section, w, id)
    ensures Retired(Perform(s, section).0, id)
  {
    if section.TakeOver? {
      TakeoverRetires(s, w, id, section.newId);
    } else {
      FinishReleases(s, w, id);
    }
  }

  lemma OthersLeaveHolder(s: Store, section: Section, w: Worktree, id: SessionId)
    requires Inv(s) && Possible(s, section) && Holder(s, w) == Some(id) && !Ends(section, w, id)
    ensures Holder(Perform(s, section).0, w) == Some(id)
  {
    match section
    case Start(v, newId) => StartClaims(s, v, newId);
    case TakeOver(v, confirm, newId) => TakeOverDisplaces(s, v, confirm, newId);
    case EndFinish(v, other) => FinishReleases(s, v, other);
    case _ => ChecksOnly(s, section);
  }

  // A finish that nothing disturbs completes, and the worktree can be claimed again.
  lemma UndisturbedFinish(s: Store, between: seq<Section>, w: Worktree, id: SessionId, newId: SessionId)
    requires Inv(s) && Holder(s, w) == Some(id) && Schedule(Perform(s, Begin(Finish, w, id)).0, between)
    requires forall i | 0 <= i < |between| :: !Ends(between[i], w, id)
    ensures var begun := Perform(s, Begin(Finish, w, id)).0;
      var (finished, passed) := Perform(After(begun, between), EndFinish(w, id));
      && Possible(After(begun, between), EndFinish(w, id)) && passed && Holder(finished, w).None?
      && Holder(Perform(finished, Start(w, newId)).0, w) == Some(newId)
  {
    var begun := Perform(s, Begin(Finish, w, id)).0;
    SectionKeeps(s, Begin(Finish, w, id));
    HeldIff(begun, between, w, id);
    PendingStays(begun, between, w, id);
  }

  lemma {:induction false} PendingStays(s: Store, sections: seq<Section>, w: Worktree, id: SessionId)
    requires Schedule(s, sections) && Pending(Finish, w, id) in s.pending
    requires forall i | 0 <= i < |sections| :: !Ends(sections[i], w, id)
    ensures Pending(Finish, w, id) in After(s, sections).pending
    decreases |sections|
  {
    if sections != [] {
      assert !Ends(sections[0], w, id);
      PendingStays(Perform(s, sections[0]).0, sections[1..], w, id);
    }
  }

  // The audit grows exactly when a holder is displaced.
  lemma AuditIsExact(s: Store, section: Section)
    requires Inv(s) && Possible(s, section)
    ensures var later := Perform(s, section).0;
      later.audit != s.audit
      <==> exists w | w in s.claims && w in later.claims :: s.claims[w].session != later.claims[w].session
  {
    if section.TakeOver? && Verified(s, section.worktree, section.confirm) {
      var later := Perform(s, section).0;
      assert later.claims[section.worktree].session == section.newId;
      assert s.claims[section.worktree].session in s.issued;
      assert |later.audit| != |s.audit|;
    }
  }

  // An id that was issued and holds no worktree any more: displaced or finished.
  ghost predicate Retired(s: Store, id: SessionId) {
    id in s.issued && forall w | w in s.claims :: s.claims[w].session != id
  }

  // A retired session passes no check, and its second section leaves every claim
  // alone.
  ghost predicate Powerless(s: Store, id: SessionId) {
    forall w ::
      && !Verified(s, w, id)
      && !Perform(s, Begin(Checkpoint, w, id)).1 && !Perform(s, Begin(Finish, w, id)).1
      && !Perform(s, EndCheckpoint(w, id)).1
      && Perform(s, EndFinish(w, id)) == (s.(pending := s.pending - {Pending(Finish, w, id)}), false)
  }

  // A retired session stays retired through every later interleaving, wherever in
  // a command it still is, so it never unlinks a claim that came after it.
  lemma {:induction false} RetiredForGood(s: Store, sections: seq<Section>, id: SessionId)
    requires Inv(s) && Schedule(s, sections) && Retired(s, id)
    ensures Retired(After(s, sections), id) && Powerless(After(s, sections), id)
    decreases |sections|
  {
    if sections != [] {
      SectionKeeps(s, sections[0]);
      RetiredForGood(Perform(s, sections[0]).0, sections[1..], id);
    }
  }

  lemma TakeoverRetires(s: Store, w: Worktree, confirm: SessionId, newId: SessionId)
    requires Inv(s) && Possible(s, TakeOver(w, confirm, newId))
    ensures var (later, passed) := Perform(s, TakeOver(w, confirm, newId));
      passed ==> Retired(later, confirm) && Verified(later, w, newId)
  {
  }

  // ---- the code -------------------------------------------------------------------------

  class ClaimFiles {
    var claims: map<Worktree, Claim>
    var audit: seq<Takeover>
    ghost var pending: set<Pending>
    ghost var issued: set<SessionId>
    ghost var started: map<SessionId, Worktree>

    ghost function State(): Store
      reads this
    {
      Store(claims, audit, pending, issued, started)
    }

    constructor ()
      ensures State() == EMPTY && Inv(State())
    {
      claims, audit := map[], [];
      pending, issued, started := {}, {}, map[];
    }

    method VerifyClaim(worktree: Worktree, session: SessionId) returns (passed: bool)
      ensures passed <==> Verified(State(), worktree, session)
    {
      if worktree !in claims {
        return false;
      }
      passed := claims[worktree].session == session;
    }

    method StartSession(worktree: Worktree, newId: SessionId) returns (claimed: bool)
      modifies this
      ensures (State(), claimed) == Perform(old(State()), Start(worktree, newId))
    {
      if worktree in claims {
        return false;
      }
      claims := claims[worktree := Claim(newId, None)];
      issued := issued + {newId};
      started := started[newId := worktree];
      claimed := true;
    }

    method BeginCommand(command: Command, worktree: Worktree, session: SessionId) returns (passed: bool)
      modifies this`pending
      ensures (State(), passed) == Perform(old(State()), Begin(command, worktree, session))
    {
      passed := VerifyClaim(worktree, session);
      if passed {
        pending := pending + {Pending(command, worktree, session)};
      }
    }

    method WriteCheckpoint(worktree: Worktree, session: SessionId) returns (passed: bool)
      modifies this`pending
      ensures (State(), passed) == Perform(old(State()), EndCheckpoint(worktree, session))
    {
      passed := VerifyClaim(worktree, session);
      pending := pending - {Pending(Checkpoint, worktree, session)};
    }

    method UnlinkClaim(worktree: Worktree, session: SessionId) returns (passed: bool)
      modifies this`claims, this`pending
      ensures (State(), passed) == Perform(old(State()), EndFinish(worktree, session))
    {
      passed := VerifyClaim(worktree, session);
      if passed {
        claims := claims - {worktree};
      }
      pending := pending - {Pending(Finish, worktree, session)};
    }

    // The audit line is appended before the claim file is replaced.
    method TakeOverClaim(worktree: Worktree, confirm: SessionId, newId: SessionId) returns (passed: bool)
      modifies this
      ensures (State(), passed) == Perform(old(State()), TakeOver(worktree, confirm, newId))
    {
      if worktree !in claims || claims[worktree].session != confirm {
        return false;
      }
      audit := audit + [Takeover(worktree, confirm, newId)];
      claims := claims[worktree := Claim(newId, Some(claims[worktree].session))];
      issued := issued + {newId};
      passed := true;
    }
  }
}
