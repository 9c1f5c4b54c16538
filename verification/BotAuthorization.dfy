/** Who may run a bot command: the direct grant, the group grants matched through the
    membership cache, and the union of their effective permissions. */
module BotAuthorization {
  import opened Text
  import opened BotAccess

  const CACHE_TTL_SECONDS := 600
  const MAX_ERROR := 1000

  datatype CacheEntry = CacheEntry(groupIds: seq<string>, checkedAt: int, expiresAt: Option<int>, lastError: string)

  type Cache = map<(string, string), CacheEntry>

  /** What the directory answers when asked. */
  datatype Lookup = Found(groupIds: seq<string>) | Failed(error: string)

  datatype Status = NotConfigured | Hit | Miss | LookupError

  datatype Membership = Membership(groupIds: seq<string>, status: Status, error: string, cache: Cache)

  function NormalizeId(id: string): string {
    Lower(Trim(id))
  }

  /** Trimmed, lower-case, non-blank ids. */
  function NormalizeIds(ids: seq<string>): seq<string> {
    NonEmpty(ids, NormalizeId)
  }

  predicate IsGroupGrant(g: Grant, org: string) {
    g.org == org && g.active && g.subject.Group?
  }

  predicate HasGroupGrants(s: State, org: string) {
    exists i :: i in s.grants && IsGroupGrant(s.grants[i], org)
  }

  predicate Live(e: CacheEntry, now: int) {
    e.expiresAt.Some? && e.expiresAt.value > now
  }

  /** `_bot_group_ids_for_sender`. */
  function GroupIdsForSender(s: State, cache: Cache, org: string, aad: string, now: int, lookup: Lookup): Membership {
    var key := (org, aad);
    if !HasGroupGrants(s, org) then Membership([], NotConfigured, "", cache)
    else if key in cache && Live(cache[key], now)
    then Membership(NormalizeIds(cache[key].groupIds), Hit, cache[key].lastError, cache)
    else if lookup.Failed? then
      var error := Clip(lookup.error, MAX_ERROR);
      Membership([], LookupError, error,
                 if key in cache then cache[key := cache[key].(checkedAt := now, lastError := error)] else cache)
    else
      Membership(lookup.groupIds, Miss, "",
                 cache[key := CacheEntry(lookup.groupIds, now, Some(now + CACHE_TTL_SECONDS), "")])
  }

  /** `_matching_bot_groups`, as the ids of the matching grants. */
  function MatchingGroups(s: State, org: string, groupIds: seq<string>): set<nat> {
    GrantsToGroups(s, org, NormalizeIds(groupIds))
  }

  function GrantsToGroups(s: State, org: string, ids: seq<string>): set<nat> {
    set i | i in s.grants && IsGroupGrant(s.grants[i], org) && s.grants[i].subject.objectId in ids
  }

  function DirectGrants(s: State, org: string, aad: string): set<nat> {
    set i | i in s.grants && s.grants[i].org == org && s.grants[i].active && s.grants[i].subject == User(aad)
  }

  predicate Confers(s: State, i: nat, p: Permission) {
    i in s.grants && p in Effective(s, s.grants[i])
  }

  predicate SomeConfers(s: State, sources: set<nat>, p: Permission) {
    exists i :: i in sources && Confers(s, i, p)
  }

  /** `_union_bot_permissions`. */
  function UnionPermissions(s: State, sources: set<nat>): set<Permission> {
    set p: Permission | SomeConfers(s, sources, p)
  }

  datatype Denial =
    | MissingObjectId
    | MembershipUnavailable
    | NotAuthorized
    | MissingPermission(permission: Permission)

  datatype Verdict = Allowed(permissions: set<Permission>) | Denied(reason: Denial)

  datatype Authorization = Authorization(verdict: Verdict, cache: Cache)

  function Decide(s: State, direct: set<nat>, groups: set<nat>, status: Status, required: Option<Permission>): Verdict {
    if status == LookupError && direct == {} then Denied(MembershipUnavailable)
    else
      var sources := direct + (if status == LookupError then {} else groups);
      var permissions := UnionPermissions(s, sources);
      if sources == {} then Denied(NotAuthorized)
      else if required.Some? && required.value !in permissions then Denied(MissingPermission(required.value))
      else Allowed(permissions)
  }

  /** `_authorize_bot_command`, with the permission the command requires. */
  function Authorize(s: State, cache: Cache, org: string, objectId: string, now: int, lookup: Lookup,
    required: Option<Permission>): Authorization
  {
    AuthorizeAs(s, cache, org, NormalizeId(objectId), now, lookup, required)
  }

  function AuthorizeAs(s: State, cache: Cache, org: string, aad: string, now: int, lookup: Lookup,
    required: Option<Permission>): Authorization
  {
    if aad == "" then Authorization(Denied(MissingObjectId), cache)
    else
      var m := GroupIdsForSender(s, cache, org, aad, now, lookup);
      Authorization(
        Decide(s, DirectGrants(s, org, aad), MatchingGroups(s, org, m.groupIds), m.status, required),
        m.cache)
  }

  // ----- permissions come from grants -----

  /** An active grant of the organization to this user, or to one of these groups. */
  predicate GrantFor(g: Grant, org: string, aad: string, groupIds: seq<string>) {
    && g.org == org && g.active
    && (g.subject == User(aad) || (g.subject.Group? && g.subject.objectId in groupIds))
  }

  predicate GrantedBy(s: State, i: nat, org: string, aad: string, groupIds: seq<string>, p: Permission) {
    i in s.grants && GrantFor(s.grants[i], org, aad, groupIds) && p in Effective(s, s.grants[i])
  }

  /** Some grant covers the sender at all. */
  predicate HasGrant(s: State, org: string, aad: string, groupIds: seq<string>) {
    exists i :: i in s.grants && GrantFor(s.grants[i], org, aad, groupIds)
  }

  ghost predicate IsGranted(s: State, org: string, aad: string, groupIds: seq<string>, p: Permission) {
    exists i :: GrantedBy(s, i, org, aad, groupIds, p)
  }

  lemma SourcesAreGrants(s: State, org: string, aad: string, ids: seq<string>)
    ensures var sources := DirectGrants(s, org, aad) + GrantsToGroups(s, org, ids);
      && (forall i :: i in sources <==> i in s.grants && GrantFor(s.grants[i], org, aad, ids))
      && (sources == {} <==> !HasGrant(s, org, aad, ids))
  {
    var sources := DirectGrants(s, org, aad) + GrantsToGroups(s, org, ids);
    if i :| i in s.grants && GrantFor(s.grants[i], org, aad, ids) {
      assert i in sources;
    }
    if sources != {} {
      var i :| i in sources;
      assert GrantFor(s.grants[i], org, aad, ids);
    }
  }

  lemma UnionIsGranted(s: State, org: string, aad: string, ids: seq<string>, p: Permission)
    ensures p in UnionPermissions(s, DirectGrants(s, org, aad) + GrantsToGroups(s, org, ids))
       <==> IsGranted(s, org, aad, ids, p)
  {
    hide GrantFor, DirectGrants, GrantsToGroups, Effective;
    var sources := DirectGrants(s, org, aad) + GrantsToGroups(s, org, ids);
    SourcesAreGrants(s, org, aad, ids);
    if SomeConfers(s, sources, p) {
      var i :| i in sources && Confers(s, i, p);
      assert GrantedBy(s, i, org, aad, ids, p);
    }
    if i :| GrantedBy(s, i, org, aad, ids, p) {
      assert i in sources && Confers(s, i, p);
    }
  }

  /** The grants that count: those to the user or one of the sender's groups. Where the directory
      could not be asked, the sender has no groups. */
  lemma FailedLookupNoGroups(s: State, cache: Cache, org: string, aad: string, now: int, lookup: Lookup)
    ensures var m := GroupIdsForSender(s, cache, org, aad, now, lookup);
      m.status == LookupError ==> MatchingGroups(s, org, m.groupIds) == {} && NormalizeIds(m.groupIds) == []
  {
  }

  /** A command is allowed exactly when the sender is known, some active grant of the organization is
      to the sender or to a group the sender is in, and one of those grants confers the permission
      the command requires; the permissions it runs with are exactly those the grants confer. */
  lemma AllowedIff(s: State, cache: Cache, org: string, aad: string, now: int, lookup: Lookup,
    required: Option<Permission>)
    ensures var ids := NormalizeIds(GroupIdsForSender(s, cache, org, aad, now, lookup).groupIds);
      var verdict := AuthorizeAs(s, cache, org, aad, now, lookup, required).verdict;
      && (verdict.Allowed?
          <==> (aad != "" && HasGrant(s, org, aad, ids)
                && (required.Some? ==> IsGranted(s, org, aad, ids, required.value))))
      && (verdict.Allowed? ==> forall p :: p in verdict.permissions <==> IsGranted(s, org, aad, ids, p))
  {
    hide GrantsToGroups, DirectGrants, UnionPermissions, HasGrant, IsGranted, GroupIdsForSender, NormalizeIds;
    var m := GroupIdsForSender(s, cache, org, aad, now, lookup);
    var ids := NormalizeIds(m.groupIds);
    var direct, groups := DirectGrants(s, org, aad), GrantsToGroups(s, org, ids);
    FailedLookupNoGroups(s, cache, org, aad, now, lookup);
    SourcesAreGrants(s, org, aad, ids);
    forall p ensures p in UnionPermissions(s, direct + groups) <==> IsGranted(s, org, aad, ids, p) {
      UnionIsGranted(s, org, aad, ids, p);
    }
  }

  /** Why a command is denied. */
  lemma DenialReasons(s: State, cache: Cache, org: string, aad: string, now: int, lookup: Lookup,
    required: Option<Permission>)
    ensures var m := GroupIdsForSender(s, cache, org, aad, now, lookup);
      var ids := NormalizeIds(m.groupIds);
      var verdict := AuthorizeAs(s, cache, org, aad, now, lookup, required).verdict;
      verdict.Denied? ==>
        if aad == "" then verdict.reason == MissingObjectId
        else if HasGrant(s, org, aad, ids) then required.Some? && verdict.reason == MissingPermission(required.value)
        else verdict.reason == if m.status == LookupError then MembershipUnavailable else NotAuthorized
  {
    hide GrantsToGroups, DirectGrants, UnionPermissions, HasGrant, GroupIdsForSender, NormalizeIds;
    var m := GroupIdsForSender(s, cache, org, aad, now, lookup);
    FailedLookupNoGroups(s, cache, org, aad, now, lookup);
    SourcesAreGrants(s, org, aad, NormalizeIds(m.groupIds));
  }

  /** In particular everything an allowed sender may do comes from such a grant. */
  lemma AllowedMeansGranted(s: State, cache: Cache, org: string, aad: string, now: int, lookup: Lookup,
    required: Option<Permission>)
    requires AuthorizeAs(s, cache, org, aad, now, lookup, required).verdict.Allowed?
    ensures var ids := NormalizeIds(GroupIdsForSender(s, cache, org, aad, now, lookup).groupIds);
      var permissions := AuthorizeAs(s, cache, org, aad, now, lookup, required).verdict.permissions;
      && aad != ""
      && (required.Some? ==> required.value in permissions)
      && forall p :: p in permissions ==> exists i :: GrantedBy(s, i, org, aad, ids, p)
  {
    AllowedIff(s, cache, org, aad, now, lookup, required);
  }

  // ----- more grants never take a command away -----

  /** Every active grant of the organization is still there, active, with at least its effective
      permissions. */
  predicate Extends(s: State, t: State, org: string) {
    forall i :: i in s.grants && s.grants[i].org == org && s.grants[i].active ==>
      && i in t.grants && t.grants[i].active && SameSubject(s.grants[i], t.grants[i])
      && Effective(s, s.grants[i]) <= Effective(t, t.grants[i])
  }

  lemma UnionGrows(s: State, t: State, a: set<nat>, b: set<nat>)
    requires a <= b
    requires forall i, p :: i in a && Confers(s, i, p) ==> Confers(t, i, p)
    ensures UnionPermissions(s, a) <= UnionPermissions(t, b)
  {
    forall p | p in UnionPermissions(s, a) ensures p in UnionPermissions(t, b) {
      var i :| i in a && Confers(s, i, p);
      assert i in b && Confers(t, i, p);
    }
  }

  lemma DecideGrows(s: State, t: State, direct: set<nat>, groups: set<nat>, status: Status,
    direct': set<nat>, groups': set<nat>, status': Status, required: Option<Permission>)
    requires direct <= direct'
    requires status != LookupError && groups != {} ==> status' != LookupError && groups <= groups'
    requires forall i, p :: i in direct + groups && Confers(s, i, p) ==> Confers(t, i, p)
    requires Decide(s, direct, groups, status, required).Allowed?
    ensures Decide(t, direct', groups', status', required).Allowed?
    ensures Decide(s, direct, groups, status, required).permissions
         <= Decide(t, direct', groups', status', required).permissions
  {
    var a := direct + (if status == LookupError then {} else groups);
    var b := direct' + (if status' == LookupError then {} else groups');
    UnionGrows(s, t, a, b);
  }

  /** For the same clock, cache and directory answer, adding or activating grants never turns an
      allowed command into a denied one, even when the first group grant brings in a lookup that
      fails. */
  lemma AuthorizationMonotone(s: State, t: State, cache: Cache, org: string, objectId: string, now: int,
    lookup: Lookup, required: Option<Permission>)
    requires Extends(s, t, org)
    requires Authorize(s, cache, org, objectId, now, lookup, required).verdict.Allowed?
    ensures Authorize(t, cache, org, objectId, now, lookup, required).verdict.Allowed?
    ensures Authorize(s, cache, org, objectId, now, lookup, required).verdict.permissions
         <= Authorize(t, cache, org, objectId, now, lookup, required).verdict.permissions
  {
    MonotoneAs(s, t, cache, org, NormalizeId(objectId), now, lookup, required);
  }

  lemma MonotoneAs(s: State, t: State, cache: Cache, org: string, aad: string, now: int,
    lookup: Lookup, required: Option<Permission>)
    requires Extends(s, t, org)
    requires AuthorizeAs(s, cache, org, aad, now, lookup, required).verdict.Allowed?
    ensures AuthorizeAs(t, cache, org, aad, now, lookup, required).verdict.Allowed?
    ensures AuthorizeAs(s, cache, org, aad, now, lookup, required).verdict.permissions
         <= AuthorizeAs(t, cache, org, aad, now, lookup, required).verdict.permissions
  {
    var m, m' := GroupIdsForSender(s, cache, org, aad, now, lookup), GroupIdsForSender(t, cache, org, aad, now, lookup);
    var groups := MatchingGroups(s, org, m.groupIds);
    if HasGroupGrants(s, org) {
      var i :| i in s.grants && IsGroupGrant(s.grants[i], org);
      assert IsGroupGrant(t.grants[i], org);
      assert HasGroupGrants(t, org);
      assert m == m';
    } else {
      assert groups == {};
    }
    DecideGrows(s, t, DirectGrants(s, org, aad), groups, m.status,
                DirectGrants(t, org, aad), MatchingGroups(t, org, m'.groupIds), m'.status, required);
  }

  // ----- only effective permissions matter -----

  /** Same grants by organization, subject, activity and effective permissions. */
  predicate SameRights(s: State, t: State) {
    && s.grants.Keys == t.grants.Keys
    && forall i :: i in s.grants ==>
         && SameSubject(s.grants[i], t.grants[i]) && s.grants[i].active == t.grants[i].active
         && Effective(s, s.grants[i]) == Effective(t, t.grants[i])
  }

  lemma SameGroupGrants(s: State, t: State, org: string)
    requires SameRights(s, t)
    ensures HasGroupGrants(s, org) ==> HasGroupGrants(t, org)
  {
    if i :| i in s.grants && IsGroupGrant(s.grants[i], org) {
      assert i in t.grants && IsGroupGrant(t.grants[i], org);
    }
  }

  lemma SameSources(s: State, t: State, org: string, aad: string, ids: seq<string>)
    requires SameRights(s, t)
    ensures DirectGrants(s, org, aad) == DirectGrants(t, org, aad)
    ensures GrantsToGroups(s, org, ids) == GrantsToGroups(t, org, ids)
  {
  }

  lemma UnionSame(s: State, t: State, sources: set<nat>)
    requires SameRights(s, t)
    ensures UnionPermissions(s, sources) == UnionPermissions(t, sources)
  {
    forall i, p ensures Confers(s, i, p) <==> Confers(t, i, p) { }
    UnionGrows(s, t, sources, sources);
    UnionGrows(t, s, sources, sources);
  }

  lemma SameRightsSameVerdict(s: State, t: State, cache: Cache, org: string, aad: string, now: int,
    lookup: Lookup, required: Option<Permission>)
    requires SameRights(s, t) && SameRights(t, s)
    ensures AuthorizeAs(s, cache, org, aad, now, lookup, required)
       == AuthorizeAs(t, cache, org, aad, now, lookup, required)
  {
    SameGroupGrants(s, t, org);
    SameGroupGrants(t, s, org);
    var m := GroupIdsForSender(s, cache, org, aad, now, lookup);
    assert GroupIdsForSender(t, cache, org, aad, now, lookup) == m;
    SameSources(s, t, org, aad, NormalizeIds(m.groupIds));
    DecideSame(s, t, DirectGrants(s, org, aad), MatchingGroups(s, org, m.groupIds), m.status, required);
  }

  lemma DecideSame(s: State, t: State, direct: set<nat>, groups: set<nat>, status: Status, required: Option<Permission>)
    requires SameRights(s, t)
    ensures Decide(s, direct, groups, status, required) == Decide(t, direct, groups, status, required)
  {
    UnionSame(s, t, direct + (if status == LookupError then {} else groups));
  }

  /** The role backfill changes no authorization verdict. */
  lemma BackfillKeepsVerdicts(s: State, organization: string, ids: Ids, cache: Cache, org: string, objectId: string,
    now: int, lookup: Lookup, required: Option<Permission>)
    requires Valid(s) && Backfill(s, organization, ids).Ok?
    ensures Authorize(Backfill(s, organization, ids).value, cache, org, objectId, now, lookup, required)
         == Authorize(s, cache, org, objectId, now, lookup, required)
  {
    BackfillKeepsEffective(s, organization, ids);
    SameRightsSameVerdict(s, Backfill(s, organization, ids).value, cache, org, NormalizeId(objectId), now, lookup,
        required);
  }

  // ----- the membership cache over a run -----

  /** One authorization request: the grants and the clock at that moment, and what the directory
      would answer. */
  datatype Request = Request(state: State, org: string, aad: string, now: int, lookup: Lookup)

  function Answer(cache: Cache, r: Request): Membership {
    GroupIdsForSender(r.state, cache, r.org, r.aad, r.now, r.lookup)
  }

  function CacheAfter(requests: seq<Request>): Cache {
    if requests == [] then map[]
    else Answer(CacheAfter(requests[..|requests| - 1]), requests[|requests| - 1]).cache
  }

  predicate ClockOrdered(requests: seq<Request>) {
    forall i, j :: 0 <= i <= j < |requests| ==> requests[i].now <= requests[j].now
  }

  /** Request `j` asked the directory for this sender at time `at` and got these ids. */
  predicate Asked(requests: seq<Request>, j: nat, org: string, aad: string, at: int, ids: seq<string>) {
    && j < |requests| && requests[j].org == org && requests[j].aad == aad && requests[j].now == at
    && requests[j].lookup == Found(ids) && Answer(CacheAfter(requests[..j]), requests[j]).status == Miss
  }

  /** Every entry is the answer of some earlier lookup with its expiry ten minutes later, and an
      entry with a recorded error has expired. */
  ghost predicate CacheOk(cache: Cache, requests: seq<Request>) {
    forall key :: key in cache ==> EntryOk(cache[key], requests, key.0, key.1)
  }

  ghost predicate EntryOk(e: CacheEntry, requests: seq<Request>, org: string, aad: string) {
    exists j: nat, at: int :: EntryFrom(e, requests, org, aad, j, at)
  }

  predicate EntryFrom(e: CacheEntry, requests: seq<Request>, org: string, aad: string, j: nat, at: int) {
    && Asked(requests, j, org, aad, at, e.groupIds)
    && e.expiresAt == Some(at + CACHE_TTL_SECONDS)
    && (e.lastError != "" ==> requests[|requests| - 1].now >= at + CACHE_TTL_SECONDS)
  }

  lemma AskedStays(requests: seq<Request>, r: Request, j: nat, org: string, aad: string, at: int, ids: seq<string>)
    requires Asked(requests, j, org, aad, at, ids)
    ensures Asked(requests + [r], j, org, aad, at, ids)
  {
    assert (requests + [r])[..j] == requests[..j];
  }

  lemma EntryStays(requests: seq<Request>, r: Request, e: CacheEntry, org: string, aad: string)
    requires ClockOrdered(requests + [r]) && EntryOk(e, requests, org, aad)
    ensures EntryOk(e, requests + [r], org, aad)
  {
    var j: nat, at: int :| EntryFrom(e, requests, org, aad, j, at);
    var all := requests + [r];
    AskedStays(requests, r, j, org, aad, at, e.groupIds);
    assert all[|requests| - 1].now <= all[|requests|].now;
    assert EntryFrom(e, all, org, aad, j, at);
  }

  lemma EntryFails(requests: seq<Request>, r: Request, e: CacheEntry, error: string, org: string, aad: string)
    requires ClockOrdered(requests + [r]) && EntryOk(e, requests, org, aad) && !Live(e, r.now)
    ensures EntryOk(e.(checkedAt := r.now, lastError := error), requests + [r], org, aad)
  {
    var j: nat, at: int :| EntryFrom(e, requests, org, aad, j, at);
    AskedStays(requests, r, j, org, aad, at, e.groupIds);
    assert EntryFrom(e.(checkedAt := r.now, lastError := error), requests + [r], org, aad, j, at);
  }

  lemma EntryNew(requests: seq<Request>, r: Request)
    requires Answer(CacheAfter(requests), r).status == Miss
    ensures EntryOk(Answer(CacheAfter(requests), r).cache[(r.org, r.aad)], requests + [r], r.org, r.aad)
  {
    var all := requests + [r];
    assert all[..|requests|] == requests;
    var e := Answer(CacheAfter(requests), r).cache[(r.org, r.aad)];
    assert Asked(all, |requests|, r.org, r.aad, r.now, e.groupIds);
    assert EntryFrom(e, all, r.org, r.aad, |requests|, r.now);
  }

  lemma CacheStep(requests: seq<Request>, r: Request)
    requires ClockOrdered(requests + [r]) && CacheOk(CacheAfter(requests), requests)
    ensures CacheOk(CacheAfter(requests + [r]), requests + [r])
  {
    hide EntryOk, NormalizeId;
    var before, all := CacheAfter(requests), requests + [r];
    assert all[..|requests|] == requests;
    var m := Answer(before, r);
    forall key | key in m.cache ensures EntryOk(m.cache[key], all, key.0, key.1) {
      if m.status == Miss && key == (r.org, r.aad) {
        EntryNew(requests, r);
      } else if m.status == LookupError && key == (r.org, r.aad) {
        EntryFails(requests, r, before[key], m.error, key.0, key.1);
      } else {
        EntryStays(requests, r, before[key], key.0, key.1);
      }
    }
  }

  lemma {:induction false} CacheRun(requests: seq<Request>)
    requires ClockOrdered(requests)
    ensures CacheOk(CacheAfter(requests), requests)
  {
    if requests != [] {
      hide CacheOk, Answer;
      var init, last := requests[..|requests| - 1], requests[|requests| - 1];
      assert ClockOrdered(init);
      CacheRun(init);
      assert requests == init + [last];
      CacheStep(init, last);
    }
  }

  lemma NormalizeIdsTwice(ids: seq<string>)
    ensures NormalizeIds(NormalizeIds(ids)) == NormalizeIds(ids)
  {
    forall id: string ensures NormalizeId(NormalizeId(id)) == NormalizeId(id) { NormalizeIdTwice(id); }
    NonEmptyTwice(ids, NormalizeId);
  }

  lemma NormalizeIdTwice(id: string)
    ensures NormalizeId(NormalizeId(id)) == NormalizeId(id)
  {
    TrimFixes(id);
    TrimFixes(Lower(Trim(id)));
    LowerIdempotent(Trim(id));
  }

  // ----- a recent answer is always used -----

  /** The entry of a sender lives until at least ten minutes after `at`. */
  predicate LivesFrom(cache: Cache, org: string, aad: string, at: int) {
    (org, aad) in cache && Live(cache[(org, aad)], at + CACHE_TTL_SECONDS - 1)
  }

  lemma {:induction false} AnswerLives(requests: seq<Request>, j: nat, org: string, aad: string, at: int,
      ids: seq<string>)
    requires ClockOrdered(requests) && Asked(requests, j, org, aad, at, ids)
    ensures LivesFrom(CacheAfter(requests), org, aad, at)
  {
    var init, last := requests[..|requests| - 1], requests[|requests| - 1];
    assert requests[j].now <= requests[|requests| - 1].now;
    if j == |init| {
      assert requests[..j] == init;
    } else {
      assert init[..j] == requests[..j];
      assert ClockOrdered(init) by {
        assert forall i :: 0 <= i < |init| ==> init[i] == requests[i];
      }
      AnswerLives(init, j, org, aad, at, ids);
    }
  }

  /** A lookup for the same sender, less than ten minutes before request `k`, was answered. */
  ghost predicate AnsweredRecently(requests: seq<Request>, k: nat)
    requires k < |requests|
  {
    var r := requests[k];
    exists j: nat, at: int, ids: seq<string> ::
      Asked(requests, j, r.org, r.aad, at, ids) && j < k && r.now < at + CACHE_TTL_SECONDS
  }

  lemma RecentAnswerIsUsed(requests: seq<Request>, k: nat)
    requires ClockOrdered(requests) && k < |requests| && AnsweredRecently(requests, k)
    ensures var m := Answer(CacheAfter(requests[..k]), requests[k]);
      m.status == Hit || m.status == NotConfigured
  {
    var init, r := requests[..k], requests[k];
    var j: nat, at: int, ids: seq<string> :|
      Asked(requests, j, r.org, r.aad, at, ids) && j < k && r.now < at + CACHE_TTL_SECONDS;
    assert init[..j] == requests[..j] && init[j] == requests[j];
    AnswerLives(init, j, r.org, r.aad, at, ids);
  }

  /** Over any clock-ordered run, the group grants a request matches are exactly those a lookup
      less than ten minutes old would match against the current grants: a hit uses an earlier
      answer, a miss its own, and without active group grants no answer would match anything. A
      recent answer is always used; a failed lookup matches nothing, and only happens when there is
      no such answer. */
  lemma MatchesRecentLookup(requests: seq<Request>, k: nat)
    requires ClockOrdered(requests) && k < |requests|
    ensures var r := requests[k];
      var m := Answer(CacheAfter(requests[..k]), r);
      var matched := MatchingGroups(r.state, r.org, m.groupIds);
      && (m.status == Hit ==> m.error == "" && RecentAnswer(requests, k, matched))
      && (m.status == Miss ==> r.lookup.Found? && matched == MatchingGroups(r.state, r.org, r.lookup.groupIds))
      && (m.status == NotConfigured ==> forall ids :: matched == MatchingGroups(r.state, r.org, ids))
      && (m.status == LookupError ==> r.lookup.Failed? && matched == {})
      && (AnsweredRecently(requests, k) ==> m.status == Hit || m.status == NotConfigured)
      && (m.status == NotConfigured <==> !HasGroupGrants(r.state, r.org))
  {
    var init, r := requests[..k], requests[k];
    CacheRun(init);
    var m := Answer(CacheAfter(init), r);
    if m.status == Hit {
      HitIsRecent(requests, k);
    } else if m.status == NotConfigured {
      forall ids ensures MatchingGroups(r.state, r.org, ids) == {} { }
    }
    if AnsweredRecently(requests, k) {
      RecentAnswerIsUsed(requests, k);
    }
  }

  /** Some earlier lookup for this sender, less than ten minutes old, answered with ids that
      match exactly these grants. */
  ghost predicate RecentAnswer(requests: seq<Request>, k: nat, matched: set<nat>)
    requires k < |requests|
  {
    var r := requests[k];
    exists j: nat, at: int, ids: seq<string> ::
      && Asked(requests, j, r.org, r.aad, at, ids) && j < k && r.now - CACHE_TTL_SECONDS < at <= r.now
      && matched == MatchingGroups(r.state, r.org, ids)
  }

  lemma HitIsRecent(requests: seq<Request>, k: nat)
    requires ClockOrdered(requests) && k < |requests|
    requires CacheOk(CacheAfter(requests[..k]), requests[..k])
    requires Answer(CacheAfter(requests[..k]), requests[k]).status == Hit
    ensures var m := Answer(CacheAfter(requests[..k]), requests[k]);
      m.error == "" && RecentAnswer(requests, k, MatchingGroups(requests[k].state, requests[k].org, m.groupIds))
  {
    hide GrantsToGroups, NonEmpty, NormalizeId, HasGroupGrants;
    var init, r := requests[..k], requests[k];
    var e := CacheAfter(init)[(r.org, r.aad)];
    assert EntryOk(e, init, r.org, r.aad);
    var j: nat, at: int :| EntryFrom(e, init, r.org, r.aad, j, at);
    assert init[..j] == requests[..j];
    assert Asked(requests, j, r.org, r.aad, at, e.groupIds);
    assert requests[j].now <= requests[k].now && requests[k - 1].now <= requests[k].now;
    NormalizeIdsTwice(e.groupIds);
  }
}
