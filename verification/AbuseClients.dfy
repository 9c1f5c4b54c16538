/** Failed webhook attempts come in buckets; the console groups them by client. */
module AbuseClients {
  import opened Text

  /** Times are the parsed milliseconds; an empty `blockedUntil` is no time at all. */
  datatype Bucket = Bucket(
    id: string, isBlocked: bool, clientHost: string, clientFingerprint: string, routeFingerprint: string,
    failures: nat, blocks: nat, blockedUntil: string, lastReason: string, lastSeen: string)

  datatype Group = Group(key: string, rows: seq<Bucket>)

  datatype Client = Client(
    key: string, rows: seq<Bucket>, blocked: bool, host: string, fingerprint: string, routes: seq<string>,
    failures: nat, blocks: nat, lastReason: string, blockedUntil: Option<string>, lastSeen: string)

  /** `${client_host}:${client_fingerprint}`. */
  function KeyOf(b: Bucket): string {
    b.clientHost + ":" + b.clientFingerprint
  }

  predicate IsBlocking(b: Bucket) {
    b.isBlocked && b.blockedUntil != ""
  }

  // ----- grouping -----

  function WithKey(buckets: seq<Bucket>, key: string): (r: seq<Bucket>)
    ensures forall b :: b in r <==> b in buckets && KeyOf(b) == key
  {
    if buckets == [] then []
    else
      var last := buckets[|buckets| - 1];
      assert buckets == buckets[..|buckets| - 1] + [last];
      WithKey(buckets[..|buckets| - 1], key) + (if KeyOf(last) == key then [last] else [])
  }

  /** The distinct keys in order of first appearance. */
  function Keys(buckets: seq<Bucket>): (r: seq<string>)
    ensures forall k :: k in r <==> exists b :: b in buckets && KeyOf(b) == k
    ensures forall i, j :: 0 <= i < j < |r| ==> r[i] != r[j]
  {
    if buckets == [] then []
    else
      var init, last := buckets[..|buckets| - 1], buckets[|buckets| - 1];
      assert buckets == init + [last];
      var keys := Keys(init);
      if KeyOf(last) in keys then keys else keys + [KeyOf(last)]
  }

  function Groups(buckets: seq<Bucket>): seq<Group> {
    var keys := Keys(buckets);
    seq(|keys|, i requires 0 <= i < |keys| => Group(keys[i], WithKey(buckets, keys[i])))
  }

  /** What the loop has built from the buckets so far: the keys in order and their rows. */
  ghost predicate Filled(buckets: seq<Bucket>, order: seq<string>, rows: map<string, seq<Bucket>>) {
    && order == Keys(buckets)
    && (forall k :: k in rows <==> k in order)
    && (forall k :: k in rows ==> rows[k] == WithKey(buckets, k))
  }

  method GroupBuckets(buckets: seq<Bucket>) returns (groups: seq<Group>)
    ensures groups == Groups(buckets)
  {
    var order: seq<string>, rows: map<string, seq<Bucket>> := [], map[];
    for i := 0 to |buckets|
      invariant Filled(buckets[..i], order, rows)
    {
      var key := KeyOf(buckets[i]);
      FillStep(buckets, i, order, rows);
      if key !in rows {
        order := order + [key];
      }
      rows := rows[key := (if key in rows then rows[key] else []) + [buckets[i]]];
    }
    assert buckets[..|buckets|] == buckets;
    groups := seq(|order|, i requires 0 <= i < |order| => Group(order[i], rows[order[i]]));
  }

  lemma FillStep(buckets: seq<Bucket>, i: nat, order: seq<string>, rows: map<string, seq<Bucket>>)
    requires i < |buckets| && Filled(buckets[..i], order, rows)
    ensures var key := KeyOf(buckets[i]);
      Filled(buckets[..i + 1], if key in rows then order else order + [key],
             rows[key := (if key in rows then rows[key] else []) + [buckets[i]]])
  {
    hide WithKey, Keys, KeyOf;
    var was, now, key := buckets[..i], buckets[..i + 1], KeyOf(buckets[i]);
    AddBucket(buckets, i);
    NoRowsYet(was, key);
    var next := rows[key := (if key in rows then rows[key] else []) + [buckets[i]]];
    assert next[key] == WithKey(was, key) + [buckets[i]];
    forall k | k in next ensures next[k] == WithKey(now, k) {
      OtherRows(was, now, buckets[i], k);
    }
  }

  lemma OtherRows(was: seq<Bucket>, now: seq<Bucket>, b: Bucket, k: string)
    requires WithKey(now, k) == WithKey(was, k) + (if k == KeyOf(b) then [b] else [])
    ensures k == KeyOf(b) ==> WithKey(now, k) == WithKey(was, k) + [b]
    ensures k != KeyOf(b) ==> WithKey(now, k) == WithKey(was, k)
  {
    assert WithKey(was, k) + [] == WithKey(was, k);
  }

  lemma AddBucket(buckets: seq<Bucket>, i: nat)
    requires i < |buckets|
    ensures var was, now, key := buckets[..i], buckets[..i + 1], KeyOf(buckets[i]);
      && Keys(now) == (if key in Keys(was) then Keys(was) else Keys(was) + [key])
      && (forall k :: WithKey(now, k) == WithKey(was, k) + (if k == key then [buckets[i]] else []))
  {
    assert buckets[..i + 1][..i] == buckets[..i];
  }

  lemma {:induction false} NoRowsYet(buckets: seq<Bucket>, key: string)
    ensures key !in Keys(buckets) <==> WithKey(buckets, key) == []
  {
    if buckets != [] {
      NoRowsYet(buckets[..|buckets| - 1], key);
    }
  }

  // ----- one client -----

  function Sum(rows: seq<Bucket>, of: Bucket -> nat): nat {
    if rows == [] then 0 else Sum(rows[..|rows| - 1], of) + of(rows[|rows| - 1])
  }

  function Failures(b: Bucket): nat { b.failures }

  function Blocks(b: Bucket): nat { b.blocks }

  /** The first row seen last: what a stable descending sort puts first. */
  function Latest(rows: seq<Bucket>, time: string -> int): (r: Bucket)
    requires rows != []
    ensures r in rows
    ensures forall b :: b in rows ==> time(b.lastSeen) <= time(r.lastSeen)
  {
    var init, last := rows[..|rows| - 1], rows[|rows| - 1];
    assert rows == init + [last];
    if init == [] then last
    else
      var best := Latest(init, time);
      if time(last.lastSeen) > time(best.lastSeen) then last else best
  }

  /** `latestDate`. */
  function LatestDate(values: seq<string>, time: string -> int): (r: Option<string>)
    ensures r.None? <==> values == []
    ensures r.Some? ==> r.value in values && forall v :: v in values ==> time(v) <= time(r.value)
  {
    if values == [] then None
    else
      var init, last := values[..|values| - 1], values[|values| - 1];
      assert values == init + [last];
      var best := LatestDate(init, time);
      if best.Some? && time(last) <= time(best.value) then best else Some(last)
  }

  function BlockingUntil(rows: seq<Bucket>): (r: seq<string>)
    ensures forall v :: v in r <==> exists b :: b in rows && IsBlocking(b) && b.blockedUntil == v
    ensures r == [] <==> forall b :: b in rows ==> !IsBlocking(b)
  {
    if rows == [] then []
    else
      var init, last := rows[..|rows| - 1], rows[|rows| - 1];
      assert rows == init + [last];
      BlockingUntil(init) + (if IsBlocking(last) then [last.blockedUntil] else [])
  }

  function RoutesOf(rows: seq<Bucket>): (r: seq<string>)
    ensures forall f :: f in r <==> f != "" && exists b :: b in rows && b.routeFingerprint == f
  {
    if rows == [] then []
    else
      var init, f := rows[..|rows| - 1], rows[|rows| - 1].routeFingerprint;
      assert rows == init + [rows[|rows| - 1]];
      var routes := RoutesOf(init);
      if f == "" || f in routes then routes else routes + [f]
  }

  function WithReason(rows: seq<Bucket>): seq<Bucket> {
    if rows == [] then []
    else WithReason(rows[..|rows| - 1]) + (if rows[|rows| - 1].lastReason != "" then [rows[|rows| - 1]] else [])
  }

  function ClientOf(g: Group, time: string -> int): Client
    requires g.rows != []
  {
    var latest, reasons := Latest(g.rows, time), WithReason(g.rows);
    Client(
      g.key, g.rows, BlockingUntil(g.rows) != [], latest.clientHost, latest.clientFingerprint, RoutesOf(g.rows),
      Sum(g.rows, Failures), Sum(g.rows, Blocks),
      if reasons == [] then "" else Latest(reasons, time).lastReason,
      LatestDate(BlockingUntil(g.rows), time), latest.lastSeen)
  }

  predicate IsKept(c: Client) {
    c.blocked || c.failures > 0
  }

  function KeptClients(groups: seq<Group>, time: string -> int): seq<Client>
    requires forall g :: g in groups ==> g.rows != []
  {
    if groups == [] then []
    else
      var c := ClientOf(groups[0], time);
      (if IsKept(c) then [c] else []) + KeptClients(groups[1..], time)
  }

  /** Blocked clients first, then those seen last. */
  predicate Before(a: Client, b: Client, time: string -> int) {
    if a.blocked != b.blocked then a.blocked else time(a.lastSeen) >= time(b.lastSeen)
  }

  function Insert(c: Client, sorted: seq<Client>, time: string -> int): seq<Client> {
    if sorted == [] || Before(c, sorted[0], time) then [c] + sorted
    else [sorted[0]] + Insert(c, sorted[1..], time)
  }

  /** The stable library sort. */
  function Sort(clients: seq<Client>, time: string -> int): seq<Client> {
    if clients == [] then [] else Insert(clients[0], Sort(clients[1..], time), time)
  }

  lemma GroupsFilled(buckets: seq<Bucket>)
    ensures forall g :: g in Groups(buckets) ==> g.rows != [] && g.rows == WithKey(buckets, g.key)
  {
    forall g | g in Groups(buckets) ensures g.rows != [] && g.rows == WithKey(buckets, g.key) {
      NoRowsYet(buckets, g.key);
    }
  }

  /** `buildWebhookAbuseClients`. */
  function Build(buckets: seq<Bucket>, time: string -> int): seq<Client> {
    GroupsFilled(buckets);
    Sort(KeptClients(Groups(buckets), time), time)
  }

  // ----- sorting -----

  ghost predicate Sorted(s: seq<Client>, time: string -> int) {
    forall i, j :: 0 <= i < j < |s| ==> Before(s[i], s[j], time)
  }

  lemma SortedFront(c: Client, sorted: seq<Client>, time: string -> int)
    requires Sorted(sorted, time) && (sorted != [] ==> Before(c, sorted[0], time))
    ensures Sorted([c] + sorted, time)
  {
  }

  lemma SortedAfter(first: Client, others: seq<Client>, rest: seq<Client>, time: string -> int)
    requires Sorted([first] + others, time) && Sorted(rest, time)
    requires forall x :: x in rest ==> x in others || Before(first, x, time)
    ensures Sorted([first] + rest, time)
  {
    forall x | x in rest ensures Before(first, x, time) {
      if x in others {
        var i :| 0 <= i < |others| && others[i] == x;
        assert ([first] + others)[i + 1] == x && ([first] + others)[0] == first;
      }
    }
  }

  lemma NotBefore(a: Client, b: Client, time: string -> int)
    requires !Before(a, b, time)
    ensures Before(b, a, time)
  {
  }

  lemma {:induction false} InsertSorts(c: Client, sorted: seq<Client>, time: string -> int)
    requires Sorted(sorted, time)
    ensures Sorted(Insert(c, sorted, time), time)
    ensures multiset(Insert(c, sorted, time)) == multiset(sorted) + multiset{c}
  {
    hide Before;
    if sorted != [] && !Before(c, sorted[0], time) {
      NotBefore(c, sorted[0], time);
      InsertSorts(c, sorted[1..], time);
      var rest := Insert(c, sorted[1..], time);
      assert sorted == [sorted[0]] + sorted[1..];
      forall x | x in rest ensures x in sorted[1..] || x == c {
        assert x in multiset(rest);
      }
      SortedAfter(sorted[0], sorted[1..], rest, time);
    } else {
      SortedFront(c, sorted, time);
      assert multiset([c] + sorted) == multiset{c} + multiset(sorted);
    }
  }

  lemma {:induction false} SortSorts(clients: seq<Client>, time: string -> int)
    ensures Sorted(Sort(clients, time), time)
    ensures multiset(Sort(clients, time)) == multiset(clients)
  {
    if clients != [] {
      SortSorts(clients[1..], time);
      InsertSorts(clients[0], Sort(clients[1..], time), time);
      assert clients == [clients[0]] + clients[1..];
    }
  }

  // ----- conservation -----

  /** A measure summed group by group. */
  function SumGroups(keys: seq<string>, buckets: seq<Bucket>, of: Bucket -> nat): nat {
    if keys == [] then 0
    else SumGroups(keys[..|keys| - 1], buckets, of) + Sum(WithKey(buckets, keys[|keys| - 1]), of)
  }

  lemma SumSnoc(rows: seq<Bucket>, b: Bucket, of: Bucket -> nat)
    ensures Sum(rows + [b], of) == Sum(rows, of) + of(b)
  {
    assert (rows + [b])[..|rows|] == rows;
  }

  lemma {:induction false} SumGroupsAdd(keys: seq<string>, buckets: seq<Bucket>, b: Bucket, of: Bucket -> nat)
    requires forall i, j :: 0 <= i < j < |keys| ==> keys[i] != keys[j]
    ensures SumGroups(keys, buckets + [b], of)
         == SumGroups(keys, buckets, of) + (if KeyOf(b) in keys then of(b) else 0)
  {
    if keys != [] {
      var init, last := keys[..|keys| - 1], keys[|keys| - 1];
      SumGroupsAdd(init, buckets, b, of);
      assert keys == init + [last];
      assert (buckets + [b])[..|buckets|] == buckets;
      if KeyOf(b) == last {
        SumSnoc(WithKey(buckets, last), b, of);
        assert last !in init;
      } else {
        assert WithKey(buckets + [b], last) == WithKey(buckets, last);
      }
    }
  }

  lemma SumOne(b: Bucket, of: Bucket -> nat)
    ensures Sum([b], of) == of(b)
  {
    assert [] + [b] == [b];
    SumSnoc([], b, of);
  }

  lemma SumGroupsSnoc(keys: seq<string>, key: string, buckets: seq<Bucket>, of: Bucket -> nat)
    ensures SumGroups(keys + [key], buckets, of) == SumGroups(keys, buckets, of) + Sum(WithKey(buckets, key), of)
  {
    assert (keys + [key])[..|keys|] == keys;
  }

  /** Summing any measure group by group gives the sum over all buckets: every bucket is in exactly
      one group, as often as it was given. */
  lemma {:induction false} GroupsConserve(buckets: seq<Bucket>, of: Bucket -> nat)
    ensures SumGroups(Keys(buckets), buckets, of) == Sum(buckets, of)
  {
    if buckets != [] {
      var n := |buckets| - 1;
      var init, b := buckets[..n], buckets[n];
      var keys, key := Keys(init), KeyOf(b);
      assert buckets == init + [b] && buckets[..n + 1] == buckets;
      GroupsConserve(init, of);
      SumGroupsAdd(keys, init, b, of);
      AddBucket(buckets, n);
      SumSnoc(init, b, of);
      if key !in keys {
        NewGroupSum(init, b, of);
        SumGroupsSnoc(keys, key, buckets, of);
      }
    }
  }

  lemma NewGroupSum(init: seq<Bucket>, b: Bucket, of: Bucket -> nat)
    requires KeyOf(b) !in Keys(init)
    ensures Sum(WithKey(init + [b], KeyOf(b)), of) == of(b)
  {
    assert (init + [b])[..|init|] == init;
    NoRowsYet(init, KeyOf(b));
    assert WithKey(init + [b], KeyOf(b)) == [b];
    SumOne(b, of);
  }

  function TotalFailures(clients: seq<Client>): nat {
    if clients == [] then 0 else clients[0].failures + TotalFailures(clients[1..])
  }

  lemma {:induction false} InsertTotal(c: Client, sorted: seq<Client>, time: string -> int)
    ensures TotalFailures(Insert(c, sorted, time)) == c.failures + TotalFailures(sorted)
  {
    if sorted != [] && !Before(c, sorted[0], time) {
      InsertTotal(c, sorted[1..], time);
      assert Insert(c, sorted, time)[1..] == Insert(c, sorted[1..], time);
    } else {
      assert ([c] + sorted)[1..] == sorted;
    }
  }

  lemma {:induction false} SortTotal(clients: seq<Client>, time: string -> int)
    ensures TotalFailures(Sort(clients, time)) == TotalFailures(clients)
  {
    if clients != [] {
      SortTotal(clients[1..], time);
      InsertTotal(clients[0], Sort(clients[1..], time), time);
    }
  }

  lemma {:induction false} SumGroupsFront(keys: seq<string>, buckets: seq<Bucket>, of: Bucket -> nat)
    requires keys != []
    ensures SumGroups(keys, buckets, of) == Sum(WithKey(buckets, keys[0]), of) + SumGroups(keys[1..], buckets, of)
  {
    hide Sum;
    if |keys| > 1 {
      SumGroupsFront(keys[..|keys| - 1], buckets, of);
      assert keys[..|keys| - 1][1..] == keys[1..][..|keys| - 2];
    }
  }

  lemma KeptTotalStep(groups: seq<Group>, time: string -> int)
    requires groups != [] && forall g :: g in groups ==> g.rows != []
    ensures TotalFailures(KeptClients(groups, time))
         == Sum(groups[0].rows, Failures) + TotalFailures(KeptClients(groups[1..], time))
  {
    var c, rest := ClientOf(groups[0], time), KeptClients(groups[1..], time);
    assert ([c] + rest)[1..] == rest;
    assert [] + rest == rest;
  }

  lemma {:induction false} KeptTotal(groups: seq<Group>, keys: seq<string>, buckets: seq<Bucket>, time: string -> int)
    requires |groups| == |keys|
    requires forall i :: 0 <= i < |keys| ==> groups[i] == Group(keys[i], WithKey(buckets, keys[i]))
    requires forall g :: g in groups ==> g.rows != []
    ensures TotalFailures(KeptClients(groups, time)) == SumGroups(keys, buckets, Failures)
  {
    if groups != [] {
      KeptTotal(groups[1..], keys[1..], buckets, time);
      SumGroupsFront(keys, buckets, Failures);
      KeptTotalStep(groups, time);
    }
  }

  /** The clients listed have as many failures as all buckets together: those filtered out had none. */
  lemma FailuresConserved(buckets: seq<Bucket>, time: string -> int)
    ensures TotalFailures(Build(buckets, time)) == Sum(buckets, Failures)
  {
    GroupsFilled(buckets);
    SortTotal(KeptClients(Groups(buckets), time), time);
    KeptTotal(Groups(buckets), Keys(buckets), buckets, time);
    GroupsConserve(buckets, Failures);
  }

  // ----- who is listed -----

  ghost predicate FromGroup(groups: seq<Group>, time: string -> int, c: Client)
    requires forall g :: g in groups ==> g.rows != []
  {
    exists g :: g in groups && c == ClientOf(g, time)
  }

  lemma FromCons(groups: seq<Group>, time: string -> int, c: Client)
    requires groups != [] && forall g :: g in groups ==> g.rows != []
    ensures FromGroup(groups, time, c) <==> c == ClientOf(groups[0], time) || FromGroup(groups[1..], time, c)
  {
    assert forall g :: g in groups <==> g == groups[0] || g in groups[1..];
  }

  lemma {:induction false} KeptIff(groups: seq<Group>, time: string -> int, c: Client)
    requires forall g :: g in groups ==> g.rows != []
    ensures c in KeptClients(groups, time) <==> FromGroup(groups, time, c) && IsKept(c)
  {
    if groups != [] {
      KeptIff(groups[1..], time, c);
      FromCons(groups, time, c);
    }
  }

  /** The clients listed are exactly those with a failure or an active block, each holding all
      buckets of its key. */
  lemma ListedIff(buckets: seq<Bucket>, time: string -> int, c: Client)
    ensures c in Build(buckets, time)
       <==> WithKey(buckets, c.key) != [] && c == ClientOf(Group(c.key, WithKey(buckets, c.key)), time) && IsKept(c)
  {
    var groups := Groups(buckets);
    GroupsFilled(buckets);
    SortMembers(KeptClients(groups, time), time, c);
    KeptIff(groups, time, c);
    GroupOfKey(buckets, c.key);
    if FromGroup(groups, time, c) {
      var g :| g in groups && c == ClientOf(g, time);
      assert g == Group(c.key, WithKey(buckets, c.key));
    }
  }

  lemma {:induction false} WithReasonIs(rows: seq<Bucket>)
    ensures forall b :: b in WithReason(rows) <==> b in rows && b.lastReason != ""
  {
    if rows != [] {
      WithReasonIs(rows[..|rows| - 1]);
      assert rows == rows[..|rows| - 1] + [rows[|rows| - 1]];
    }
  }

  /** No bucket of these was seen later. */
  predicate IsLatest(b: Bucket, rows: seq<Bucket>, time: string -> int) {
    b in rows && forall o :: o in rows ==> time(o.lastSeen) <= time(b.lastSeen)
  }

  predicate IsLatestReason(b: Bucket, rows: seq<Bucket>, time: string -> int) {
    b in rows && b.lastReason != ""
    && forall o :: o in rows && o.lastReason != "" ==> time(o.lastSeen) <= time(b.lastSeen)
  }

  /** What a listed client shows: host, fingerprint and time of its latest bucket, the latest reason if
      any bucket has one, the totals, its routes, and whether one of its buckets is blocked. */
  lemma ClientShows(buckets: seq<Bucket>, time: string -> int, c: Client)
    requires c in Build(buckets, time)
    ensures forall b :: b in c.rows <==> b in buckets && KeyOf(b) == c.key
    ensures exists b :: IsLatest(b, c.rows, time) && b.clientHost == c.host && b.clientFingerprint == c.fingerprint
                        && b.lastSeen == c.lastSeen
    ensures if c.lastReason == "" then forall b :: b in c.rows ==> b.lastReason == ""
            else exists b :: IsLatestReason(b, c.rows, time) && b.lastReason == c.lastReason
    ensures c.blocked <==> exists b :: b in c.rows && b.isBlocked && b.blockedUntil != ""
    ensures c.failures == Sum(c.rows, Failures) && c.blocks == Sum(c.rows, Blocks)
    ensures forall f :: f in c.routes <==> f != "" && exists b :: b in c.rows && b.routeFingerprint == f
  {
    hide Build, WithReason, Sum, BlockingUntil, RoutesOf, Latest;
    ListedIff(buckets, time, c);
    WithReasonIs(c.rows);
    assert IsLatest(Latest(c.rows, time), c.rows, time);
    var reasons := WithReason(c.rows);
    if reasons != [] {
      assert Latest(reasons, time) in reasons;
      assert IsLatestReason(Latest(reasons, time), c.rows, time);
    } else {
      forall b | b in c.rows ensures b.lastReason == "" {
        assert b !in reasons;
      }
    }
  }

  lemma SortMembers(clients: seq<Client>, time: string -> int, c: Client)
    ensures c in Sort(clients, time) <==> c in clients
  {
    SortSorts(clients, time);
    assert c in multiset(Sort(clients, time)) <==> c in multiset(clients);
  }

  lemma GroupOfKey(buckets: seq<Bucket>, key: string)
    ensures WithKey(buckets, key) != [] ==> Group(key, WithKey(buckets, key)) in Groups(buckets)
  {
    var keys := Keys(buckets);
    NoRowsYet(buckets, key);
    if key in keys {
      var i :| 0 <= i < |keys| && keys[i] == key;
      assert Groups(buckets)[i] == Group(key, WithKey(buckets, key));
    }
  }

  /** Every actively blocked bucket is listed, under one blocked client only, and that client is
      blocked until the latest of its blocks. */
  lemma BlockedListed(buckets: seq<Bucket>, time: string -> int, b: Bucket)
    requires b in buckets && IsBlocking(b)
    ensures exists c :: c in Build(buckets, time) && b in c.rows && c.blocked
                     && c.blockedUntil.Some? && time(b.blockedUntil) <= time(c.blockedUntil.value)
    ensures forall c, d :: c in Build(buckets, time) && d in Build(buckets, time) && b in c.rows && b in d.rows ==>
        c == d
  {
    var rows := WithKey(buckets, KeyOf(b));
    assert b in rows;
    var c := ClientOf(Group(KeyOf(b), rows), time);
    assert b.blockedUntil in BlockingUntil(rows);
    ListedIff(buckets, time, c);
    forall d, e | d in Build(buckets, time) && e in Build(buckets, time) && b in d.rows && b in e.rows ensures d == e {
      ListedIff(buckets, time, d);
      ListedIff(buckets, time, e);
    }
  }

  /** Blocked clients come first, and inside each class those seen last; a client was last seen when
      its latest bucket was. */
  lemma ListOrdered(buckets: seq<Bucket>, time: string -> int)
    ensures var list := Build(buckets, time);
      && (forall i, j :: 0 <= i < j < |list| ==>
            && (list[j].blocked ==> list[i].blocked)
            && (list[i].blocked == list[j].blocked ==> time(list[i].lastSeen) >= time(list[j].lastSeen)))
      && (forall c, b :: c in list && b in c.rows ==> time(b.lastSeen) <= time(c.lastSeen))
  {
    var list := Build(buckets, time);
    GroupsFilled(buckets);
    SortSorts(KeptClients(Groups(buckets), time), time);
    forall i, j | 0 <= i < j < |list|
      ensures (list[j].blocked ==> list[i].blocked)
      ensures list[i].blocked == list[j].blocked ==> time(list[i].lastSeen) >= time(list[j].lastSeen)
    {
      assert Before(list[i], list[j], time);
    }
    forall c, b | c in list && b in c.rows ensures time(b.lastSeen) <= time(c.lastSeen) {
      ListedIff(buckets, time, c);
    }
  }

  // ----- the key -----

  /** With fingerprints free of colons the key tells clients apart, whatever the host looks like. */
  lemma KeySeparates(a: Bucket, b: Bucket)
    requires Free(a.clientFingerprint, ':') && Free(b.clientFingerprint, ':')
    ensures KeyOf(a) == KeyOf(b) <==> a.clientHost == b.clientHost && a.clientFingerprint == b.clientFingerprint
  {
    if KeyOf(a) == KeyOf(b) {
      LastColon(a.clientHost, a.clientFingerprint, b.clientHost, b.clientFingerprint);
    }
  }

  lemma LastColonAt(h: string, f: string)
    requires Free(f, ':')
    ensures var s := h + ":" + f;
      s[|h|] == ':' && (forall i :: |h| < i < |s| ==> s[i] != ':') && s[..|h|] == h && s[|h| + 1..] == f
  {
    var s := h + ":" + f;
    forall i | |h| < i < |s| ensures s[i] != ':' {
      assert s[i] == f[i - |h| - 1];
    }
  }

  lemma LastColon(h: string, f: string, g: string, e: string)
    requires h + ":" + f == g + ":" + e && Free(f, ':') && Free(e, ':')
    ensures h == g && f == e
  {
    LastColonAt(h, f);
    LastColonAt(g, e);
  }

  /** Without that, an IPv6 host can run into the fingerprint. */
  lemma KeyNeedsColonFree(b: Bucket)
    ensures var x := b.(clientHost := "::1", clientFingerprint := "f");
      var y := b.(clientHost := ":", clientFingerprint := "1:f");
      KeyOf(x) == KeyOf(y) && x.clientHost != y.clientHost
  {
  }
}
