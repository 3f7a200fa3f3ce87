/** Which cached mails a player sees: condition matching, the snapshot's indexes and VisibleMails. */
module MailVisibility {
  import opened Options
  import opened GlobalMail

  datatype Profile = Profile(server: int, vip: int, recharge: int, corpsLevel: int, country: string)

  // ---------- decoding a condition value ----------
  // JSON null decodes into anything, as the zero value.

  function AsInt(v: Value): Option<int> {
    match v
    case Number(n) => Some(n)
    case Null => Some(0)
    case _ => None
  }

  function AsInts(v: Value): Option<seq<int>> {
    match v
    case Numbers(ns) => Some(ns)
    case Null => Some([])
    case _ => None
  }

  // ---------- matching ----------

  predicate Compare(actual: int, expected: int, operator: string) {
    if operator == "" || operator == "eq" then actual == expected
    else if operator == "ne" then actual != expected
    else if operator == "gt" then actual > expected
    else if operator == "gte" then actual >= expected
    else if operator == "lt" then actual < expected
    else operator == "lte" && actual <= expected
  }

  /** `matchInt`: a number is compared, a list is searched. */
  predicate MatchInt(c: Condition, actual: int) {
    if AsInt(c.value).Some? then Compare(actual, AsInt(c.value).value, c.operator)
    else AsInts(c.value).Some? && actual in AsInts(c.value).value
  }

  /** `matchInt64`: a number, or a text that holds one. */
  predicate MatchInt64(c: Condition, actual: int) {
    if AsInt(c.value).Some? then Compare(actual, AsInt(c.value).value, c.operator)
    else c.value.Text? && c.value.parsed.Some? && Compare(actual, c.value.parsed.value, c.operator)
  }

  predicate MatchString(c: Condition, actual: string) {
    match c.value
    case Text(s, _) => actual == s
    case Null => actual == ""
    case Texts(ss) => actual in ss
    case _ => false
  }

  predicate IsServer(c: Condition) {
    c.kind == "server" || c.kind == "server_id"
  }

  /** One condition; kinds nobody knows are ignored. */
  predicate Matches(c: Condition, p: Profile) {
    if IsServer(c) then MatchInt(c, p.server)
    else if c.kind == "vip" || c.kind == "vip_level" then MatchInt(c, p.vip)
    else if c.kind == "recharge" || c.kind == "total_recharge" then MatchInt64(c, p.recharge)
    else if c.kind == "corps_level" then MatchInt(c, p.corpsLevel)
    else if c.kind == "country" then MatchString(c, p.country)
    else true
  }

  predicate AllMatch(conditions: seq<Condition>, p: Profile) {
    forall i :: 0 <= i < |conditions| ==> Matches(conditions[i], p)
  }

  method ConditionsMatch(conditions: seq<Condition>, p: Profile) returns (ok: bool)
    ensures ok <==> AllMatch(conditions, p)
  {
    for i := 0 to |conditions|
      invariant AllMatch(conditions[..i], p)
    {
      if !Matches(conditions[i], p) {
        return false;
      }
      assert conditions[..i + 1] == conditions[..i] + [conditions[i]];
    }
    assert conditions[..|conditions|] == conditions;
    ok := true;
  }

  // ---------- the server index ----------

  /** The servers one condition lists: a list's members, or a number whatever its operator. */
  function Listed(c: Condition): seq<int> {
    if !IsServer(c) then []
    else if AsInts(c.value).Some? then AsInts(c.value).value
    else if AsInt(c.value).Some? then [AsInt(c.value).value]
    else []
  }

  function Servers(conditions: seq<Condition>): seq<int> {
    if conditions == [] then [] else Servers(conditions[..|conditions| - 1]) + Listed(conditions[|conditions| - 1])
  }

  method ServerIDsFromConditions(conditions: seq<Condition>) returns (ids: seq<int>)
    ensures ids == Servers(conditions)
  {
    ids := [];
    for i := 0 to |conditions|
      invariant ids == Servers(conditions[..i])
    {
      var c := conditions[i];
      assert conditions[..i + 1][..i] == conditions[..i];
      if !IsServer(c) {
        continue;
      }
      var list := AsInts(c.value);
      if list.Some? {
        ids := ids + list.value;
        continue;
      }
      var one := AsInt(c.value);
      if one.Some? {
        ids := ids + [one.value];
      }
    }
    assert conditions[..|conditions|] == conditions;
  }

  lemma {:induction false} ServersAreListed(conditions: seq<Condition>, s: int)
    ensures s in Servers(conditions) <==> exists i :: 0 <= i < |conditions| && s in Listed(conditions[i])
  {
    if conditions != [] {
      var n := |conditions| - 1;
      ServersAreListed(conditions[..n], s);
      if s in Servers(conditions[..n]) {
        var i :| 0 <= i < n && s in Listed(conditions[..n][i]);
        assert s in Listed(conditions[i]);
      }
      if i :| 0 <= i < |conditions| && s in Listed(conditions[i]) {
        assert i < n ==> s in Listed(conditions[..n][i]);
      }
    }
  }

  // ---------- the snapshot ----------

  datatype CacheSnapshot = CacheSnapshot(
    version: int,
    maxId: int,
    mailsById: map<int, Mail>,
    activeIds: seq<int>,
    idsByServer: map<int, seq<int>>,
    compiled: map<int, seq<Condition>>,
    refreshedAt: int)

  /** Entry `i` is the last mail of the list with its ID. */
  predicate IsLast(mails: seq<Mail>, i: nat) {
    i < |mails| && forall j :: i < j < |mails| ==> mails[j].id != mails[i].id
  }

  predicate HasId(mails: seq<Mail>, id: int) {
    exists i :: 0 <= i < |mails| && mails[i].id == id
  }

  /** The IDs the index holds for a server: each mail's ID as often as its conditions list the server. */
  function Listing(mails: seq<Mail>, server: int): seq<int> {
    if mails == [] then []
    else
      var last := mails[|mails| - 1];
      Listing(mails[..|mails| - 1], server) + Copies(last.id, Times(Servers(last.conditions), server))
  }

  /** How often a server is listed. */
  function Times(servers: seq<int>, server: int): nat {
    if servers == [] then 0
    else Times(servers[..|servers| - 1], server) + if servers[|servers| - 1] == server then 1 else 0
  }

  lemma {:induction false} TimesPositive(servers: seq<int>, server: int)
    ensures Times(servers, server) > 0 <==> server in servers
  {
    if servers != [] {
      var n := |servers| - 1;
      TimesPositive(servers[..n], server);
      assert servers == servers[..n] + [servers[n]];
    }
  }

  function Copies(id: int, n: nat): (r: seq<int>)
    ensures |r| == n && forall i :: 0 <= i < n ==> r[i] == id
  {
    if n == 0 then [] else Copies(id, n - 1) + [id]
  }

  /** By-ID maps hold the last mail of each ID; the compiled conditions are that mail's own. */
  ghost predicate Holds(mailsById: map<int, Mail>, compiled: map<int, seq<Condition>>, mails: seq<Mail>) {
    && (forall id :: id in mailsById <==> HasId(mails, id))
    && (forall i :: 0 <= i < |mails| && IsLast(mails, i) ==> mails[i].id in mailsById && mailsById[mails[i].id] == mails[i])
    && compiled.Keys == mailsById.Keys
    && (forall id :: id in compiled ==> compiled[id] == mailsById[id].conditions && mailsById[id].id == id)
  }

  predicate Lists(activeIds: seq<int>, mails: seq<Mail>) {
    |activeIds| == |mails| && forall i :: 0 <= i < |mails| ==> activeIds[i] == mails[i].id
  }

  function Entry(index: map<int, seq<int>>, server: int): seq<int> {
    if server in index then index[server] else []
  }

  ghost predicate ListsByServer(index: map<int, seq<int>>, mails: seq<Mail>) {
    forall s :: Entry(index, s) == Listing(mails, s)
  }

  /** The index of `mails` with `id` appended once for each server in `servers`. */
  ghost predicate Appended(before: map<int, seq<int>>, index: map<int, seq<int>>, id: int, servers: seq<int>) {
    forall s :: Entry(index, s) == Entry(before, s) + Copies(id, Times(servers, s))
  }

  lemma OneMoreCopy(base: seq<int>, id: int, n: nat)
    ensures base + Copies(id, n) + [id] == base + Copies(id, n + 1)
  {
    assert Copies(id, n + 1) == Copies(id, n) + [id];
  }

  lemma OneMoreTime(servers: seq<int>, server: int, s: int)
    ensures Times(servers + [server], s) == Times(servers, s) + if s == server then 1 else 0
  {
    assert (servers + [server])[..|servers|] == servers;
  }

  lemma AppendOne(before: map<int, seq<int>>, index: map<int, seq<int>>, id: int, servers: seq<int>, server: int)
    requires Appended(before, index, id, servers)
    ensures Appended(before, index[server := Entry(index, server) + [id]], id, servers + [server])
  {
    var next := index[server := Entry(index, server) + [id]];
    forall s
      ensures Entry(next, s) == Entry(before, s) + Copies(id, Times(servers + [server], s))
    {
      OneMoreTime(servers, server, s);
      OneMoreCopy(Entry(before, s), id, Times(servers, s));
    }
  }

  ghost predicate Built(snapshot: CacheSnapshot, mails: seq<Mail>) {
    && Holds(snapshot.mailsById, snapshot.compiled, mails)
    && Lists(snapshot.activeIds, mails)
    && ListsByServer(snapshot.idsByServer, mails)
    && (forall i :: 0 <= i < |mails| ==> mails[i].id <= snapshot.maxId)
    && (snapshot.maxId == 0 || HasId(mails, snapshot.maxId))
  }

  function AppendAll(before: map<int, seq<int>>, id: int, servers: seq<int>): map<int, seq<int>> {
    if servers == [] then before
    else
      var index, server := AppendAll(before, id, servers[..|servers| - 1]), servers[|servers| - 1];
      index[server := Entry(index, server) + [id]]
  }

  lemma {:induction false} AppendsAll(before: map<int, seq<int>>, id: int, servers: seq<int>)
    ensures Appended(before, AppendAll(before, id, servers), id, servers)
  {
    if servers == [] {
      assert forall s :: Entry(before, s) + Copies(id, 0) == Entry(before, s);
    } else {
      var init, server := servers[..|servers| - 1], servers[|servers| - 1];
      AppendsAll(before, id, init);
      AppendOne(before, AppendAll(before, id, init), id, init, server);
      assert init + [server] == servers;
    }
  }

  /** The inner loop of the build: append the mail's ID once per listed server. */
  method AddToServers(before: map<int, seq<int>>, mail: Mail) returns (index: map<int, seq<int>>)
    ensures Appended(before, index, mail.id, Servers(mail.conditions))
  {
    index := before;
    var servers := ServerIDsFromConditions(mail.conditions);
    for k := 0 to |servers|
      invariant index == AppendAll(before, mail.id, servers[..k])
    {
      assert servers[..k + 1][..k] == servers[..k];
      index := index[servers[k] := Entry(index, servers[k]) + [mail.id]];
    }
    assert servers[..|servers|] == servers;
    AppendsAll(before, mail.id, servers);
  }

  lemma ListsOneMore(before: map<int, seq<int>>, index: map<int, seq<int>>, mails: seq<Mail>, mail: Mail)
    requires ListsByServer(before, mails) && Appended(before, index, mail.id, Servers(mail.conditions))
    ensures ListsByServer(index, mails + [mail])
  {
    assert (mails + [mail])[..|mails|] == mails;
    forall s
      ensures Entry(index, s) == Listing(mails + [mail], s)
    {
      assert Entry(before, s) == Listing(mails, s);
    }
  }

  lemma HoldsOneMore(mailsById: map<int, Mail>, compiled: map<int, seq<Condition>>, mails: seq<Mail>, mail: Mail)
    requires Holds(mailsById, compiled, mails)
    ensures Holds(mailsById[mail.id := mail], compiled[mail.id := mail.conditions], mails + [mail])
  {
    var more := mails + [mail];
    forall id
      ensures HasId(more, id) <==> HasId(mails, id) || id == mail.id
    {
      if HasId(mails, id) {
        var i :| 0 <= i < |mails| && mails[i].id == id;
        assert more[i].id == id;
      }
      assert more[|mails|].id == mail.id;
    }
    forall i | 0 <= i < |more| && IsLast(more, i)
      ensures mailsById[mail.id := mail][more[i].id] == more[i]
    {
      if i < |mails| {
        assert more[|mails|].id != more[i].id;
        assert IsLast(mails, i) by {
          assert forall j :: i < j < |mails| ==> mails[j] == more[j];
        }
      }
    }
  }

  /** The loop of `refresh` that fills the next snapshot. */
  method BuildSnapshot(version: int, now: int, mails: seq<Mail>) returns (next: CacheSnapshot)
    ensures Built(next, mails) && next.version == version && next.refreshedAt == now
  {
    var mailsById: map<int, Mail>, compiled: map<int, seq<Condition>> := map[], map[];
    var activeIds: seq<int>, index: map<int, seq<int>>, maxId := [], map[], 0;
    for i := 0 to |mails|
      invariant Holds(mailsById, compiled, mails[..i]) && Lists(activeIds, mails[..i]) && ListsByServer(index, mails[..i])
      invariant forall k :: 0 <= k < i ==> mails[k].id <= maxId
      invariant maxId == 0 || HasId(mails, maxId)
    {
      var mail := mails[i];
      assert mails[..i + 1] == mails[..i] + [mail];
      HoldsOneMore(mailsById, compiled, mails[..i], mail);
      mailsById := mailsById[mail.id := mail];
      activeIds := activeIds + [mail.id];
      if mail.id > maxId {
        maxId := mail.id;
      }
      compiled := compiled[mail.id := mail.conditions];
      var before := index;
      index := AddToServers(before, mail);
      ListsOneMore(before, index, mails[..i], mail);
    }
    assert mails[..|mails|] == mails;
    next := CacheSnapshot(version, maxId, mailsById, activeIds, index, compiled, now);
  }

  /** Entry `i` of the list has the ID and lists the server. */
  predicate ListedAt(mails: seq<Mail>, i: nat, server: int, id: int) {
    i < |mails| && mails[i].id == id && server in Servers(mails[i].conditions)
  }

  lemma CopiesMember(x: int, id: int, servers: seq<int>, server: int)
    ensures x in Copies(id, Times(servers, server)) <==> x == id && server in servers
  {
    var n := Times(servers, server);
    TimesPositive(servers, server);
    assert n > 0 ==> Copies(id, n)[0] == id;
  }

  lemma {:induction false} ListingMembers(mails: seq<Mail>, server: int, id: int)
    ensures id in Listing(mails, server) <==> exists i: nat :: ListedAt(mails, i, server, id)
  {
    if mails != [] {
      var n := |mails| - 1;
      var init, last := mails[..n], mails[n];
      ListingMembers(init, server, id);
      CopiesMember(id, last.id, Servers(last.conditions), server);
      assert forall i: nat :: ListedAt(init, i, server, id) ==> ListedAt(mails, i, server, id);
      assert forall i: nat :: ListedAt(mails, i, server, id) && i < n ==> ListedAt(init, i, server, id);
      assert ListedAt(mails, n, server, id) <==> last.id == id && server in Servers(last.conditions);
    }
  }

  // ---------- VisibleMails ----------

  predicate Passes(mail: Mail, p: Profile, now: int) {
    mail.status == Published && InWindow(mail, now) && AllMatch(mail.conditions, p)
  }

  /** The IDs looked at: the server's if it has any, else all. */
  function Candidates(snapshot: CacheSnapshot, p: Profile): seq<int> {
    if Entry(snapshot.idsByServer, p.server) == [] then snapshot.activeIds else Entry(snapshot.idsByServer, p.server)
  }

  predicate Shown(snapshot: CacheSnapshot, p: Profile, now: int, id: int) {
    id in snapshot.mailsById && Passes(snapshot.mailsById[id], p, now)
  }

  /** The candidates that pass, in order, once per occurrence. */
  function Selected(snapshot: CacheSnapshot, ids: seq<int>, p: Profile, now: int): seq<Mail> {
    if ids == [] then []
    else
      var n := |ids| - 1;
      Selected(snapshot, ids[..n], p, now) + (if Shown(snapshot, p, now, ids[n]) then [snapshot.mailsById[ids[n]]] else [])
  }

  method VisibleMails(snapshot: CacheSnapshot, p: Profile, now: int, ghost mails: seq<Mail>) returns (visible: seq<Mail>)
    requires Built(snapshot, mails)
    ensures visible == Selected(snapshot, Candidates(snapshot, p), p, now)
  {
    var ids := Entry(snapshot.idsByServer, p.server);
    if |ids| == 0 {
      ids := snapshot.activeIds;
    }
    visible := [];
    for i := 0 to |ids|
      invariant visible == Selected(snapshot, ids[..i], p, now)
    {
      var id := ids[i];
      assert ids[..i + 1][..i] == ids[..i];
      if id !in snapshot.mailsById || snapshot.mailsById[id].status != Published {
        continue;
      }
      var mail := snapshot.mailsById[id];
      if now < mail.startTime || now >= mail.expireTime {
        continue;
      }
      var ok := ConditionsMatch(snapshot.compiled[id], p);
      if !ok {
        continue;
      }
      visible := visible + [mail];
    }
    assert ids[..|ids|] == ids;
  }

  lemma {:induction false} SelectedMembers(snapshot: CacheSnapshot, ids: seq<int>, p: Profile, now: int, mail: Mail)
    ensures mail in Selected(snapshot, ids, p, now) <==>
            exists i :: 0 <= i < |ids| && Shown(snapshot, p, now, ids[i]) && snapshot.mailsById[ids[i]] == mail
  {
    if ids != [] {
      var n := |ids| - 1;
      SelectedMembers(snapshot, ids[..n], p, now, mail);
      if mail in Selected(snapshot, ids[..n], p, now) {
        var i :| 0 <= i < n && Shown(snapshot, p, now, ids[..n][i]) && snapshot.mailsById[ids[..n][i]] == mail;
        assert ids[i] == ids[..n][i];
      }
      if i :| 0 <= i < |ids| && Shown(snapshot, p, now, ids[i]) && snapshot.mailsById[ids[i]] == mail {
        assert i < n ==> ids[..n][i] == ids[i];
      }
    }
  }

  // ---------- what a player sees ----------

  function Seen(snapshot: CacheSnapshot, p: Profile, now: int): seq<Mail> {
    Selected(snapshot, Candidates(snapshot, p), p, now)
  }

  /** Only cached mails that are published, in their window and matching are shown. */
  lemma SeenPass(snapshot: CacheSnapshot, p: Profile, now: int, mails: seq<Mail>, mail: Mail)
    requires Built(snapshot, mails) && mail in Seen(snapshot, p, now)
    ensures mail in mails && Passes(mail, p, now)
  {
    SelectedMembers(snapshot, Candidates(snapshot, p), p, now, mail);
    var id := mail.id;
    assert id in snapshot.mailsById && HasId(mails, id);
    HeldIsLast(snapshot, mails, id);
  }

  /** What is held for an ID is the last mail of the list with that ID. */
  lemma HeldIsLast(snapshot: CacheSnapshot, mails: seq<Mail>, id: int)
    requires Holds(snapshot.mailsById, snapshot.compiled, mails) && id in snapshot.mailsById
    ensures exists i :: 0 <= i < |mails| && mails[i] == snapshot.mailsById[id] && IsLast(mails, i)
  {
    var i :| 0 <= i < |mails| && mails[i].id == id;
    var last := LastFrom(mails, i);
  }

  lemma {:induction false} LastFrom(mails: seq<Mail>, i: nat) returns (last: nat)
    requires i < |mails|
    ensures i <= last < |mails| && mails[last].id == mails[i].id && IsLast(mails, last)
    decreases |mails| - i
  {
    if IsLast(mails, i) {
      last := i;
    } else {
      var j :| i < j < |mails| && mails[j].id == mails[i].id;
      last := LastFrom(mails, j);
    }
  }

  /** The mail's conditions list the player's server. */
  predicate Reaches(mail: Mail, p: Profile) {
    p.server in Servers(mail.conditions)
  }

  predicate DistinctIds(mails: seq<Mail>) {
    forall i, j :: 0 <= i < j < |mails| ==> mails[i].id != mails[j].id
  }

  /** A passing cached mail is shown exactly when the server's list is empty or has it. */
  lemma SeenIff(snapshot: CacheSnapshot, p: Profile, now: int, mails: seq<Mail>, mail: Mail)
    requires Built(snapshot, mails) && DistinctIds(mails) && mail in mails && Passes(mail, p, now)
    ensures mail in Seen(snapshot, p, now) <==> Reaches(mail, p) || forall i :: 0 <= i < |mails| ==> !Reaches(mails[i], p)
  {
    var k :| 0 <= k < |mails| && mails[k] == mail;
    assert IsLast(mails, k);
    SelectedMembers(snapshot, Candidates(snapshot, p), p, now, mail);
    ListingMembers(mails, p.server, mail.id);
    if forall i :: 0 <= i < |mails| ==> !Reaches(mails[i], p) {
      ListingEmpty(mails, p.server);
      assert snapshot.activeIds[k] == mail.id;
    } else {
      var i :| 0 <= i < |mails| && Reaches(mails[i], p);
      ListingNotEmpty(mails, p.server, i);
      assert Reaches(mail, p) <==> ListedAt(mails, k, p.server, mail.id);
    }
  }

  lemma ListingEmpty(mails: seq<Mail>, server: int)
    requires forall i :: 0 <= i < |mails| ==> server !in Servers(mails[i].conditions)
    ensures Listing(mails, server) == []
  {
    if Listing(mails, server) != [] {
      ListingMembers(mails, server, Listing(mails, server)[0]);
    }
  }

  lemma ListingNotEmpty(mails: seq<Mail>, server: int, i: nat)
    requires i < |mails| && server in Servers(mails[i].conditions)
    ensures Listing(mails, server) != []
  {
    ListingMembers(mails, server, mails[i].id);
    assert ListedAt(mails, i, server, mails[i].id);
  }

  /** The plain filter over everything cached. */
  ghost predicate SeesAll(snapshot: CacheSnapshot, p: Profile, now: int, mails: seq<Mail>) {
    forall mail :: mail in mails && Passes(mail, p, now) ==> mail in Seen(snapshot, p, now)
  }

  /** The shown mails are those of the plain filter exactly when no cached mail lists the server or every passing
  one does. */
  lemma SeesAllIff(snapshot: CacheSnapshot, p: Profile, now: int, mails: seq<Mail>)
    requires Built(snapshot, mails) && DistinctIds(mails)
    ensures SeesAll(snapshot, p, now, mails) <==>
            || (forall i :: 0 <= i < |mails| ==> !Reaches(mails[i], p))
            || (forall i :: 0 <= i < |mails| && Passes(mails[i], p, now) ==> Reaches(mails[i], p))
  {
    forall i | 0 <= i < |mails| && Passes(mails[i], p, now)
      ensures mails[i] in Seen(snapshot, p, now) <==>
              Reaches(mails[i], p) || forall k :: 0 <= k < |mails| ==> !Reaches(mails[k], p)
    {
      SeenIff(snapshot, p, now, mails, mails[i]);
    }
  }

  /** A server condition that is a list, or a number to be equal to. */
  predicate Plain(c: Condition) {
    IsServer(c) && (c.value.Numbers? || (c.value.Number? && (c.operator == "" || c.operator == "eq")))
  }

  /** When every cached mail has such a condition, the index changes nothing. */
  lemma PlainServersSeeAll(snapshot: CacheSnapshot, p: Profile, now: int, mails: seq<Mail>)
    requires Built(snapshot, mails) && DistinctIds(mails)
    requires forall i :: 0 <= i < |mails| ==> exists k :: 0 <= k < |mails[i].conditions| && Plain(mails[i].conditions[k])
    ensures SeesAll(snapshot, p, now, mails)
  {
    forall i | 0 <= i < |mails| && Passes(mails[i], p, now)
      ensures Reaches(mails[i], p)
    {
      var conditions := mails[i].conditions;
      var k :| 0 <= k < |conditions| && Plain(conditions[k]);
      assert Matches(conditions[k], p);
      ServersAreListed(conditions, p.server);
    }
    SeesAllIff(snapshot, p, now, mails);
  }

  // ---------- how often ----------

  lemma {:induction false} TimesConcat(a: seq<int>, b: seq<int>, x: int)
    ensures Times(a + b, x) == Times(a, x) + Times(b, x)
  {
    if b == [] {
      assert a + b == a;
    } else {
      var n := |b| - 1;
      TimesConcat(a, b[..n], x);
      assert (a + b)[..|a + b| - 1] == a + b[..n];
    }
  }

  lemma {:induction false} TimesCopies(id: int, n: nat, x: int)
    ensures Times(Copies(id, n), x) == if x == id then n else 0
  {
    if n > 0 {
      TimesCopies(id, n - 1, x);
      assert Copies(id, n)[..n - 1] == Copies(id, n - 1);
    }
  }

  lemma {:induction false} TimesListed(mails: seq<Mail>, server: int, k: nat)
    requires DistinctIds(mails) && k < |mails|
    ensures Times(Listing(mails, server), mails[k].id) == Times(Servers(mails[k].conditions), server)
  {
    var n := |mails| - 1;
    var init, last := mails[..n], mails[n];
    var times := Times(Servers(last.conditions), server);
    TimesConcat(Listing(init, server), Copies(last.id, times), mails[k].id);
    TimesCopies(last.id, times, mails[k].id);
    if k < n {
      TimesListed(init, server, k);
    } else {
      ListingMembers(init, server, last.id);
      TimesPositive(Listing(init, server), last.id);
    }
  }

  function Occurs(mails: seq<Mail>, mail: Mail): nat {
    if mails == [] then 0
    else Occurs(mails[..|mails| - 1], mail) + if mails[|mails| - 1] == mail then 1 else 0
  }

  lemma {:induction false} SelectedTimes(snapshot: CacheSnapshot, ids: seq<int>, p: Profile, now: int, id: int)
    requires Shown(snapshot, p, now, id)
    requires forall k :: k in snapshot.mailsById ==> snapshot.mailsById[k].id == k
    ensures Occurs(Selected(snapshot, ids, p, now), snapshot.mailsById[id]) == Times(ids, id)
  {
    if ids != [] {
      var n := |ids| - 1;
      var init := Selected(snapshot, ids[..n], p, now);
      SelectedTimes(snapshot, ids[..n], p, now, id);
      var all := Selected(snapshot, ids, p, now);
      if Shown(snapshot, p, now, ids[n]) {
        assert all == init + [snapshot.mailsById[ids[n]]] && all[..|all| - 1] == init;
      } else {
        assert all == init;
      }
    }
  }

  /** A passing mail that lists the server is shown once for every time it lists it. */
  lemma SeenAsOftenAsListed(snapshot: CacheSnapshot, p: Profile, now: int, mails: seq<Mail>, k: nat)
    requires Built(snapshot, mails) && DistinctIds(mails) && k < |mails|
    requires Passes(mails[k], p, now) && Reaches(mails[k], p)
    ensures Occurs(Seen(snapshot, p, now), mails[k]) == Times(Servers(mails[k].conditions), p.server) > 0
  {
    assert IsLast(mails, k);
    ListingNotEmpty(mails, p.server, k);
    assert Entry(snapshot.idsByServer, p.server) == Listing(mails, p.server);
    SelectedTimes(snapshot, Candidates(snapshot, p), p, now, mails[k].id);
    TimesListed(mails, p.server, k);
    TimesPositive(Servers(mails[k].conditions), p.server);
  }
}
