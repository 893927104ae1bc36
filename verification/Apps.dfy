/** Packages and their UIDs: the catalogue of installed applications. */
module Apps {
  import opened Wrappers
  import opened Ordering

  const PER_USER_RANGE := 100_000
  const MAX_APPS := 20_000
  const MAX_PACKAGES_PER_UID := 128

  /** A parsed package list: packages with their UIDs, in the order of the names. */
  type Listing = seq<(string, nat)>

  ghost predicate ByName(listing: Listing) {
    forall i, j :: 0 <= i < j < |listing| ==> LexLess(listing[i].0, listing[j].0)
  }

  /** The UID under a key. */
  function Find<K(==)>(table: seq<(K, nat)>, key: K): (r: Option<nat>)
    ensures r.Some? ==> (key, r.value) in table
    ensures r.None? <==> forall i :: 0 <= i < |table| ==> table[i].0 != key
  {
    if table == [] then None
    else if table[0].0 == key then Some(table[0].1)
    else
      assert table == [table[0]] + table[1..];
      Find(table[1..], key)
  }

  datatype AppClass = System | User

  datatype App = App(user: nat, uid: nat, package: string, class': AppClass)

  datatype Snapshot = Snapshot(user: nat, all: Listing, system: Listing, userApps: Listing)

  datatype AppError = QueryFailed | UserUidMismatch | DuplicateUser | UnclassifiedPackage | AmbiguousClassification
                    | ClassificationOutsideFullSet | TooManyApps | SharedUidTooLarge | UnknownPackage

  /** The packages of one UID. */
  datatype UidGroup = UidGroup(user: nat, uid: nat, packages: seq<string>, class': AppClass)

  datatype AppCatalogue = AppCatalogue(apps: seq<App>, groups: seq<UidGroup>)

  type Choice = (nat, string)

  /** A user and a UID. */
  type Key = (nat, nat)

  // ---- Ordered sets of users with UIDs ----

  predicate PairLess(a: Key, b: Key) {
    a.0 < b.0 || (a.0 == b.0 && a.1 < b.1)
  }

  ghost predicate PairsIncrease(s: seq<Key>) {
    forall i, j :: 0 <= i < j < |s| ==> PairLess(s[i], s[j])
  }

  function InsertPair(s: seq<Key>, x: Key): (r: seq<Key>)
    ensures forall y :: y in r <==> y == x || y in s
  {
    if s == [] then [x]
    else if PairLess(x, s[0]) then [x] + s
    else if x == s[0] then s
    else
      assert s == [s[0]] + s[1..];
      [s[0]] + InsertPair(s[1..], x)
  }

  lemma {:induction false} InsertPairSorted(s: seq<Key>, x: Key)
    requires PairsIncrease(s)
    ensures PairsIncrease(InsertPair(s, x))
  {
    if s != [] && !PairLess(x, s[0]) && x != s[0] {
      InsertPairSorted(s[1..], x);
      var tail := InsertPair(s[1..], x);
      forall k | 0 <= k < |tail|
        ensures PairLess(s[0], tail[k])
      {
        assert tail[k] in tail;
        if tail[k] in s[1..] {
          var m :| 0 <= m < |s[1..]| && s[1..][m] == tail[k];
          assert PairLess(s[0], s[m + 1]);
        }
      }
    }
  }

  /** Ordered sets with the same elements are the same. */
  lemma {:induction false} PairsUnique(a: seq<Key>, b: seq<Key>)
    requires PairsIncrease(a) && PairsIncrease(b)
    requires forall y :: y in a <==> y in b
    ensures a == b
  {
    assert a != [] ==> a[0] in b;
    assert b != [] ==> b[0] in a;
    if a != [] && b != [] {
      assert a[0] == b[0];
      forall y
        ensures y in a[1..] <==> y in b[1..]
      {
        PairsTail(a, y);
        PairsTail(b, y);
      }
      PairsUnique(a[1..], b[1..]);
    }
  }

  lemma PairsTail(s: seq<Key>, y: Key)
    requires PairsIncrease(s) && s != []
    ensures PairsIncrease(s[1..]) && (y in s[1..] <==> y in s && y != s[0])
  {
    assert s == [s[0]] + s[1..];
  }

  // ---- The catalogue ----

  function Classify(s: Snapshot, package: string, uid: nat): Result<AppClass, AppError> {
    var isSystem, isUser := Find(s.system, package) == Some(uid), Find(s.userApps, package) == Some(uid);
    if isSystem && isUser then Err(AmbiguousClassification)
    else if isSystem then Ok(System)
    else if isUser then Ok(User)
    else Err(UnclassifiedPackage)
  }

  predicate Covered(part: Listing, all: Listing) {
    forall i :: 0 <= i < |part| ==> Find(all, part[i].0).Some?
  }

  /** Each package belongs to the user and to one class, and no class has a package of its own. */
  predicate Sound(s: Snapshot) {
    && (forall i :: 0 <= i < |s.all| ==>
          s.all[i].1 / PER_USER_RANGE == s.user && Classify(s, s.all[i].0, s.all[i].1).Ok?)
    && Covered(s.system, s.all) && Covered(s.userApps, s.all)
  }

  function AppsOf(s: Snapshot): (apps: seq<App>)
    requires Sound(s)
    ensures |apps| == |s.all|
  {
    seq(|s.all|, i requires 0 <= i < |s.all| =>
      App(s.user, s.all[i].1, s.all[i].0, Classify(s, s.all[i].0, s.all[i].1).value))
  }

  function AllApps(snapshots: seq<Snapshot>): seq<App>
    requires forall i :: 0 <= i < |snapshots| ==> Sound(snapshots[i])
  {
    if snapshots == [] then []
    else AllApps(snapshots[..|snapshots| - 1]) + AppsOf(snapshots[|snapshots| - 1])
  }

  function KeyOf(app: App): Key {
    (app.user, app.uid)
  }

  /** The applications of one UID, in order. */
  function Members(apps: seq<App>, key: Key): seq<App> {
    if apps == [] then []
    else Members(apps[..|apps| - 1], key) + if KeyOf(apps[|apps| - 1]) == key then [apps[|apps| - 1]] else []
  }

  ghost predicate DistinctUsers(snapshots: seq<Snapshot>) {
    forall i, j :: 0 <= i < j < |snapshots| ==> snapshots[i].user != snapshots[j].user
  }

  ghost predicate Gatherable(snapshots: seq<Snapshot>) {
    && DistinctUsers(snapshots)
    && (forall i :: 0 <= i < |snapshots| ==> Sound(snapshots[i]))
    && |AllApps(snapshots)| <= MAX_APPS
  }

  /** No UID is shared by too many packages. */
  ghost predicate SharedModestly(apps: seq<App>) {
    forall i :: 0 <= i < |apps| ==> |Members(apps, KeyOf(apps[i]))| <= MAX_PACKAGES_PER_UID
  }

  /** What it takes to be catalogued. */
  ghost predicate Catalogable(snapshots: seq<Snapshot>) {
    Gatherable(snapshots) && SharedModestly(AllApps(snapshots))
  }

  method SnapshotApps(s: Snapshot) returns (r: Result<seq<App>, AppError>)
    ensures r.Ok? <==> Sound(s)
    ensures r.Ok? ==> r.value == AppsOf(s)
  {
    var apps: seq<App> := [];
    for i := 0 to |s.all|
      invariant |apps| == i
      invariant forall k :: 0 <= k < i ==>
        && s.all[k].1 / PER_USER_RANGE == s.user && Classify(s, s.all[k].0, s.all[k].1).Ok?
        && apps[k] == App(s.user, s.all[k].1, s.all[k].0, Classify(s, s.all[k].0, s.all[k].1).value)
    {
      if s.all[i].1 / PER_USER_RANGE != s.user {
        return Err(UserUidMismatch);
      }
      var class' := Classify(s, s.all[i].0, s.all[i].1);
      if class'.Err? {
        return Err(class'.error);
      }
      apps := apps + [App(s.user, s.all[i].1, s.all[i].0, class'.value)];
    }
    if !Covered(s.system, s.all) || !Covered(s.userApps, s.all) {
      return Err(ClassificationOutsideFullSet);
    }
    assert apps == AppsOf(s);
    r := Ok(apps);
  }

  lemma AllAppsSnoc(snapshots: seq<Snapshot>, n: nat)
    requires n < |snapshots| && forall i :: 0 <= i <= n ==> Sound(snapshots[i])
    ensures AllApps(snapshots[..n + 1]) == AllApps(snapshots[..n]) + AppsOf(snapshots[n])
  {
    assert snapshots[..n + 1][..n] == snapshots[..n];
  }

  lemma {:induction false} AllAppsGrow(snapshots: seq<Snapshot>, n: nat)
    requires n <= |snapshots| && forall i :: 0 <= i < |snapshots| ==> Sound(snapshots[i])
    ensures |AllApps(snapshots[..n])| <= |AllApps(snapshots)|
  {
    if n == |snapshots| {
      assert snapshots[..n] == snapshots;
    } else {
      AllAppsGrow(snapshots[..|snapshots| - 1], n);
      assert snapshots[..|snapshots| - 1][..n] == snapshots[..n];
    }
  }

  lemma TooManyInFront(snapshots: seq<Snapshot>, n: nat)
    requires n <= |snapshots| && forall i :: 0 <= i < n ==> Sound(snapshots[i])
    requires |AllApps(snapshots[..n])| > MAX_APPS
    ensures !Gatherable(snapshots)
  {
    hide Sound;
    if Gatherable(snapshots) {
      AllAppsGrow(snapshots, n);
    }
  }

  method GatherApps(snapshots: seq<Snapshot>) returns (r: Result<seq<App>, AppError>)
    ensures r.Ok? <==> Gatherable(snapshots)
    ensures r.Ok? ==> r.value == AllApps(snapshots)
  {
    hide Sound, AllApps, AppsOf;
    var apps: seq<App>, users: seq<nat> := [], [];
    NoSnapshots(snapshots[..0]);
    for n := 0 to |snapshots|
      invariant DistinctUsers(snapshots[..n])
      invariant |users| == n && forall i :: 0 <= i < n ==> users[i] == snapshots[i].user
      invariant forall i :: 0 <= i < n ==> Sound(snapshots[i])
      invariant apps == AllApps(snapshots[..n]) && |apps| <= MAX_APPS
    {
      if snapshots[n].user in users {
        return Err(DuplicateUser);
      }
      var some := SnapshotApps(snapshots[n]);
      if some.Err? {
        return Err(some.error);
      }
      apps := apps + some.value;
      AllAppsSnoc(snapshots, n);
      if |apps| > MAX_APPS {
        TooManyInFront(snapshots, n + 1);
        return Err(TooManyApps);
      }
      users := users + [snapshots[n].user];
    }
    assert snapshots[..|snapshots|] == snapshots;
    r := Ok(apps);
  }

  lemma NoSnapshots(snapshots: seq<Snapshot>)
    requires snapshots == []
    ensures AllApps(snapshots) == []
  {
  }

  // ---- The sort ----

  /** By user, then UID, then package. */
  predicate AppLess(a: App, b: App) {
    PairLess(KeyOf(a), KeyOf(b)) || (KeyOf(a) == KeyOf(b) && LexLess(a.package, b.package))
  }

  function InsertApp(x: App, s: seq<App>): seq<App> {
    if s == [] || !AppLess(s[0], x) then [x] + s else [s[0]] + InsertApp(x, s[1..])
  }

  function SortApps(s: seq<App>): seq<App> {
    if s == [] then [] else InsertApp(s[0], SortApps(s[1..]))
  }

  lemma {:induction false} InsertAppKeeps(x: App, s: seq<App>)
    ensures multiset(InsertApp(x, s)) == multiset{x} + multiset(s)
  {
    if s != [] && AppLess(s[0], x) {
      InsertAppKeeps(x, s[1..]);
      assert s == [s[0]] + s[1..];
    }
  }

  lemma {:induction false} SortKeeps(s: seq<App>)
    ensures multiset(SortApps(s)) == multiset(s)
  {
    if s != [] {
      SortKeeps(s[1..]);
      InsertAppKeeps(s[0], SortApps(s[1..]));
      assert s == [s[0]] + s[1..];
    }
  }

  ghost predicate AppsIncrease(s: seq<App>) {
    forall i, j :: 0 <= i < j < |s| ==> AppLess(s[i], s[j])
  }

  lemma AppLessTransitive(a: App, b: App, c: App)
    requires AppLess(a, b) && AppLess(b, c)
    ensures AppLess(a, c)
  {
    if KeyOf(a) == KeyOf(b) && KeyOf(b) == KeyOf(c) {
      LexLessTransitive(a.package, b.package, c.package);
    }
  }

  lemma AppLessTotal(a: App, b: App)
    requires KeyOf(a) != KeyOf(b) || a.package != b.package
    ensures AppLess(a, b) || AppLess(b, a)
  {
    LexLessTotal(a.package, b.package);
  }

  /** An application whose place is not taken goes in between. */
  lemma {:induction false} InsertAppIncreases(x: App, s: seq<App>)
    requires AppsIncrease(s) && forall app :: app in s ==> KeyOf(app) != KeyOf(x) || app.package != x.package
    ensures AppsIncrease(InsertApp(x, s))
  {
    hide AppLess;
    if s != [] {
      AppLessTotal(s[0], x);
      if AppLess(s[0], x) {
        InsertAppIncreases(x, s[1..]);
        InsertAppKeeps(x, s[1..]);
        var tail := InsertApp(x, s[1..]);
        forall k | 0 <= k < |tail|
          ensures AppLess(s[0], tail[k])
        {
          assert tail[k] in multiset(tail);
        }
      } else {
        forall k | 0 <= k < |s|
          ensures AppLess(x, s[k])
        {
          if k > 0 { AppLessTransitive(x, s[0], s[k]); }
        }
      }
    }
  }

  /** No user has a package twice. */
  ghost predicate PackagesDiffer(s: seq<App>) {
    forall i, j :: 0 <= i < j < |s| ==> s[i].user != s[j].user || s[i].package != s[j].package
  }

  lemma {:induction false} SortIncreases(s: seq<App>)
    requires PackagesDiffer(s)
    ensures AppsIncrease(SortApps(s))
  {
    if s != [] {
      SortIncreases(s[1..]);
      SortKeeps(s[1..]);
      forall app | app in SortApps(s[1..])
        ensures KeyOf(app) != KeyOf(s[0]) || app.package != s[0].package
      {
        assert app in multiset(s[1..]);
        var j :| 0 <= j < |s[1..]| && s[1..][j] == app;
        assert s[j + 1] == app;
      }
      InsertAppIncreases(s[0], SortApps(s[1..]));
    }
  }

  // ---- The groups ----

  lemma {:induction false} MembersConcat(a: seq<App>, b: seq<App>, key: Key)
    ensures Members(a + b, key) == Members(a, key) + Members(b, key)
  {
    if b == [] {
      assert a + b == a;
    } else {
      var n := |b| - 1;
      MembersConcat(a, b[..n], key);
      assert (a + b)[..|a + b| - 1] == a + b[..n];
    }
  }

  lemma {:induction false} MembersOfInsert(x: App, s: seq<App>, key: Key)
    ensures |Members(InsertApp(x, s), key)| == |Members([x], key)| + |Members(s, key)|
  {
    if s == [] || !AppLess(s[0], x) {
      MembersConcat([x], s, key);
    } else {
      MembersOfInsert(x, s[1..], key);
      MembersConcat([s[0]], InsertApp(x, s[1..]), key);
      MembersConcat([s[0]], s[1..], key);
      assert s == [s[0]] + s[1..];
    }
  }

  lemma {:induction false} MembersOfSort(s: seq<App>, key: Key)
    ensures |Members(SortApps(s), key)| == |Members(s, key)|
  {
    if s != [] {
      MembersOfSort(s[1..], key);
      MembersOfInsert(s[0], SortApps(s[1..]), key);
      MembersConcat([s[0]], s[1..], key);
      assert s == [s[0]] + s[1..];
    }
  }

  ghost predicate HasKey(apps: seq<App>, key: Key) {
    exists i :: 0 <= i < |apps| && KeyOf(apps[i]) == key
  }

  lemma SharedByKey(apps: seq<App>)
    ensures SharedModestly(apps) <==> forall key :: HasKey(apps, key) ==> |Members(apps, key)| <= MAX_PACKAGES_PER_UID
  {
    hide Members;
    if SharedModestly(apps) {
      forall key | HasKey(apps, key)
        ensures |Members(apps, key)| <= MAX_PACKAGES_PER_UID
      {
        var i :| 0 <= i < |apps| && KeyOf(apps[i]) == key;
      }
    } else {
      var i :| 0 <= i < |apps| && |Members(apps, KeyOf(apps[i]))| > MAX_PACKAGES_PER_UID;
      assert HasKey(apps, KeyOf(apps[i]));
    }
  }

  lemma HasKeyOfSort(s: seq<App>, key: Key)
    ensures HasKey(SortApps(s), key) <==> HasKey(s, key)
  {
    hide SortApps;
    SortKeeps(s);
    var sorted := SortApps(s);
    if HasKey(s, key) {
      var i :| 0 <= i < |s| && KeyOf(s[i]) == key;
      assert s[i] in multiset(s);
      assert s[i] in sorted;
    }
    if HasKey(sorted, key) {
      var i :| 0 <= i < |sorted| && KeyOf(sorted[i]) == key;
      assert sorted[i] in multiset(sorted);
      assert sorted[i] in s;
    }
  }

  lemma SharingOfSort(s: seq<App>)
    ensures SharedModestly(SortApps(s)) <==> SharedModestly(s)
  {
    hide Members, SortApps, SharedModestly, HasKey;
    SharedByKey(s);
    SharedByKey(SortApps(s));
    forall key
      ensures |Members(SortApps(s), key)| == |Members(s, key)|
      ensures HasKey(SortApps(s), key) <==> HasKey(s, key)
    {
      MembersOfSort(s, key);
      HasKeyOfSort(s, key);
    }
  }

  /** The UIDs that occur, in order. */
  function KeysOf(apps: seq<App>): seq<Key> {
    if apps == [] then [] else InsertPair(KeysOf(apps[..|apps| - 1]), KeyOf(apps[|apps| - 1]))
  }

  lemma {:induction false} KeysOfMeans(apps: seq<App>, key: Key)
    ensures PairsIncrease(KeysOf(apps))
    ensures key in KeysOf(apps) <==> HasKey(apps, key)
  {
    if apps != [] {
      var n := |apps| - 1;
      KeysOfMeans(apps[..n], key);
      InsertPairSorted(KeysOf(apps[..n]), KeyOf(apps[n]));
      assert forall i :: 0 <= i < n ==> apps[..n][i] == apps[i];
    }
  }

  function Names(apps: seq<App>): (names: seq<string>)
    ensures |names| == |apps|
  {
    seq(|apps|, i requires 0 <= i < |apps| => apps[i].package)
  }

  function GroupClass(members: seq<App>): AppClass {
    if exists i :: 0 <= i < |members| && members[i].class' == System then System else User
  }

  function GroupOf(apps: seq<App>, key: Key): UidGroup {
    var members := Members(apps, key);
    UidGroup(key.0, key.1, Names(members), GroupClass(members))
  }

  function GroupsFor(apps: seq<App>, keys: seq<Key>): (groups: seq<UidGroup>)
    ensures |groups| == |keys|
  {
    seq(|keys|, i requires 0 <= i < |keys| => GroupOf(apps, keys[i]))
  }

  function GroupsOf(apps: seq<App>): seq<UidGroup> {
    GroupsFor(apps, KeysOf(apps))
  }

  /** `group`: the first group of a user and UID. */
  function FindGroup(groups: seq<UidGroup>, key: Key): Option<UidGroup> {
    if groups == [] then None
    else if (groups[0].user, groups[0].uid) == key then Some(groups[0])
    else FindGroup(groups[1..], key)
  }

  lemma {:induction false} FindGroupFor(apps: seq<App>, keys: seq<Key>, key: Key)
    ensures FindGroup(GroupsFor(apps, keys), key) == if key in keys then Some(GroupOf(apps, key)) else None
  {
    hide Members;
    if keys != [] {
      FindGroupFor(apps, keys[1..], key);
      assert keys == [keys[0]] + keys[1..];
      assert GroupsFor(apps, keys)[1..] == GroupsFor(apps, keys[1..]);
    }
  }

  /** Looking a UID up in the groups gives all its packages, or nothing if no package has it. */
  lemma GroupFound(apps: seq<App>, key: Key)
    ensures FindGroup(GroupsOf(apps), key) ==
            if HasKey(apps, key) then Some(GroupOf(apps, key)) else None
  {
    KeysOfMeans(apps, key);
    FindGroupFor(apps, KeysOf(apps), key);
  }

  /** The applications by UID, as they are collected. */
  ghost predicate Grouped(grouped: map<Key, seq<App>>, keys: seq<Key>, apps: seq<App>) {
    && keys == KeysOf(apps)
    && forall key :: (key in grouped <==> key in keys) && (key in grouped ==> grouped[key] == Members(apps, key))
  }

  lemma KeysOfNext(apps: seq<App>, n: nat)
    requires n < |apps|
    ensures KeysOf(apps[..n + 1]) == InsertPair(KeysOf(apps[..n]), KeyOf(apps[n]))
  {
    assert apps[..n + 1][..n] == apps[..n] && apps[..n + 1][n] == apps[n];
  }

  lemma MembersNext(apps: seq<App>, n: nat, key: Key)
    requires n < |apps|
    ensures Members(apps[..n + 1], key) == Members(apps[..n], key) + if KeyOf(apps[n]) == key then [apps[n]] else []
  {
    assert apps[..n + 1][..n] == apps[..n] && apps[..n + 1][n] == apps[n];
  }

  lemma GroupedNext(grouped: map<Key, seq<App>>, keys: seq<Key>, apps: seq<App>, n: nat)
    requires n < |apps| && Grouped(grouped, keys, apps[..n])
    ensures var key := KeyOf(apps[n]);
      var before := if key in grouped then grouped[key] else [];
      Grouped(grouped[key := before + [apps[n]]], InsertPair(keys, key), apps[..n + 1])
  {
    var key := KeyOf(apps[n]);
    KeysOfNext(apps, n);
    hide KeysOf, Members, InsertPair;
    if key !in grouped {
      NoMembers(apps[..n], key);
    }
    var before := if key in grouped then grouped[key] else [];
    var next := grouped[key := before + [apps[n]]];
    forall other
      ensures other in next <==> other in InsertPair(keys, key)
      ensures other in next ==> next[other] == Members(apps[..n + 1], other)
    {
      MembersNext(apps, n, other);
    }
  }

  lemma {:induction false} NoMembers(apps: seq<App>, key: Key)
    requires key !in KeysOf(apps)
    ensures Members(apps, key) == []
  {
    if apps != [] {
      NoMembers(apps[..|apps| - 1], key);
    }
  }

  method CollectGroups(apps: seq<App>) returns (grouped: map<Key, seq<App>>, keys: seq<Key>)
    ensures Grouped(grouped, keys, apps)
  {
    grouped, keys := map[], [];
    for n := 0 to |apps|
      invariant Grouped(grouped, keys, apps[..n])
    {
      GroupedNext(grouped, keys, apps, n);
      hide Grouped;
      var key := KeyOf(apps[n]);
      grouped := grouped[key := (if key in grouped then grouped[key] else []) + [apps[n]]];
      keys := InsertPair(keys, key);
    }
    assert apps[..|apps|] == apps;
  }

  lemma TooManyShare(apps: seq<App>, key: Key)
    requires key in KeysOf(apps) && |Members(apps, key)| > MAX_PACKAGES_PER_UID
    ensures !SharedModestly(apps)
  {
    hide Members, KeysOf;
    KeysOfMeans(apps, key);
    var i :| 0 <= i < |apps| && KeyOf(apps[i]) == key;
    assert |Members(apps, KeyOf(apps[i]))| > MAX_PACKAGES_PER_UID;
  }

  lemma SharingByKeys(apps: seq<App>)
    requires forall k :: 0 <= k < |KeysOf(apps)| ==> |Members(apps, KeysOf(apps)[k])| <= MAX_PACKAGES_PER_UID
    ensures SharedModestly(apps)
  {
    hide Members, KeysOf;
    forall i | 0 <= i < |apps|
      ensures |Members(apps, KeyOf(apps[i]))| <= MAX_PACKAGES_PER_UID
    {
      KeysOfMeans(apps, KeyOf(apps[i]));
      assert KeyOf(apps[i]) in KeysOf(apps);
    }
  }

  /** `build_groups`: one group for each UID, in order, unless a UID is shared by too many packages. */
  method BuildGroups(apps: seq<App>) returns (r: Result<seq<UidGroup>, AppError>)
    ensures r.Ok? <==> SharedModestly(apps)
    ensures r.Ok? ==> r.value == GroupsOf(apps)
    ensures r.Err? ==> r.error == SharedUidTooLarge
  {
    hide Members, KeysOf, SharedModestly, GroupClass, Names;
    var grouped, keys := CollectGroups(apps);
    var groups: seq<UidGroup> := [];
    for n := 0 to |keys|
      invariant |groups| == n && forall k :: 0 <= k < n ==> groups[k] == GroupOf(apps, keys[k])
      invariant forall k :: 0 <= k < n ==> |Members(apps, keys[k])| <= MAX_PACKAGES_PER_UID
    {
      var key := keys[n];
      assert key in keys;
      var members := grouped[key];
      if |members| > MAX_PACKAGES_PER_UID {
        TooManyShare(apps, key);
        return Err(SharedUidTooLarge);
      }
      groups := groups + [UidGroup(key.0, key.1, Names(members), GroupClass(members))];
    }
    SharingByKeys(apps);
    assert groups == GroupsOf(apps);
    r := Ok(groups);
  }

  /** The catalogue that snapshots are to give. */
  function Catalogued(snapshots: seq<Snapshot>): seq<App>
    requires forall i :: 0 <= i < |snapshots| ==> Sound(snapshots[i])
  {
    SortApps(AllApps(snapshots))
  }

  /** The catalogue is made exactly from what can be catalogued: all packages sorted, with the group of each UID. */
  method FromSnapshots(snapshots: seq<Snapshot>) returns (r: Result<AppCatalogue, AppError>)
    ensures r.Ok? <==> Catalogable(snapshots)
    ensures r.Ok? ==> r.value == AppCatalogue(Catalogued(snapshots), GroupsOf(Catalogued(snapshots)))
  {
    hide Sound, AllApps, SortApps, GroupsOf, SharedModestly;
    var gathered := GatherApps(snapshots);
    if gathered.Err? {
      return Err(gathered.error);
    }
    var apps := SortApps(gathered.value);
    SharingOfSort(gathered.value);
    var groups := BuildGroups(apps);
    if groups.Err? {
      return Err(groups.error);
    }
    r := Ok(AppCatalogue(apps, groups.value));
  }

  // ---- Looking packages up ----

  ghost predicate IsApp(app: App, user: nat, package: string) {
    app.user == user && app.package == package
  }

  /** `app`: the first application of a user with a package name. */
  function FindApp(apps: seq<App>, user: nat, package: string): (r: Option<App>)
    ensures r.Some? ==> r.value in apps && IsApp(r.value, user, package)
    ensures r.None? <==> forall i :: 0 <= i < |apps| ==> !IsApp(apps[i], user, package)
  {
    if apps == [] then None
    else if apps[0].user == user && apps[0].package == package then Some(apps[0])
    else
      assert apps == [apps[0]] + apps[1..];
      FindApp(apps[1..], user, package)
  }

  /** The UID a package has according to the full listings, one for each user. */
  function UidOf(listings: map<nat, Listing>, choice: Choice): Option<nat> {
    if choice.0 in listings then Find(listings[choice.0], choice.1) else None
  }

  lemma {:induction false} FindIsUnique(listing: Listing, package: string, uid: nat)
    requires ByName(listing) && (package, uid) in listing
    ensures Find(listing, package) == Some(uid)
  {
    if listing[0].0 != package {
      assert listing == [listing[0]] + listing[1..];
      FindIsUnique(listing[1..], package, uid);
    } else {
      var i :| 0 <= i < |listing| && listing[i] == (package, uid);
      LexLessIrreflexive(package);
    }
  }

  ghost predicate Listed(snapshots: seq<Snapshot>, listings: map<nat, Listing>) {
    && (forall i :: 0 <= i < |snapshots| ==>
          snapshots[i].user in listings && listings[snapshots[i].user] == snapshots[i].all)
    && forall user :: user in listings ==> ByName(listings[user])
  }

  /** Where an application of the catalogue comes from. */
  lemma {:induction false} AppOrigin(snapshots: seq<Snapshot>, app: App) returns (i: nat)
    requires (forall k :: 0 <= k < |snapshots| ==> Sound(snapshots[k])) && app in AllApps(snapshots)
    ensures i < |snapshots| && app.user == snapshots[i].user && (app.package, app.uid) in snapshots[i].all
    ensures app.uid / PER_USER_RANGE == app.user
  {
    var n := |snapshots| - 1;
    if app in AllApps(snapshots[..n]) {
      i := AppOrigin(snapshots[..n], app);
    } else {
      i := n;
      var k :| 0 <= k < |AppsOf(snapshots[n])| && AppsOf(snapshots[n])[k] == app;
      assert snapshots[n].all[k] == (app.package, app.uid);
    }
  }

  lemma AppAt(s: Snapshot, k: nat)
    requires Sound(s) && k < |s.all|
    ensures var app := AppsOf(s)[k];
      app.user == s.user && (app.package, app.uid) == s.all[k]
  {
  }

  lemma {:induction false} AppThere(snapshots: seq<Snapshot>, i: nat, k: nat) returns (app: App)
    requires forall k :: 0 <= k < |snapshots| ==> Sound(snapshots[k])
    requires i < |snapshots| && k < |snapshots[i].all|
    ensures app in AllApps(snapshots)
    ensures app.user == snapshots[i].user && (app.package, app.uid) == snapshots[i].all[k]
  {
    hide Sound, AppsOf;
    var n := |snapshots| - 1;
    if i < n {
      app := AppThere(snapshots[..n], i, k);
    } else {
      AppAt(snapshots[n], k);
      app := AppsOf(snapshots[n])[k];
    }
  }

  lemma InCatalogue(snapshots: seq<Snapshot>, app: App)
    requires forall k :: 0 <= k < |snapshots| ==> Sound(snapshots[k])
    ensures app in Catalogued(snapshots) <==> app in AllApps(snapshots)
  {
    hide Sound, AllApps, SortApps;
    var apps := AllApps(snapshots);
    SortKeeps(apps);
    assert app in apps <==> app in multiset(apps);
    assert app in SortApps(apps) <==> app in multiset(SortApps(apps));
  }

  /** The catalogue and the listings it was made from give a package the same UID. */
  lemma CatalogueAgrees(snapshots: seq<Snapshot>, listings: map<nat, Listing>, user: nat, package: string)
    requires Catalogable(snapshots) && Listed(snapshots, listings)
    requires exists i :: 0 <= i < |snapshots| && snapshots[i].user == user
    ensures var app := FindApp(Catalogued(snapshots), user, package);
      && (app.None? <==> UidOf(listings, (user, package)).None?)
      && (app.Some? ==> UidOf(listings, (user, package)) == Some(app.value.uid))
  {
    hide Sound, AllApps, Catalogued, SharedModestly;
    var app := FindApp(Catalogued(snapshots), user, package);
    if app.Some? {
      InCatalogue(snapshots, app.value);
      var i := AppOrigin(snapshots, app.value);
      FindIsUnique(snapshots[i].all, package, app.value.uid);
    } else if UidOf(listings, (user, package)).Some? {
      var i :| 0 <= i < |snapshots| && snapshots[i].user == user;
      var k :| 0 <= k < |snapshots[i].all| && snapshots[i].all[k] == (package, UidOf(listings, (user, package)).value);
      var there := AppThere(snapshots, i, k);
      InCatalogue(snapshots, there);
    }
  }

  // ---- What the catalogue looks like ----

  lemma AppsOfDiffer(s: Snapshot)
    requires Sound(s) && ByName(s.all)
    ensures PackagesDiffer(AppsOf(s))
  {
    hide Classify;
    forall i, j | 0 <= i < j < |s.all|
      ensures s.all[i].0 != s.all[j].0
    {
      LexLessIrreflexive(s.all[i].0);
    }
  }

  lemma {:induction false} AllAppsDiffer(snapshots: seq<Snapshot>)
    requires DistinctUsers(snapshots)
    requires forall i :: 0 <= i < |snapshots| ==> Sound(snapshots[i]) && ByName(snapshots[i].all)
    ensures PackagesDiffer(AllApps(snapshots))
  {
    if snapshots != [] {
      var n := |snapshots| - 1;
      AllAppsDiffer(snapshots[..n]);
      AppsOfDiffer(snapshots[n]);
      var a, b := AllApps(snapshots[..n]), AppsOf(snapshots[n]);
      forall i, j | 0 <= i < |a| && 0 <= j < |b|
        ensures a[i].user != b[j].user
      {
        var k := AppOrigin(snapshots[..n], a[i]);
        assert snapshots[k].user != snapshots[n].user;
      }
      DifferConcat(a, b);
    }
  }

  lemma DifferConcat(a: seq<App>, b: seq<App>)
    requires PackagesDiffer(a) && PackagesDiffer(b)
    requires forall i, j :: 0 <= i < |a| && 0 <= j < |b| ==> a[i].user != b[j].user
    ensures PackagesDiffer(a + b)
  {
  }

  /** The catalogue is strictly sorted and holds exactly the listed packages. */
  lemma CatalogueSorted(snapshots: seq<Snapshot>)
    requires Catalogable(snapshots) && forall i :: 0 <= i < |snapshots| ==> ByName(snapshots[i].all)
    ensures AppsIncrease(Catalogued(snapshots))
    ensures multiset(Catalogued(snapshots)) == multiset(AllApps(snapshots))
  {
    hide Sound, AllApps, SortApps, SharedModestly;
    AllAppsDiffer(snapshots);
    SortKeeps(AllApps(snapshots));
    SortIncreases(AllApps(snapshots));
  }

  // ---- The packages of a UID ----

  ghost predicate LexSorted(s: seq<string>) {
    forall i, j :: 0 <= i < j < |s| ==> LexLess(s[i], s[j])
  }

  /** The packages of a listing that have a UID. */
  function NamesWith(listing: Listing, uid: nat): seq<string> {
    if listing == [] then []
    else
      var last := listing[|listing| - 1];
      NamesWith(listing[..|listing| - 1], uid) + if last.1 == uid then [last.0] else []
  }

  lemma {:induction false} NamesWithMeans(listing: Listing, uid: nat)
    requires ByName(listing)
    ensures LexSorted(NamesWith(listing, uid))
    ensures forall name :: name in NamesWith(listing, uid) <==> (name, uid) in listing
  {
    if listing != [] {
      var n := |listing| - 1;
      NamesWithMeans(listing[..n], uid);
      var front := NamesWith(listing[..n], uid);
      assert listing == listing[..n] + [listing[n]];
      forall i | 0 <= i < |front|
        ensures LexLess(front[i], listing[n].0)
      {
        assert front[i] in front;
        var k :| 0 <= k < n && listing[..n][k] == (front[i], uid);
        assert LexLess(listing[k].0, listing[n].0);
      }
    }
  }

  lemma {:induction false} MembersMean(apps: seq<App>, key: Key, app: App)
    ensures app in Members(apps, key) <==> app in apps && KeyOf(app) == key
  {
    if apps != [] {
      var n := |apps| - 1;
      MembersMean(apps[..n], key, app);
      assert apps == apps[..n] + [apps[n]];
    }
  }

  lemma {:induction false} MembersIncrease(apps: seq<App>, key: Key)
    requires AppsIncrease(apps)
    ensures AppsIncrease(Members(apps, key))
  {
    hide AppLess;
    if apps != [] {
      var n := |apps| - 1;
      MembersIncrease(apps[..n], key);
      var front := Members(apps[..n], key);
      forall i | 0 <= i < |front|
        ensures AppLess(front[i], apps[n])
      {
        MembersMean(apps[..n], key, front[i]);
        var k :| 0 <= k < n && apps[..n][k] == front[i];
        assert AppLess(apps[k], apps[n]);
      }
    }
  }

  lemma NamesSorted(apps: seq<App>, key: Key)
    requires AppsIncrease(apps)
    ensures LexSorted(Names(Members(apps, key)))
  {
    MembersIncrease(apps, key);
    var members := Members(apps, key);
    forall i, j | 0 <= i < j < |members|
      ensures LexLess(members[i].package, members[j].package)
    {
      MembersMean(apps, key, members[i]);
      MembersMean(apps, key, members[j]);
      assert AppLess(members[i], members[j]);
    }
  }

  lemma {:induction false} LexSortedUnique(a: seq<string>, b: seq<string>)
    requires LexSorted(a) && LexSorted(b)
    requires forall y :: y in a <==> y in b
    ensures a == b
  {
    assert a != [] ==> a[0] in b;
    assert b != [] ==> b[0] in a;
    if a != [] && b != [] {
      SameFirst(a, b);
      forall y
        ensures y in a[1..] <==> y in b[1..]
      {
        LexSortedTail(a, y);
        LexSortedTail(b, y);
      }
      LexSortedUnique(a[1..], b[1..]);
    }
  }

  lemma SameFirst(a: seq<string>, b: seq<string>)
    requires LexSorted(a) && LexSorted(b) && a != [] && b != []
    requires forall y :: y in a <==> y in b
    ensures a[0] == b[0]
  {
    var first, other := a[0], b[0];
    assert first in b && other in a;
    if first != other {
      LexLessAsymmetric(first, other);
    }
  }

  lemma LexSortedTail(s: seq<string>, y: string)
    requires LexSorted(s) && s != []
    ensures LexSorted(s[1..]) && (y in s[1..] <==> y in s && y != s[0])
  {
    assert s == [s[0]] + s[1..];
    LexLessIrreflexive(s[0]);
  }

  /** The packages that the catalogue knows for a UID are those of the user's listing, in the same order. */
  lemma SamePackages(snapshots: seq<Snapshot>, listings: map<nat, Listing>, i: nat, uid: nat)
    requires Catalogable(snapshots) && Listed(snapshots, listings) && i < |snapshots|
    ensures var user := snapshots[i].user;
      Names(Members(Catalogued(snapshots), (user, uid))) == NamesWith(listings[user], uid)
  {
    hide Sound, AllApps, Catalogued, SharedModestly, Members, NamesWith;
    var user := snapshots[i].user;
    var apps, key := Catalogued(snapshots), (user, uid);
    CatalogueSorted(snapshots);
    NamesSorted(apps, key);
    NamesWithMeans(listings[user], uid);
    var members := Members(apps, key);
    forall name
      ensures name in Names(members) <==> name in NamesWith(listings[user], uid)
    {
      if name in Names(members) {
        var m :| 0 <= m < |members| && members[m].package == name;
        MembersMean(apps, key, members[m]);
        InCatalogue(snapshots, members[m]);
        var k := AppOrigin(snapshots, members[m]);
        assert snapshots[k].all == listings[user];
      }
      if name in NamesWith(listings[user], uid) {
        var k :| 0 <= k < |snapshots[i].all| && snapshots[i].all[k] == (name, uid);
        var app := AppThere(snapshots, i, k);
        InCatalogue(snapshots, app);
        MembersMean(apps, key, app);
        var m :| 0 <= m < |members| && members[m] == app;
        assert Names(members)[m] == name;
      }
    }
    LexSortedUnique(Names(members), NamesWith(listings[user], uid));
  }

  // ---- Classes ----

  /** An application is a system application exactly if the listing of these has it, and else a user's own. */
  lemma ClassMeans(s: Snapshot, k: nat)
    requires Sound(s) && k < |s.all| && ByName(s.system) && ByName(s.userApps)
    ensures AppsOf(s)[k].class' == System <==> s.all[k] in s.system
    ensures AppsOf(s)[k].class' == User <==> s.all[k] in s.userApps
  {
    hide ByName;
    FindsListed(s.system, s.all[k].0, s.all[k].1);
    FindsListed(s.userApps, s.all[k].0, s.all[k].1);
  }

  lemma FindsListed(listing: Listing, package: string, uid: nat)
    requires ByName(listing)
    ensures Find(listing, package) == Some(uid) <==> (package, uid) in listing
  {
    if (package, uid) in listing {
      FindIsUnique(listing, package, uid);
    }
  }

  /** A group is of the system as soon as one of its packages is. */
  lemma GroupClassMeans(apps: seq<App>, key: Key)
    ensures GroupOf(apps, key).class' == System <==>
      exists app :: app in apps && KeyOf(app) == key && app.class' == System
    ensures forall name :: name in GroupOf(apps, key).packages <==>
      exists app :: app in apps && KeyOf(app) == key && app.package == name
  {
    hide Members;
    var members := Members(apps, key);
    forall app
      ensures app in members <==> app in apps && KeyOf(app) == key
    {
      MembersMean(apps, key, app);
    }
    forall app | app in apps && KeyOf(app) == key
      ensures exists i :: 0 <= i < |members| && members[i] == app && Names(members)[i] == app.package
    {
      var i :| 0 <= i < |members| && members[i] == app;
      assert Names(members)[i] == app.package;
    }
  }
}
