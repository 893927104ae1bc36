/** The two ways of selecting applications, and why they select the same. */
module AppSelection {
  import opened Wrappers
  import opened Ordering
  import opened Capture
  import opened Apps

  datatype Mode = Blacklist | Whitelist

  /** A selection as the capture policy takes it. */
  datatype Selection = Selection(includeUids: seq<nat>, excludeUids: seq<nat>)

  /** A UID that stands for more packages than the one that was chosen. */
  datatype Expansion = Expansion(user: nat, uid: nat, packages: seq<string>)

  datatype Compiled = Compiled(selection: Selection, expansions: seq<Expansion>)

  datatype Resolved = Resolved(selection: Selection, unresolved: seq<Choice>, expansions: seq<Expansion>)

  function Uids(s: seq<Key>): (r: seq<nat>)
    ensures |r| == |s|
  {
    seq(|s|, i requires 0 <= i < |s| => s[i].1)
  }

  /** Every pair's UID lies in the range of its user. */
  ghost predicate Owned(s: seq<Key>) {
    forall i :: 0 <= i < |s| ==> s[i].1 / PER_USER_RANGE == s[i].0
  }

  /** Because the user can be read off the UID, dropping it keeps the order and keeps UIDs apart. */
  lemma UidsIncrease(s: seq<Key>)
    requires PairsIncrease(s) && Owned(s)
    ensures StrictlyIncreasing(Uids(s))
  {
    forall i, j | 0 <= i < j < |s|
      ensures Uids(s)[i] < Uids(s)[j]
    {
      assert PairLess(s[i], s[j]);
    }
  }

  function Selected(mode: Mode, uids: seq<nat>): Selection {
    if mode.Whitelist? then Selection(uids, []) else Selection([], uids)
  }

  // ---- Selecting ----

  /** `uids` are the UIDs of the chosen packages, in increasing order. */
  ghost predicate Chosen(uids: seq<nat>, lookup: Choice -> Option<nat>, selected: seq<Choice>) {
    && StrictlyIncreasing(uids)
    && forall uid :: uid in uids <==> exists i :: 0 <= i < |selected| && lookup(selected[i]) == Some(uid)
  }

  /** The ordered set built so far: the pairs of the choices that are known. */
  ghost predicate Collected(pairs: seq<Key>, lookup: Choice -> Option<nat>, selected: seq<Choice>) {
    && PairsIncrease(pairs)
    && forall p :: p in pairs <==>
         exists i :: 0 <= i < |selected| && selected[i].0 == p.0 && lookup(selected[i]) == Some(p.1)
  }

  lemma CollectedNext(pairs: seq<Key>, lookup: Choice -> Option<nat>, selected: seq<Choice>, n: nat)
    requires n < |selected| && Collected(pairs, lookup, selected[..n])
    ensures lookup(selected[n]).Some? ==>
      Collected(InsertPair(pairs, (selected[n].0, lookup(selected[n]).value)), lookup, selected[..n + 1])
    ensures lookup(selected[n]).None? ==> Collected(pairs, lookup, selected[..n + 1])
  {
    if lookup(selected[n]).Some? {
      InsertPairSorted(pairs, (selected[n].0, lookup(selected[n]).value));
    }
    assert forall i :: 0 <= i < n ==> selected[..n + 1][i] == selected[..n][i];
    assert selected[..n + 1][n] == selected[n];
  }

  lemma CollectedChosen(pairs: seq<Key>, lookup: Choice -> Option<nat>, selected: seq<Choice>)
    requires Collected(pairs, lookup, selected)
    requires forall i :: 0 <= i < |selected| && lookup(selected[i]).Some? ==>
      lookup(selected[i]).value / PER_USER_RANGE == selected[i].0
    ensures Chosen(Uids(pairs), lookup, selected)
  {
    assert forall i :: 0 <= i < |pairs| ==> pairs[i] in pairs;
    UidsIncrease(pairs);
    forall uid
      ensures uid in Uids(pairs) <==> exists i :: 0 <= i < |selected| && lookup(selected[i]) == Some(uid)
    {
      if uid in Uids(pairs) {
        var k :| 0 <= k < |pairs| && Uids(pairs)[k] == uid;
        assert pairs[k] in pairs;
      }
      if i :| 0 <= i < |selected| && lookup(selected[i]) == Some(uid) {
        var pair := (selected[i].0, uid);
        assert pair in pairs;
        var k :| 0 <= k < |pairs| && pairs[k] == pair;
        assert Uids(pairs)[k] == uid;
      }
    }
  }

  function AppUid(apps: seq<App>, choice: Choice): Option<nat> {
    match FindApp(apps, choice.0, choice.1)
    case None => None
    case Some(app) => Some(app.uid)
  }

  function Catalogue(apps: seq<App>): Choice -> Option<nat> {
    c => AppUid(apps, c)
  }

  // ---- Expansions ----

  /** The UIDs that are wanted, each with its packages, in order. */
  ghost function Expanded(keys: seq<Key>, names: Key -> seq<string>, wanted: Key -> bool): seq<Expansion> {
    if keys == [] then []
    else
      var last := keys[|keys| - 1];
      Expanded(keys[..|keys| - 1], names, wanted)
      + if wanted(last) then [Expansion(last.0, last.1, names(last))] else []
  }

  lemma {:induction false} ExpandedMeans(keys: seq<Key>, names: Key -> seq<string>, wanted: Key -> bool, e: Expansion)
    ensures e in Expanded(keys, names, wanted)
       <==> (e.user, e.uid) in keys && wanted((e.user, e.uid)) && e.packages == names((e.user, e.uid))
  {
    if keys != [] {
      var n := |keys| - 1;
      ExpandedMeans(keys[..n], names, wanted, e);
      assert keys == keys[..n] + [keys[n]];
    }
  }

  lemma ExpandedNext(keys: seq<Key>, names: Key -> seq<string>, wanted: Key -> bool, n: nat)
    requires n < |keys|
    ensures Expanded(keys[..n + 1], names, wanted) ==
            Expanded(keys[..n], names, wanted)
            + if wanted(keys[n]) then [Expansion(keys[n].0, keys[n].1, names(keys[n]))] else []
  {
    assert keys[..n + 1][..n] == keys[..n] && keys[..n + 1][n] == keys[n];
  }

  /** The packages of a UID according to the catalogue. */
  function Sharing(apps: seq<App>): Key -> seq<string> {
    key => Names(Members(apps, key))
  }

  /** Some package of a shared UID was not chosen. */
  ghost predicate PartlyChosen(names: seq<string>, user: nat, selected: seq<Choice>) {
    |names| > 1 && exists i :: 0 <= i < |names| && (user, names[i]) !in selected
  }

  ghost function Partly(apps: seq<App>, selected: seq<Choice>): Key -> bool {
    key => PartlyChosen(Names(Members(apps, key)), key.0, selected)
  }

  method CountChosen(names: seq<string>, user: nat, chosen: set<Choice>) returns (count: nat)
    ensures count <= |names|
    ensures count < |names| <==> exists i :: 0 <= i < |names| && (user, names[i]) !in chosen
  {
    count := 0;
    for n := 0 to |names|
      invariant count <= n
      invariant count < n <==> exists i :: 0 <= i < n && (user, names[i]) !in chosen
    {
      if (user, names[n]) in chosen {
        count := count + 1;
      }
    }
  }

  ghost predicate SameElements(chosen: set<Choice>, selected: seq<Choice>) {
    forall c :: c in chosen <==> c in selected
  }

  /** A catalogue as it is made: with the groups of its applications, each UID in the range of its user. */
  ghost predicate WellMade(c: AppCatalogue) {
    && c.groups == GroupsOf(c.apps)
    && forall i :: 0 <= i < |c.apps| ==> c.apps[i].uid / PER_USER_RANGE == c.apps[i].user
  }

  /** What `from_snapshots` makes is well made. */
  lemma CataloguedIsWellMade(snapshots: seq<Snapshot>)
    requires Catalogable(snapshots)
    ensures WellMade(AppCatalogue(Catalogued(snapshots), GroupsOf(Catalogued(snapshots))))
  {
    hide Sound, AllApps, Catalogued, SharedModestly, GroupsOf;
    var apps := Catalogued(snapshots);
    forall i | 0 <= i < |apps|
      ensures apps[i].uid / PER_USER_RANGE == apps[i].user
    {
      InCatalogue(snapshots, apps[i]);
      var k := AppOrigin(snapshots, apps[i]);
    }
  }

  method FindExpansions(c: AppCatalogue, pairs: seq<Key>, chosen: set<Choice>, ghost selected: seq<Choice>)
    returns (r: Result<seq<Expansion>, AppError>)
    requires WellMade(c) && SameElements(chosen, selected)
    requires forall i :: 0 <= i < |pairs| ==> HasKey(c.apps, pairs[i])
    ensures r == Ok(Expanded(pairs, Sharing(c.apps), Partly(c.apps, selected)))
  {
    hide Members, GroupsOf, Expanded;
    var expansions: seq<Expansion> := [];
    NothingExpanded(pairs[..0], Sharing(c.apps), Partly(c.apps, selected));
    for n := 0 to |pairs|
      invariant expansions == Expanded(pairs[..n], Sharing(c.apps), Partly(c.apps, selected))
    {
      GroupFound(c.apps, pairs[n]);
      ExpandedNext(pairs, Sharing(c.apps), Partly(c.apps, selected), n);
      var group := FindGroup(c.groups, pairs[n]);
      if group.None? {
        return Err(UnknownPackage);
      }
      var names := group.value.packages;
      if |names| > 1 {
        var count := CountChosen(names, pairs[n].0, chosen);
        if count < |names| {
          expansions := expansions + [Expansion(pairs[n].0, pairs[n].1, names)];
        }
      }
    }
    assert pairs[..|pairs|] == pairs;
    r := Ok(expansions);
  }

  lemma NothingExpanded(keys: seq<Key>, names: Key -> seq<string>, wanted: Key -> bool)
    requires keys == []
    ensures Expanded(keys, names, wanted) == []
  {
  }

  /** What has been found for the choices so far. */
  ghost predicate Picked(
    pairs: seq<Key>, chosen: set<Choice>, apps: seq<App>, selected: seq<Choice>)
  {
    && Collected(pairs, Catalogue(apps), selected) && SameElements(chosen, selected)
    && forall i :: 0 <= i < |selected| ==> AppUid(apps, selected[i]).Some?
  }

  /** `compile_selection`, first loop: one unknown package refuses the whole selection. */
  method PickAll(apps: seq<App>, selected: seq<Choice>)
    returns (r: Result<(seq<Key>, set<Choice>), AppError>)
    ensures r.Ok? <==> forall i :: 0 <= i < |selected| ==> AppUid(apps, selected[i]).Some?
    ensures r.Ok? ==> Picked(r.value.0, r.value.1, apps, selected)
  {
    hide Collected;
    ghost var lookup := Catalogue(apps);
    var pairs: seq<Key>, chosen: set<Choice> := [], {};
    NothingCollected(lookup, selected[..0]);
    for n := 0 to |selected|
      invariant Picked(pairs, chosen, apps, selected[..n])
      invariant forall i :: 0 <= i < n ==> AppUid(apps, selected[i]).Some?
    {
      CollectedNext(pairs, lookup, selected, n);
      var app := FindApp(apps, selected[n].0, selected[n].1);
      if app.None? {
        assert AppUid(apps, selected[n]).None?;
        return Err(UnknownPackage);
      }
      pairs := InsertPair(pairs, KeyOf(app.value));
      chosen := chosen + {(app.value.user, app.value.package)};
      assert selected[..n + 1] == selected[..n] + [selected[n]];
    }
    assert selected[..|selected|] == selected;
    r := Ok((pairs, chosen));
  }

  /** Whatever was picked is the UID of an application, and in the range of its user. */
  lemma PickedAreApps(c: AppCatalogue, pairs: seq<Key>, selected: seq<Choice>)
    requires WellMade(c) && Collected(pairs, Catalogue(c.apps), selected)
    ensures forall i :: 0 <= i < |pairs| ==> HasKey(c.apps, pairs[i])
    ensures forall i :: 0 <= i < |selected| && AppUid(c.apps, selected[i]).Some? ==>
      AppUid(c.apps, selected[i]).value / PER_USER_RANGE == selected[i].0
  {
    hide GroupsOf;
    forall i | 0 <= i < |selected| && AppUid(c.apps, selected[i]).Some?
      ensures AppUid(c.apps, selected[i]).value / PER_USER_RANGE == selected[i].0
    {
      var app := FindApp(c.apps, selected[i].0, selected[i].1).value;
      assert app in c.apps;
    }
    forall i | 0 <= i < |pairs|
      ensures HasKey(c.apps, pairs[i])
    {
      assert pairs[i] in pairs;
      var j :| 0 <= j < |selected| && selected[j].0 == pairs[i].0 && Catalogue(c.apps)(selected[j]) == Some(pairs[i].1);
      var app := FindApp(c.apps, selected[j].0, selected[j].1).value;
      var k :| 0 <= k < |c.apps| && c.apps[k] == app;
      assert KeyOf(c.apps[k]) == pairs[i];
    }
  }

  /** `compile_selection`: the UIDs of the chosen packages, and which of them stand for packages not chosen. */
  method CompileSelection(c: AppCatalogue, mode: Mode, selected: seq<Choice>)
    returns (r: Result<Compiled, AppError>, ghost pairs: seq<Key>)
    requires WellMade(c)
    ensures r.Ok? <==> forall i :: 0 <= i < |selected| ==> AppUid(c.apps, selected[i]).Some?
    ensures r.Ok? ==>
      && Collected(pairs, Catalogue(c.apps), selected) && Chosen(Uids(pairs), Catalogue(c.apps), selected)
      && r.value == Compiled(Selected(mode, Uids(pairs)), Expanded(pairs, Sharing(c.apps), Partly(c.apps, selected)))
  {
    hide Collected, SameElements, GroupsOf;
    pairs := [];
    var picked := PickAll(c.apps, selected);
    if picked.Err? {
      return Err(picked.error), pairs;
    }
    pairs := picked.value.0;
    PickedAreApps(c, pairs, selected);
    CollectedChosen(pairs, Catalogue(c.apps), selected);
    var expansions := FindExpansions(c, picked.value.0, picked.value.1, selected);
    r := Ok(Compiled(Selected(mode, Uids(picked.value.0)), expansions.value));
  }

  lemma NothingCollected(lookup: Choice -> Option<nat>, selected: seq<Choice>)
    requires selected == []
    ensures Collected([], lookup, selected)
  {
  }

  function UsersOf(selected: seq<Choice>): (users: seq<nat>)
    ensures |users| == |selected|
  {
    seq(|selected|, i requires 0 <= i < |selected| => selected[i].0)
  }

  predicate AllOwned(listing: Listing, user: nat) {
    forall i :: 0 <= i < |listing| ==> listing[i].1 / PER_USER_RANGE == user
  }

  /** What the package manager says about a user that was asked for. */
  function AskedUid(query: nat -> Option<Listing>, choice: Choice): Option<nat> {
    match query(choice.0)
    case None => None
    case Some(listing) => Find(listing, choice.1)
  }

  function Manager(query: nat -> Option<Listing>): Choice -> Option<nat> {
    c => AskedUid(query, c)
  }

  ghost predicate Answered(query: nat -> Option<Listing>, user: nat) {
    query(user).Some? && AllOwned(query(user).value, user)
  }

  /** The table of packages: users in order, and for each the packages in order. */
  type Table = seq<(Choice, nat)>

  function EntriesOf(user: nat, listing: Listing): (t: Table)
    ensures |t| == |listing|
  {
    seq(|listing|, i requires 0 <= i < |listing| => ((user, listing[i].0), listing[i].1))
  }

  function AllEntries(query: nat -> Option<Listing>, users: seq<nat>): Table {
    if users == [] then []
    else
      var user := users[|users| - 1];
      AllEntries(query, users[..|users| - 1]) + if query(user).Some? then EntriesOf(user, query(user).value) else []
  }

  predicate ChoiceLess(a: Choice, b: Choice) {
    a.0 < b.0 || (a.0 == b.0 && LexLess(a.1, b.1))
  }

  ghost predicate TableIncreases(t: Table) {
    forall i, j :: 0 <= i < j < |t| ==> ChoiceLess(t[i].0, t[j].0)
  }

  lemma {:induction false} EntryOrigin(query: nat -> Option<Listing>, users: seq<nat>, entry: (Choice, nat))
    ensures entry in AllEntries(query, users) <==>
      entry.0.0 in users && query(entry.0.0).Some? && (entry.0.1, entry.1) in query(entry.0.0).value
  {
    if users != [] {
      var n := |users| - 1;
      EntryOrigin(query, users[..n], entry);
      assert users == users[..n] + [users[n]];
      if query(users[n]).Some? {
        var listing := query(users[n]).value;
        if entry in EntriesOf(users[n], listing) {
          var i :| 0 <= i < |listing| && EntriesOf(users[n], listing)[i] == entry;
          assert listing[i] == (entry.0.1, entry.1);
        }
        if entry.0.0 == users[n] && (entry.0.1, entry.1) in listing {
          var i :| 0 <= i < |listing| && listing[i] == (entry.0.1, entry.1);
          assert EntriesOf(users[n], listing)[i] == entry;
        }
      }
    }
  }

  /** Filling the table user by user and name by name puts every entry where an ordered map has it. */
  lemma {:induction false} EntriesIncrease(query: nat -> Option<Listing>, users: seq<nat>)
    requires StrictlyIncreasing(users) && forall user :: query(user).Some? ==> ByName(query(user).value)
    ensures TableIncreases(AllEntries(query, users))
  {
    if users != [] {
      var n := |users| - 1;
      EntriesIncrease(query, users[..n]);
      var front := AllEntries(query, users[..n]);
      forall i | 0 <= i < |front|
        ensures front[i].0.0 < users[n]
      {
        EntryOrigin(query, users[..n], front[i]);
        var k :| 0 <= k < n && users[..n][k] == front[i].0.0;
        assert users[k] < users[n];
      }
    }
  }

  /** The table answers as the package manager does. */
  lemma TableAnswers(query: nat -> Option<Listing>, users: seq<nat>, choice: Choice)
    requires choice.0 in users && forall user :: query(user).Some? ==> ByName(query(user).value)
    ensures Find(AllEntries(query, users), choice) == AskedUid(query, choice)
  {
    var t := AllEntries(query, users);
    var found := Find(t, choice);
    if found.Some? {
      EntryOrigin(query, users, (choice, found.value));
      FindIsUnique(query(choice.0).value, choice.1, found.value);
    } else if AskedUid(query, choice).Some? {
      EntryOrigin(query, users, (choice, AskedUid(query, choice).value));
    }
  }

  /** The packages of a user with a UID, in the order of the table. */
  function Affected(t: Table, key: Key): seq<string> {
    if t == [] then []
    else
      var last := t[|t| - 1];
      Affected(t[..|t| - 1], key) + if last.0.0 == key.0 && last.1 == key.1 then [last.0.1] else []
  }

  lemma {:induction false} AffectedConcat(a: Table, b: Table, key: Key)
    ensures Affected(a + b, key) == Affected(a, key) + Affected(b, key)
  {
    if b == [] {
      assert a + b == a;
    } else {
      var n := |b| - 1;
      AffectedConcat(a, b[..n], key);
      assert (a + b)[..|a + b| - 1] == a + b[..n];
    }
  }

  lemma {:induction false} AffectedOf(user: nat, listing: Listing, key: Key)
    ensures Affected(EntriesOf(user, listing), key) == if user == key.0 then NamesWith(listing, key.1) else []
  {
    if listing != [] {
      var n := |listing| - 1;
      AffectedOf(user, listing[..n], key);
      assert EntriesOf(user, listing)[..n] == EntriesOf(user, listing[..n]);
    }
  }

  /** Filtering the whole table gives the packages of the user's own listing. */
  lemma {:induction false} AffectedIs(query: nat -> Option<Listing>, users: seq<nat>, key: Key)
    requires StrictlyIncreasing(users)
    ensures Affected(AllEntries(query, users), key) ==
            if key.0 in users && query(key.0).Some? then NamesWith(query(key.0).value, key.1) else []
  {
    if users != [] {
      var n := |users| - 1;
      hide Affected, NamesWith;
      AffectedIs(query, users[..n], key);
      NothingAffected(key);
      assert users == users[..n] + [users[n]];
      assert users[n] !in users[..n];
      if query(users[n]).Some? {
        AffectedOf(users[n], query(users[n]).value, key);
        AffectedConcat(AllEntries(query, users[..n]), EntriesOf(users[n], query(users[n]).value), key);
      } else {
        AffectedConcat(AllEntries(query, users[..n]), [], key);
      }
    } else {
      NothingAffected(key);
    }
  }

  lemma NothingAffected(key: Key)
    ensures Affected([], key) == []
  {
  }

  method LoadUser(packages: Table, query: nat -> Option<Listing>, user: nat) returns (r: Result<Table, AppError>)
    ensures r.Ok? <==> Answered(query, user)
    ensures r.Ok? ==> r.value == packages + EntriesOf(user, query(user).value)
  {
    var answer := query(user);
    if answer.None? {
      return Err(QueryFailed);
    }
    var listing := answer.value;
    var table := packages;
    ghost var entries := EntriesOf(user, listing);
    for i := 0 to |listing|
      invariant forall k :: 0 <= k < i ==> listing[k].1 / PER_USER_RANGE == user
      invariant table == packages + entries[..i]
    {
      if listing[i].1 / PER_USER_RANGE != user {
        return Err(UserUidMismatch);
      }
      table := table + [((user, listing[i].0), listing[i].1)];
      assert entries[..i + 1] == entries[..i] + [entries[i]];
    }
    assert entries[..|listing|] == entries;
    r := Ok(table);
  }

  method LoadUsers(query: nat -> Option<Listing>, users: seq<nat>) returns (r: Result<Table, AppError>)
    ensures r.Ok? <==> forall i :: 0 <= i < |users| ==> Answered(query, users[i])
    ensures r.Ok? ==> r.value == AllEntries(query, users)
  {
    hide Answered;
    var packages: Table := [];
    for n := 0 to |users|
      invariant packages == AllEntries(query, users[..n])
      invariant forall i :: 0 <= i < n ==> Answered(query, users[i])
    {
      AnsweredSome(query, users[n]);
      var next := LoadUser(packages, query, users[n]);
      if next.Err? {
        return Err(next.error);
      }
      packages := next.value;
      assert users[..n + 1][..n] == users[..n] && users[..n + 1][n] == users[n];
    }
    assert users[..|users|] == users;
    r := Ok(packages);
  }

  lemma AnsweredSome(query: nat -> Option<Listing>, user: nat)
    ensures Answered(query, user) ==> query(user).Some?
  {
  }

  /** The choices a lookup does not know, in the order they were made. */
  function Unknown(lookup: Choice -> Option<nat>, selected: seq<Choice>): seq<Choice> {
    if selected == [] then []
    else
      var n := |selected| - 1;
      Unknown(lookup, selected[..n]) + if lookup(selected[n]).None? then [selected[n]] else []
  }

  method PickKnown(packages: Table, query: nat -> Option<Listing>, ghost users: seq<nat>, selected: seq<Choice>)
    returns (pairs: seq<Key>, unresolved: seq<Choice>)
    requires packages == AllEntries(query, users) && forall user :: query(user).Some? ==> ByName(query(user).value)
    requires forall i :: 0 <= i < |selected| ==> selected[i].0 in users
    ensures Collected(pairs, Manager(query), selected) && unresolved == Unknown(Manager(query), selected)
  {
    pairs, unresolved := [], [];
    NothingCollected(Manager(query), selected[..0]);
    hide Collected, AllEntries, ByName;
    for n := 0 to |selected|
      invariant Collected(pairs, Manager(query), selected[..n])
      invariant unresolved == Unknown(Manager(query), selected[..n])
    {
      CollectedNext(pairs, Manager(query), selected, n);
      TableAnswers(query, users, selected[n]);
      assert selected[..n + 1][..n] == selected[..n] && selected[..n + 1][n] == selected[n];
      var uid := Find(packages, selected[n]);
      if uid.Some? {
        pairs := InsertPair(pairs, (selected[n].0, uid.value));
      } else {
        unresolved := unresolved + [selected[n]];
      }
    }
    assert selected[..|selected|] == selected;
  }

  /** The packages of a UID according to the package manager. */
  function ManagerNames(query: nat -> Option<Listing>): Key -> seq<string> {
    (key: Key) => if query(key.0).Some? then NamesWith(query(key.0).value, key.1) else []
  }

  function Shared(query: nat -> Option<Listing>): Key -> bool {
    key => |ManagerNames(query)(key)| > 1
  }

  method ResolveExpansions(packages: Table, pairs: seq<Key>, query: nat -> Option<Listing>, ghost users: seq<nat>)
    returns (expansions: seq<Expansion>)
    requires packages == AllEntries(query, users) && StrictlyIncreasing(users)
    requires forall i :: 0 <= i < |pairs| ==> pairs[i].0 in users
    ensures expansions == Expanded(pairs, ManagerNames(query), Shared(query))
  {
    hide AllEntries, Expanded, Affected, NamesWith;
    expansions := [];
    NothingExpanded(pairs[..0], ManagerNames(query), Shared(query));
    for n := 0 to |pairs|
      invariant expansions == Expanded(pairs[..n], ManagerNames(query), Shared(query))
    {
      AffectedIs(query, users, pairs[n]);
      ExpandedNext(pairs, ManagerNames(query), Shared(query), n);
      var names := Affected(packages, pairs[n]);
      if |names| > 1 {
        expansions := expansions + [Expansion(pairs[n].0, pairs[n].1, names)];
      }
    }
    assert pairs[..|pairs|] == pairs;
  }

  lemma CollectedUsers(pairs: seq<Key>, lookup: Choice -> Option<nat>, selected: seq<Choice>, users: seq<nat>)
    requires Collected(pairs, lookup, selected) && forall i :: 0 <= i < |selected| ==> selected[i].0 in users
    ensures forall i :: 0 <= i < |pairs| ==> pairs[i].0 in users
  {
    assert forall i :: 0 <= i < |pairs| ==> pairs[i] in pairs;
  }

  /** `resolve_selection`: unknown packages are set aside, the others selected, and shared UIDs listed. */
  method ResolveSelection(query: nat -> Option<Listing>, mode: Mode, selected: seq<Choice>)
    returns (r: Result<Resolved, AppError>, ghost pairs: seq<Key>)
    requires forall user :: query(user).Some? ==> ByName(query(user).value)
    ensures r.Ok? <==> forall i :: 0 <= i < |selected| ==> Answered(query, selected[i].0)
    ensures r.Ok? ==>
      && Collected(pairs, Manager(query), selected) && Chosen(Uids(pairs), Manager(query), selected)
      && r.value == Resolved(Selected(mode, Uids(pairs)), Unknown(Manager(query), selected),
                             Expanded(pairs, ManagerNames(query), Shared(query)))
  {
    pairs := [];
    ghost var lookup := Manager(query);
    var users := SortDedup(UsersOf(selected));
    SelectedUsers(query, selected, users);
    var loaded := LoadUsers(query, users);
    if loaded.Err? {
      return Err(loaded.error), pairs;
    }
    forall n | 0 <= n < |selected|
      ensures selected[n].0 in users
    {
      UserListed(selected, n);
    }
    hide Collected, Answered, AllEntries, ByName, Unknown, Expanded, ManagerNames, Shared;
    var keys, unresolved := PickKnown(loaded.value, query, users, selected);
    pairs := keys;
    CollectedUsers(keys, lookup, selected, users);
    forall i | 0 <= i < |selected| && lookup(selected[i]).Some?
      ensures lookup(selected[i]).value / PER_USER_RANGE == selected[i].0
    {
      AnsweredOwned(query, selected[i]);
    }
    CollectedChosen(keys, lookup, selected);
    var expansions := ResolveExpansions(loaded.value, keys, query, users);
    r := Ok(Resolved(Selected(mode, Uids(keys)), unresolved, expansions));
  }

  lemma UserListed(selected: seq<Choice>, n: nat)
    requires n < |selected|
    ensures selected[n].0 in SortDedup(UsersOf(selected))
  {
    assert UsersOf(selected)[n] == selected[n].0;
    assert selected[n].0 in UsersOf(selected);
  }

  lemma SelectedUsers(query: nat -> Option<Listing>, selected: seq<Choice>, users: seq<nat>)
    requires users == SortDedup(UsersOf(selected))
    ensures (forall i :: 0 <= i < |users| ==> Answered(query, users[i]))
       <==> forall i :: 0 <= i < |selected| ==> Answered(query, selected[i].0)
  {
    hide Answered;
    forall i | 0 <= i < |selected|
      ensures exists k :: 0 <= k < |users| && users[k] == selected[i].0
    {
      UserListed(selected, i);
    }
    forall k | 0 <= k < |users|
      ensures exists i :: 0 <= i < |selected| && selected[i].0 == users[k]
    {
      assert users[k] in users && users[k] in UsersOf(selected);
      var i :| 0 <= i < |selected| && UsersOf(selected)[i] == users[k];
    }
  }

  lemma AnsweredOwned(query: nat -> Option<Listing>, choice: Choice)
    requires Answered(query, choice.0) && AskedUid(query, choice).Some?
    ensures AskedUid(query, choice).value / PER_USER_RANGE == choice.0
  {
    var listing, uid := query(choice.0).value, AskedUid(query, choice).value;
    var i :| 0 <= i < |listing| && listing[i] == (choice.1, uid);
  }

  /** What is left unresolved is what the package manager does not know, as often as it was chosen. */
  lemma {:induction false} UnknownMeans(lookup: Choice -> Option<nat>, selected: seq<Choice>, c: Choice)
    ensures multiset(Unknown(lookup, selected))[c] == if lookup(c).None? then multiset(selected)[c] else 0
  {
    if selected != [] {
      var n := |selected| - 1;
      UnknownMeans(lookup, selected[..n], c);
      assert selected == selected[..n] + [selected[n]];
    }
  }

  // ---- Both ways agree ----

  lemma SameUid(snapshots: seq<Snapshot>, listings: map<nat, Listing>, query: nat -> Option<Listing>, choice: Choice)
    requires Catalogable(snapshots) && Listed(snapshots, listings)
    requires forall user :: query(user) == if user in listings then Some(listings[user]) else None
    requires AppUid(Catalogued(snapshots), choice).Some?
    ensures AppUid(Catalogued(snapshots), choice) == AskedUid(query, choice)
    ensures exists i :: 0 <= i < |snapshots| && snapshots[i].user == choice.0
  {
    hide Sound, AllApps, Catalogued, SharedModestly;
    var app := FindApp(Catalogued(snapshots), choice.0, choice.1).value;
    InCatalogue(snapshots, app);
    var i := AppOrigin(snapshots, app);
    CatalogueAgrees(snapshots, listings, choice.0, choice.1);
  }

  lemma SamePairs(a: seq<Key>, b: seq<Key>, f: Choice -> Option<nat>, g: Choice -> Option<nat>, selected: seq<Choice>)
    requires Collected(a, f, selected) && Collected(b, g, selected)
    requires forall i :: 0 <= i < |selected| ==> f(selected[i]) == g(selected[i])
    ensures a == b
  {
    forall p
      ensures p in a <==> p in b
    {
      if p in a {
        var i :| 0 <= i < |selected| && selected[i].0 == p.0 && f(selected[i]) == Some(p.1);
        assert g(selected[i]) == Some(p.1);
      }
      if p in b {
        var i :| 0 <= i < |selected| && selected[i].0 == p.0 && g(selected[i]) == Some(p.1);
        assert f(selected[i]) == Some(p.1);
      }
    }
    PairsUnique(a, b);
  }

  /** Both ways of selecting give the same UIDs for packages that exist, in the same order. */
  lemma SelectionsAgree(
    snapshots: seq<Snapshot>, listings: map<nat, Listing>, query: nat -> Option<Listing>, selected: seq<Choice>,
    compiled: seq<Key>, resolved: seq<Key>)
    requires Catalogable(snapshots) && Listed(snapshots, listings)
    requires forall user :: query(user) == if user in listings then Some(listings[user]) else None
    requires forall i :: 0 <= i < |selected| ==> AppUid(Catalogued(snapshots), selected[i]).Some?
    requires Collected(compiled, Catalogue(Catalogued(snapshots)), selected)
    requires Collected(resolved, Manager(query), selected)
    ensures compiled == resolved && Unknown(Manager(query), selected) == []
    ensures forall i :: 0 <= i < |compiled| ==> exists k :: 0 <= k < |snapshots| && snapshots[k].user == compiled[i].0
  {
    var apps := Catalogued(snapshots);
    hide Listed, SharedModestly, AllApps, Catalogued, Unknown, AppUid, AskedUid, Sound;
    forall i | 0 <= i < |selected|
      ensures Catalogue(apps)(selected[i]) == Manager(query)(selected[i])
      ensures Manager(query)(selected[i]).Some?
      ensures exists k :: 0 <= k < |snapshots| && snapshots[k].user == selected[i].0
    {
      SameUid(snapshots, listings, query, selected[i]);
    }
    SamePairs(compiled, resolved, Catalogue(apps), Manager(query), selected);
    NoneUnknown(Manager(query), selected);
    forall i | 0 <= i < |compiled|
      ensures exists k :: 0 <= k < |snapshots| && snapshots[k].user == compiled[i].0
    {
      assert compiled[i] in compiled;
    }
  }

  /**
   * The warnings about shared UIDs agree up to one point: the catalogue is silent about a UID all of whose packages
   * were chosen, and the package manager's answer is not.
   */
  lemma {:induction false} ExpansionsAgree(
    snapshots: seq<Snapshot>, listings: map<nat, Listing>, query: nat -> Option<Listing>, selected: seq<Choice>,
    pairs: seq<Key>, e: Expansion)
    requires Catalogable(snapshots) && Listed(snapshots, listings)
    requires forall user :: query(user) == if user in listings then Some(listings[user]) else None
    requires forall i :: 0 <= i < |pairs| ==> exists k :: 0 <= k < |snapshots| && snapshots[k].user == pairs[i].0
    ensures var apps := Catalogued(snapshots);
      e in Expanded(pairs, Sharing(apps), Partly(apps, selected)) <==>
      && e in Expanded(pairs, ManagerNames(query), Shared(query))
      && exists i :: 0 <= i < |e.packages| && (e.user, e.packages[i]) !in selected
  {
    hide Sound, AllApps, Catalogued, SharedModestly, Members, NamesWith, Expanded;
    var apps := Catalogued(snapshots);
    var key := (e.user, e.uid);
    ExpandedMeans(pairs, Sharing(apps), Partly(apps, selected), e);
    ExpandedMeans(pairs, ManagerNames(query), Shared(query), e);
    if key in pairs {
      var i :| 0 <= i < |pairs| && pairs[i] == key;
      var k :| 0 <= k < |snapshots| && snapshots[k].user == pairs[i].0;
      SamePackages(snapshots, listings, k, e.uid);
    }
  }

  lemma {:induction false} NoneUnknown(lookup: Choice -> Option<nat>, selected: seq<Choice>)
    requires forall i :: 0 <= i < |selected| ==> lookup(selected[i]).Some?
    ensures Unknown(lookup, selected) == []
  {
    if selected != [] {
      NoneUnknown(lookup, selected[..|selected| - 1]);
    }
  }

  /**
   * The policy made from a selection captures exactly the chosen UIDs, or exactly the others.  A whitelist that
   * chose nothing captures every UID.
   */
  lemma SelectionCaptures(
    mode: Mode, uids: seq<nat>, captureMode: CaptureMode, tcp: bool, udp: bool, guard: bool, port: Option<nat>,
    mark: Option<bv32>, uid: nat)
    requires var s := Selected(mode, uids);
      NewWithProtocols(captureMode, tcp, udp, guard, port, mark, s.includeUids, s.excludeUids).Ok?
    ensures var s := Selected(mode, uids);
      var policy := NewWithProtocols(captureMode, tcp, udp, guard, port, mark, s.includeUids, s.excludeUids).value;
      policy.CapturesUid(uid) <==> if mode.Blacklist? then uid !in uids else uids == [] || uid in uids
  {
    var s := Selected(mode, uids);
    var policy := NewWithProtocols(captureMode, tcp, udp, guard, port, mark, s.includeUids, s.excludeUids).value;
    policy.CapturesUidMeaning(uid);
    assert policy.includeUids != [] ==> policy.includeUids[0] in policy.includeUids;
    assert s.includeUids != [] ==> s.includeUids[0] in s.includeUids;
  }
}
