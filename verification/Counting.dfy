/** The counting loops run on slices and lists; the protocol speaks of sets of keys. For one user the
    two agree, in whatever order the rows and the items arrive. */
module Counting {
  import opened Notebooks
  import opened Protocol

  /** The slice holds exactly the rows of the snapshot, in some order. */
  ghost predicate Enumerates(db: seq<DbNotebook>, user: string, view: map<Key, RowView>) {
    && DistinctNames(db)
    && (forall key :: key in view ==> key.user == user)
    && (forall nb :: nb in db ==> Key(user, nb.name) in view && view[Key(user, nb.name)] == RowView(nb.kind, nb.latest))
    && (forall key :: key in view ==> exists i :: 0 <= i < |db| && db[i].name == key.name)
  }

  /** The list names exactly the objects of the snapshot. */
  ghost predicate Lists(names: map<string, bool>, user: string, listing: map<Key, bool>) {
    && (forall key :: key in listing ==> key.user == user)
    && (forall n :: n in names <==> Key(user, n) in listing)
    && (forall n :: n in names ==> names[n] == listing[Key(user, n)])
  }

  lemma SameCard(names: set<string>, keys: set<Key>, user: string)
    requires forall key :: key in keys ==> key.user == user
    requires forall n :: n in names <==> Key(user, n) in keys
    ensures |names| == |keys|
  {
    assert forall key :: key in keys ==> key == Key(user, key.name) && key.name in names;
    if names != {} {
      var n :| n in names;
      SameCard(names - {n}, keys - {Key(user, n)}, user);
    }
  }

  /** What CountEffectiveRunning and CountSuccessfullyCreated return for a user is what the protocol
      counts. */
  lemma LoopsCountKeys(db: seq<DbNotebook>, names: map<string, bool>, user: string,
                       view: map<Key, RowView>, listing: map<Key, bool>, kind: Kind)
    requires Enumerates(db, user, view) && Lists(names, user, listing)
    ensures |RunningNames(db, names, kind)| == |RunningKeys(view, listing, kind)|
    ensures |CreatedNames(db, names, kind)| == |CreatedKeys(view, listing, kind)|
  {
    forall n
      ensures n in RunningNames(db, names, kind) <==> Key(user, n) in RunningKeys(view, listing, kind)
      ensures n in CreatedNames(db, names, kind) <==> Key(user, n) in CreatedKeys(view, listing, kind)
    {
      NameMatchesKey(db, names, user, view, listing, kind, n);
    }
    SameCard(RunningNames(db, names, kind), RunningKeys(view, listing, kind), user);
    SameCard(CreatedNames(db, names, kind), CreatedKeys(view, listing, kind), user);
  }

  /** A name counts for the slice exactly when the one entry under it does. */
  lemma EntryDecides(db: seq<DbNotebook>, names: map<string, bool>, kind: Kind, i: nat)
    requires DistinctNames(db) && i < |db|
    ensures db[i].name in RunningNames(db, names, kind) <==> RunningEntry(db[i], names, kind)
    ensures db[i].name in CreatedNames(db, names, kind) <==> CreatedEntry(db[i], names, kind)
  {
    assert forall k :: 0 <= k < |db| && db[k].name == db[i].name ==> k == i;
  }

  lemma EntryMatchesKey(db: seq<DbNotebook>, names: map<string, bool>, user: string,
                        view: map<Key, RowView>, listing: map<Key, bool>, kind: Kind, i: nat)
    requires Enumerates(db, user, view) && Lists(names, user, listing) && i < |db|
    ensures Key(user, db[i].name) in view
    ensures RunningEntry(db[i], names, kind) == CountedRunning(view, listing, kind, Key(user, db[i].name))
    ensures CreatedEntry(db[i], names, kind) == CountedCreated(view, listing, kind, Key(user, db[i].name))
  {
    assert db[i] in db;
  }

  lemma UnknownName(db: seq<DbNotebook>, names: map<string, bool>, user: string, view: map<Key, RowView>, kind: Kind, n: string)
    requires Enumerates(db, user, view) && Key(user, n) !in view
    ensures n !in RunningNames(db, names, kind) && n !in CreatedNames(db, names, kind)
  {
    assert forall k :: 0 <= k < |db| ==> db[k] in db && db[k].name != n;
  }

  lemma NameMatchesKey(db: seq<DbNotebook>, names: map<string, bool>, user: string,
                       view: map<Key, RowView>, listing: map<Key, bool>, kind: Kind, n: string)
    requires Enumerates(db, user, view) && Lists(names, user, listing)
    ensures n in RunningNames(db, names, kind) <==> Key(user, n) in RunningKeys(view, listing, kind)
    ensures n in CreatedNames(db, names, kind) <==> Key(user, n) in CreatedKeys(view, listing, kind)
  {
    if Key(user, n) in view {
      var i :| 0 <= i < |db| && db[i].name == n;
      EntryDecides(db, names, kind, i);
      EntryMatchesKey(db, names, user, view, listing, kind, i);
    } else {
      UnknownName(db, names, user, view, kind, n);
    }
  }
}
