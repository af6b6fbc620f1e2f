/**
  Crash-safe schema migrations (server/src/db.ts, migrateDatabase). A schema is any value a
  migration's SQL turns into another one, or fails on. The file keeps what was committed; a crash
  or a rollback loses the open transaction.
 */
module Migrations {
  import opened Wrappers

  datatype Migration<!S> = Migration(version: nat, change: S -> Option<S>)

  /** The committed part of the file; `log` lists the commits in order and is not kept by the source. */
  datatype File<S> = File(markers: set<nat>, schema: S, log: seq<nat>)

  /** What happens to a migration besides its own SQL: it may fail or the process may die. */
  datatype Fate = Completes | Fails | DiesBeforeCommit | DiesAfterCommit

  function Calm(k: nat): Fate { Completes }

  datatype Ending = Finished | Failed(version: nat) | TooNew | ForeignKeyViolation | Died

  /** A foreign-key check that finds nothing. */
  predicate NeverViolated<S>(schema: S) { false }

  // ---------------------------------------------------------------------------
  // One launch

  function Latest<S>(ms: seq<Migration<S>>): nat {
    if ms == [] then 0 else ms[|ms| - 1].version
  }

  predicate IsNewer<S>(file: File<S>, ms: seq<Migration<S>>) {
    exists v :: v in file.markers && v > Latest(ms)
  }

  function Commit<S>(file: File<S>, version: nat, schema: S): File<S> {
    File(file.markers + {version}, schema, file.log + [version])
  }

  /** The loop from the k-th migration on. */
  function Upgrade<S>(file: File<S>, ms: seq<Migration<S>>, k: nat, fates: nat -> Fate): (File<S>, Ending)
    decreases |ms| - k
  {
    if k >= |ms| then (file, Finished)
    else if ms[k].version in file.markers then Upgrade(file, ms, k + 1, fates)
    else
      var changed := ms[k].change(file.schema);
      if fates(k) == DiesBeforeCommit then (file, Died)
      else if fates(k) == Fails || changed.None? then (file, Failed(ms[k].version))
      else
        var next := Commit(file, ms[k].version, changed.value);
        if fates(k) == DiesAfterCommit then (next, Died) else Upgrade(next, ms, k + 1, fates)
  }

  /** One launch; `violates` is what the foreign-key check says of the file. */
  function Launch<S>(file: File<S>, ms: seq<Migration<S>>, fates: nat -> Fate, violates: S -> bool): (File<S>, Ending) {
    if IsNewer(file, ms) then (file, TooNew)
    else
      var r := Upgrade(file, ms, 0, fates);
      if r.1 == Finished && violates(r.0.schema) then (r.0, ForeignKeyViolation) else r
  }

  // ---------------------------------------------------------------------------
  // What is to be shown

  /** Versions are positive and increase. */
  predicate IsLadder<S>(ms: seq<Migration<S>>) {
    && (forall i :: 0 <= i < |ms| ==> ms[i].version > 0)
    && (forall i, j :: 0 <= i < j < |ms| ==> ms[i].version < ms[j].version)
  }

  function Versions<S>(ms: seq<Migration<S>>): (v: seq<nat>)
    ensures |v| == |ms| && forall i :: 0 <= i < |v| ==> v[i] == ms[i].version
  {
    seq(|ms|, i requires 0 <= i < |ms| => ms[i].version)
  }

  /** All of a list's changes in order. */
  function Fold<S>(ms: seq<Migration<S>>, empty: S): Option<S> {
    if ms == [] then Some(empty)
    else
      var before := Fold(ms[..|ms| - 1], empty);
      if before.None? then None else ms[|ms| - 1].change(before.value)
  }

  /** The file holds exactly the first `n` migrations, each committed once and in order. */
  ghost predicate Holds<S>(file: File<S>, ms: seq<Migration<S>>, n: nat, empty: S) {
    && n <= |ms|
    && file.log == Versions(ms[..n])
    && (forall v :: v in file.markers <==> v in file.log)
    && Fold(ms[..n], empty) == Some(file.schema)
  }

  ghost predicate Sound<S>(file: File<S>, ms: seq<Migration<S>>, empty: S) {
    exists n :: Holds(file, ms, n, empty)
  }

  lemma MarkerExactly<S>(file: File<S>, ms: seq<Migration<S>>, n: nat, empty: S, k: nat)
    requires IsLadder(ms) && Holds(file, ms, n, empty) && k < |ms|
    ensures ms[k].version in file.markers <==> k < n
  {
    var log := Versions(ms[..n]);
    if k < n { assert log[k] == ms[k].version; }
    if ms[k].version in log {
      var i :| 0 <= i < |log| && log[i] == ms[k].version;
      assert ms[i].version == ms[k].version;
    }
  }

  lemma CommitHolds<S>(file: File<S>, ms: seq<Migration<S>>, n: nat, empty: S, schema: S)
    requires Holds(file, ms, n, empty) && n < |ms| && ms[n].change(file.schema) == Some(schema)
    ensures Holds(Commit(file, ms[n].version, schema), ms, n + 1, empty)
  {
    assert ms[..n + 1][..n] == ms[..n];
    assert Versions(ms[..n + 1]) == Versions(ms[..n]) + [ms[n].version];
  }

  /** The loop moves the file along the list, and gets to the end exactly when it says so. */
  lemma {:induction false} UpgradeHolds<S>(file: File<S>, ms: seq<Migration<S>>, n: nat, empty: S, k: nat,
                                           fates: nat -> Fate)
    returns (m: nat)
    requires IsLadder(ms) && Holds(file, ms, n, empty) && k <= n
    ensures n <= m && Holds(Upgrade(file, ms, k, fates).0, ms, m, empty)
    ensures Upgrade(file, ms, k, fates).1 == Finished ==> m == |ms|
    decreases |ms| - k
  {
    if k == |ms| { return n; }
    MarkerExactly(file, ms, n, empty, k);
    if k < n {
      m := UpgradeHolds(file, ms, n, empty, k + 1, fates);
    } else {
      m := StepHolds(file, ms, n, empty, fates);
    }
  }

  lemma {:induction false} StepHolds<S>(file: File<S>, ms: seq<Migration<S>>, n: nat, empty: S, fates: nat -> Fate)
    returns (m: nat)
    requires IsLadder(ms) && Holds(file, ms, n, empty) && n < |ms| && ms[n].version !in file.markers
    ensures n <= m && Holds(Upgrade(file, ms, n, fates).0, ms, m, empty)
    ensures Upgrade(file, ms, n, fates).1 == Finished ==> m == |ms|
    decreases |ms| - n, 0
  {
    var changed := ms[n].change(file.schema);
    m := n;
    if fates(n) != DiesBeforeCommit && fates(n) != Fails && changed.Some? {
      var next := Commit(file, ms[n].version, changed.value);
      CommitHolds(file, ms, n, empty, changed.value);
      m := n + 1;
      if fates(n) == Completes { m := UpgradeHolds(next, ms, n + 1, empty, n + 1, fates); }
    }
  }

  // ---------------------------------------------------------------------------
  // Any sequence of launches

  /** One start of a release that knows the first `known` migrations. */
  datatype Start<!S> = Start(known: nat, fates: nat -> Fate, violates: S -> bool)

  function Known<S>(master: seq<Migration<S>>, start: Start<S>): seq<Migration<S>> {
    if start.known < |master| then master[..start.known] else master
  }

  function Run<S>(file: File<S>, master: seq<Migration<S>>, starts: seq<Start<S>>): File<S>
    decreases |starts|
  {
    if starts == [] then file
    else Run(Launch(file, Known(master, starts[0]), starts[0].fates, starts[0].violates).0, master, starts[1..])
  }

  function New<S>(empty: S): File<S> { File({}, empty, []) }

  /** A release refuses exactly the files that hold more than it knows. */
  lemma NewerExactly<S>(file: File<S>, master: seq<Migration<S>>, n: nat, empty: S, known: nat)
    requires IsLadder(master) && Holds(file, master, n, empty) && known <= |master|
    ensures IsNewer(file, master[..known]) <==> n > known
  {
    if n > known {
      MarkerExactly(file, master, n, empty, n - 1);
    }
    if IsNewer(file, master[..known]) {
      var v :| v in file.markers && v > Latest(master[..known]);
      var log := Versions(master[..n]);
      var i :| 0 <= i < |log| && log[i] == v;
      assert master[i].version == v;
    }
  }

  lemma HoldsPrefix<S>(file: File<S>, master: seq<Migration<S>>, n: nat, empty: S, known: nat)
    requires n <= known <= |master|
    ensures Holds(file, master, n, empty) <==> Holds(file, master[..known], n, empty)
  {
    assert master[..known][..n] == master[..n];
  }

  lemma LaunchHolds<S>(file: File<S>, master: seq<Migration<S>>, n: nat, empty: S, start: Start<S>) returns (m: nat)
    requires IsLadder(master) && Holds(file, master, n, empty)
    ensures var r := Launch(file, Known(master, start), start.fates, start.violates);
            && n <= m && Holds(r.0, master, m, empty)
            && (r.1 == Finished || r.1 == ForeignKeyViolation ==> m == |Known(master, start)|)
            && (r.1 == TooNew <==> n > |Known(master, start)|)
            && (r.1 == TooNew ==> r.0 == file)
  {
    var ms := Known(master, start);
    assert master[..|ms|] == ms;
    NewerExactly(file, master, n, empty, |ms|);
    if n > |ms| {
      m := n;
    } else {
      HoldsPrefix(file, master, n, empty, |ms|);
      m := UpgradeHolds(file, ms, n, empty, 0, start.fates);
      HoldsPrefix(Upgrade(file, ms, 0, start.fates).0, master, m, empty, |ms|);
      NeverTooNew(file, ms, 0, start.fates);
    }
  }

  lemma {:induction false} NeverTooNew<S>(file: File<S>, ms: seq<Migration<S>>, k: nat, fates: nat -> Fate)
    ensures var e := Upgrade(file, ms, k, fates).1; e != TooNew && e != ForeignKeyViolation
    decreases |ms| - k
  {
    if k < |ms| {
      NeverTooNew(file, ms, k + 1, fates);
      var changed := ms[k].change(file.schema);
      if changed.Some? { NeverTooNew(Commit(file, ms[k].version, changed.value), ms, k + 1, fates); }
    }
  }

  lemma {:induction false} RunHolds<S>(file: File<S>, master: seq<Migration<S>>, n: nat, empty: S,
                                       starts: seq<Start<S>>)
    returns (m: nat)
    requires IsLadder(master) && Holds(file, master, n, empty)
    ensures n <= m && Holds(Run(file, master, starts), master, m, empty)
    decreases |starts|
  {
    m := n;
    if starts != [] {
      m := LaunchHolds(file, master, n, empty, starts[0]);
      var next := Launch(file, Known(master, starts[0]), starts[0].fates, starts[0].violates).0;
      m := RunHolds(next, master, m, empty, starts[1..]);
    }
  }

  lemma NewHolds<S>(master: seq<Migration<S>>, empty: S)
    ensures Holds(New(empty), master, 0, empty)
  {
    assert master[..0] == [];
  }

  /**
    However the launches of however many releases fail or die, the recorded versions are a prefix
    of the list, each committed once, and the schema is the fold of exactly that prefix.
   */
  lemma AlwaysAPrefix<S>(master: seq<Migration<S>>, empty: S, starts: seq<Start<S>>)
    requires IsLadder(master)
    ensures Sound(Run(New(empty), master, starts), master, empty)
  {
    NewHolds(master, empty);
    var m := RunHolds(New(empty), master, 0, empty, starts);
  }

  lemma CommittedOnce<S>(master: seq<Migration<S>>, empty: S, starts: seq<Start<S>>, i: nat, j: nat)
    requires IsLadder(master) && i < j < |Run(New(empty), master, starts).log|
    ensures Run(New(empty), master, starts).log[i] < Run(New(empty), master, starts).log[j]
  {
    NewHolds(master, empty);
    var m := RunHolds(New(empty), master, 0, empty, starts);
    var log := Versions(master[..m]);
    assert log[i] == master[i].version && log[j] == master[j].version;
  }

  lemma SameFile<S>(a: File<S>, b: File<S>, ms: seq<Migration<S>>, n: nat, empty: S)
    requires Holds(a, ms, n, empty) && Holds(b, ms, n, empty)
    ensures a == b
  {
    assert a.markers == b.markers;
  }

  /** A launch that finishes leaves the schema one uninterrupted upgrade would have made. */
  lemma FinishingGivesTheFold<S>(master: seq<Migration<S>>, empty: S, starts: seq<Start<S>>, last: Start<S>)
    requires IsLadder(master)
    requires Launch(Run(New(empty), master, starts), Known(master, last), last.fates, last.violates).1 == Finished
    ensures var file := Launch(Run(New(empty), master, starts), Known(master, last), last.fates, last.violates).0;
            && Fold(Known(master, last), empty) == Some(file.schema)
            && Upgrade(New(empty), Known(master, last), 0, Calm) == (file, Finished)
  {
    NewHolds(master, empty);
    var ms := Known(master, last);
    var n := RunHolds(New(empty), master, 0, empty, starts);
    var m := LaunchHolds(Run(New(empty), master, starts), master, n, empty, last);
    assert master[..|ms|] == ms;
    NewHolds(ms, empty);
    Undisturbed(New(empty), ms, 0, empty, 0);
    var file := Launch(Run(New(empty), master, starts), ms, last.fates, last.violates).0;
    HoldsPrefix(file, master, m, empty, |ms|);
    SameFile(file, Upgrade(New(empty), ms, 0, Calm).0, ms, |ms|, empty);
  }

  lemma {:induction false} FoldOfPrefix<S>(ms: seq<Migration<S>>, empty: S, n: nat)
    requires n <= |ms| && Fold(ms, empty).Some?
    ensures Fold(ms[..n], empty).Some?
  {
    if n < |ms| {
      FoldOfPrefix(ms[..|ms| - 1], empty, n);
      assert ms[..|ms| - 1][..n] == ms[..n];
    } else {
      assert ms[..n] == ms;
    }
  }

  /** Left alone, the loop finishes exactly when the whole list applies, and with its fold. */
  lemma {:induction false} Undisturbed<S>(file: File<S>, ms: seq<Migration<S>>, n: nat, empty: S, k: nat)
    requires IsLadder(ms) && Holds(file, ms, n, empty) && k <= n
    ensures var r := Upgrade(file, ms, k, Calm);
            && (r.1 == Finished <==> Fold(ms, empty).Some?)
            && (r.1 == Finished ==> Holds(r.0, ms, |ms|, empty))
    decreases |ms| - k
  {
    assert ms[..|ms|] == ms;
    if k < |ms| {
      MarkerExactly(file, ms, n, empty, k);
      if k < n {
        Undisturbed(file, ms, n, empty, k + 1);
      } else {
        var changed := ms[n].change(file.schema);
        assert ms[..n + 1][..n] == ms[..n];
        if changed.Some? {
          CommitHolds(file, ms, n, empty, changed.value);
          Undisturbed(Commit(file, ms[n].version, changed.value), ms, n + 1, empty, n + 1);
        } else if Fold(ms, empty).Some? {
          FoldOfPrefix(ms, empty, n + 1);
        }
      }
    }
  }

  /** So after any history a release left alone recovers exactly when its list applies at all. */
  lemma RecoversExactly<S>(master: seq<Migration<S>>, empty: S, starts: seq<Start<S>>, n: nat)
    requires IsLadder(master) && Holds(Run(New(empty), master, starts), master, n, empty)
    ensures var r := Launch(Run(New(empty), master, starts), master, Calm, NeverViolated);
            r.1 == Finished <==> Fold(master, empty).Some?
  {
    var file := Run(New(empty), master, starts);
    assert master[..|master|] == master;
    NewerExactly(file, master, n, empty, |master|);
    Undisturbed(file, master, n, empty, 0);
  }

  // ---------------------------------------------------------------------------
  // The function over the database it updates

  class Database<S> {
    /** Committed. */
    var markers: set<nat>
    var schema: S
    ghost var log: seq<nat>
    /** The open transaction, if any. */
    var work: Option<(S, set<nat>)>

    ghost function Committed(): File<S>
      reads this
    {
      File(markers, schema, log)
    }

    constructor (empty: S)
      ensures Committed() == New(empty) && work == None
    {
      markers, schema, log, work := {}, empty, [], None;
    }

    method Begin()
      requires work == None
      modifies `work
      ensures work == Some((schema, markers))
    {
      work := Some((schema, markers));
    }

    method Rollback()
      modifies `work
      ensures work == None
    {
      work := None;
    }

    /** The migration's SQL and its marker, inside the transaction. */
    method Apply(m: Migration<S>, fails: bool) returns (ok: bool)
      requires work.Some?
      modifies `work
      ensures ok <==> !fails && m.change(old(work).value.0).Some?
      ensures ok ==> work == Some((m.change(old(work).value.0).value, old(work).value.1 + {m.version}))
    {
      var changed := m.change(work.value.0);
      ok := !fails && changed.Some?;
      if ok { work := Some((changed.value, work.value.1 + {m.version})); }
    }

    method CommitWork(version: nat)
      requires work.Some?
      modifies this
      ensures schema == old(work).value.0 && markers == old(work).value.1
      ensures log == old(log) + [version] && work == None
    {
      schema, markers := work.value.0, work.value.1;
      log := log + [version];
      work := None;
    }

    /** migrateDatabase; a death leaves no transaction behind. */
    method Migrate(ms: seq<Migration<S>>, fates: nat -> Fate, violates: S -> bool) returns (ending: Ending)
      requires work == None
      modifies this
      ensures work == None
      ensures (Committed(), ending) == Launch(old(Committed()), ms, fates, violates)
    {
      var applied := markers;
      if exists v :: v in applied && v > Latest(ms) { return TooNew; }
      var k := 0;
      while k < |ms|
        invariant 0 <= k <= |ms| && work == None && applied == markers
        invariant Upgrade(Committed(), ms, k, fates) == Upgrade(old(Committed()), ms, 0, fates)
      {
        var version := ms[k].version;
        if version !in applied {
          Begin();
          var ok := Apply(ms[k], fates(k) == Fails);
          if fates(k) == DiesBeforeCommit { Rollback(); return Died; }
          if !ok { Rollback(); return Failed(version); }
          CommitWork(version);
          if fates(k) == DiesAfterCommit { return Died; }
          applied := applied + {version};
        }
        k := k + 1;
      }
      ending := if violates(schema) then ForeignKeyViolation else Finished;
    }
  }
}
