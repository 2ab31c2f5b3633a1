/** The two ownership stores side by side. */
module OwnershipReplay {
  import opened Wrappers
  import opened Ownership
  import opened OwnershipStore
  import FileOwnershipStore
  import PostgresOwnershipStore

  lemma {:induction false} RunExtends(h: History, rs: seq<Request>, r: Request)
    ensures OwnershipStore.Run(h, rs + [r]) == Apply(OwnershipStore.Run(h, rs), r).history
    decreases rs
  {
    if rs == [] {
      assert rs + [r] == [r];
    } else {
      assert (rs + [r])[0] == rs[0] && (rs + [r])[1..] == rs[1..] + [r];
      RunExtends(Apply(h, rs[0]).history, rs[1..], r);
    }
  }

  /** One request to both. */
  method Both(file: FileOwnershipStore.Store, postgres: PostgresOwnershipStore.Store, r: Request)
    returns (fromFile: Result<Record, Error>, fromPostgres: Result<Record, Error>)
    requires file.Valid() && postgres.Valid() && file.history == postgres.history
    modifies file, postgres
    ensures file.Valid() && postgres.Valid() && fromFile == fromPostgres
    ensures Outcome(file.history, fromFile) == Apply(old(file.history), r) == Outcome(postgres.history, fromPostgres)
  {
    fromFile := file.Transition(r.input, r.now);
    fromPostgres := postgres.Transition(r.input, r.now);
    SameOutcome(file.history, fromFile, postgres.history, fromPostgres);
  }

  lemma SameOutcome(h: History, r: Result<Record, Error>, h': History, r': Result<Record, Error>)
    requires Outcome(h, r) == Outcome(h', r')
    ensures h == h' && r == r'
  {
  }

  /** The history after the first `n` requests. */
  ghost function After(h: History, rs: seq<Request>, n: nat): History
    requires n <= |rs|
  {
    OwnershipStore.Run(h, rs[..n])
  }

  lemma NextRequest(h: History, rs: seq<Request>, n: nat)
    requires n < |rs|
    ensures After(h, rs, n + 1) == Apply(After(h, rs, n), rs[n]).history
  {
    assert rs[..n + 1] == rs[..n] + [rs[n]];
    RunExtends(h, rs[..n], rs[n]);
  }

  /**
   * Given the same requests at the same clock readings, duplicates, stale versions and unknown
   * commands among them, the two stores give the same answers, one for one, and the same owners later.
   */
  method Replay(file: FileOwnershipStore.Store, postgres: PostgresOwnershipStore.Store, rs: seq<Request>)
    returns (fromFile: seq<Result<Record, Error>>, fromPostgres: seq<Result<Record, Error>>)
    requires file.Valid() && postgres.Valid() && file.history == postgres.history
    modifies file, postgres
    ensures file.Valid() && postgres.Valid() && |fromFile| == |rs| && fromFile == fromPostgres
    ensures file.history == postgres.history == OwnershipStore.Run(old(postgres.history), rs)
  {
    ghost var start := postgres.history;
    fromFile, fromPostgres := [], [];
    for i := 0 to |rs|
      invariant file.Valid() && postgres.Valid()
      invariant |fromFile| == i && fromFile == fromPostgres
      invariant file.history == postgres.history == After(start, rs, i)
    {
      NextRequest(start, rs, i);
      var f, p := Both(file, postgres, rs[i]);
      fromFile, fromPostgres := fromFile + [f], fromPostgres + [p];
    }
    assert rs[..|rs|] == rs;
  }
}
