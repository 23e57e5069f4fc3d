/** Concurrent outbox passes: disjoint batches, nothing sent without a publication,
    and a second publication only where an earlier one was never confirmed. */
module BusRelay {
  import opened Connection
  import opened Handlers
  import opened Store
  import opened Outbox
  import opened ShipmentRules
  import opened Bus

  /** A pass holds distinct rows, pending as long as it holds their locks, and has
      confirmed only rows it offered. */
  ghost predicate Sound(rows: seq<Row>, pass: Pass) {
    pass.pos <= |pass.batch| &&
    (forall k :: 0 <= k < |pass.batch| ==> pass.batch[k] < |rows| && (pass.held ==> !rows[pass.batch[k]].sent)) &&
    NoDuplicates(pass.batch) &&
    (forall i :: i in pass.sent ==> i in pass.batch[..pass.pos])
  }

  /** This pass holds its locks. */
  predicate Holding(passes: map<nat, Pass>, p: nat) {
    p in passes && passes[p].held
  }

  ghost predicate Disjoint(passes: map<nat, Pass>) {
    forall p, q, i :: Holding(passes, p) && Holding(passes, q) && p != q && i in passes[p].batch ==>
                        i !in passes[q].batch
  }

  /** Some pass that can still commit has this row confirmed. */
  ghost predicate Confirming(passes: map<nat, Pass>, i: nat) {
    exists p :: Holding(passes, p) && i in passes[p].sent
  }

  /** Each accepted publication of a row is unconfirmed, except the one - at most one -
      that a commit marked or an open pass is about to mark. */
  ghost predicate Accounted(b: Books) {
    |b.accepted| == |b.outbox| && |b.unconfirmed| == |b.outbox| &&
    forall i :: 0 <= i < |b.outbox| ==>
      b.accepted[i] == b.unconfirmed[i] + if b.outbox[i].sent || Confirming(b.passes, i) then 1 else 0
  }

  ghost predicate Relaying(b: Books) {
    (forall p :: p in b.passes ==> Sound(b.outbox, b.passes[p])) && Disjoint(b.passes) && Accounted(b)
  }

  lemma {:induction false} ConfirmedIsOffered(rows: seq<Row>, pass: Pass, i: nat)
    requires Sound(rows, pass) && i in pass.sent
    ensures i in pass.batch && i < |rows| && (pass.held ==> !rows[i].sent)
    ensures pass.pos < |pass.batch| ==> pass.batch[pass.pos] != i
  {
    assert i in pass.batch[..pass.pos];
    var k :| 0 <= k < pass.pos && pass.batch[k] == i;
  }

  lemma {:induction false} BeginKeepsRelaying(cfg: Config, b: Books, p: nat, limit: nat, hidden: set<nat>)
    requires Relaying(b) && CanBook(cfg, b, BeginPass(p, limit, hidden))
    ensures Relaying(Booked(cfg, b, BeginPass(p, limit, hidden)))
  {
    var after := Booked(cfg, b, BeginPass(p, limit, hidden));
    FindsOldestBatch(b.outbox, Locked(b.passes) + hidden, limit, 0);
    forall q, i | Holding(b.passes, q) && i in b.passes[q].batch
      ensures i !in after.passes[p].batch
    {
      assert i in Locked(b.passes);
    }
    forall i | 0 <= i < |b.outbox|
      ensures Confirming(after.passes, i) <==> Confirming(b.passes, i)
    {
      if q :| Holding(b.passes, q) && i in b.passes[q].sent {
        assert Holding(after.passes, q) && i in after.passes[q].sent;
      }
    }
  }

  /** The row a pass offers under its locks is confirmed by nobody yet. */
  lemma {:induction false} NextIsUnconfirmed(b: Books, p: nat)
    requires Relaying(b) && Holding(b.passes, p) && b.passes[p].pos < |b.passes[p].batch|
    ensures !Confirming(b.passes, b.passes[p].batch[b.passes[p].pos])
  {
    var row := b.passes[p].batch[b.passes[p].pos];
    assert Sound(b.outbox, b.passes[p]) && row in b.passes[p].batch;
    forall q | Holding(b.passes, q)
      ensures row !in b.passes[q].sent
    {
      assert Sound(b.outbox, b.passes[q]);
      if row in b.passes[q].sent {
        ConfirmedIsOffered(b.outbox, b.passes[q], row);
      }
    }
  }

  /** Only a confirmation under locks counts towards a commit. */
  lemma {:induction false} OfferConfirms(b: Books, p: nat, outcome: PublishOutcome, i: nat)
    requires Relaying(b) && CanPublish(b, p)
    ensures Confirming(Offered(b, p, outcome).passes, i) <==>
              Confirming(b.passes, i) || (i == NextRow(b, p) && outcome == Accepted && b.passes[p].held)
  {
    var after := Offered(b, p, outcome);
    if q :| Holding(b.passes, q) && i in b.passes[q].sent {
      assert Holding(after.passes, q) && i in after.passes[q].sent;
    }
    if i == NextRow(b, p) && outcome == Accepted && b.passes[p].held {
      assert Holding(after.passes, p) && i in after.passes[p].sent;
    }
  }

  lemma {:induction false} PublishKeepsRelaying(b: Books, p: nat, outcome: PublishOutcome)
    requires Relaying(b) && CanPublish(b, p)
    ensures Relaying(Offered(b, p, outcome))
  {
    var after := Offered(b, p, outcome);
    var pass := b.passes[p];
    var row := pass.batch[pass.pos];
    assert Sound(b.outbox, pass);
    if pass.held {
      NextIsUnconfirmed(b, p);
    }
    assert pass.batch[..pass.pos + 1] == pass.batch[..pass.pos] + [row];
    assert Sound(after.outbox, after.passes[p]);
    forall i | 0 <= i < |b.outbox|
      ensures Confirming(after.passes, i) <==> Confirming(b.passes, i) || (i == row && outcome == Accepted && pass.held)
    {
      OfferConfirms(b, p, outcome, i);
    }
  }

  /** The other passes that hold their locks, and nothing else of them changed. */
  ghost predicate OthersHold(passes: map<nat, Pass>, p: nat, rest: map<nat, Pass>) {
    (forall q :: Holding(rest, q) <==> Holding(passes, q) && q != p) &&
    forall q :: Holding(rest, q) ==> rest[q] == passes[q]
  }

  /** A pass that closes or loses its locks leaves exactly the other confirmations. */
  lemma {:induction false} WithoutPass(b: Books, p: nat, rest: map<nat, Pass>, i: nat)
    requires Relaying(b) && Holding(b.passes, p) && OthersHold(b.passes, p, rest)
    ensures Confirming(b.passes, i) <==> Confirming(rest, i) || i in b.passes[p].sent
    ensures Confirming(rest, i) ==> i !in b.passes[p].sent
  {
    if q :| Holding(b.passes, q) && i in b.passes[q].sent && q != p {
      assert Holding(rest, q) && i in rest[q].sent;
    }
    if q :| Holding(rest, q) && i in rest[q].sent {
      assert Holding(b.passes, q) && Sound(b.outbox, b.passes[q]) && Sound(b.outbox, b.passes[p]);
      ConfirmedIsOffered(b.outbox, b.passes[q], i);
      if i in b.passes[p].sent {
        ConfirmedIsOffered(b.outbox, b.passes[p], i);
      }
    }
  }

  lemma {:induction false} CommitKeepsRelaying(cfg: Config, b: Books, p: nat)
    requires Relaying(b) && CanBook(cfg, b, CommitPass(p))
    ensures Relaying(Booked(cfg, b, CommitPass(p)))
  {
    var after := Booked(cfg, b, CommitPass(p));
    assert Sound(b.outbox, b.passes[p]);
    forall q | q in after.passes
      ensures Sound(after.outbox, after.passes[q])
    {
      assert Sound(b.outbox, b.passes[q]);
      if b.passes[q].held {
        NothingSharedWith(b, p, q);
      }
    }
    forall i | 0 <= i < |b.outbox|
      ensures after.accepted[i] == after.unconfirmed[i] +
              if after.outbox[i].sent || Confirming(after.passes, i) then 1 else 0
    {
      WithoutPass(b, p, after.passes, i);
    }
  }

  lemma {:induction false} NothingSharedWith(b: Books, p: nat, q: nat)
    requires Relaying(b) && Holding(b.passes, p) && Holding(b.passes, q) && p != q
    ensures forall k :: 0 <= k < |b.passes[q].batch| ==> b.passes[q].batch[k] !in b.passes[p].sent
  {
    assert Sound(b.outbox, b.passes[p]);
    forall k | 0 <= k < |b.passes[q].batch|
      ensures b.passes[q].batch[k] !in b.passes[p].sent
    {
      assert b.passes[q].batch[k] in b.passes[q].batch;
      if b.passes[q].batch[k] in b.passes[p].sent {
        ConfirmedIsOffered(b.outbox, b.passes[p], b.passes[q].batch[k]);
      }
    }
  }

  /** Without a commit, what a pass had confirmed goes unconfirmed: row by row, and
      together with the others' confirmations, the account still adds up. */
  lemma {:induction false} GivingUpAccounts(b: Books, p: nat, rest: map<nat, Pass>, i: nat)
    requires Relaying(b) && Holding(b.passes, p) && OthersHold(b.passes, p, rest) && i < |b.outbox|
    ensures b.accepted[i] == BumpAll(b.unconfirmed, b.passes[p].sent)[i] +
            if b.outbox[i].sent || Confirming(rest, i) then 1 else 0
  {
    assert Sound(b.outbox, b.passes[p]);
    WithoutPass(b, p, rest, i);
    if i in b.passes[p].sent {
      ConfirmedIsOffered(b.outbox, b.passes[p], i);
    }
  }

  lemma {:induction false} SameConfirmations(passes: map<nat, Pass>, rest: map<nat, Pass>, i: nat)
    requires forall q :: Holding(rest, q) <==> Holding(passes, q)
    requires forall q :: Holding(rest, q) ==> q in passes && rest[q] == passes[q]
    ensures Confirming(rest, i) <==> Confirming(passes, i)
  {
    if q :| Holding(passes, q) && i in passes[q].sent {
      assert Holding(rest, q) && i in rest[q].sent;
    }
    if q :| Holding(rest, q) && i in rest[q].sent {
      assert Holding(passes, q) && i in passes[q].sent;
    }
  }

  lemma {:induction false} AbortKeepsRelaying(cfg: Config, b: Books, p: nat)
    requires Relaying(b) && CanBook(cfg, b, AbortPass(p))
    ensures Relaying(Booked(cfg, b, AbortPass(p)))
  {
    var rest := Closed(b.passes, p);
    forall i | 0 <= i < |b.outbox|
      ensures b.accepted[i] == Booked(cfg, b, AbortPass(p)).unconfirmed[i] +
              if b.outbox[i].sent || Confirming(rest, i) then 1 else 0
    {
      if b.passes[p].held {
        GivingUpAccounts(b, p, rest, i);
      } else {
        SameConfirmations(b.passes, rest, i);
      }
    }
  }

  lemma {:induction false} LosingKeepsRelaying(cfg: Config, b: Books, p: nat)
    requires Relaying(b) && CanBook(cfg, b, LoseLocks(p))
    ensures Relaying(Booked(cfg, b, LoseLocks(p)))
  {
    var after := Booked(cfg, b, LoseLocks(p));
    assert Sound(b.outbox, b.passes[p]);
    assert Sound(after.outbox, after.passes[p]);
    forall i | 0 <= i < |b.outbox|
      ensures after.accepted[i] == after.unconfirmed[i] +
              if after.outbox[i].sent || Confirming(after.passes, i) then 1 else 0
    {
      GivingUpAccounts(b, p, after.passes, i);
    }
  }

  lemma {:induction false} InsertKeepsRelaying(b: Books, row: Row)
    requires Relaying(b) && !row.sent
    ensures Relaying(Insert(b, row))
  {
    var after := Insert(b, row);
    forall p | p in b.passes
      ensures Sound(after.outbox, b.passes[p]) && |b.outbox| !in b.passes[p].sent
    {
      assert Sound(b.outbox, b.passes[p]);
    }
  }

  lemma {:induction false} BookKeepsRelaying(cfg: Config, b: Books, a: BookAction)
    requires Relaying(b) && CanBook(cfg, b, a)
    ensures Relaying(Booked(cfg, b, a))
  {
    match a
    case CreateDraft(_) =>
    case FinalizeManifest(ship, m, id) =>
      InsertKeepsRelaying(b, ManifestRow(cfg, id, Finalize(b.shipments[ship], m).value.1));
    case ScheduleOther(row) => InsertKeepsRelaying(b, row);
    case BeginPass(p, limit, hidden) => BeginKeepsRelaying(cfg, b, p, limit, hidden);
    case LoseLocks(p) => LosingKeepsRelaying(cfg, b, p);
    case CommitPass(p) => CommitKeepsRelaying(cfg, b, p);
    case AbortPass(p) => AbortKeepsRelaying(cfg, b, p);
  }

  lemma {:induction false} RunKeepsRelaying(cfg: Config, s: State, actions: seq<Action>)
    requires Relaying(s.books) && Possible(cfg, s, actions)
    ensures Relaying(Exec(cfg, s, actions).books)
    decreases actions
  {
    if actions != [] {
      match actions[0] {
        case InBooks(book) => BookKeepsRelaying(cfg, s.books, book);
        case PublishNext(p, outcome) => PublishKeepsRelaying(s.books, p, outcome);
        case AtWork(_) =>
      }
      RunKeepsRelaying(cfg, Apply(cfg, s, actions[0]), actions[1..]);
    }
  }

  /** In every reachable state: passes that hold their locks hold disjoint batches of
      pending rows, a sent row was published, and all publications of a row but one at
      most went unconfirmed. */
  lemma {:induction false} RelaysShareNothing(cfg: Config, actions: seq<Action>)
    requires Possible(cfg, INITIAL, actions)
    ensures var b := Exec(cfg, INITIAL, actions).books;
            Disjoint(b.passes) && |b.accepted| == |b.outbox| && |b.unconfirmed| == |b.outbox| &&
            (forall p, k :: Holding(b.passes, p) && 0 <= k < |b.passes[p].batch| ==>
               b.passes[p].batch[k] < |b.outbox| && !b.outbox[b.passes[p].batch[k]].sent) &&
            (forall i :: 0 <= i < |b.outbox| && b.outbox[i].sent ==> b.accepted[i] >= 1) &&
            (forall i :: 0 <= i < |b.outbox| ==> b.unconfirmed[i] <= b.accepted[i] <= b.unconfirmed[i] + 1)
  {
    RunKeepsRelaying(cfg, INITIAL, actions);
    var b := Exec(cfg, INITIAL, actions).books;
    forall p, k | Holding(b.passes, p) && 0 <= k < |b.passes[p].batch|
      ensures b.passes[p].batch[k] < |b.outbox| && !b.outbox[b.passes[p].batch[k]].sent
    {
      assert Sound(b.outbox, b.passes[p]);
    }
  }

  /** A second publication follows an earlier failure: when a pass that holds its locks
      is about to offer a row, every publication of that row so far went unconfirmed. */
  lemma {:induction false} RepublishedOnlyAfterFailure(cfg: Config, actions: seq<Action>, p: nat)
    requires Possible(cfg, INITIAL, actions)
    requires CanPublish(Exec(cfg, INITIAL, actions).books, p) && Exec(cfg, INITIAL, actions).books.passes[p].held
    ensures var b := Exec(cfg, INITIAL, actions).books;
            |b.accepted| == |b.outbox| && |b.unconfirmed| == |b.outbox| &&
            !b.outbox[NextRow(b, p)].sent && b.accepted[NextRow(b, p)] == b.unconfirmed[NextRow(b, p)]
  {
    RunKeepsRelaying(cfg, INITIAL, actions);
    var b := Exec(cfg, INITIAL, actions).books;
    assert Sound(b.outbox, b.passes[p]);
    NextIsUnconfirmed(b, p);
  }

  /** A publication goes unconfirmed only because its pass did not commit - it died, or
      had lost its locks - or because it raised after the broker had accepted it. */
  lemma {:induction false} UnconfirmedOnlyBy(cfg: Config, s: State, a: Action, i: nat)
    requires Relaying(s.books) && Enabled(cfg, s, a) && i < |s.books.outbox|
    requires Apply(cfg, s, a).books.unconfirmed[i] != s.books.unconfirmed[i]
    ensures (a.InBooks? && (a.book.AbortPass? || a.book.LoseLocks?) &&
             Holding(s.books.passes, a.book.pass) && i in s.books.passes[a.book.pass].sent) ||
            (a.PublishNext? && NextRow(s.books, a.pass) == i &&
             (a.outcome == AcceptedButRaised || (a.outcome == Accepted && !s.books.passes[a.pass].held)))
  {
  }

  /** Committed rows stay: in place, with their content, and once sent, sent; a row
      becomes sent only by the commit of a pass that had it confirmed. */
  lemma {:induction false} RowsOnlyAdvance(cfg: Config, s: State, a: Action, i: nat)
    requires Enabled(cfg, s, a) && i < |s.books.outbox|
    ensures var rows, after := s.books.outbox, Apply(cfg, s, a).books.outbox;
            i < |after| && after[i].(sent := true) == rows[i].(sent := true) &&
            (rows[i].sent ==> after[i].sent) &&
            (after[i].sent != rows[i].sent ==> a.InBooks? && a.book.CommitPass? &&
                                               i in s.books.passes[a.book.pass].sent)
  {
  }

  lemma {:induction false} SentForGood(cfg: Config, s: State, actions: seq<Action>, i: nat)
    requires Possible(cfg, s, actions) && i < |s.books.outbox|
    ensures var rows, after := s.books.outbox, Exec(cfg, s, actions).books.outbox;
            i < |after| && after[i].(sent := true) == rows[i].(sent := true) && (rows[i].sent ==> after[i].sent)
    decreases actions
  {
    if actions != [] {
      RowsOnlyAdvance(cfg, s, actions[0], i);
      SentForGood(cfg, Apply(cfg, s, actions[0]), actions[1..], i);
    }
  }
}
