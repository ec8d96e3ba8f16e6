/**
 The approval contract as an object (backend/import_approval/contract.py:2058-2250): it keeps four
 maps, the ledger head and its last clock reading in fields, rebuilds them by replay at the start
 of every operation and updates them in place with every event it persists.
 */
module ApprovalObject {
  import opened Graph
  import opened Approval
  import opened ApprovalRuns
  import L = Ledger

  lemma {:induction false} PrefixReplays(rows: seq<L.Event<Entry>>, n: nat)
    requires n <= |rows| && Replay(rows).Some?
    ensures Replay(rows[..n]).Some?
    decreases |rows|
  {
    if n == |rows| {
      assert rows[..n] == rows;
    } else {
      PrefixReplays(rows[..|rows| - 1], n);
      assert rows[..|rows| - 1][..n] == rows[..n];
    }
  }

  lemma AnchorNamesAll(rows: seq<L.Event<Entry>>)
    ensures L.Names(L.AnchorOf(rows), rows)
  {
    assert rows[..|rows|] == rows;
  }

  /** Appending an accepted snapshot keeps history and memory in step. */
  lemma AppendedHolds(key: string, db: L.Database<Entry>, anchor: L.Anchor<Entry>, m: Memory, h: L.Digest<Entry>, r: Record, at: int)
    requires Holds(key, db, anchor, m, h) && Accepts(m, r, at) && Timely(L.LastAt(db.rows), at)
    ensures var next := L.Appended(key, db, EntryOf(r), at);
            Holds(key, next, L.Anchor(next.state.sequence, next.state.digest), Remember(m, r), next.state.digest)
  {
    ReplayAppended(key, db, m, r, at);
  }

  /** In a ledger that holds a memory the next append meets every check but the clock. */
  lemma HoldsAppendable(key: string, db: L.Database<Entry>, anchor: L.Anchor<Entry>, m: Memory, h: L.Digest<Entry>, at: int)
    requires Holds(key, db, anchor, m, h)
    ensures L.Appendable(key, db.state, h, at) <==> Timely(L.LastAt(db.rows), at)
    ensures anchor.sequence == db.state.sequence && anchor.digest == db.state.digest
  {
  }

  /** The replay loop: every event in order, stopping at the first one that is not accepted. */
  method ReplayRows(rows: seq<L.Event<Entry>>) returns (r: Option<Memory>)
    ensures r == Replay(rows)
  {
    var m, i := EMPTY, 0;
    while i < |rows|
      invariant 0 <= i <= |rows| && Replay(rows[..i]) == Some(m)
    {
      assert rows[..i + 1][..i] == rows[..i];
      var next := ReplayOne(m, rows[i]);
      if next.None? {
        if Replay(rows).Some? { PrefixReplays(rows, i + 1); }
        return None;
      }
      m := next.value;
      i := i + 1;
    }
    assert rows[..i] == rows;
    return Some(m);
  }

  /** A plan whose first record is in the ledger already. */
  lemma LandTail(key: string, db: L.Database<Entry>, m: Memory, rs: seq<Record>, n: nat, at: int)
    requires rs != [] && n < |rs|
    ensures LandAll(key, db, rs[..n + 1], at) == LandAll(key, L.Appended(key, db, EntryOf(rs[0]), at), rs[1..][..n], at)
    ensures AllLand(m, rs, at) ==> Persistable(m, rs[0]) && Accepts(m, rs[0], at) && AllLand(Remember(m, rs[0]), rs[1..], at)
  {
    assert rs[..n + 1][0] == rs[0] && rs[..n + 1][1..] == rs[1..][..n];
  }

  /** How the anchor register behaves towards each of the calls one operation makes. */
  datatype Weather = Weather(load: bool, confirm: bool, reconcile: L.Fate, readable: nat -> bool, fates: nat -> L.Fate)

  ghost predicate Fair(w: Weather) {
    w.load && w.confirm && w.reconcile == L.Answers && forall i: nat :: w.readable(i) && w.fates(i) == L.Answers
  }

  /** The database replays to `m`, its head is `h`, and the anchor is at that head. */
  ghost predicate Holds(key: string, db: L.Database<Entry>, anchor: L.Anchor<Entry>, m: Memory, h: L.Digest<Entry>) {
    HistoryOk(key, db) && Replay(db.rows) == Some(m) && h == L.Head(db.rows) && anchor == L.AnchorOf(db.rows)
  }

  class ApprovalContract {
    const ledger: L.ApprovalLedger<Entry>
    var records: map<RequestId, Record>
    var subjects: map<Subject, RequestId>
    var operations: map<Id, RequestId>
    var fences: map<Id, RequestId>
    var head: L.Digest<Entry>
    var lastClock: Option<int>

    constructor (ledger: L.ApprovalLedger<Entry>)
      ensures this.ledger == ledger && View() == EMPTY && head == L.Zero && lastClock.None?
    {
      this.ledger := ledger;
      records, subjects, operations, fences := map[], map[], map[], map[];
      head, lastClock := L.Zero, None;
    }

    function View(): Memory
      reads this
    {
      Memory(records, subjects, operations, fences)
    }

    ghost function Db(): L.Database<Entry>
      reads ledger.file
    {
      ledger.file.View()
    }

    /** The ledger is healthy and its anchor names a prefix of the chain. */
    ghost predicate Reachable()
      reads ledger, ledger.file, ledger.anchors
    {
      !ledger.poisoned && L.Names(ledger.anchors.current, ledger.file.rows)
    }

    /** The fields hold exactly what replay of the ledger gives, and the anchor is at the head. */
    ghost predicate Synced()
      reads this, ledger, ledger.file, ledger.anchors
    {
      LedgerHolds(View(), head)
    }

    ghost predicate LedgerHolds(m: Memory, h: L.Digest<Entry>)
      reads ledger, ledger.file, ledger.anchors
    {
      !ledger.poisoned && Holds(ledger.key, Db(), ledger.anchors.current, m, h)
    }

    /** Rebuilds the maps from the ledger; a chain that cannot be loaded, replayed and confirmed leaves them as they were. */
    method Reload(w: Weather) returns (ok: bool)
      modifies this, ledger, ledger.anchors
      ensures ok <==> && old(Reachable() && L.Intact(ledger.key, Db()) && Replay(ledger.file.rows).Some?) && w.load && w.confirm
                      && (old(ledger.anchors.current) == L.AnchorOf(ledger.file.rows) || w.reconcile == L.Answers)
      ensures ok ==> Synced() && lastClock == ClockAfterLoad(old(lastClock), L.LastAt(ledger.file.rows))
      ensures !ok ==> View() == old(View()) && head == old(head) && lastClock == old(lastClock)
    {
      var loaded := LoadAndReplay(w.load);
      if loaded.None? {
        return false;
      }
      var rows, m := loaded.value.0, loaded.value.1;
      AnchorNamesAll(rows);
      var confirmed := ledger.ConfirmVerifiedLoad(rows, w.confirm, w.reconcile);
      if confirmed.Refused? {
        return false;
      }
      records, subjects, operations, fences := m.records, m.subjects, m.operations, m.fences;
      head := L.Head(rows);
      lastClock := ClockAfterLoad(lastClock, L.LastAt(rows));
      return true;
    }

    /** Verifies the chain and replays it, without touching the fields. */
    method LoadAndReplay(up: bool) returns (r: Option<(seq<L.Event<Entry>>, Memory)>)
      modifies ledger
      ensures r.Some? <==> old(Reachable()) && L.Intact(ledger.key, Db()) && up && Replay(ledger.file.rows).Some?
      ensures r.Some? ==> r.value.0 == ledger.file.rows && Some(r.value.1) == Replay(ledger.file.rows) && !ledger.poisoned
    {
      var loaded := ledger.Load(up);
      if loaded.Refused? {
        return None;
      }
      var replayed := ReplayRows(loaded.value);
      return if replayed.None? then None else Some((loaded.value, replayed.value));
    }

    method Update(r: Record)
      modifies this`records, this`subjects, this`operations, this`fences
      ensures View() == Remember(old(View()), r)
    {
      records := records[r.request.id := r];
      subjects := subjects[r.request.subject := r.request.id];
      operations := operations[r.request.operationKey := r.request.id];
      if r.state == Rejected {
        fences := fences[r.request.subject.fence := r.request.id];
      }
    }

    /** Writes one snapshot to the ledger; the fields are still those of before. */
    method AppendSnapshot(r: Record, at: int, up: bool, fate: L.Fate, ghost m: Memory) returns (digest: Option<L.Digest<Entry>>)
      requires LedgerHolds(m, head)
      modifies ledger, ledger.file, ledger.anchors
      ensures var committed := Timely(L.LastAt(old(ledger.file.rows)), at) && up;
              && (digest.Some? <==> committed && fate == L.Answers)
              && Db() == (if committed then L.Appended(ledger.key, old(Db()), EntryOf(r), at) else old(Db()))
      ensures digest.Some? && Accepts(m, r, at) ==> LedgerHolds(Remember(m, r), digest.value)
    {
      ghost var db, anchor := Db(), ledger.anchors.current;
      HoldsAppendable(ledger.key, db, anchor, m, head, at);
      var appended := ledger.Append(head, EntryOf(r), at, up, fate);
      if appended.Refused? {
        return None;
      }
      if Accepts(m, r, at) {
        AppendedHolds(ledger.key, db, anchor, m, head, r, at);
      }
      return Some(appended.value);
    }

    /**
     Appends one snapshot to the ledger and then updates the maps.  If the event is committed but
     the anchor's answer fails to come, the maps are not updated: only a later replay knows the event.
     */
    method Persist(r: Record, at: int, up: bool, fate: L.Fate) returns (ok: bool)
      requires Synced()
      modifies this, ledger, ledger.file, ledger.anchors
      ensures var committed := Persistable(old(View()), r) && Timely(L.LastAt(old(ledger.file.rows)), at) && up;
              && (ok <==> committed && fate == L.Answers)
              && Db() == (if committed then L.Appended(ledger.key, old(Db()), EntryOf(r), at) else old(Db()))
      ensures View() == if ok then Remember(old(View()), r) else old(View())
      ensures lastClock == old(lastClock)
      ensures ok && Accepts(old(View()), r, at) ==> Synced()
    {
      if !Persistable(View(), r) {
        return false;
      }
      var appended := AppendSnapshot(r, at, up, fate, View());
      if appended.None? {
        return false;
      }
      head := appended.value;
      Update(r);
      return true;
    }

    /** Persists a plan's records in order, up to the first that fails; `landed` of them are in the ledger. */
    method PersistAll(rs: seq<Record>, at: int, w: Weather, k: nat) returns (ok: bool, landed: nat)
      requires Synced() && AllLand(View(), rs, at) && Timely(L.LastAt(ledger.file.rows), at)
      modifies this, ledger, ledger.file, ledger.anchors
      ensures landed <= |rs| && Db() == LandAll(ledger.key, old(Db()), rs[..landed], at)
      ensures ok ==> landed == |rs| && Synced()
      ensures Fair(w) ==> ok
      ensures lastClock == old(lastClock)
      decreases |rs|
    {
      if rs == [] {
        return true, 0;
      }
      ghost var start, m := Db(), View();
      LandTail(ledger.key, start, m, rs, 0, at);
      ok := Persist(rs[0], at, w.readable(k), w.fates(k));
      if !ok {
        return false, if w.readable(k) then 1 else 0;
      }
      ok, landed := PersistAll(rs[1..], at, w, k + 1);
      LandTail(ledger.key, start, m, rs, landed, at);
      landed := landed + 1;
    }

    /**
     One public operation.  Whatever the register does, the ledger ends as after the operation cut
     short somewhere.  Success means that everything planned is in the ledger, anchored, and in the
     fields; and with a register that answers, an operation that may start gives its planned answer.
     */
    method Perform(c: Call, v: Env, w: Weather) returns (out: Outcome)
      modifies this, ledger, ledger.file, ledger.anchors
      ensures exists landed: nat :: Db() == After(ledger.key, old(Db()), Act(c, v, old(lastClock), landed))
      ensures out.Succeeded? ==> Starts(old(Db()), Act(c, v, old(lastClock), 0)) && Complete(old(Db()), old(lastClock), c, v, out)
      ensures old(Reachable() && L.Intact(ledger.key, Db())) && Starts(old(Db()), Act(c, v, old(lastClock), 0)) && Fair(w) ==>
        Complete(old(Db()), old(lastClock), c, v, out)
    {
      ghost var clock, db := lastClock, Db();
      var ok := Reload(w);
      if !ok || (lastClock.Some? && v.now < lastClock.value) {
        NothingLanded(ledger.key, db, c, v, clock);
        assert Db() == After(ledger.key, db, Act(c, v, clock, 0));
        return Failed;
      }
      var plan := PlanOf(View(), c, v);
      lastClock := Some(plan.at);
      ReplayedMemoryOk(ledger.key, ledger.file.rows);
      PlanLands(View(), L.LastAt(ledger.file.rows), c, v);
      PlanTime(View(), c, v);
      var landed;
      ok, landed := PersistAll(plan.appends, plan.at, w, 0);
      assert Cut(plan.appends, landed) == plan.appends[..landed];
      assert Db() == After(ledger.key, db, Act(c, v, clock, landed));
      return if ok then plan.outcome else Failed;
    }

    /** The operation ran to its end from the given ledger and clock. */
    ghost predicate Complete(db: L.Database<Entry>, clock: Option<int>, c: Call, v: Env, out: Outcome)
      requires Replay(db.rows).Some?
      reads this, ledger, ledger.file, ledger.anchors
    {
      var plan := PlanOf(Replay(db.rows).value, c, v);
      && out == plan.outcome && lastClock == Some(plan.at) && Synced()
      && Db() == After(ledger.key, db, Act(c, v, clock, |plan.appends|))
    }
  }

  lemma NothingLanded(key: string, db: L.Database<Entry>, c: Call, v: Env, clock: Option<int>)
    ensures After(key, db, Act(c, v, clock, 0)) == db
  {
  }
}
