/**
 Append-only approval ledger with an external anchor (backend/import_approval/ledger.py).

 Digests and seals are free constructors over what they cover.  A write transaction of the
 database is one atomic step.  `B` is whatever an event records besides its place and time.
 */
module Ledger {
  import opened Graph

  datatype Digest<B> = Zero | Link(sequence: int, at: int, body: B, previous: Digest<B>) | Foreign(text: string)

  datatype Seal<B> =
    | EventSeal(key: string, sequence: int, digest: Digest<B>)
    | StateSeal(key: string, sequence: int, digest: Digest<B>, at: Option<int>)
    | Forged(text: string)

  datatype Event<B> = Event(sequence: int, at: int, body: B, previous: Digest<B>, digest: Digest<B>, seal: Seal<B>)
  datatype StateRow<B> = StateRow(sequence: int, digest: Digest<B>, at: Option<int>, seal: Seal<B>)
  datatype Database<B> = Database(rows: seq<Event<B>>, state: StateRow<B>)
  datatype Anchor<B> = Anchor(sequence: nat, digest: Digest<B>)

  datatype LedgerFault = Poisoned | Integrity | Stale
  datatype LedgerResult<+T> = Done(value: T) | Refused(fault: LedgerFault)

  // ---------- Chains ----------

  function Head<B>(rows: seq<Event<B>>): Digest<B> { if rows == [] then Zero else rows[|rows| - 1].digest }

  function LastAt<B>(rows: seq<Event<B>>): Option<int> { if rows == [] then None else Some(rows[|rows| - 1].at) }

  function AnchorOf<B>(rows: seq<Event<B>>): Anchor<B> { Anchor(|rows|, Head(rows)) }

  function StateOf<B>(key: string, rows: seq<Event<B>>): StateRow<B> {
    StateRow(|rows|, Head(rows), LastAt(rows), StateSeal(key, |rows|, Head(rows), LastAt(rows)))
  }

  /** The row is sealed and follows a chain that ends in `previous` at `lastAt`. */
  predicate Extends<B(==)>(key: string, n: nat, previous: Digest<B>, lastAt: Option<int>, e: Event<B>) {
    && e.sequence == n + 1 && e.previous == previous
    && (lastAt.Some? ==> lastAt.value <= e.at)
    && e.digest == Link(e.sequence, e.at, e.body, e.previous)
    && e.seal == EventSeal(key, e.sequence, e.digest)
  }

  /** Row `i` extends the rows before it. */
  ghost predicate Linked<B>(key: string, rows: seq<Event<B>>, i: nat) {
    i < |rows| && Extends(key, i, Head(rows[..i]), LastAt(rows[..i]), rows[i])
  }

  ghost predicate Chain<B>(key: string, rows: seq<Event<B>>) {
    forall i: nat :: i < |rows| ==> Linked(key, rows, i)
  }

  /** An exact sealed chain with its sealed head row. */
  ghost predicate Intact<B>(key: string, db: Database<B>) {
    Chain(key, db.rows) && db.state == StateOf(key, db.rows)
  }

  /** The anchor names the head of one exact prefix of the chain. */
  predicate Names<B(==)>(anchor: Anchor<B>, rows: seq<Event<B>>) {
    anchor.sequence <= |rows| && anchor == AnchorOf(rows[..anchor.sequence])
  }

  /** The event that follows a state row. */
  function NewEvent<B>(key: string, row: StateRow<B>, body: B, at: int): Event<B> {
    var digest := Link(row.sequence + 1, at, body, row.digest);
    Event(row.sequence + 1, at, body, row.digest, digest, EventSeal(key, row.sequence + 1, digest))
  }

  function Appended<B>(key: string, db: Database<B>, body: B, at: int): Database<B> {
    var e := NewEvent(key, db.state, body, at);
    Database(db.rows + [e], StateRow(e.sequence, e.digest, Some(at), StateSeal(key, e.sequence, e.digest, Some(at))))
  }

  lemma AppendedIntact<B>(key: string, db: Database<B>, body: B, at: int)
    requires Intact(key, db) && (db.state.at.Some? ==> db.state.at.value <= at)
    ensures Intact(key, Appended(key, db, body, at))
  {
    var rows, longer := db.rows, Appended(key, db, body, at).rows;
    forall i: nat | i < |longer| ensures Linked(key, longer, i) {
      assert longer[..i] == rows[..i];
      if i < |rows| { assert Linked(key, rows, i); } else { assert rows[..i] == rows; }
    }
  }

  /** The row at `i`, spelled out: numbered from one, sealed, over the digest of the row before it and not older than it. */
  ghost predicate RowFits<B>(key: string, rows: seq<Event<B>>, i: nat)
    requires i < |rows|
  {
    var e := rows[i];
    && e.sequence == i + 1
    && e.previous == (if i == 0 then Zero else rows[i - 1].digest)
    && (i > 0 ==> rows[i - 1].at <= e.at)
    && e.digest == Link(i + 1, e.at, e.body, e.previous) && e.seal == EventSeal(key, i + 1, e.digest)
  }

  /** What a sealed chain is, row by row; events are in the order of their times. */
  lemma ChainExactly<B>(key: string, rows: seq<Event<B>>)
    ensures Chain(key, rows) <==> forall i: nat :: i < |rows| ==> RowFits(key, rows, i)
    ensures Chain(key, rows) ==> forall i, j :: 0 <= i <= j < |rows| ==> rows[i].at <= rows[j].at
  {
    forall i: nat | i < |rows| ensures Linked(key, rows, i) <==> RowFits(key, rows, i) {
      if i > 0 { assert rows[..i][i - 1] == rows[i - 1]; }
    }
    if Chain(key, rows) {
      forall i, j | 0 <= i <= j < |rows| ensures rows[i].at <= rows[j].at { TimesOrdered(key, rows, i, j); }
    }
  }

  lemma {:induction false} TimesOrdered<B>(key: string, rows: seq<Event<B>>, i: nat, j: nat)
    requires i <= j < |rows| && forall k: nat :: k < |rows| ==> RowFits(key, rows, k)
    ensures rows[i].at <= rows[j].at
    decreases j - i
  {
    if i < j {
      assert RowFits(key, rows, j);
      TimesOrdered(key, rows, i, j - 1);
    }
  }

  lemma ChainPrefix<B>(key: string, rows: seq<Event<B>>, n: nat)
    requires Chain(key, rows) && n <= |rows|
    ensures Chain(key, rows[..n])
  {
    forall i: nat | i < n ensures Linked(key, rows[..n], i) {
      assert rows[..n][..i] == rows[..i] && rows[..n][i] == rows[i] && Linked(key, rows, i);
    }
  }

  lemma HeadIsZero<B>(key: string, rows: seq<Event<B>>)
    requires Chain(key, rows)
    ensures Head(rows) == Zero <==> rows == []
  {
    if rows != [] {
      var n := |rows| - 1;
      assert Linked(key, rows, n);
    }
  }

  /** A head digest determines the whole chain that leads to it. */
  lemma {:induction false} HeadDeterminesChain<B>(key: string, r: seq<Event<B>>, s: seq<Event<B>>)
    requires Chain(key, r) && Chain(key, s) && Head(r) == Head(s)
    ensures r == s
    decreases |r|
  {
    if r != [] && s != [] {
      var m, n := |r| - 1, |s| - 1;
      assert Linked(key, r, m) && Linked(key, s, n);
      ChainPrefix(key, r, m);
      ChainPrefix(key, s, n);
      HeadDeterminesChain(key, r[..m], s[..n]);
      assert r[m] == s[n];
      assert r == r[..m] + [r[m]] && s == s[..n] + [s[n]];
    } else {
      HeadIsZero(key, r);
      HeadIsZero(key, s);
    }
  }

  /**
   Whatever sealed database is put in place of the true one, a load that accepts it against
   the same anchor sees the anchored events unchanged: anchored history cannot be rewritten.
   */
  lemma AnchoredHistoryCannotBeRewritten<B>(key: string, rows: seq<Event<B>>, other: seq<Event<B>>, anchor: Anchor<B>)
    requires Chain(key, rows) && Chain(key, other) && Names(anchor, rows)
    ensures Names(anchor, other) <==> anchor.sequence <= |other| && other[..anchor.sequence] == rows[..anchor.sequence]
    ensures |other| < anchor.sequence ==> !Names(anchor, other)
  {
    if Names(anchor, other) {
      ChainPrefix(key, rows, anchor.sequence);
      ChainPrefix(key, other, anchor.sequence);
      HeadDeterminesChain(key, rows[..anchor.sequence], other[..anchor.sequence]);
    }
  }

  /** What an append checks of the sealed state row, its caller's head and the clock. */
  predicate Appendable<B(==)>(key: string, row: StateRow<B>, expected: Digest<B>, at: int) {
    && row.sequence >= 0 && row.seal == StateSeal(key, row.sequence, row.digest, row.at)
    && row.digest == expected && (row.at.Some? ==> row.at.value <= at)
  }

  // ---------- The ledger as an object ----------

  /** Shared storage: the database file. */
  class File<B(==)> {
    var rows: seq<Event<B>>
    var state: StateRow<B>

    ghost function View(): Database<B>
      reads this
    {
      Database(rows, state)
    }

    constructor (key: string)
      ensures View() == Database([], StateOf(key, []))
    {
      rows, state := [], StateOf(key, []);
    }
  }

  /**
   What becomes of one compare-and-swap: the register is not reached or refuses by raising; it
   acts but its reply is lost; or it acts and answers with the anchor it then holds.
   */
  datatype Fate = Unreachable | Silent | Answers

  /** The anchor a compare-and-swap leaves. */
  function Swapped<B(==)>(fate: Fate, current: Anchor<B>, expected: Anchor<B>, replacement: Anchor<B>): Anchor<B> {
    if fate == Unreachable || current != expected then current else replacement
  }

  /** Shared storage: the compare-and-swap register.  Whether it can be reached is an input of each call. */
  class AnchorStore<B(==)> {
    var current: Anchor<B>

    constructor ()
      ensures current == Anchor(0, Zero)
    {
      current := Anchor(0, Zero);
    }

    method Read(up: bool) returns (r: Option<Anchor<B>>)
      ensures r == if up then Some(current) else None
    {
      return if up then Some(current) else None;
    }

    method CompareAndSwap(expected: Anchor<B>, replacement: Anchor<B>, fate: Fate) returns (answer: Option<Anchor<B>>)
      modifies this
      ensures current == Swapped(fate, old(current), expected, replacement)
      ensures answer == if fate == Answers then Some(current) else None
    {
      if fate != Unreachable && current == expected {
        current := replacement;
      }
      return if fate == Answers then Some(current) else None;
    }
  }

  class ApprovalLedger<B(==)> {
    const key: string
    const file: File<B>
    const anchors: AnchorStore<B>
    var poisoned: bool

    constructor (key: string, file: File<B>, anchors: AnchorStore<B>)
      ensures this.key == key && this.file == file && this.anchors == anchors && !poisoned
    {
      this.key, this.file, this.anchors, poisoned := key, file, anchors, false;
    }

    predicate StateMatches(n: nat, digest: Digest<B>, at: Option<int>)
      reads file
    {
      file.state == StateRow(n, digest, at, StateSeal(key, n, digest, at))
    }

    /** The anchor equals the head of `rows` or of a prefix; anything else poisons the ledger. */
    method RequireRecoverableAnchor(rows: seq<Event<B>>, up: bool) returns (r: LedgerResult<Anchor<B>>)
      modifies this`poisoned
      ensures r.Done? <==> up && Names(anchors.current, rows)
      ensures r.Done? ==> r.value == anchors.current && poisoned == old(poisoned)
      ensures r.Refused? ==> r.fault == Integrity && poisoned
    {
      assert rows[..|rows|] == rows;
      var current := anchors.Read(up);
      if current.None? {
        poisoned := true;
        return Refused(Integrity);
      }
      if current.value == AnchorOf(rows) {
        return Done(current.value);
      }
      if current.value.sequence > |rows| || current.value.digest != Head(rows[..current.value.sequence]) {
        poisoned := true;
        return Refused(Integrity);
      }
      return Done(current.value);
    }

    /** Accepts exactly an intact database that the anchor names a prefix of, and returns all of it. */
    method Load(up: bool) returns (r: LedgerResult<seq<Event<B>>>)
      modifies this`poisoned
      ensures r.Done? <==> !old(poisoned) && Intact(key, file.View()) && up && Names(anchors.current, file.rows)
      ensures r.Done? ==> r.value == file.rows && !poisoned
      ensures Intact(key, file.View()) && r.Refused? ==> poisoned
    {
      if poisoned {
        return Refused(Poisoned);
      }
      var rows, i := file.rows, 0;
      var previous: Digest<B>, lastAt: Option<int> := Zero, None;
      while i < |rows|
        invariant 0 <= i <= |rows| && previous == Head(rows[..i]) && lastAt == LastAt(rows[..i])
        invariant forall j: nat :: j < i ==> Linked(key, rows, j)
      {
        assert Linked(key, rows, i) <==> Extends(key, i, previous, lastAt, rows[i]);
        if !Extends(key, i, previous, lastAt, rows[i]) {
          return Refused(Integrity);
        }
        previous, lastAt := rows[i].digest, Some(rows[i].at);
        assert rows[..i + 1][i] == rows[i];
        i := i + 1;
      }
      assert rows[..i] == rows;
      if !StateMatches(|rows|, previous, lastAt) {
        return Refused(Integrity);
      }
      var anchor := RequireRecoverableAnchor(rows, up);
      return if anchor.Done? then Done(rows) else Refused(anchor.fault);
    }

    /** Moves the anchor; an answer other than the replacement, or none, poisons the ledger. */
    method Advance(expected: Anchor<B>, replacement: Anchor<B>, fate: Fate) returns (r: LedgerResult<()>)
      modifies this`poisoned, anchors
      ensures anchors.current == Swapped(fate, old(anchors.current), expected, replacement)
      ensures r.Done? <==> fate == Answers && anchors.current == replacement
      ensures poisoned == (old(poisoned) || r.Refused?) && (r.Refused? ==> r.fault == Integrity)
    {
      var answer := anchors.CompareAndSwap(expected, replacement, fate);
      if answer != Some(replacement) {
        poisoned := true;
        return Refused(Integrity);
      }
      return Done(());
    }

    /** After semantic replay of `rows`: the head is still that of `rows`, and the anchor is brought up to it. */
    method ConfirmVerifiedLoad(rows: seq<Event<B>>, up: bool, fate: Fate) returns (r: LedgerResult<()>)
      modifies this`poisoned, anchors
      ensures var fits := !old(poisoned) && file.state == StateOf(key, rows) && up && Names(old(anchors.current), rows);
              && (r.Done? <==> fits && (old(anchors.current) == AnchorOf(rows) || fate == Answers))
              && anchors.current == (if fits && fate != Unreachable then AnchorOf(rows) else old(anchors.current))
              && (r.Done? ==> anchors.current == AnchorOf(rows) && !poisoned)
              && (fits && r.Refused? ==> poisoned)
    {
      if poisoned {
        return Refused(Poisoned);
      }
      if !StateMatches(|rows|, Head(rows), LastAt(rows)) {
        return Refused(Integrity);
      }
      var current := RequireRecoverableAnchor(rows, up);
      match current
      case Refused(f) => return Refused(f);
      case Done(anchor) =>
        if anchor == AnchorOf(rows) {
          return Done(());
        }
        r := Advance(anchor, AnchorOf(rows), fate);
    }

    /**
     Appends one event after the expected head, then moves the anchor from the old head to the new
     one.  Either everything happens; or nothing does; or the event is committed and the swap fails
     or is not heard, which poisons the ledger and leaves the anchor to recovery.
     */
    method Append(expected: Digest<B>, body: B, at: int, up: bool, fate: Fate) returns (r: LedgerResult<Digest<B>>)
      modifies this`poisoned, file, anchors
      ensures var committed := !old(poisoned) && old(Appendable(key, file.state, expected, at)) && up
                               && old(anchors.current) == old(Anchor(file.state.sequence, file.state.digest));
              && file.View() == (if committed then Appended(key, old(file.View()), body, at) else old(file.View()))
              && (r.Done? <==> committed && fate == Answers)
              && (committed ==> anchors.current == (if fate == Unreachable then old(anchors.current) else Anchor(file.state.sequence, file.state.digest)))
              && (!committed ==> anchors.current == old(anchors.current))
              && (r.Done? ==> r.value == file.state.digest && !poisoned)
              && (committed && r.Refused? ==> poisoned)
      ensures old(Intact(key, file.View())) ==> Intact(key, file.View())
      ensures (up && old(anchors.current.sequence == file.state.sequence && anchors.current.digest == file.state.digest)
               && file.View() == old(file.View())) ==> poisoned == old(poisoned)
    {
      if poisoned {
        return Refused(Poisoned);
      }
      var row := file.state;
      if row.sequence < 0 || row.seal != StateSeal(key, row.sequence, row.digest, row.at) {
        return Refused(Integrity);
      }
      if row.digest != expected {
        return Refused(Stale);
      }
      var before := Anchor(row.sequence, row.digest);
      var current := anchors.Read(up);
      if current != Some(before) {
        poisoned := true;
        return Refused(Integrity);
      }
      if row.at.Some? && at < row.at.value {
        return Refused(Stale);
      }
      if Intact(key, file.View()) {
        AppendedIntact(key, file.View(), body, at);
      }
      var digest := Link(row.sequence + 1, at, body, expected);
      file.rows := file.rows + [Event(row.sequence + 1, at, body, expected, digest, EventSeal(key, row.sequence + 1, digest))];
      file.state := StateRow(row.sequence + 1, digest, Some(at), StateSeal(key, row.sequence + 1, digest, Some(at)));
      var moved := Advance(before, Anchor(row.sequence + 1, digest), fate);
      match moved
      case Refused(f) => return Refused(f);
      case Done(_) => return Done(digest);
    }
  }
}
