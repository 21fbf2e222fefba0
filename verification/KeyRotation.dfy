/**
  Rotating the encryption key (cmd/rotate-encryption-key/main.go): one scan over the encrypted rows,
  re-encrypted rows collected into batches, one transaction per batch.
*/
module KeyRotation {
  import opened Numeric
  import opened Ciphertext

  /** A scanned row: its id and its encrypted token. */
  datatype Row = Row(id: nat, text: string)

  /** A re-encrypted row waiting for its transaction. */
  datatype Pending = Pending(id: nat, oldText: string, newText: string)

  datatype Stats = Stats(scanned: int, alreadyCurrent: int, rotated: int, failed: int)

  /** The cipher, the keys and the randomness of a run: a nonce for each scanned row, or none to be had. */
  datatype Setup = Setup(cipher: Cipher, keys: Keyring, nonces: nat -> Option<nat>)

  // ------------------------------------------------------------- what becomes of a row

  datatype Fate = Current | Failed | Rotates(newText: string)

  function FateOf(setup: Setup, row: Row, k: nat): Fate {
    if HasVersion(row.text, setup.keys.latest) then Current
    else
      match DecryptWithKeyring(setup.cipher, setup.keys, row.text)
      case None => Failed
      case Some(plain) =>
        match setup.nonces(k)
        case None => Failed
        case Some(nonce) =>
          match EncryptWithKeyring(setup.cipher, setup.keys, nonce, plain)
          case None => Failed
          case Some(text) => Rotates(text)
  }

  function Counts(setup: Setup, rows: seq<Row>, fate: Fate): nat {
    if rows == [] then 0
    else
      var k := |rows| - 1;
      Counts(setup, rows[..k], fate) + (if FateOf(setup, rows[k], k) == fate then 1 else 0)
  }

  /** The re-encrypted rows in the order of the scan. */
  function Rotations(setup: Setup, rows: seq<Row>): seq<Pending> {
    if rows == [] then []
    else
      var k := |rows| - 1;
      var earlier := Rotations(setup, rows[..k]);
      match FateOf(setup, rows[k], k)
      case Rotates(text) => earlier + [Pending(rows[k].id, rows[k].text, text)]
      case _ => earlier
  }

  function Written(table: map<nat, string>, batch: seq<Pending>): map<nat, string> {
    if batch == [] then table
    else Written(table, batch[..|batch| - 1])[batch[|batch| - 1].id := batch[|batch| - 1].newText]
  }

  /** Every row still holds what the scan saw, and no row waits twice. */
  ghost predicate UpToDate(table: map<nat, string>, batch: seq<Pending>) {
    && (forall j | 0 <= j < |batch| :: batch[j].id in table && table[batch[j].id] == batch[j].oldText)
    && (forall i, j | 0 <= i < j < |batch| :: batch[i].id != batch[j].id)
  }

  /** The scan returns each row once, as the table has it. */
  ghost predicate ScanOf(table: map<nat, string>, rows: seq<Row>) {
    && (forall k | 0 <= k < |rows| :: rows[k].id in table && table[rows[k].id] == rows[k].text)
    && (forall j, k | 0 <= j < k < |rows| :: rows[j].id != rows[k].id)
  }

  lemma {:induction false} RotationsComeFromScan(setup: Setup, rows: seq<Row>, table: map<nat, string>)
    requires ScanOf(table, rows)
    ensures UpToDate(table, Rotations(setup, rows))
    ensures forall j | 0 <= j < |Rotations(setup, rows)| ::
              exists k | 0 <= k < |rows| :: rows[k].id == Rotations(setup, rows)[j].id
    decreases |rows|
  {
    if rows != [] {
      RotationsComeFromScan(setup, rows[..|rows| - 1], table);
    }
  }

  lemma {:induction false} WrittenElsewhere(table: map<nat, string>, batch: seq<Pending>, id: nat)
    requires forall j | 0 <= j < |batch| :: batch[j].id != id
    ensures id in Written(table, batch) <==> id in table
    ensures id in table ==> Written(table, batch)[id] == table[id]
    decreases |batch|
  {
    if batch != [] {
      WrittenElsewhere(table, batch[..|batch| - 1], id);
    }
  }

  lemma {:induction false} WrittenInTurn(table: map<nat, string>, a: seq<Pending>, b: seq<Pending>)
    ensures Written(Written(table, a), b) == Written(table, a + b)
    decreases |b|
  {
    if b == [] {
      assert a + b == a;
    } else {
      var n := |b| - 1;
      assert (a + b)[..|a + b| - 1] == a + b[..n];
      WrittenInTurn(table, a, b[..n]);
    }
  }

  /** What is left after some rows were written can still be written. */
  lemma RestIsUpToDate(table: map<nat, string>, ps: seq<Pending>, n: nat)
    requires UpToDate(table, ps) && n <= |ps|
    ensures UpToDate(Written(table, ps[..n]), ps[n..])
  {
    forall j | 0 <= j < |ps[n..]|
      ensures ps[n..][j].id in Written(table, ps[..n]) && Written(table, ps[..n])[ps[n..][j].id] == ps[n..][j].oldText
    {
      WrittenElsewhere(table, ps[..n], ps[n + j].id);
    }
  }

  // ---------------------------------------------------------------------- the loop

  class Database {
    var table: map<nat, string>

    /** One transaction: every row still holds what was scanned and every statement succeeds, or nothing changes. */
    method Flush(batch: seq<Pending>, apply: bool, succeeds: bool) returns (ok: bool)
      modifies this
      ensures table == if apply && ok then Written(old(table), batch) else old(table)
      ensures !apply || batch == [] ==> ok
      ensures apply && batch != [] && !succeeds ==> !ok
      ensures succeeds && UpToDate(old(table), batch) ==> ok
    {
      if |batch| == 0 || !apply {
        return true;
      }
      var work := table;
      for j := 0 to |batch|
        invariant work == Written(table, batch[..j])
        invariant forall id | id in table && (forall i | 0 <= i < j :: batch[i].id != id) :: id in work && work[id] == table[id]
        invariant table == old(table)
      {
        if batch[j].id !in work || work[batch[j].id] != batch[j].oldText {
          return false;
        }
        assert batch[..j + 1][..j] == batch[..j];
        work := work[batch[j].id := batch[j].newText];
      }
      assert batch[..|batch|] == batch;
      if !succeeds {
        return false;
      }
      table := work;
      ok := true;
    }
  }

  function Times(n: nat, size: int): int {
    n * size
  }

  lemma TimesNext(n: nat, size: int)
    ensures Times(0, size) == 0 && Times(n + 1, size) == Times(n, size) + size
  {
  }

  /** What the counter of rotated rows shows when `n` rows went through: it adds the batch size for each batch. */
  function ShownAsRotated(n: nat, batchSize: int): int {
    if batchSize >= 1 then n else Times(n, batchSize)
  }

  function BatchSize(batchSize: int): nat {
    if batchSize < 1 then 1 else batchSize
  }

  lemma {:induction false} RotationsGrow(setup: Setup, rows: seq<Row>, k: nat)
    requires k <= |rows|
    ensures Rotations(setup, rows[..k]) <= Rotations(setup, rows)
    decreases |rows|
  {
    hide FateOf;
    if k < |rows| {
      var n := |rows| - 1;
      assert rows[..n][..k] == rows[..k];
      RotationsGrow(setup, rows[..n], k);
    } else {
      assert rows[..k] == rows;
    }
  }

  /** How far a run has come after `k` rows: full batches are written, the rest waits. */
  ghost predicate Progress(before: map<nat, string>, after: map<nat, string>, ps: seq<Pending>, batch: seq<Pending>,
                           committed: nat, apply: bool) {
    && committed <= |ps| && batch == ps[committed..]
    && after == if apply then Written(before, ps[..committed]) else before
  }

  lemma Flushed(before: map<nat, string>, middle: map<nat, string>, after: map<nat, string>,
                ps: seq<Pending>, batch: seq<Pending>, committed: nat, apply: bool)
    requires Progress(before, middle, ps, batch, committed, apply)
    requires after == if apply then Written(middle, batch) else middle
    ensures Progress(before, after, ps, [], |ps|, apply)
  {
    WrittenInTurn(before, ps[..committed], ps[committed..]);
    assert ps[..committed] + ps[committed..] == ps == ps[..|ps|];
  }

  /** A flush whose statements succeed goes through, because nobody else changes the rows. */
  lemma BatchIsUpToDate(before: map<nat, string>, after: map<nat, string>, ps: seq<Pending>, batch: seq<Pending>,
                        committed: nat)
    requires UpToDate(before, ps) && Progress(before, after, ps, batch, committed, true)
    ensures UpToDate(after, batch)
  {
    RestIsUpToDate(before, ps, committed);
  }

  lemma ProgressGrows(before: map<nat, string>, after: map<nat, string>, ps: seq<Pending>, batch: seq<Pending>,
                      committed: nat, apply: bool, p: Pending)
    requires Progress(before, after, ps, batch, committed, apply)
    ensures Progress(before, after, ps + [p], batch + [p], committed, apply)
    ensures |ps + [p]| == committed + |batch + [p]|
  {
    assert (ps + [p])[committed..] == ps[committed..] + [p];
    assert (ps + [p])[..committed] == ps[..committed];
  }

  /** A run that ends here has written a part of everything there is to rotate. */
  lemma Ended(before: map<nat, string>, after: map<nat, string>, ps: seq<Pending>, batch: seq<Pending>,
              committed: nat, apply: bool, all: seq<Pending>)
    requires Progress(before, after, ps, batch, committed, apply) && ps <= all
    ensures committed <= |all| && after == if apply then Written(before, all[..committed]) else before
    ensures |ps| == committed + |batch|
  {
    assert all[..committed] == ps[..committed];
  }

  lemma BatchIsReady(before: map<nat, string>, after: map<nat, string>, ps: seq<Pending>, batch: seq<Pending>,
                     committed: nat, apply: bool, all: seq<Pending>)
    requires UpToDate(before, all) && ps <= all && Progress(before, after, ps, batch, committed, apply)
    ensures apply ==> UpToDate(after, batch)
  {
    if apply {
      assert ps == all[..|ps|];
      BatchIsUpToDate(before, after, ps, batch, committed);
    }
  }

  lemma NextRow(setup: Setup, rows: seq<Row>, k: nat)
    requires k < |rows|
    ensures var fate, next := FateOf(setup, rows[k], k), rows[..k + 1];
            && Rotations(setup, next) == (if fate.Rotates?
                 then Rotations(setup, rows[..k]) + [Pending(rows[k].id, rows[k].text, fate.newText)]
                 else Rotations(setup, rows[..k]))
            && Counts(setup, next, Current) == Counts(setup, rows[..k], Current) + (if fate.Current? then 1 else 0)
            && Counts(setup, next, Failed) == Counts(setup, rows[..k], Failed) + (if fate.Failed? then 1 else 0)
  {
    assert rows[..k + 1][..k] == rows[..k];
  }

  method Reencrypt(setup: Setup, row: Row, k: nat) returns (fate: Fate)
    ensures fate == FateOf(setup, row, k)
  {
    if HasVersion(row.text, setup.keys.latest) {
      return Current;
    }
    var plain := DecryptWithKeyring(setup.cipher, setup.keys, row.text);
    if plain.None? || setup.nonces(k).None? {
      return Failed;
    }
    var text := EncryptWithKeyring(setup.cipher, setup.keys, setup.nonces(k).value, plain.value);
    fate := if text.None? then Failed else Rotates(text.value);
  }

  /** A re-encrypted row joins the batch, and a full batch is flushed. */
  method Enqueue(db: Database, batch: seq<Pending>, p: Pending, apply: bool, batchSize: int, succeeds: bool,
                 ghost before: map<nat, string>, ghost ps: seq<Pending>, ghost all: seq<Pending>,
                 ghost committed: nat, ghost batches: nat)
    returns (rest: seq<Pending>, added: int, ok: bool, ghost committed': nat, ghost batches': nat)
    requires UpToDate(before, all) && ps + [p] <= all
    requires Progress(before, db.table, ps, batch, committed, apply)
    requires |batch| < BatchSize(batchSize) && committed == Times(batches, BatchSize(batchSize))
    modifies db
    ensures succeeds ==> ok
    ensures !ok ==> db.table == old(db.table)
    ensures ok ==>
              && Progress(before, db.table, ps + [p], rest, committed', apply)
              && |rest| < BatchSize(batchSize) && committed' == Times(batches', BatchSize(batchSize))
              && ShownAsRotated(committed', batchSize) == ShownAsRotated(committed, batchSize) + added
  {
    hide Written, UpToDate, Times;
    ghost var grown := ps + [p];
    ProgressGrows(before, db.table, ps, batch, committed, apply, p);
    rest, added, ok, committed', batches' := batch + [p], 0, true, committed, batches;
    if |rest| >= batchSize {
      ghost var middle := db.table;
      BatchIsReady(before, middle, grown, rest, committed, apply, all);
      hide Progress;
      ok := db.Flush(rest, apply, succeeds);
      if !ok {
        return;
      }
      Flushed(before, middle, db.table, grown, rest, committed, apply);
      TimesNext(batches, BatchSize(batchSize));
      TimesNext(committed, batchSize);
      committed', batches' := |grown|, batches + 1;
      rest, added := [], batchSize;
    }
  }

  /**
    The whole run. `committed` is the number of re-encrypted rows whose batch went through. It is all of
    them when the run succeeds, and a whole number of batches when it does not.
  */
  method RotateSellerCabinets(db: Database, setup: Setup, rows: seq<Row>, scanFails: bool,
                              apply: bool, batchSize: int, commits: nat -> bool)
    returns (stats: Stats, ok: bool, ghost committed: nat, ghost batches: nat)
    requires ScanOf(db.table, rows)
    modifies db
    ensures committed <= |Rotations(setup, rows)|
    ensures db.table == if apply then Written(old(db.table), Rotations(setup, rows)[..committed]) else old(db.table)
    ensures ok ==> committed == |Rotations(setup, rows)|
    ensures !ok ==> committed == Times(batches, BatchSize(batchSize))
    ensures ok ==> stats.scanned == |rows| && stats.alreadyCurrent == Counts(setup, rows, Current)
                   && stats.failed == Counts(setup, rows, Failed)
    ensures stats.rotated == ShownAsRotated(committed, batchSize)
    ensures !scanFails && (forall n: nat :: commits(n)) ==> ok
  {
    hide Rotations, Counts, FateOf, Written, UpToDate, ScanOf, Times;
    TimesNext(0, batchSize);
    TimesNext(0, BatchSize(batchSize));
    stats, ok, committed, batches := Stats(0, 0, 0, 0), false, 0, 0;
    var batch: seq<Pending> := [];
    var flushes := 0;
    ghost var before, all := db.table, Rotations(setup, rows);
    RotationsComeFromScan(setup, rows, before);
    NothingYet(setup, rows, before, apply);
    hide Progress;
    for k := 0 to |rows|
      invariant !ok && Progress(before, db.table, Rotations(setup, rows[..k]), batch, committed, apply)
      invariant |batch| < BatchSize(batchSize) && committed == Times(batches, BatchSize(batchSize))
      invariant stats.scanned == k
      invariant stats.alreadyCurrent == Counts(setup, rows[..k], Current)
      invariant stats.failed == Counts(setup, rows[..k], Failed)
      invariant stats.rotated == ShownAsRotated(committed, batchSize)
    {
      ghost var ps := Rotations(setup, rows[..k]);
      NextRow(setup, rows, k);
      RotationsGrow(setup, rows, k + 1);
      assert ps <= all by {
        RotationsGrow(setup, rows, k);
      }
      stats := stats.(scanned := stats.scanned + 1);
      var fate := Reencrypt(setup, rows[k], k);
      if fate.Current? {
        stats := stats.(alreadyCurrent := stats.alreadyCurrent + 1);
        continue;
      }
      if fate.Failed? {
        stats := stats.(failed := stats.failed + 1);
        continue;
      }
      var p := Pending(rows[k].id, rows[k].text, fate.newText);
      Ended(before, db.table, ps, batch, committed, apply, all);
      var rest, added, flushed, c, b :=
        Enqueue(db, batch, p, apply, batchSize, commits(flushes), before, ps, all, committed, batches);
      flushes := flushes + 1;
      if !flushed {
        return;
      }
      batch, committed, batches := rest, c, b;
      stats := stats.(rotated := stats.rotated + added);
    }
    assert rows[..|rows|] == rows;
    Ended(before, db.table, all, batch, committed, apply, all);
    if scanFails {
      return;
    }
    ghost var middle := db.table;
    BatchIsReady(before, middle, all, batch, committed, apply, all);
    var tail := |batch|;
    var flushed := db.Flush(batch, apply, commits(flushes));
    if !flushed {
      return;
    }
    Flushed(before, middle, db.table, all, batch, committed, apply);
    Ended(before, db.table, all, [], |all|, apply, all);
    committed := |all|;
    stats := stats.(rotated := stats.rotated + tail);
    ok := true;
  }

  lemma NothingYet(setup: Setup, rows: seq<Row>, before: map<nat, string>, apply: bool)
    ensures Rotations(setup, rows[..0]) == [] && Progress(before, before, [], [], 0, apply)
    ensures Counts(setup, rows[..0], Current) == 0 == Counts(setup, rows[..0], Failed)
  {
  }

  // -------------------------------------------------------------------- what it keeps

  ghost predicate Sound(setup: Setup) {
    Lawful(setup.cipher) && ValidKeyring(setup.keys)
  }

  function Plain(setup: Setup, text: string): Option<string> {
    DecryptWithKeyring(setup.cipher, setup.keys, text)
  }

  /** A row is re-encrypted exactly if it is readable, not current, and randomness is to be had; its meaning stays. */
  lemma FateMeaning(setup: Setup, row: Row, k: nat)
    requires Sound(setup)
    ensures FateOf(setup, row, k).Rotates? <==>
              !HasVersion(row.text, setup.keys.latest) && Plain(setup, row.text).Some? && setup.nonces(k).Some?
    ensures FateOf(setup, row, k).Rotates? ==>
              && Plain(setup, FateOf(setup, row, k).newText) == Plain(setup, row.text)
              && HasVersion(FateOf(setup, row, k).newText, setup.keys.latest)
  {
    hide DecryptWithKeyring, EncryptWithKeyring, HasVersion;
    if Plain(setup, row.text).Some? && setup.nonces(k).Some? {
      EncryptionRoundTrip(setup.cipher, setup.keys, setup.nonces(k).value, Plain(setup, row.text).value);
    }
  }

  /**
    A text holds a plaintext sealed with key `v` of the ring: under its version, or from before versions and
    then refused by every newer key.
  */
  ghost predicate SealedWith(setup: Setup, text: string, v: nat, versioned: bool, plain: string) {
    && v in setup.keys.keys
    && exists nonce :: var payload := setup.cipher.seal(setup.keys.keys[v], nonce, plain);
         if versioned then text == AddVersion(v, payload)
         else text == payload && ':' !in payload
              && forall u | u in setup.keys.keys && v < u :: setup.cipher.open(setup.keys.keys[u], payload).None?
  }

  /**
    What the command is for: a row sealed with any key of the ring is rotated, given a nonce, unless it is under
    the latest version already, and the new text is the same plaintext sealed with the latest key.
  */
  lemma SealedRowsRotate(setup: Setup, row: Row, k: nat, v: nat, versioned: bool, plain: string)
    requires Sound(setup) && SealedWith(setup, row.text, v, versioned, plain) && setup.nonces(k).Some?
    ensures Plain(setup, row.text) == Some(plain)
    ensures var latest := setup.keys.latest;
            FateOf(setup, row, k)
            == if versioned && v == latest then Current
               else Rotates(AddVersion(latest, setup.cipher.seal(setup.keys.keys[latest], setup.nonces(k).value, plain)))
  {
    var nonce :| var payload := setup.cipher.seal(setup.keys.keys[v], nonce, plain);
      if versioned then row.text == AddVersion(v, payload)
      else row.text == payload && ':' !in payload
           && forall u | u in setup.keys.keys && v < u :: setup.cipher.open(setup.keys.keys[u], payload).None?;
    if versioned {
      OlderVersionsRead(setup.cipher, setup.keys, v, nonce, plain);
    } else {
      LegacyTextsRead(setup.cipher, setup.keys, v, nonce, plain);
    }
    hide DecryptWithKeyring, HasVersion;
  }

  /** Every entry to rotate belongs to a scanned row whose fate it is. */
  lemma {:induction false} RotationOfRow(setup: Setup, rows: seq<Row>, j: nat) returns (k: nat)
    requires j < |Rotations(setup, rows)|
    ensures k < |rows| && FateOf(setup, rows[k], k) == Rotates(Rotations(setup, rows)[j].newText)
    ensures Rotations(setup, rows)[j].id == rows[k].id && Rotations(setup, rows)[j].oldText == rows[k].text
    decreases |rows|
  {
    hide FateOf;
    var n := |rows| - 1;
    if j < |Rotations(setup, rows[..n])| {
      k := RotationOfRow(setup, rows[..n], j);
    } else {
      k := n;
    }
  }

  /** And every row with that fate has its entry. */
  lemma {:induction false} RowHasRotation(setup: Setup, rows: seq<Row>, k: nat) returns (j: nat)
    requires k < |rows| && FateOf(setup, rows[k], k).Rotates?
    ensures j < |Rotations(setup, rows)|
    ensures Rotations(setup, rows)[j] == Pending(rows[k].id, rows[k].text, FateOf(setup, rows[k], k).newText)
    decreases |rows|
  {
    hide FateOf;
    var n := |rows| - 1;
    if k < n {
      j := RowHasRotation(setup, rows[..n], k);
    } else {
      j := |Rotations(setup, rows[..n])|;
    }
  }

  lemma {:induction false} WrittenAt(table: map<nat, string>, ps: seq<Pending>, j: nat)
    requires j < |ps| && forall i, j | 0 <= i < j < |ps| :: ps[i].id != ps[j].id
    ensures ps[j].id in Written(table, ps) && Written(table, ps)[ps[j].id] == ps[j].newText
    decreases |ps|
  {
    if j < |ps| - 1 {
      WrittenAt(table, ps[..|ps| - 1], j);
    }
  }

  /**
    Whatever part of the rotation was committed, every token reads as before: a rotated row decrypts to
    the same plaintext, any other row is untouched.
  */
  lemma PlaintextsPreserved(setup: Setup, table: map<nat, string>, rows: seq<Row>, committed: nat, id: nat)
    requires Sound(setup) && ScanOf(table, rows) && committed <= |Rotations(setup, rows)| && id in table
    ensures var after := Written(table, Rotations(setup, rows)[..committed]);
            id in after && Plain(setup, after[id]) == Plain(setup, table[id])
  {
    hide FateOf, DecryptWithKeyring, HasVersion;
    var ps := Rotations(setup, rows);
    RotationsComeFromScan(setup, rows, table);
    if j: nat :| j < committed && ps[j].id == id {
      WrittenAt(table, ps[..committed], j);
      assert ps[..committed][j] == ps[j];
      var k := RotationOfRow(setup, rows, j);
      FateMeaning(setup, rows[k], k);
    } else {
      WrittenElsewhere(table, ps[..committed], id);
    }
  }

  lemma {:induction false} EveryRowCounted(setup: Setup, rows: seq<Row>)
    ensures Counts(setup, rows, Current) + Counts(setup, rows, Failed) + |Rotations(setup, rows)| == |rows|
    decreases |rows|
  {
    hide FateOf;
    if rows != [] {
      EveryRowCounted(setup, rows[..|rows| - 1]);
    }
  }

  /** The printed counters of a successful run add up exactly unless a batch size below one met a row to rotate. */
  lemma CountersAddUpIff(setup: Setup, rows: seq<Row>, batchSize: int)
    ensures var n := |Rotations(setup, rows)|;
            var rotated := ShownAsRotated(n, batchSize);
            |rows| == Counts(setup, rows, Current) + rotated + Counts(setup, rows, Failed)
            <==> batchSize >= 1 || n == 0
  {
    EveryRowCounted(setup, rows);
    var n := |Rotations(setup, rows)|;
    if batchSize < 1 && n > 0 {
      assert Times(n, batchSize) <= 0 by {
        assert (1 - batchSize) * n >= n;
      }
    }
  }

  /** The rows a second scan sees after a complete first run. */
  ghost function Rescanned(setup: Setup, table: map<nat, string>, rows: seq<Row>): seq<Row>
    requires ScanOf(table, rows)
  {
    seq(|rows|, k requires 0 <= k < |rows| =>
      Row(rows[k].id, match FateOf(setup, rows[k], k) case Rotates(text) => text case _ => rows[k].text))
  }

  lemma RescannedIsScan(setup: Setup, table: map<nat, string>, rows: seq<Row>)
    requires ScanOf(table, rows)
    ensures ScanOf(Written(table, Rotations(setup, rows)), Rescanned(setup, table, rows))
  {
    hide FateOf;
    var ps, after := Rotations(setup, rows), Written(table, Rotations(setup, rows));
    RotationsComeFromScan(setup, rows, table);
    forall k | 0 <= k < |rows|
      ensures rows[k].id in after && after[rows[k].id] == Rescanned(setup, table, rows)[k].text
    {
      if FateOf(setup, rows[k], k).Rotates? {
        var j := RowHasRotation(setup, rows, k);
        WrittenAt(table, ps, j);
      } else {
        forall j | 0 <= j < |ps| ensures ps[j].id != rows[k].id {
          var i := RotationOfRow(setup, rows, j);
        }
        WrittenElsewhere(table, ps, rows[k].id);
      }
    }
  }

  /** A second run finds nothing to rotate, unless the first could not draw a nonce for some row. */
  lemma SecondFate(setup: Setup, again: Setup, table: map<nat, string>, rows: seq<Row>, k: nat)
    requires Sound(setup) && again.cipher == setup.cipher && again.keys == setup.keys
    requires ScanOf(table, rows) && k < |rows|
    ensures FateOf(again, Rescanned(setup, table, rows)[k], k).Rotates? <==>
              && !HasVersion(rows[k].text, setup.keys.latest) && Plain(setup, rows[k].text).Some?
              && setup.nonces(k).None? && again.nonces(k).Some?
  {
    hide FateOf, DecryptWithKeyring, HasVersion;
    FateMeaning(setup, rows[k], k);
    FateMeaning(again, Rescanned(setup, table, rows)[k], k);
  }

  lemma SecondRunRotatesNothing(setup: Setup, again: Setup, table: map<nat, string>, rows: seq<Row>)
    requires Sound(setup) && again.cipher == setup.cipher && again.keys == setup.keys && ScanOf(table, rows)
    requires forall k: nat | k < |rows| :: setup.nonces(k).Some?
    ensures Rotations(again, Rescanned(setup, table, rows)) == []
  {
    hide FateOf, DecryptWithKeyring, HasVersion;
    var rescanned := Rescanned(setup, table, rows);
    if Rotations(again, rescanned) != [] {
      var k := RotationOfRow(again, rescanned, 0);
      SecondFate(setup, again, table, rows, k);
      assert false;
    }
  }
}
