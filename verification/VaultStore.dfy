/** The store object: files, rows and the ring in memory changed in place, step by step. */
module VaultStore {
  import opened Basics
  import opened Vault

  class Store {
    var files: map<Path, Keyring>
    var rows: map<Row, Envelope>
    var up: bool
    var keys: Keyring
    var path: Path
    ghost var rotation: Rotation
    ghost var plain: map<Row, Plain>
    ghost var minted: map<KeyId, Secret>
    ghost var last: Option<Path>

    ghost function View(): World
      reads this
    {
      World(files, rows, if up then Some(Memory(keys, path, rotation)) else None, plain, minted, last)
    }

    ghost predicate Valid()
      reads this
    {
      Inv(View())
    }

    /** What an earlier process left on disk. */
    constructor (files: map<Path, Keyring>, rows: map<Row, Envelope>, ghost past: World)
      requires Inv(past) && past.mem.None? && past.files == files && past.rows == rows
      ensures Valid() && View() == past && !up
    {
      this.files, this.rows, this.up, this.keys, this.path := files, rows, false, Keyring("", map[]), "";
      rotation, plain, minted, last := Quiet, past.plain, past.minted, past.last;
    }

    /** Try the ring on every cluster's credentials and every private record, and refuse a ring that fails one. */
    method Open(at: Path) returns (ok: bool)
      requires Valid() && !up && last.Some?
      modifies this`up, this`keys, this`path, this`rotation, this`last
      ensures Valid() && View() == Vault.Open(old(View()), at) && ok == up
      ensures ok == (at in files && Accepts(files[at], rows))
    {
      hide Inv;
      OpenKeeps(View(), at);
      if at !in files { return false; }
      ok := Tries(files[at], rows);
      if ok {
        up, keys, path, rotation, last := true, files[at], at, Quiet, Some(at);
      }
    }

    method GetSecret(row: Row) returns (r: Option<Plain>)
      requires Valid() && up && row.Private?
      ensures r == if row in plain then Some(plain[row]) else None
    {
      MemoryIsMinted(View());
      if row !in rows { return None; }
      OpensIffHeld(keys, rows, plain, minted, row);
      r := Decrypt(keys, row, rows[row]);
    }

    method PutSecret(row: Row, data: Plain, nonce: nat, createOnly: bool, wr: Write) returns (ok: bool)
      requires Valid() && up && rotation.Quiet?
      modifies this`rows, this`plain
      ensures Valid() && View() == Put(old(View()), row, data, nonce, createOnly, wr)
      ensures ok == (wr.Landed? && !Refuses(old(rows), row, createOnly)) && (ok ==> row in plain && plain[row] == data)
    {
      MemoryIsMinted(View());
      hide Inv;
      PutKeeps(View(), row, data, nonce, createOnly, wr);
      if Refuses(rows, row, createOnly) { return false; }
      var sealed := Encrypt(keys, row, data, nonce);
      if Stored(wr) {
        rows := rows[row := sealed];
        plain := plain[row := data];
      }
      ok := wr.Landed?;
    }

    method WriteKeys(at: Path, k: Keyring, wr: Write) returns (ok: bool)
      modifies this`files
      ensures files == Save(old(files), at, k, wr) && ok == wr.Landed?
    {
      if Stored(wr) { files := files[at := k]; }
      ok := wr.Landed?;
    }

    method WriteNew(target: Path, id: KeyId, secret: Secret, wr: Write) returns (ok: bool, next: Keyring)
      requires Valid() && up && MayRotate(View(), target, id)
      modifies this`files, this`rotation, this`minted
      ensures Valid() && View() == RotateNew(old(View()), target, id, secret, wr)
      ensures next == NextRing(keys, id, secret) && ok == wr.Landed?
      ensures files == Save(old(files), target, next, wr) && rotation == if ok then NewWritten(next) else Quiet
    {
      hide Inv;
      RotateNewKeeps(View(), target, id, secret, wr);
      var copy := CopyKeys(keys.keys);
      next := Keyring(id, copy[id := secret]);
      ok := WriteKeys(target, next, wr);
      rotation := if ok then NewWritten(next) else Quiet;
      minted := minted[id := secret];
    }

    method WriteOld(next: Keyring, wr: Write) returns (ok: bool)
      requires Valid() && up && rotation == NewWritten(next)
      modifies this`files, this`rotation
      ensures Valid() && View() == RotateOld(old(View()), wr) && ok == wr.Landed?
      ensures files == Save(old(files), path, next, wr) && rotation == if ok then BothWritten(next) else Quiet
    {
      hide Inv;
      RotateOldKeeps(View(), wr);
      ok := WriteKeys(path, next, wr);
      rotation := if ok then BothWritten(next) else Quiet;
    }

    method UseRing(next: Keyring)
      requires Valid() && up && rotation == BothWritten(next)
      modifies this`keys, this`rotation
      ensures Valid() && View() == Switch(old(View())) && keys == next && rotation.Switched?
    {
      hide Inv;
      SwitchKeeps(View());
      keys := next;
      rotation := Switched;
    }

    /** Read and seal every row, then update them; a record that does not open rolls everything back. */
    method Reencrypt(nonce: Row -> nat, wr: Write) returns (ok: bool)
      requires Valid() && up && rotation.Switched?
      modifies this`rows, this`rotation
      ensures Valid() && View() == Commit(old(View()), nonce, wr) && ok == (wr.Landed? && AllOpen(keys, old(rows)))
      ensures rotation.Quiet? && rows.Keys == old(rows).Keys
              && (ok ==> forall r :: r in rows ==> rows[r].key == keys.active)
    {
      CommitKeeps(View(), nonce, wr);
      MemoryIsMinted(View());
      ReadsIffHeld(keys, rows, plain, minted);
      if Held(keys, rows) { ResealedOk(keys, rows, plain, minted, nonce); }
      hide Inv, AllOpen, Resealed, Readable;
      var read, records := SealAll(keys, rows, nonce);
      if read && Stored(wr) { rows := records; }
      rotation := Quiet;
      ok := read && wr.Landed?;
    }

    /** Write the larger ring to both paths, then use it. */
    method SwitchRing(target: Path, id: KeyId, secret: Secret, w1: Write, w2: Write) returns (ok: bool)
      requires Valid() && up && rotation.Quiet? && id !in minted
      modifies this`files, this`keys, this`rotation, this`minted
      ensures Valid() && Sub(old(keys).keys, keys.keys)
      ensures View() == Switch(RotateOld(RotateNew(old(View()), target, id, secret, w1), w2))
      ensures ok == ((target == path || target !in old(files)) && w1.Landed? && w2.Landed?)
      ensures ok ==> rotation.Switched? && keys == NextRing(old(keys), id, secret) && keys != old(keys)
      ensures ok ==> target in files && path in files && files[target] == files[path] == keys
      ensures !ok ==> rotation.Quiet? && keys == old(keys)
    {
      if target != path && target in files { return false; }
      MemoryIsMinted(View());
      assert id !in keys.keys && Sub(keys.keys, NextRing(keys, id, secret).keys);
      hide Inv, Switch, Sub, RotateOld, RotateNew;
      var next;
      ok, next := WriteBoth(target, id, secret, w1, w2);
      if ok { UseRing(next); }
    }

    /** The target first, then the path in use; a failure leaves the old ring in memory. */
    method WriteBoth(target: Path, id: KeyId, secret: Secret, w1: Write, w2: Write) returns (ok: bool, next: Keyring)
      requires Valid() && up && MayRotate(View(), target, id)
      modifies this`files, this`rotation, this`minted
      ensures Valid() && next == NextRing(keys, id, secret) && ok == (w1.Landed? && w2.Landed?)
      ensures View() == RotateOld(RotateNew(old(View()), target, id, secret, w1), w2)
      ensures if ok then rotation == BothWritten(next) else rotation.Quiet?
      ensures ok ==> target in files && path in files && files[target] == files[path] == next
    {
      hide Inv, RotateNew;
      ok, next := WriteNew(target, id, secret, w1);
      if ok { ok := WriteOld(next, w2); }
    }

    /**
     Rotate the key. Whatever fails, the meaning of every record stays and no key is lost; success comes
     exactly when every write landed and every record opened, and then every record is under the new key
     and both files hold every key.
     */
    method RotateKey(target: Path, id: KeyId, secret: Secret, nonce: Row -> nat, w1: Write, w2: Write, w3: Write)
      returns (ok: bool)
      requires Valid() && up && rotation.Quiet? && id !in minted
      modifies this`files, this`rows, this`keys, this`rotation, this`minted
      ensures Valid() && View() == Rotate(old(View()), target, id, secret, nonce, w1, w2, w3)
      ensures ok <==> && (target == path || target !in old(files)) && w1.Landed? && w2.Landed? && w3.Landed?
                      && AllOpen(NextRing(old(keys), id, secret), old(rows))
      ensures rotation.Quiet? && rows.Keys == old(rows).Keys && Sub(old(keys).keys, keys.keys)
      ensures ok ==> keys == NextRing(old(keys), id, secret) && target in files && files[target] == files[path] == keys
      ensures ok ==> forall r :: r in rows ==> rows[r].key == id
      ensures !ok && keys == old(keys) ==> rows == old(rows)
    {
      hide Inv, AllOpen, Resealed, Switch, RotateOld, RotateNew;
      ok := SwitchRing(target, id, secret, w1, w2);
      if ok { ok := Reencrypt(nonce, w3); }
    }
  }

  /** Decrypt what a start looks at, in whatever order the tables yield it. */
  method Tries(k: Keyring, rows: map<Row, Envelope>) returns (ok: bool)
    ensures ok == Accepts(k, rows)
  {
    if k.active !in k.keys { return false; }
    var todo := rows.Keys;
    while todo != {}
      invariant todo <= rows.Keys
      invariant forall r :: r in rows && r !in todo && !r.Revision? ==> Decrypt(k, r, rows[r]).Some?
      decreases |todo|
    {
      var r :| r in todo;
      if !r.Revision? && Decrypt(k, r, rows[r]).None? { return false; }
      todo := todo - {r};
    }
    ok := true;
  }

  method CopyKeys(keys: map<KeyId, Secret>) returns (copy: map<KeyId, Secret>)
    ensures copy == keys
  {
    copy := map[];
    var todo := keys.Keys;
    while todo != {}
      invariant todo <= keys.Keys && copy.Keys == keys.Keys - todo && forall k :: k in copy ==> copy[k] == keys[k]
      decreases |todo|
    {
      var k :| k in todo;
      todo := todo - {k};
      copy := copy[k := keys[k]];
    }
  }

  /** Read and seal every row, in whatever order the table yields them; one that does not open stops the loop. */
  method SealAll(k: Keyring, rows: map<Row, Envelope>, nonce: Row -> nat)
    returns (ok: bool, records: map<Row, Envelope>)
    requires Usable(k)
    ensures ok == AllOpen(k, rows) && (ok ==> records == Resealed(k, rows, nonce))
  {
    ok, records := false, map[];
    var todo := rows.Keys;
    while todo != {}
      invariant todo <= rows.Keys && records.Keys == rows.Keys - todo
      invariant forall r :: r in records ==>
                Decrypt(k, r, rows[r]).Some? && records[r] == Reseal(k, r, rows[r], nonce(r))
      decreases |todo|
    {
      var r :| r in todo;
      todo := todo - {r};
      var content := Decrypt(k, r, rows[r]);
      if content.None? { return; }
      records := records[r := Encrypt(k, r, content.value, nonce(r))];
    }
    ok := true;
  }
}
