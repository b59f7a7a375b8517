/**
 Encrypted records and the rotation of their key. A record is sealed under one key and bound to its own
 place; the cipher is symbolic: a box opens with exactly its key and its associated data. Rotation is
 written as separate steps, since the process may die, or a write may fail, between any two of them.
 */
module Vault {
  import opened Basics

  type KeyId = string
  type Secret = nat
  type Path = string
  type Plain = seq<nat>

  /** The encrypted rows of the three tables. */
  datatype Row =
    | Credentials(id: string)
    | Revision(id: string, cluster: string, node: string)
    | Private(scope: string, kind: string, name: string)

  datatype Box = Sealed(secret: Secret, nonce: nat, bound: Row, plain: Plain)
  datatype Envelope = Envelope(key: KeyId, box: Box)
  datatype Keyring = Keyring(active: KeyId, keys: map<KeyId, Secret>)

  /** The active key is one of the keys. */
  predicate Usable(k: Keyring) { k.active in k.keys }

  function Encrypt(k: Keyring, row: Row, plain: Plain, nonce: nat): Envelope
    requires Usable(k)
  {
    Envelope(k.active, Sealed(k.keys[k.active], nonce, row, plain))
  }

  function Decrypt(k: Keyring, row: Row, e: Envelope): Option<Plain> {
    if e.key in k.keys && e.box.secret == k.keys[e.key] && e.box.bound == row then Some(e.box.plain) else None
  }

  /** Every key of `a` is in `b`. */
  predicate Sub(a: map<KeyId, Secret>, b: map<KeyId, Secret>) { forall id :: id in a ==> id in b && a[id] == b[id] }

  // ---------------------------------------------------------------- the state

  /** How far a rotation got: the new path written; both written; the new ring in use, rows not yet rewritten. */
  datatype Rotation = Quiet | NewWritten(next: Keyring) | BothWritten(next: Keyring) | Switched

  datatype Memory = Memory(keys: Keyring, path: Path, rotation: Rotation)

  /**
   History: `plain` is what each row means, `minted` every key ever made, and `last` the key path of the
   latest start.
   */
  datatype World = World(
    files: map<Path, Keyring>, rows: map<Row, Envelope>, mem: Option<Memory>,
    plain: map<Row, Plain>, minted: map<KeyId, Secret>, last: Option<Path>)

  const FreshWorld := World(map[], map[], None, map[], map[], None)

  /** The very first start creates the key file. */
  function Init(w: World, path: Path, id: KeyId, secret: Secret): World {
    if w.last.None? then
      var k := Keyring(id, map[id := secret]);
      w.(files := w.files[path := k], mem := Some(Memory(k, path, Quiet)), minted := map[id := secret],
         last := Some(path))
    else w
  }

  /** What a start tries with the ring it was given: credentials and private records, but no revisions. */
  predicate Accepts(k: Keyring, rows: map<Row, Envelope>) {
    Usable(k) && forall r :: r in rows && !r.Revision? ==> Decrypt(k, r, rows[r]).Some?
  }

  function Open(w: World, path: Path): World {
    if w.mem.None? && w.last.Some? && path in w.files && Accepts(w.files[path], w.rows)
    then w.(mem := Some(Memory(w.files[path], path, Quiet)), last := Some(path))
    else w
  }

  predicate Idle(w: World) { w.mem.Some? && w.mem.value.rotation.Quiet? && Usable(w.mem.value.keys) }

  /** A create refuses an existing row; a revision is only ever created, and refers to the row of its cluster. */
  predicate Refuses(rows: map<Row, Envelope>, row: Row, createOnly: bool) {
    || ((createOnly || row.Revision?) && row in rows)
    || (row.Revision? && Credentials(row.cluster) !in rows)
  }

  /** A statement on one row. */
  function Put(w: World, row: Row, data: Plain, nonce: nat, createOnly: bool, wr: Write): World {
    if Idle(w) && !Refuses(w.rows, row, createOnly) && Stored(wr)
    then w.(rows := w.rows[row := Encrypt(w.mem.value.keys, row, data, nonce)], plain := w.plain[row := data])
    else w
  }

  /** Only private records are ever deleted. */
  function Delete(w: World, row: Row, wr: Write): World {
    if Idle(w) && row.Private? && Stored(wr) then w.(rows := w.rows - {row}, plain := w.plain - {row}) else w
  }

  function NextRing(k: Keyring, id: KeyId, secret: Secret): Keyring { Keyring(id, k.keys[id := secret]) }

  /** The target must not exist, unless it is the path in use. Identifiers of keys are fresh. */
  predicate MayRotate(w: World, target: Path, id: KeyId) {
    Idle(w) && id !in w.minted && (target == w.mem.value.path || target !in w.files)
  }

  function RotateNew(w: World, target: Path, id: KeyId, secret: Secret, wr: Write): World {
    if MayRotate(w, target, id) then
      var next := NextRing(w.mem.value.keys, id, secret);
      w.(files := Save(w.files, target, next, wr), minted := w.minted[id := secret],
         mem := Some(w.mem.value.(rotation := if wr.Landed? then NewWritten(next) else Quiet)))
    else w
  }

  function RotateOld(w: World, wr: Write): World {
    if w.mem.Some? && w.mem.value.rotation.NewWritten? then
      var next := w.mem.value.rotation.next;
      w.(files := Save(w.files, w.mem.value.path, next, wr),
         mem := Some(w.mem.value.(rotation := if wr.Landed? then BothWritten(next) else Quiet)))
    else w
  }

  function Switch(w: World): World {
    if w.mem.Some? && w.mem.value.rotation.BothWritten?
    then w.(mem := Some(Memory(w.mem.value.rotation.next, w.mem.value.path, Switched)))
    else w
  }

  /** A row read with the ring in memory and sealed again under its active key. */
  function Reseal(k: Keyring, row: Row, e: Envelope, nonce: nat): Envelope
    requires Usable(k) && Decrypt(k, row, e).Some?
  {
    Encrypt(k, row, Decrypt(k, row, e).value, nonce)
  }

  predicate AllOpen(k: Keyring, rows: map<Row, Envelope>) { forall r :: r in rows ==> Decrypt(k, r, rows[r]).Some? }

  function Resealed(k: Keyring, rows: map<Row, Envelope>, nonce: Row -> nat): map<Row, Envelope>
    requires Usable(k) && AllOpen(k, rows)
  {
    map r | r in rows :: Reseal(k, r, rows[r], nonce(r))
  }

  /** The transaction commits all rows or none; a record that does not open, or a failure anywhere, rolls back. */
  function Commit(w: World, nonce: Row -> nat, wr: Write): World {
    if w.mem.Some? && w.mem.value.rotation.Switched? && Usable(w.mem.value.keys) then
      var k := w.mem.value.keys;
      w.(rows := if Stored(wr) && AllOpen(k, w.rows) then Resealed(k, w.rows, nonce) else w.rows,
         mem := Some(w.mem.value.(rotation := Quiet)))
    else w
  }

  /** A whole rotation: each step stops where the one before it failed. */
  function Rotate(w: World, target: Path, id: KeyId, secret: Secret, nonce: Row -> nat, w1: Write, w2: Write, w3: Write)
    : World
  {
    Commit(Switch(RotateOld(RotateNew(w, target, id, secret, w1), w2)), nonce, w3)
  }

  datatype Step =
    | SInit(path: Path, id: KeyId, secret: Secret)
    | SOpen(path: Path)
    | SCrash
    | SPut(row: Row, data: Plain, nonce: nat, createOnly: bool, wr: Write)
    | SDelete(row: Row, wr: Write)
    | SRotateNew(path: Path, id: KeyId, secret: Secret, wr: Write)
    | SRotateOld(wr: Write)
    | SSwitch
    | SCommit(nonces: Row -> nat, wr: Write)

  function Apply(w: World, s: Step): World {
    match s
    case SInit(path, id, secret) => Init(w, path, id, secret)
    case SOpen(path) => Open(w, path)
    case SCrash => w.(mem := None)
    case SPut(row, data, nonce, createOnly, wr) => Put(w, row, data, nonce, createOnly, wr)
    case SDelete(row, wr) => Delete(w, row, wr)
    case SRotateNew(path, id, secret, wr) => RotateNew(w, path, id, secret, wr)
    case SRotateOld(wr) => RotateOld(w, wr)
    case SSwitch => Switch(w)
    case SCommit(nonces, wr) => Commit(w, nonces, wr)
  }

  function Run(w: World, steps: seq<Step>): World {
    if steps == [] then w else Apply(Run(w, steps[..|steps| - 1]), steps[|steps| - 1])
  }

  // ---------------------------------------------------------------- what every step keeps

  /** Every row opens with `k`, to what it means. */
  ghost predicate Readable(k: Keyring, rows: map<Row, Envelope>, plain: map<Row, Plain>) {
    rows.Keys == plain.Keys && forall r :: r in rows ==> Decrypt(k, r, rows[r]) == Some(plain[r])
  }

  /** Every row, or every one of the kind, is sealed under a key of the ring. */
  ghost predicate Held(k: Keyring, rows: map<Row, Envelope>) { forall r :: r in rows ==> rows[r].key in k.keys }

  predicate RevisionsHeld(k: Keyring, rows: map<Row, Envelope>) {
    forall r :: r in rows && r.Revision? ==> rows[r].key in k.keys
  }

  ghost predicate OthersHeld(k: Keyring, rows: map<Row, Envelope>) {
    forall r :: r in rows && !r.Revision? ==> rows[r].key in k.keys
  }

  /** Each row holds what it means, sealed in its own place under a key that was made. */
  ghost predicate SealedOk(rows: map<Row, Envelope>, plain: map<Row, Plain>, minted: map<KeyId, Secret>) {
    && rows.Keys == plain.Keys
    && forall r :: r in rows ==> && rows[r].key in minted && rows[r].box.secret == minted[rows[r].key]
                                 && rows[r].box.bound == r && rows[r].box.plain == plain[r]
  }

  ghost predicate Next(m: Memory, next: Keyring, minted: map<KeyId, Secret>) {
    Usable(next) && Sub(m.keys.keys, next.keys) && Sub(next.keys, minted)
  }

  /** The ring in memory is the one on file, or what a rotation has made or will make of it. */
  ghost predicate MemoryOk(w: World, m: Memory) {
    && w.last == Some(m.path) && m.path in w.files && Usable(m.keys)
    && Sub(m.keys.keys, w.files[m.path].keys) && OthersHeld(m.keys, w.rows)
    && match m.rotation
       case Quiet => true
       case NewWritten(next) => Next(m, next, w.minted)
       case BothWritten(next) => Next(m, next, w.minted) && w.files[m.path] == next
       case Switched => true
  }

  ghost predicate FilesOk(w: World) {
    && (forall q :: q in w.files ==> Usable(w.files[q]) && Sub(w.files[q].keys, w.minted))
    && (w.last.Some? ==> w.last.value in w.files)
    && (w.last.None? ==> w.rows == map[] && w.mem.None? && w.files == map[])
  }

  ghost predicate Inv(w: World) {
    SealedOk(w.rows, w.plain, w.minted) && FilesOk(w) && (w.mem.Some? ==> MemoryOk(w, w.mem.value))
  }

  /** With keys that were made, a row opens exactly with a ring that holds its key, and to what it means. */
  lemma OpensIffHeld(k: Keyring, rows: map<Row, Envelope>, plain: map<Row, Plain>, minted: map<KeyId, Secret>, r: Row)
    requires SealedOk(rows, plain, minted) && Sub(k.keys, minted) && r in rows
    ensures Decrypt(k, r, rows[r]) == if rows[r].key in k.keys then Some(plain[r]) else None
  {
  }

  lemma ReadsIffHeld(k: Keyring, rows: map<Row, Envelope>, plain: map<Row, Plain>, minted: map<KeyId, Secret>)
    requires SealedOk(rows, plain, minted) && Sub(k.keys, minted)
    ensures Readable(k, rows, plain) <==> Held(k, rows)
    ensures AllOpen(k, rows) <==> Held(k, rows)
    ensures Accepts(k, rows) <==> Usable(k) && OthersHeld(k, rows)
  {
    hide Decrypt, SealedOk;
    assert rows.Keys == plain.Keys by { SameKeys(rows, plain, minted); }
    forall r | r in rows ensures Decrypt(k, r, rows[r]) == if rows[r].key in k.keys then Some(plain[r]) else None {
      OpensIffHeld(k, rows, plain, minted, r);
    }
  }

  lemma SameKeys(rows: map<Row, Envelope>, plain: map<Row, Plain>, minted: map<KeyId, Secret>)
    requires SealedOk(rows, plain, minted)
    ensures rows.Keys == plain.Keys
  {
  }

  lemma MemoryIsMinted(w: World)
    requires Inv(w) && w.mem.Some?
    ensures Sub(w.mem.value.keys.keys, w.minted) && Usable(w.mem.value.keys)
  {
    assert Sub(w.files[w.mem.value.path].keys, w.minted);
  }

  /**
   A create keeps an existing record as it was, and a revision is refused without the row of its cluster;
   anything else that reaches the table is stored in its own place under the active key, and nothing else is
   touched.
   */
  lemma PutMeans(w: World, row: Row, data: Plain, nonce: nat, createOnly: bool, wr: Write)
    requires Idle(w)
    ensures createOnly && row in w.rows ==> Put(w, row, data, nonce, createOnly, wr) == w
    ensures row.Revision? && (row in w.rows || Credentials(row.cluster) !in w.rows) ==>
              Put(w, row, data, nonce, createOnly, wr) == w
    ensures var w1 := Put(w, row, data, nonce, createOnly, wr);
            var allowed := && !(createOnly && row in w.rows)
                           && (row.Revision? ==> row !in w.rows && Credentials(row.cluster) in w.rows);
            && (allowed && wr != FailedOld ==>
                  && row in w1.rows && w1.rows[row].key == w.mem.value.keys.active
                  && Decrypt(w.mem.value.keys, row, w1.rows[row]) == Some(data) && w1.plain == w.plain[row := data])
            && (forall r :: r != row ==> (r in w1.rows <==> r in w.rows) && (r in w1.rows ==> w1.rows[r] == w.rows[r]))
            && w1.mem == w.mem && w1.files == w.files
  {
  }

  /** What is sealed for one row opens there with the key it was sealed under, and nowhere else. */
  lemma OpensInPlace(k: Keyring, row: Row, data: Plain, nonce: nat, reader: Keyring, at: Row)
    requires Usable(k)
    ensures Decrypt(reader, at, Encrypt(k, row, data, nonce)) ==
            if at == row && k.active in reader.keys && reader.keys[k.active] == k.keys[k.active] then Some(data)
            else None
  {
  }

  lemma PutKeeps(w: World, row: Row, data: Plain, nonce: nat, createOnly: bool, wr: Write)
    requires Inv(w)
    ensures Inv(Put(w, row, data, nonce, createOnly, wr))
  {
    if Idle(w) { MemoryIsMinted(w); }
  }

  lemma OpenKeeps(w: World, path: Path)
    requires Inv(w)
    ensures Inv(Open(w, path))
  {
    if Open(w, path) != w {
      ReadsIffHeld(w.files[path], w.rows, w.plain, w.minted);
      hide SealedOk, Decrypt;
    }
  }

  lemma RotateNewKeeps(w: World, target: Path, id: KeyId, secret: Secret, wr: Write)
    requires Inv(w)
    ensures Inv(RotateNew(w, target, id, secret, wr))
  {
    hide OthersHeld, SealedOk, Usable;
    if MayRotate(w, target, id) {
      MemoryIsMinted(w);
      MintKeeps(w, id, secret);
      NextIsUsable(w.mem.value.keys, id, secret);
    }
  }

  lemma NextIsUsable(k: Keyring, id: KeyId, secret: Secret)
    ensures Usable(NextRing(k, id, secret)) && (id !in k.keys ==> Sub(k.keys, NextRing(k, id, secret).keys))
  {
  }

  /** A new key leaves what the other keys seal and where they are as it was. */
  lemma MintKeeps(w: World, id: KeyId, secret: Secret)
    requires SealedOk(w.rows, w.plain, w.minted) && FilesOk(w) && id !in w.minted
    ensures SealedOk(w.rows, w.plain, w.minted[id := secret]) && FilesOk(w.(minted := w.minted[id := secret]))
  {
  }

  lemma RotateOldKeeps(w: World, wr: Write)
    requires Inv(w)
    ensures Inv(RotateOld(w, wr))
  {
    hide SealedOk, OthersHeld;
  }

  lemma SwitchKeeps(w: World)
    requires Inv(w)
    ensures Inv(Switch(w))
  {
    hide SealedOk;
  }

  /** Resealing changes no meaning, and puts every row under the active key. */
  lemma ResealedOk(k: Keyring, rows: map<Row, Envelope>, plain: map<Row, Plain>, minted: map<KeyId, Secret>,
                   nonce: Row -> nat)
    requires Usable(k) && Sub(k.keys, minted) && SealedOk(rows, plain, minted) && Held(k, rows)
    ensures AllOpen(k, rows) && SealedOk(Resealed(k, rows, nonce), plain, minted)
    ensures Resealed(k, rows, nonce).Keys == rows.Keys
    ensures forall r :: r in rows ==> Resealed(k, rows, nonce)[r].key == k.active
  {
  }

  lemma CommitKeeps(w: World, nonce: Row -> nat, wr: Write)
    requires Inv(w)
    ensures Inv(Commit(w, nonce, wr))
  {
    if Commit(w, nonce, wr) != w {
      MemoryIsMinted(w);
      var k := w.mem.value.keys;
      ReadsIffHeld(k, w.rows, w.plain, w.minted);
      if AllOpen(k, w.rows) { ResealedOk(k, w.rows, w.plain, w.minted, nonce); }
      hide SealedOk, Resealed, AllOpen, Decrypt;
    }
  }

  lemma StepKeeps(w: World, s: Step)
    requires Inv(w)
    ensures Inv(Apply(w, s))
  {
    match s
    case SOpen(path) => OpenKeeps(w, path);
    case SPut(row, data, nonce, createOnly, wr) => PutKeeps(w, row, data, nonce, createOnly, wr);
    case SRotateNew(path, id, secret, wr) => RotateNewKeeps(w, path, id, secret, wr);
    case SRotateOld(wr) => RotateOldKeeps(w, wr);
    case SSwitch => SwitchKeeps(w);
    case SCommit(nonces, wr) => CommitKeeps(w, nonces, wr);
    case _ =>
  }

  lemma {:induction false} RunKeeps(steps: seq<Step>)
    ensures Inv(Run(FreshWorld, steps))
  {
    if steps != [] {
      RunKeeps(steps[..|steps| - 1]);
      hide Inv;
      StepKeeps(Run(FreshWorld, steps[..|steps| - 1]), steps[|steps| - 1]);
    }
  }

  // ---------------------------------------------------------------- the promises

  /** The ring on file at the path in use, and the ring in memory, hold the key of every record. */
  ghost predicate Sound(w: World) {
    && (w.last.Some? ==> w.last.value in w.files && Held(w.files[w.last.value], w.rows))
    && (w.mem.Some? ==> Held(w.mem.value.keys, w.rows))
  }

  /** The step is not a start that is accepted with a ring that lacks the key of some revision. */
  predicate StartsWell(w: World, s: Step) {
    s.SOpen? && Open(w, s.path) != w && s.path in w.files ==> RevisionsHeld(w.files[s.path], w.rows)
  }

  /**
   A start that is accepted reads every record if and only if its ring holds the keys of all revisions,
   which the start itself does not try.
   */
  lemma OpenReadsIff(steps: seq<Step>, path: Path)
    requires var w := Run(FreshWorld, steps); w.mem.None? && Open(w, path) != w && path in w.files
    ensures var w, w1 := Run(FreshWorld, steps), Open(Run(FreshWorld, steps), path);
            && w1.mem.Some? && w1.rows == w.rows && w1.plain == w.plain
            && (Readable(w1.mem.value.keys, w1.rows, w1.plain) <==> RevisionsHeld(w.files[path], w.rows))
  {
    RunKeeps(steps);
    var w := Run(FreshWorld, steps);
    ReadsIffHeld(w.files[path], w.rows, w.plain, w.minted);
  }

  lemma OpenSound(w: World, path: Path)
    requires Inv(w) && Sound(w) && StartsWell(w, SOpen(path))
    ensures Sound(Open(w, path))
  {
    if Open(w, path) != w {
      ReadsIffHeld(w.files[path], w.rows, w.plain, w.minted);
      hide SealedOk, Decrypt;
    }
  }

  lemma CommitSound(w: World, nonce: Row -> nat, wr: Write)
    requires Inv(w) && Sound(w)
    ensures Sound(Commit(w, nonce, wr))
  {
    if Commit(w, nonce, wr) != w {
      MemoryIsMinted(w);
      var k := w.mem.value.keys;
      ReadsIffHeld(k, w.rows, w.plain, w.minted);
      ResealedOk(k, w.rows, w.plain, w.minted, nonce);
      hide SealedOk, Resealed, AllOpen, Decrypt;
    }
  }

  lemma StepSound(w: World, s: Step)
    requires Inv(w) && Sound(w) && StartsWell(w, s)
    ensures Sound(Apply(w, s))
  {
    match s
    case SOpen(path) => OpenSound(w, path);
    case SCommit(nonces, wr) => CommitSound(w, nonces, wr);
    case _ => hide SealedOk, OthersHeld;
  }

  ghost predicate StartWell(steps: seq<Step>) {
    forall i :: 0 <= i < |steps| ==> StartsWell(Run(FreshWorld, steps[..i]), steps[i])
  }

  lemma StartWellFront(steps: seq<Step>)
    requires StartWell(steps) && steps != []
    ensures StartWell(steps[..|steps| - 1]) && StartsWell(Run(FreshWorld, steps[..|steps| - 1]), steps[|steps| - 1])
  {
    hide Run, StartsWell;
    assert forall i :: 0 <= i < |steps| - 1 ==> steps[..|steps| - 1][..i] == steps[..i];
  }

  lemma {:induction false} RunSound(steps: seq<Step>)
    requires StartWell(steps)
    ensures Inv(Run(FreshWorld, steps)) && Sound(Run(FreshWorld, steps))
  {
    RunKeeps(steps);
    if steps != [] {
      StartWellFront(steps);
      hide Inv, Sound, Apply, StartsWell, StartWell;
      RunSound(steps[..|steps| - 1]);
      StepSound(Run(FreshWorld, steps[..|steps| - 1]), steps[|steps| - 1]);
    }
  }

  /**
   At every point of every run, rotation included, with every start made from a ring that holds the keys of
   all revisions: each record opens to its unchanged meaning with the key file of the path in use, and with
   the ring in memory if the store is open.
   */
  lemma EveryCrashPoint(steps: seq<Step>)
    requires StartWell(steps)
    ensures var w := Run(FreshWorld, steps);
            && (w.last.Some? ==> w.last.value in w.files && Readable(w.files[w.last.value], w.rows, w.plain))
            && (w.mem.Some? ==> w.last == Some(w.mem.value.path) && Readable(w.mem.value.keys, w.rows, w.plain))
  {
    RunSound(steps);
    var w := Run(FreshWorld, steps);
    if w.last.Some? { ReadsIffHeld(w.files[w.last.value], w.rows, w.plain, w.minted); }
    if w.mem.Some? {
      MemoryIsMinted(w);
      ReadsIffHeld(w.mem.value.keys, w.rows, w.plain, w.minted);
    }
  }

  /** Dying anywhere and starting again from the path in use gives a store that reads every record. */
  lemma ReopenReads(steps: seq<Step>)
    requires StartWell(steps) && Run(FreshWorld, steps).last.Some?
    ensures var w := Run(FreshWorld, steps);
            var w1 := Open(w.(mem := None), w.last.value);
            && w1.mem.Some? && w1.mem.value.path == w.last.value && w1.plain == w.plain && w1.rows == w.rows
            && Readable(w1.mem.value.keys, w1.rows, w1.plain)
  {
    RunSound(steps);
    var w := Run(FreshWorld, steps);
    ReadsIffHeld(w.files[w.last.value], w.rows, w.plain, w.minted);
    assert Held(w.files[w.last.value], w.rows);
  }

  lemma RotateIsARun(w: World, target: Path, id: KeyId, secret: Secret, nonce: Row -> nat, w1: Write, w2: Write,
                     w3: Write)
    ensures var steps := [SRotateNew(target, id, secret, w1), SRotateOld(w2), SSwitch, SCommit(nonce, w3)];
            Run(w, steps) == Rotate(w, target, id, secret, nonce, w1, w2, w3)
  {
    hide RotateNew, RotateOld, Switch, Commit;
    var steps := [SRotateNew(target, id, secret, w1), SRotateOld(w2), SSwitch, SCommit(nonce, w3)];
    assert steps[..3][..2] == steps[..2] && steps[..2][..1] == steps[..1] && steps[..1][..0] == [];
    assert Run(w, steps[..1]) == RotateNew(w, target, id, secret, w1);
    assert Run(w, steps[..2]) == RotateOld(Run(w, steps[..1]), w2);
    assert Run(w, steps[..3]) == Switch(Run(w, steps[..2]));
  }

  /** After the commit every record is under the new key, both files hold it, and no earlier key is gone. */
  lemma AfterCommit(w: World, target: Path, id: KeyId, secret: Secret, nonce: Row -> nat)
    requires Inv(w) && MayRotate(w, target, id) && Held(w.mem.value.keys, w.rows)
    ensures var w1 := Rotate(w, target, id, secret, nonce, Landed, Landed, Landed);
            && w1.plain == w.plain && w1.rows.Keys == w.rows.Keys && w1.mem.Some?
            && w1.mem.value.path == w.mem.value.path
            && w1.mem.value.keys == NextRing(w.mem.value.keys, id, secret)
            && Sub(w.mem.value.keys.keys, w1.mem.value.keys.keys)
            && {target, w.mem.value.path} <= w1.files.Keys
            && w1.files[target] == w1.files[w.mem.value.path] == w1.mem.value.keys
            && (forall r :: r in w1.rows ==> w1.rows[r].key == id)
            && Readable(w1.files[target], w1.rows, w1.plain)
  {
    hide SealedOk, AllOpen, Decrypt, Resealed, RotateNew, RotateOld, Switch, Readable, MemoryOk, FilesOk;
    MemoryIsMinted(w);
    var next := NextRing(w.mem.value.keys, id, secret);
    var c := UpToSwitch(w, target, id, secret);
    SwitchedFacts(w, target, id, secret);
    MemoryIsMinted(c);
    ResealedOk(next, c.rows, c.plain, c.minted, nonce);
    ReadsIffHeld(next, Resealed(next, c.rows, nonce), c.plain, c.minted);
  }

  function UpToSwitch(w: World, target: Path, id: KeyId, secret: Secret): World {
    Switch(RotateOld(RotateNew(w, target, id, secret, Landed), Landed))
  }

  lemma SwitchedFacts(w: World, target: Path, id: KeyId, secret: Secret)
    requires Inv(w) && MayRotate(w, target, id) && Held(w.mem.value.keys, w.rows)
    ensures var next := NextRing(w.mem.value.keys, id, secret);
            && UpToSwitch(w, target, id, secret) ==
               w.(files := w.files[target := next][w.mem.value.path := next], minted := w.minted[id := secret],
                  mem := Some(Memory(next, w.mem.value.path, Switched)))
            && Inv(UpToSwitch(w, target, id, secret)) && Held(next, w.rows)
  {
    var a := RotateNew(w, target, id, secret, Landed);
    RotateNewKeeps(w, target, id, secret, Landed);
    RotateOldKeeps(a, Landed);
    SwitchKeeps(RotateOld(a, Landed));
    hide SealedOk, MemoryOk, FilesOk;
  }

  // ---------------------------------------------------------------- a start that misses a revision

  const Cluster := Credentials("c")
  const Lost := Revision("r", "c", "n")

  lemma RunSnoc(steps: seq<Step>, s: Step)
    ensures Run(FreshWorld, steps + [s]) == Apply(Run(FreshWorld, steps), s)
  {
    hide Apply;
    assert (steps + [s])[..|steps|] == steps;
  }

  const Ring1 := Keyring("1", map["1" := 1])
  const Ring12 := Keyring("22", map["1" := 1, "22" := 2])
  const Ring13 := Keyring("333", map["1" := 1, "333" := 3])
  const ClusterRow: map<Row, Envelope> := map[Cluster := Envelope("1", Sealed(1, 0, Cluster, []))]
  const ClusterPlain: map<Row, Plain> := map[Cluster := []]

  /** The store of one cluster, open with the first ring. */
  function OneCluster(files: map<Path, Keyring>, minted: map<KeyId, Secret>): World {
    World(files, ClusterRow, Some(Memory(Ring1, "a", Quiet)), ClusterPlain, minted, Some("a"))
  }

  lemma Begins() returns (steps: seq<Step>)
    ensures Run(FreshWorld, steps) ==
            World(map["a" := Ring1], map[], Some(Memory(Ring1, "a", Quiet)), map[], map["1" := 1], Some("a"))
  {
    steps := [SInit("a", "1", 1)];
    assert [] + steps == steps;
    RunSnoc([], SInit("a", "1", 1));
  }

  lemma AddsCluster() returns (steps: seq<Step>)
    ensures Run(FreshWorld, steps) == OneCluster(map["a" := Ring1], map["1" := 1])
  {
    steps := Begins();
    RunSnoc(steps, SPut(Cluster, [], 0, true, Landed));
    hide Run;
    steps := steps + [SPut(Cluster, [], 0, true, Landed)];
  }

  /** A rotation to "b" fails after its file landed. */
  lemma FailsOnce() returns (steps: seq<Step>)
    ensures Run(FreshWorld, steps) == OneCluster(map["a" := Ring1, "b" := Ring12], map["1" := 1, "22" := 2])
  {
    steps := AddsCluster();
    RunSnoc(steps, SRotateNew("b", "22", 2, FailedNew));
    hide Run;
    Rings();
    steps := steps + [SRotateNew("b", "22", 2, FailedNew)];
  }

  lemma RunsUpToSwitch(steps: seq<Step>, target: Path, id: KeyId, secret: Secret) returns (more: seq<Step>)
    ensures Run(FreshWorld, more) == UpToSwitch(Run(FreshWorld, steps), target, id, secret)
  {
    hide Run, RotateNew, RotateOld, Switch;
    more := steps + [SRotateNew(target, id, secret, Landed)];
    RunSnoc(steps, SRotateNew(target, id, secret, Landed));
    RunSnoc(more, SRotateOld(Landed));
    more := more + [SRotateOld(Landed)];
    RunSnoc(more, SSwitch);
    more := more + [SSwitch];
  }

  /** The files at the end; "b" was left behind. */
  const LeftBehind := map["a" := Ring13, "b" := Ring12, "c" := Ring13]
  const Minted := map["1" := 1, "22" := 2, "333" := 3]

  lemma Rings()
    ensures "b" !in map["a" := Ring1] && "22" !in map["1" := 1]
    ensures NextRing(Ring1, "22", 2) == Ring12 && map["1" := 1]["22" := 2] == map["1" := 1, "22" := 2]
    ensures map["a" := Ring1]["b" := Ring12] == map["a" := Ring1, "b" := Ring12]
    ensures "c" !in map["a" := Ring1, "b" := Ring12] && "333" !in map["1" := 1, "22" := 2]
    ensures NextRing(Ring1, "333", 3) == Ring13 && map["1" := 1, "22" := 2]["333" := 3] == Minted
    ensures map["a" := Ring1, "b" := Ring12]["c" := Ring13]["a" := Ring13] == LeftBehind
    ensures "333" !in Ring12.keys && "b" in LeftBehind && LeftBehind["b"] == Ring12
  {
    assert "a"[0] != "b"[0] && "b"[0] != "c"[0] && "a"[0] != "c"[0] && |"1"| == 1 && |"22"| == 2 && |"333"| == 3;
  }

  /** The next one, to "c", goes through up to the switch. */
  lemma MovesOn() returns (steps: seq<Step>)
    ensures Run(FreshWorld, steps) ==
            World(LeftBehind, ClusterRow, Some(Memory(Ring13, "a", Switched)), ClusterPlain, Minted, Some("a"))
  {
    hide Run, UpToSwitch, Inv;
    steps := FailsOnce();
    var w := Run(FreshWorld, steps);
    RunKeeps(steps);
    Rings();
    SwitchedFacts(w, "c", "333", 3);
    steps := RunsUpToSwitch(steps, "c", "333", 3);
  }

  /** Its commit rolls back, and the ring in memory stays the new one. */
  lemma RollsBack() returns (steps: seq<Step>)
    ensures Run(FreshWorld, steps) ==
            World(LeftBehind, ClusterRow, Some(Memory(Ring13, "a", Quiet)), ClusterPlain, Minted, Some("a"))
  {
    steps := MovesOn();
    RunSnoc(steps, SCommit(_ => 0, FailedOld));
    hide Run;
    steps := steps + [SCommit(_ => 0, FailedOld)];
  }

  /** A revision of the cluster is then sealed under the newest key, and the process dies. */
  lemma AddsRevision() returns (steps: seq<Step>)
    ensures Run(FreshWorld, steps) ==
            World(LeftBehind, ClusterRow[Lost := Envelope("333", Sealed(3, 0, Lost, [7]))], None,
                  ClusterPlain[Lost := [7]], Minted, Some("a"))
  {
    steps := RollsBack();
    assert Ring13.keys["333"] == 3 && Lost !in ClusterRow;
    RunSnoc(steps, SPut(Lost, [7], 0, true, Landed));
    hide Run;
    steps := steps + [SPut(Lost, [7], 0, true, Landed)];
    RunSnoc(steps, SCrash);
    steps := steps + [SCrash];
  }

  /**
   A key file left by a rotation that failed stays behind. A later rotation moves on, its commit rolls back,
   and a revision is sealed under the newest key. A start from the file left behind opens the credentials
   of every cluster, is accepted, and cannot read that revision.
   */
  lemma FileLeftBehindMissesRevision() returns (steps: seq<Step>)
    ensures var w := Run(FreshWorld, steps);
            && w.mem.Some? && w.mem.value.path == "b" && Lost in w.rows && Credentials(Lost.cluster) in w.rows
            && Decrypt(w.mem.value.keys, Lost, w.rows[Lost]).None? && !Readable(w.mem.value.keys, w.rows, w.plain)
  {
    steps := AddsRevision();
    Rings();
    var w := Run(FreshWorld, steps);
    assert Ring12.keys["1"] == 1 && Accepts(Ring12, w.rows);
    RunSnoc(steps, SOpen("b"));
    hide Run;
    steps := steps + [SOpen("b")];
  }
}
