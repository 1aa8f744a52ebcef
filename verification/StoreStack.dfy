/** The store stack: a cache over padded CBC encryption over a map. The block cipher is any
    pair of functions on 16-byte blocks of which one undoes the other. */
module StoreStack {
  import opened Options

  const BLOCK := 16

  type Bytes = seq<bv8>

  type Block = b: Bytes | |b| == BLOCK witness seq(BLOCK, _ => 0)

  function Zero(): Block { seq(BLOCK, _ => 0) }

  /** A block cipher under one key. */
  datatype Cipher = Cipher(encrypt: Block -> Block, decrypt: Block -> Block)

  ghost predicate Inverts(cipher: Cipher, b: Block) {
    cipher.decrypt(cipher.encrypt(b)) == b
  }

  ghost predicate Sound(cipher: Cipher) {
    forall b: Block :: Inverts(cipher, b)
  }

  // ---------------------------------------------------------------- padding

  /** Section 6.3 of RFC 5652: between 1 and 16 bytes, each the number of them. */
  function Pad(data: Bytes): (padded: Bytes)
    ensures |padded| % BLOCK == 0 && |data| < |padded| <= |data| + BLOCK
    ensures data == padded[..|data|]
  {
    var padding := BLOCK - |data| % BLOCK;
    data + seq(padding, _ => padding as bv8)
  }

  /** None stands for the process stopping: nothing to read, or "invalid padding". */
  function Unpad(padded: Bytes): Option<Bytes> {
    if padded == [] then None
    else
      var unpadding := padded[|padded| - 1] as int;
      if unpadding > BLOCK || unpadding == 0 || unpadding > |padded| then None
      else Some(padded[..|padded| - unpadding])
  }

  /** Padding is undone for every byte string, the empty one included. */
  lemma UnpadPad(data: Bytes)
    ensures Unpad(Pad(data)) == Some(data)
  {
    var padding := BLOCK - |data| % BLOCK;
    var padded := Pad(data);
    assert padded[|padded| - 1] == padding as bv8;
    assert (padding as bv8) as int == padding;
    assert padded[..|padded| - padding] == data;
  }

  /** Whether every byte that unpadding drops is the number of them. */
  ghost predicate Filled(padded: Bytes)
    requires padded != []
  {
    var n := padded[|padded| - 1] as int;
    n <= |padded| && forall i :: |padded| - n <= i < |padded| ==> padded[i] == padded[|padded| - 1]
  }

  lemma ByteBack(last: bv8, n: nat)
    requires n == last as int
    ensures n as bv8 == last
  {
  }

  /** The filler that padding would put back. */
  lemma PadUnpadded(padded: Bytes, n: nat)
    requires |padded| % BLOCK == 0 && 0 < n <= BLOCK && n <= |padded| && n == padded[|padded| - 1] as int
    ensures Pad(padded[..|padded| - n]) == padded[..|padded| - n] + seq(n, _ => padded[|padded| - 1])
  {
    var last := padded[|padded| - 1];
    ByteBack(last, n);
    RoundUp(|padded|, n);
    PadOf(padded[..|padded| - n], n);
    SameFiller(n, n as bv8, last);
  }

  lemma RoundUp(total: nat, n: nat)
    requires total % BLOCK == 0 && 0 < n <= BLOCK && n <= total
    ensures BLOCK - (total - n) % BLOCK == n
  {
  }

  lemma PadOf(data: Bytes, n: nat)
    requires n == BLOCK - |data| % BLOCK
    ensures Pad(data) == data + seq(n, _ => n as bv8)
  {
  }

  lemma SameFiller(n: nat, b: bv8, last: bv8)
    requires b == last
    ensures seq(n, _ => b) == seq(n, _ => last)
  {
  }

  lemma FillerAtTheEnd(padded: Bytes, n: nat, last: bv8)
    requires n <= |padded|
    ensures seq(n, _ => last) == padded[|padded| - n..] <==> forall i :: |padded| - n <= i < |padded| ==> padded[i] == last
  {
    var end := padded[|padded| - n..];
    forall i | |padded| - n <= i < |padded| ensures padded[i] == end[i - (|padded| - n)] {}
  }

  /** Only the last byte of the filler is checked, so unpadding accepts more than padding
      makes: padding gives the same whole blocks back exactly when the filler is right. */
  lemma PadUnpad(padded: Bytes)
    requires |padded| % BLOCK == 0 && Unpad(padded).Some?
    ensures Pad(Unpad(padded).value) == padded <==> Filled(padded)
  {
    var last := padded[|padded| - 1];
    var n := last as int;
    PadUnpadded(padded, n);
    FillerAtTheEnd(padded, n, last);
    var data, end := padded[..|padded| - n], padded[|padded| - n..];
    assert padded == data + end;
    assert (data + seq(n, _ => last))[|data|..] == seq(n, _ => last);
  }

  // ---------------------------------------------------------------- chaining

  function Xor(a: Block, b: Block): (x: Block)
    ensures forall i :: 0 <= i < BLOCK ==> x[i] == a[i] ^ b[i]
  {
    seq(BLOCK, i requires 0 <= i < BLOCK => a[i] ^ b[i])
  }

  lemma XorByteTwice(x: bv8, y: bv8)
    ensures (x ^ y) ^ y == x
  {
  }

  lemma XorTwice(a: Block, b: Block)
    ensures Xor(Xor(a, b), b) == a
  {
    forall i | 0 <= i < BLOCK ensures Xor(Xor(a, b), b)[i] == a[i] { XorByteTwice(a[i], b[i]); }
  }

  /** Section 6.2 of NIST SP 800-38A: each block is combined with the ciphertext before it. */
  function CbcEncrypt(cipher: Cipher, iv: Block, data: Bytes): (out: Bytes)
    requires |data| % BLOCK == 0
    ensures |out| == |data|
    decreases |data|
  {
    if data == [] then []
    else
      var first := cipher.encrypt(Xor(data[..BLOCK], iv));
      first + CbcEncrypt(cipher, first, data[BLOCK..])
  }

  function CbcDecrypt(cipher: Cipher, iv: Block, data: Bytes): (out: Bytes)
    requires |data| % BLOCK == 0
    ensures |out| == |data|
    decreases |data|
  {
    if data == [] then []
    else Xor(cipher.decrypt(data[..BLOCK]), iv) + CbcDecrypt(cipher, data[..BLOCK], data[BLOCK..])
  }

  lemma EncryptNext(cipher: Cipher, iv: Block, data: Bytes, block: Block, rest: Bytes)
    requires data == block + rest && |data| % BLOCK == 0
    ensures var first := cipher.encrypt(Xor(block, iv)); CbcEncrypt(cipher, iv, data) == first + CbcEncrypt(cipher, first, rest)
  {
    assert data[..BLOCK] == block && data[BLOCK..] == rest;
  }

  /** One block more of a buffer. */
  lemma {:induction false} EncryptAt(cipher: Cipher, last: Block, padded: Bytes, i: nat, sealed: Bytes)
    requires |padded| % BLOCK == 0 && i % BLOCK == 0 && i < |padded|
    ensures i + BLOCK <= |padded| && (i + BLOCK) % BLOCK == 0
    ensures var next: Block := cipher.encrypt(Xor(padded[i..i + BLOCK], last));
      sealed + CbcEncrypt(cipher, last, padded[i..]) == sealed + next + CbcEncrypt(cipher, next, padded[i + BLOCK..])
  {
    var (block, rest) := (padded[i..i + BLOCK], padded[i + BLOCK..]);
    assert padded[i..] == block + rest;
    EncryptNext(cipher, last, padded[i..], block, rest);
    var next: Block := cipher.encrypt(Xor(block, last));
    assert sealed + (next + CbcEncrypt(cipher, next, rest)) == sealed + next + CbcEncrypt(cipher, next, rest);
  }

  lemma DecryptNext(cipher: Cipher, iv: Block, data: Bytes, block: Block, rest: Bytes)
    requires data == block + rest && |data| % BLOCK == 0
    ensures CbcDecrypt(cipher, iv, data) == Xor(cipher.decrypt(block), iv) + CbcDecrypt(cipher, block, rest)
  {
    assert data[..BLOCK] == block && data[BLOCK..] == rest;
  }

  lemma {:induction false} DecryptEncrypt(cipher: Cipher, iv: Block, data: Bytes)
    requires Sound(cipher) && |data| % BLOCK == 0
    ensures CbcDecrypt(cipher, iv, CbcEncrypt(cipher, iv, data)) == data
    decreases |data|
  {
    if data != [] {
      var mixed := Xor(data[..BLOCK], iv);
      var first := cipher.encrypt(mixed);
      var out := CbcEncrypt(cipher, iv, data);
      assert out[..BLOCK] == first && out[BLOCK..] == CbcEncrypt(cipher, first, data[BLOCK..]);
      assert Inverts(cipher, mixed);
      XorTwice(data[..BLOCK], iv);
      DecryptEncrypt(cipher, first, data[BLOCK..]);
    }
  }

  // ---------------------------------------------------------------- what is stored

  function Seal(cipher: Cipher, iv: Block, data: Bytes): Bytes {
    iv + CbcEncrypt(cipher, iv, Pad(data))
  }

  /** None stands for the process stopping: no vector, a part of a block, or no padding. */
  function Unseal(cipher: Cipher, sealed: Bytes): Option<Bytes> {
    if |sealed| < BLOCK || |sealed| % BLOCK != 0 then None
    else Unpad(CbcDecrypt(cipher, sealed[..BLOCK], sealed[BLOCK..]))
  }

  lemma SealLength(cipher: Cipher, iv: Block, data: Bytes)
    ensures |Seal(cipher, iv, data)| > BLOCK && |Seal(cipher, iv, data)| % BLOCK == 0
  {
  }

  /** Whatever the initialisation vector, what was sealed unseals. */
  lemma UnsealSeal(cipher: Cipher, iv: Block, data: Bytes)
    requires Sound(cipher)
    ensures Unseal(cipher, Seal(cipher, iv, data)) == Some(data)
  {
    var sealed := Seal(cipher, iv, data);
    SealLength(cipher, iv, data);
    assert sealed[..BLOCK] == iv && sealed[BLOCK..] == CbcEncrypt(cipher, iv, Pad(data));
    DecryptEncrypt(cipher, iv, Pad(data));
    UnpadPad(data);
  }

  // ---------------------------------------------------------------- runs of the stack

  /** The map at the bottom and the cache at the top. */
  datatype Stack = Stack(stored: map<string, Bytes>, cache: map<string, Bytes>)

  datatype Operation =
    | Put(key: string, data: Bytes, iv: Block) // iv: the random vector drawn for it
    | Get(key: string)
    | Delete(key: string)
    | Restart // a new process puts an empty cache over the store it finds

  datatype Answer = Done | Found(data: Bytes) | NotFound | Stopped

  function Perform(cipher: Cipher, stack: Stack, operation: Operation): (Stack, Answer) {
    match operation
    case Put(key, data, iv) =>
      (Stack(stack.stored[key := Seal(cipher, iv, data)], stack.cache[key := data]), Done)
    case Get(key) =>
      if key in stack.cache then (stack, Found(stack.cache[key]))
      else if key !in stack.stored then (stack, NotFound)
      else
        var data := Unseal(cipher, stack.stored[key]);
        if data.None? then (stack, Stopped)
        else (stack.(cache := stack.cache[key := data.value]), Found(data.value))
    case Delete(key) =>
      (Stack(stack.stored - {key}, stack.cache - {key}), Done)
    case Restart => (stack.(cache := map[]), Done)
  }

  /** What a plain map does. */
  function PerformPlain(plain: map<string, Bytes>, operation: Operation): (map<string, Bytes>, Answer) {
    match operation
    case Put(key, data, _) => (plain[key := data], Done)
    case Get(key) => (plain, if key in plain then Found(plain[key]) else NotFound)
    case Delete(key) => (plain - {key}, Done)
    case Restart => (plain, Done)
  }

  function Answers(cipher: Cipher, stack: Stack, operations: seq<Operation>): seq<Answer>
    decreases |operations|
  {
    if operations == [] then []
    else
      var (next, answer) := Perform(cipher, stack, operations[0]);
      [answer] + Answers(cipher, next, operations[1..])
  }

  function AnswersPlain(plain: map<string, Bytes>, operations: seq<Operation>): seq<Answer>
    decreases |operations|
  {
    if operations == [] then []
    else
      var (next, answer) := PerformPlain(plain, operations[0]);
      [answer] + AnswersPlain(next, operations[1..])
  }

  /** One key: stored exactly when put, as something that unseals to what was put. */
  ghost predicate Agrees(cipher: Cipher, stack: Stack, plain: map<string, Bytes>, key: string) {
    && (key in stack.stored <==> key in plain)
    && (key in plain ==> Unseal(cipher, stack.stored[key]) == Some(plain[key]))
    && (key in stack.cache ==> key in plain && stack.cache[key] == plain[key])
  }

  ghost predicate Hides(cipher: Cipher, stack: Stack, plain: map<string, Bytes>) {
    forall key :: Agrees(cipher, stack, plain, key)
  }

  lemma PerformHides(cipher: Cipher, stack: Stack, plain: map<string, Bytes>, operation: Operation)
    requires Sound(cipher) && Hides(cipher, stack, plain)
    ensures Hides(cipher, Perform(cipher, stack, operation).0, PerformPlain(plain, operation).0)
    ensures Perform(cipher, stack, operation).1 == PerformPlain(plain, operation).1
  {
    var next, nextPlain := Perform(cipher, stack, operation).0, PerformPlain(plain, operation).0;
    match operation {
      case Put(_, data, iv) => UnsealSeal(cipher, iv, data);
      case Get(key) => assert Agrees(cipher, stack, plain, key);
      case _ =>
    }
    forall key ensures Agrees(cipher, next, nextPlain, key) {
      assert Agrees(cipher, stack, plain, key);
    }
  }

  lemma {:induction false} AnswersAgree(cipher: Cipher, stack: Stack, plain: map<string, Bytes>, operations: seq<Operation>)
    requires Sound(cipher) && Hides(cipher, stack, plain)
    ensures Answers(cipher, stack, operations) == AnswersPlain(plain, operations)
    decreases |operations|
  {
    if operations != [] {
      PerformHides(cipher, stack, plain, operations[0]);
      AnswersAgree(cipher, Perform(cipher, stack, operations[0]).0,
                   PerformPlain(plain, operations[0]).0, operations[1..]);
    }
  }

  ghost predicate AnswersLikeMap(cipher: Cipher, operations: seq<Operation>) {
    Answers(cipher, Stack(map[], map[]), operations) == AnswersPlain(map[], operations)
  }

  /** A block that does not come back spoils what is sealed from it. */
  lemma SpoiledBlock(cipher: Cipher, b: Block)
    requires !Inverts(cipher, b)
    ensures Unseal(cipher, Seal(cipher, Zero(), b)) != Some(b)
  {
    var (padded, sealed) := (Pad(b), Seal(cipher, Zero(), b));
    var first := cipher.encrypt(b);
    assert padded[..BLOCK] == b && |padded| == 2 * BLOCK;
    XorZero(b);
    var out := CbcEncrypt(cipher, Zero(), padded);
    assert sealed[..BLOCK] == Zero() && sealed[BLOCK..] == out && out[..BLOCK] == first;
    XorZero(cipher.decrypt(first));
    var back := CbcDecrypt(cipher, Zero(), out);
    assert back[..BLOCK] == cipher.decrypt(first);
    assert |back| == 2 * BLOCK;
    assert Unpad(back).Some? && |Unpad(back).value| == BLOCK ==> Unpad(back).value == back[..BLOCK];
  }

  lemma XorZero(b: Block)
    ensures Xor(b, Zero()) == b
  {
    assert forall i :: 0 <= i < BLOCK ==> b[i] ^ Zero()[i] == b[i];
  }

  /** A put, a new process, a get. */
  function Reread(b: Block): seq<Operation> { [Put("", b, Zero()), Restart, Get("")] }

  lemma RereadSpoiled(cipher: Cipher, b: Block)
    requires !Inverts(cipher, b)
    ensures !AnswersLikeMap(cipher, Reread(b))
  {
    SpoiledBlock(cipher, b);
    var sealed := Seal(cipher, Zero(), b);
    var (one, two) := (Stack(map["" := sealed], map["" := b]), Stack(map["" := sealed], map[]));
    var (rest, last) := (Reread(b)[1..], [Get("")]);
    assert rest == [Restart, Get("")] && rest[1..] == last;
    assert Perform(cipher, Stack(map[], map[]), Reread(b)[0]) == (one, Done);
    assert Perform(cipher, one, Restart) == (two, Done);
    assert Answers(cipher, two, last)[0] != Found(b);
    assert Answers(cipher, Stack(map[], map[]), Reread(b)) == [Done] + ([Done] + Answers(cipher, two, last));
    assert AnswersPlain(map[], Reread(b)) == [Done] + ([Done] + AnswersPlain(map["" := b], last));
    assert AnswersPlain(map["" := b], last)[0] == Found(b);
    assert Answers(cipher, Stack(map[], map[]), Reread(b))[2] != AnswersPlain(map[], Reread(b))[2];
  }

  /** Any sequence of operations and restarts, with any random vectors, is answered as a plain
      map answers it, exactly if the cipher undoes itself on every block: what one process
      put, the next reads back. */
  lemma TransparentStack(cipher: Cipher)
    ensures (forall operations :: AnswersLikeMap(cipher, operations)) <==> Sound(cipher)
  {
    if Sound(cipher) {
      forall operations ensures AnswersLikeMap(cipher, operations) {
        AnswersAgree(cipher, Stack(map[], map[]), map[], operations);
      }
    } else {
      var b: Block :| !Inverts(cipher, b);
      RereadSpoiled(cipher, b);
    }
  }

  /** What the operations so far say of a key: the latest put or delete of it decides. */
  function LastWrite(operations: seq<Operation>, key: string): Answer
    decreases |operations|
  {
    if operations == [] then NotFound
    else
      match operations[|operations| - 1]
      case Put(other, data, _) => if other == key then Found(data) else LastWrite(operations[..|operations| - 1], key)
      case Delete(other) => if other == key then NotFound else LastWrite(operations[..|operations| - 1], key)
      case _ => LastWrite(operations[..|operations| - 1], key)
  }

  function PlainAfter(operations: seq<Operation>): map<string, Bytes>
    decreases |operations|
  {
    if operations == [] then map[]
    else PerformPlain(PlainAfter(operations[..|operations| - 1]), operations[|operations| - 1]).0
  }

  lemma {:induction false} PlainHolds(operations: seq<Operation>, key: string)
    ensures LastWrite(operations, key) == if key in PlainAfter(operations) then Found(PlainAfter(operations)[key]) else NotFound
    decreases |operations|
  {
    if operations != [] { PlainHolds(operations[..|operations| - 1], key); }
  }

  lemma {:induction false} AnswersAt(before: seq<Operation>, operations: seq<Operation>, i: nat)
    requires i < |operations|
    ensures |AnswersPlain(PlainAfter(before), operations)| == |operations|
    ensures AnswersPlain(PlainAfter(before), operations)[i] == PerformPlain(PlainAfter(before + operations[..i]), operations[i]).1
    decreases |operations|
  {
    var (plain, first, rest) := (PlainAfter(before), operations[0], operations[1..]);
    assert (before + [first])[..|before|] == before;
    if i > 0 {
      AnswersAt(before + [first], rest, i - 1);
      assert before + [first] + rest[..i - 1] == before + operations[..i];
    } else {
      assert before + operations[..0] == before;
      if rest != [] { AnswersAt(before + [first], rest, 0); }
    }
  }

  /** A get is answered with what was last put under its key, unless it was deleted since or
      never put, whatever restarts came between. */
  lemma {:induction false} GetsLastWrite(cipher: Cipher, operations: seq<Operation>, i: nat)
    requires Sound(cipher) && i < |operations|
    ensures var answers := Answers(cipher, Stack(map[], map[]), operations);
      |answers| == |operations| && answers[i] == if operations[i].Get? then LastWrite(operations[..i], operations[i].key) else Done
  {
    TransparentStack(cipher);
    assert AnswersLikeMap(cipher, operations);
    AnswersAt([], operations, i);
    assert [] + operations[..i] == operations[..i];
    if operations[i].Get? { PlainHolds(operations[..i], operations[i].key); }
  }

  /** What was put or got is answered from the cache until it is deleted or the process restarts,
      whatever lies in the store meanwhile. */
  lemma {:induction false} CacheServes(cipher: Cipher, stack: Stack, operation: Operation, data: Bytes,
                                       spoiled: map<string, Bytes>)
    requires operation.Put? || operation.Get?
    requires operation.Put? ==> operation.data == data
    requires operation.Get? ==> Perform(cipher, stack, operation).1 == Found(data)
    ensures Perform(cipher, Perform(cipher, stack, operation).0.(stored := spoiled), Get(operation.key)).1 == Found(data)
  {
  }

  // ---------------------------------------------------------------- what lies in the store

  /** Block `k` of what is chained is the cipher's image of block `k` of the data, combined with
      the block before it in what is stored, the vector for the first. */
  lemma {:induction false} ChainedBlock(cipher: Cipher, iv: Block, data: Bytes, k: nat)
    requires |data| % BLOCK == 0 && BLOCK * (k + 1) <= |data|
    ensures var stored := iv + CbcEncrypt(cipher, iv, data);
      stored[BLOCK * (k + 1)..BLOCK * (k + 2)]
        == cipher.encrypt(Xor(data[BLOCK * k..BLOCK * (k + 1)], stored[BLOCK * k..BLOCK * (k + 1)]))
    decreases k
  {
    var (block, rest) := (data[..BLOCK], data[BLOCK..]);
    assert data == block + rest;
    EncryptNext(cipher, iv, data, block, rest);
    var first: Block := cipher.encrypt(Xor(block, iv));
    var (stored, inner) := (iv + CbcEncrypt(cipher, iv, data), first + CbcEncrypt(cipher, first, rest));
    assert stored == iv + inner;
    if k == 0 {
      assert stored[BLOCK..2 * BLOCK] == first && stored[..BLOCK] == iv;
    } else {
      ChainedBlock(cipher, first, rest, k - 1);
      assert stored[BLOCK * (k + 1)..BLOCK * (k + 2)] == inner[BLOCK * k..BLOCK * (k + 1)];
      assert stored[BLOCK * k..BLOCK * (k + 1)] == inner[BLOCK * (k - 1)..BLOCK * k];
      assert data[BLOCK * k..BLOCK * (k + 1)] == rest[BLOCK * (k - 1)..BLOCK * k];
    }
  }

  /** The bytes that padding adds each say how many they are. */
  lemma {:induction false} PadFills(data: Bytes, i: nat)
    requires |data| <= i < |Pad(data)|
    ensures Pad(data)[i] as int == |Pad(data)| - |data|
  {
  }

  // ---------------------------------------------------------------- the stack as objects

  class MemoryStore {
    var store: map<string, Bytes>

    constructor ()
      ensures store == map[]
    {
      store := map[];
    }

    method Put(key: string, data: Bytes)
      modifies this
      ensures store == old(store)[key := data]
    {
      store := store[key := data];
    }

    /** None stands for the error "key not found". */
    method Get(key: string) returns (data: Option<Bytes>)
      ensures data == if key in store then Some(store[key]) else None
    {
      data := if key in store then Some(store[key]) else None;
    }

    method Delete(key: string)
      modifies this
      ensures store == old(store) - {key}
    {
      store := store - {key};
    }
  }

  class EncryptingDecorator {
    const store: MemoryStore
    const cipher: Cipher

    constructor (store: MemoryStore, cipher: Cipher)
      ensures this.store == store && this.cipher == cipher
    {
      this.store, this.cipher := store, cipher;
    }

    method Put(key: string, data: Bytes, iv: Block)
      modifies store
      ensures store.store == old(store.store)[key := Seal(cipher, iv, data)]
    {
      var sealed := CryptBlocks(iv, Pad(data));
      store.Put(key, sealed);
    }

    /** The buffer starts with the vector and is filled block by block. */
    method CryptBlocks(iv: Block, padded: Bytes) returns (sealed: Bytes)
      requires |padded| % BLOCK == 0
      ensures sealed == iv + CbcEncrypt(cipher, iv, padded)
    {
      sealed := iv;
      var last: Block := iv;
      var i := 0;
      while i < |padded|
        invariant i <= |padded| && i % BLOCK == 0
        invariant sealed + CbcEncrypt(cipher, last, padded[i..]) == iv + CbcEncrypt(cipher, iv, padded)
      {
        var block: Block := padded[i..i + BLOCK];
        var next: Block := cipher.encrypt(Xor(block, last));
        EncryptAt(cipher, last, padded, i, sealed);
        sealed := sealed + next;
        last, i := next, i + BLOCK;
      }
    }

    method Get(key: string) returns (answer: Answer)
      ensures answer ==
        if key !in store.store then NotFound
        else if Unseal(cipher, store.store[key]).None? then Stopped
        else Found(Unseal(cipher, store.store[key]).value)
    {
      var stored := store.Get(key);
      if stored.None? {
        return NotFound;
      }
      if |stored.value| < BLOCK || |stored.value| % BLOCK != 0 {
        return Stopped;
      }
      var padded := DecryptBlocks(stored.value[..BLOCK], stored.value[BLOCK..]);
      var data := Unpad(padded);
      answer := if data.None? then Stopped else Found(data.value);
    }

    /** The buffer is filled block by block, each combined with the ciphertext before it. */
    method DecryptBlocks(iv: Block, data: Bytes) returns (padded: Bytes)
      requires |data| % BLOCK == 0
      ensures padded == CbcDecrypt(cipher, iv, data)
    {
      padded := [];
      var last: Block := iv;
      var i := 0;
      while i < |data|
        invariant i <= |data| && i % BLOCK == 0
        invariant padded + CbcDecrypt(cipher, last, data[i..]) == CbcDecrypt(cipher, iv, data)
      {
        var block: Block := data[i..i + BLOCK];
        ghost var before, rest := padded, data[i + BLOCK..];
        var next := Xor(cipher.decrypt(block), last);
        DecryptNext(cipher, last, data[i..], block, rest);
        padded := padded + next;
        assert before + (next + CbcDecrypt(cipher, block, rest)) == padded + CbcDecrypt(cipher, block, rest);
        last, i := block, i + BLOCK;
      }
    }

    method Delete(key: string)
      modifies store
      ensures store.store == old(store.store) - {key}
    {
      store.Delete(key);
    }
  }

  class CachingDecorator {
    const store: EncryptingDecorator
    var cache: map<string, Bytes>

    ghost function Model(): Stack
      reads this, store.store
    {
      Stack(store.store.store, cache)
    }

    /** An empty cache over whatever the store holds, as Restart leaves it. */
    constructor (store: EncryptingDecorator)
      ensures this.store == store && Model() == Stack(store.store.store, map[])
    {
      this.store, cache := store, map[];
    }

    method Put(key: string, data: Bytes, iv: Block)
      modifies this, store.store
      ensures Model() == Perform(store.cipher, old(Model()), Operation.Put(key, data, iv)).0
    {
      store.Put(key, data, iv);
      cache := cache[key := data];
    }

    method Get(key: string) returns (answer: Answer)
      modifies this
      ensures (Model(), answer) == Perform(store.cipher, old(Model()), Operation.Get(key))
    {
      if key in cache {
        return Found(cache[key]);
      }
      answer := store.Get(key);
      if !answer.Found? {
        return;
      }
      cache := cache[key := answer.data];
    }

    method Delete(key: string)
      modifies this, store.store
      ensures Model() == Perform(store.cipher, old(Model()), Operation.Delete(key)).0
    {
      store.Delete(key);
      cache := cache - {key};
    }
  }
}
