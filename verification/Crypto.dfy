/** The per-frame session transform: one AES-128-ECB block and four bytes of an
  * RC4-compatible keystream. AES itself is any block function with an inverse. */
module Crypto {
  import opened Models
  import opened Frame

  const BLOCK_LENGTH := 16

  datatype CryptoError = WrongKeyLength | NegativeLength | WrongFrameLength | NoSessionKey | Malformed(frame: FrameError)

  /** An RC4 state: 256 values below 256. */
  type Index = x: int | 0 <= x < 256

  function Identity(): seq<Index> {
    seq(256, i requires 0 <= i < 256 => i)
  }

  function Swapped(s: seq<Index>, i: Index, j: Index): (r: seq<Index>)
    requires |s| == 256
    ensures |r| == 256
  {
    s[i := s[j]][j := s[i]]
  }

  predicate IsPermutation(s: seq<Index>) {
    && |s| == 256
    && (forall i, j | 0 <= i < j < 256 :: s[i] != s[j])
    && (forall v: int | 0 <= v < 256 :: v in s)
  }

  lemma SwapKeepsPermutation(s: seq<Index>, i: Index, j: Index)
    requires IsPermutation(s)
    ensures IsPermutation(Swapped(s, i, j))
  {
    var r := Swapped(s, i, j);
    forall v: int | 0 <= v < 256
      ensures v in r
    {
      assert v in s;
      var k :| 0 <= k < 256 && s[k] == v;
      assert r[if k == i then j else if k == j then i else k] == v;
    }
  }

  // ---- the keystream as a function of the key ----

  datatype Cursor = Cursor(state: seq<Index>, j: Index)

  /** The cursor after the first n rounds of key scheduling. */
  function Scheduled(key: seq<byte>, n: nat): (c: Cursor)
    requires |key| == BLOCK_LENGTH && n <= 256
    ensures |c.state| == 256
  {
    if n == 0 then Cursor(Identity(), 0)
    else
      var c := Scheduled(key, n - 1);
      var i := n - 1;
      var j := (c.j + c.state[i] + key[i % BLOCK_LENGTH] as int) % 256;
      Cursor(Swapped(c.state, i, j), j)
  }

  /** The cursor after n keystream bytes. */
  function Advanced(key: seq<byte>, n: nat): (c: Cursor)
    requires |key| == BLOCK_LENGTH
    ensures |c.state| == 256
  {
    if n == 0 then Cursor(Scheduled(key, 256).state, 0)
    else
      var c := Advanced(key, n - 1);
      var i := n % 256;
      var j := (c.j + c.state[i]) % 256;
      Cursor(Swapped(c.state, i, j), j)
  }

  /** The byte a state yields at its two cursor positions. */
  function Pick(state: seq<Index>, i: Index, j: Index): byte
    requires |state| == 256
  {
    state[(state[i] as int + state[j] as int) % 256] as byte
  }

  function KeystreamByte(key: seq<byte>, n: nat): byte
    requires |key| == BLOCK_LENGTH
  {
    var c := Advanced(key, n + 1);
    var i := (n + 1) % 256;
    Pick(c.state, i, c.j)
  }

  function Keystream(key: seq<byte>, length: nat): (r: seq<byte>)
    requires |key| == BLOCK_LENGTH
    ensures |r| == length
  {
    seq(length, n requires 0 <= n < length => KeystreamByte(key, n))
  }

  /** The state is a permutation of 0..255 after every round of both loops. */
  lemma {:induction false} ScheduleKeepsPermutation(key: seq<byte>, n: nat)
    requires |key| == BLOCK_LENGTH && n <= 256
    ensures IsPermutation(Scheduled(key, n).state)
  {
    if n == 0 {
      forall v: int | 0 <= v < 256
        ensures v in Identity()
      {
        assert Identity()[v] == v;
      }
    } else {
      ScheduleKeepsPermutation(key, n - 1);
      SwapKeepsPermutation(Scheduled(key, n - 1).state, n - 1, Scheduled(key, n).j);
    }
  }

  lemma {:induction false} KeystreamKeepsPermutation(key: seq<byte>, n: nat)
    requires |key| == BLOCK_LENGTH
    ensures IsPermutation(Advanced(key, n).state)
  {
    if n == 0 {
      ScheduleKeepsPermutation(key, 256);
    } else {
      KeystreamKeepsPermutation(key, n - 1);
      SwapKeepsPermutation(Advanced(key, n - 1).state, n % 256, Advanced(key, n).j);
    }
  }

  /** Arithmetic on state indices wraps. */
  function Wrapped(x: nat): Index {
    x % 256
  }

  /** The sum, over the first n rounds of key scheduling, of the state byte and the key byte
    * that each round reads. */
  function ScheduleSum(key: seq<byte>, n: nat): nat
    requires |key| == BLOCK_LENGTH && n <= 256
  {
    if n == 0 then 0
    else ScheduleSum(key, n - 1) + Scheduled(key, n - 1).state[n - 1] + key[(n - 1) % 16] as int
  }

  /** The sum, over the first n bytes of output, of the state byte that each round reads. */
  function OutputSum(key: seq<byte>, n: nat): nat
    requires |key| == BLOCK_LENGTH
  {
    if n == 0 then 0 else OutputSum(key, n - 1) + Advanced(key, n - 1).state[Wrapped(n)]
  }

  lemma SumsWrap(a: nat, b: nat)
    ensures Wrapped(Wrapped(a) + b) == Wrapped(a + b)
  {
  }

  lemma CursorSums(j: Index, sum: nat, more: nat)
    requires j == Wrapped(sum)
    ensures Wrapped(j + more) == Wrapped(sum + more)
  {
    SumsWrap(sum, more);
  }

  lemma ScheduleCursorMoves(key: seq<byte>, n: nat, more: nat)
    requires |key| == BLOCK_LENGTH && 0 < n <= 256
    requires more == Scheduled(key, n - 1).state[n - 1] + key[(n - 1) % 16] as int
    ensures Scheduled(key, n).j == Wrapped(Scheduled(key, n - 1).j + more)
  {
  }

  lemma OutputCursorMoves(key: seq<byte>, n: nat, more: nat)
    requires |key| == BLOCK_LENGTH && n > 0 && more == Advanced(key, n - 1).state[Wrapped(n)]
    ensures Advanced(key, n).j == Wrapped(Advanced(key, n - 1).j + more)
  {
  }

  /** The second cursor of key scheduling is the running sum of state and key bytes. */
  lemma {:induction false} ScheduleCursorIsASum(key: seq<byte>, n: nat)
    requires |key| == BLOCK_LENGTH && n <= 256
    ensures Scheduled(key, n).j == Wrapped(ScheduleSum(key, n))
  {
    if n > 0 {
      var more: nat := Scheduled(key, n - 1).state[n - 1] + key[(n - 1) % 16] as int;
      ScheduleCursorIsASum(key, n - 1);
      ScheduleCursorMoves(key, n, more);
      CursorSums(Scheduled(key, n - 1).j, ScheduleSum(key, n - 1), more);
    }
  }

  /** The second cursor of the output loop is the running sum of the state bytes it reads. */
  lemma {:induction false} OutputCursorIsASum(key: seq<byte>, n: nat)
    requires |key| == BLOCK_LENGTH
    ensures Advanced(key, n).j == Wrapped(OutputSum(key, n))
  {
    if n > 0 {
      var more: nat := Advanced(key, n - 1).state[Wrapped(n)];
      OutputCursorIsASum(key, n - 1);
      OutputCursorMoves(key, n, more);
      CursorSums(Advanced(key, n - 1).j, OutputSum(key, n - 1), more);
    }
  }

  /** t is s with the values at i and j exchanged. */
  predicate Exchanged(s: seq<Index>, t: seq<Index>, i: Index, j: Index) {
    |s| == 256 && |t| == 256 && t[i] == s[j] && t[j] == s[i] && forall k | 0 <= k < 256 && k != i && k != j :: t[k] == s[k]
  }

  lemma SwappedExchanges(s: seq<Index>, i: Index, j: Index)
    requires |s| == 256
    ensures Exchanged(s, Swapped(s, i, j), i, j)
  {
  }

  /** Round n of key scheduling exchanges the values at n and at the running sum. */
  lemma ScheduleRounds(key: seq<byte>, n: Index)
    requires |key| == BLOCK_LENGTH
    ensures Scheduled(key, 0).state == Identity()
    ensures Exchanged(Scheduled(key, n).state, Scheduled(key, n + 1).state, n, Wrapped(ScheduleSum(key, n + 1)))
  {
    ScheduleCursorIsASum(key, n + 1);
    SwappedExchanges(Scheduled(key, n).state, n, Scheduled(key, n + 1).j);
  }

  /** Every round of output exchanges the values at its number and at the running sum, and its
    * byte is the value at the sum of the two. */
  lemma OutputRounds(key: seq<byte>, n: nat, i: Index, j: Index)
    requires |key| == BLOCK_LENGTH && i == Wrapped(n + 1) && j == Wrapped(OutputSum(key, n + 1))
    ensures Advanced(key, 0).state == Scheduled(key, 256).state
    ensures Exchanged(Advanced(key, n).state, Advanced(key, n + 1).state, i, j)
    ensures KeystreamByte(key, n) == Pick(Advanced(key, n + 1).state, i, j)
  {
    OutputCursorIsASum(key, n + 1);
    SwappedExchanges(Advanced(key, n).state, i, j);
  }

  lemma PickIsAtTheSum(s: seq<Index>, i: Index, j: Index, at: Index)
    requires |s| == 256 && at == (s[i] as int + s[j] as int) % 256
    ensures Pick(s, i, j) == s[at] as byte
  {
  }

  method Exchange(state: array<Index>, i: Index, j: Index)
    requires state.Length == 256
    modifies state
    ensures state[..] == Swapped(old(state[..]), i, j)
  {
    state[i], state[j] := state[j], state[i];
  }

  /** The key-scheduling loop, swapping the state in place. */
  method ScheduleKey(state: array<Index>, key: seq<byte>)
    requires |key| == BLOCK_LENGTH && state.Length == 256 && state[..] == Identity()
    modifies state
    ensures state[..] == Scheduled(key, 256).state
  {
    var j: Index := 0;
    for i := 0 to 256
      invariant state[..] == Scheduled(key, i).state && j == Scheduled(key, i).j
    {
      j := (j as int + state[i] as int + key[i % |key|] as int) % 256;
      Exchange(state, i, j);
    }
  }

  lemma NextIndex(n: nat)
    ensures (n % 256 + 1) % 256 == (n + 1) % 256
  {
  }

  /** One round of the output loop, from the cursor after n bytes. */
  lemma AdvanceOnce(key: seq<byte>, n: nat, c: Cursor, i: Index, d: Cursor)
    requires |key| == BLOCK_LENGTH && c == Advanced(key, n) && i == (n + 1) % 256
    requires d.j == (c.j as int + c.state[i] as int) % 256 && d.state == Swapped(c.state, i, d.j)
    ensures d == Advanced(key, n + 1) && Pick(d.state, i, d.j) == KeystreamByte(key, n)
  {
  }

  lemma KeystreamGrows(key: seq<byte>, n: nat)
    requires |key| == BLOCK_LENGTH
    ensures Keystream(key, n + 1) == Keystream(key, n) + [KeystreamByte(key, n)]
  {
  }

  /** One round of the output loop. */
  method NextByte(state: array<Index>, i: Index, j: Index, ghost key: seq<byte>, ghost n: nat)
    returns (i': Index, j': Index, b: byte)
    requires |key| == BLOCK_LENGTH && state.Length == 256
    requires i == n % 256 && Cursor(state[..], j) == Advanced(key, n)
    modifies state
    ensures i' == (n + 1) % 256 && Cursor(state[..], j') == Advanced(key, n + 1)
    ensures b == KeystreamByte(key, n)
  {
    ghost var c := Cursor(state[..], j);
    i' := (i as int + 1) % 256;
    j' := (j as int + state[i'] as int) % 256;
    Exchange(state, i', j');
    b := Pick(state[..], i', j');
    NextIndex(n);
    AdvanceOnce(key, n, c, i', Cursor(state[..], j'));
  }

  /** The output loop. */
  method Generate(state: array<Index>, key: seq<byte>, length: nat) returns (output: seq<byte>)
    requires |key| == BLOCK_LENGTH && state.Length == 256 && state[..] == Scheduled(key, 256).state
    modifies state
    ensures output == Keystream(key, length)
  {
    output := [];
    var i: Index := 0;
    var j: Index := 0;
    for offset := 0 to length
      invariant i == offset % 256 && Cursor(state[..], j) == Advanced(key, offset)
      invariant output == Keystream(key, offset)
    {
      var b;
      i, j, b := NextByte(state, i, j, key, offset);
      KeystreamGrows(key, offset);
      output := output + [b];
    }
  }

  method Rc4Keystream(key: seq<byte>, length: int) returns (r: Result<seq<byte>, CryptoError>)
    ensures |key| != BLOCK_LENGTH ==> r == Err(WrongKeyLength)
    ensures |key| == BLOCK_LENGTH && length < 0 ==> r == Err(NegativeLength)
    ensures |key| == BLOCK_LENGTH && length >= 0 ==> r == Ok(Keystream(key, length))
  {
    if |key| != BLOCK_LENGTH {
      return Err(WrongKeyLength);
    }
    if length < 0 {
      return Err(NegativeLength);
    }
    var state: array<Index> := new Index[256](i requires 0 <= i < 256 => i);
    ScheduleKey(state, key);
    var output := Generate(state, key, length);
    r := Ok(output);
  }

  // ---- frames on the wire ----

  function XorTail(tail: seq<byte>, key: seq<byte>): (r: seq<byte>)
    requires |key| == BLOCK_LENGTH
    ensures |r| == |tail|
  {
    seq(|tail|, i requires 0 <= i < |tail| => tail[i] ^ KeystreamByte(key, i))
  }

  /** A block cipher: for every key a length-preserving map on blocks and its inverse. */
  datatype Cipher = Cipher(enc: (seq<byte>, seq<byte>) -> seq<byte>, dec: (seq<byte>, seq<byte>) -> seq<byte>) {
    ghost predicate Valid() {
      forall b: seq<byte>, k: seq<byte> | |b| == BLOCK_LENGTH && |k| == BLOCK_LENGTH ::
        && |enc(b, k)| == BLOCK_LENGTH && |dec(b, k)| == BLOCK_LENGTH
        && dec(enc(b, k), k) == b && enc(dec(b, k), k) == b
    }
  }

  function Encrypt(aes: Cipher, plaintext: seq<byte>, key: seq<byte>): Result<seq<byte>, CryptoError> {
    var v := ValidateFrame(plaintext);
    if v.Err? then Err(Malformed(v.error))
    else if |key| != BLOCK_LENGTH then Err(WrongKeyLength)
    else Ok(aes.enc(plaintext[..BLOCK_LENGTH], key) + XorTail(plaintext[BLOCK_LENGTH..], key))
  }

  function Decrypt(aes: Cipher, ciphertext: seq<byte>, key: seq<byte>): Result<seq<byte>, CryptoError> {
    if |ciphertext| != FRAME_LENGTH then Err(WrongFrameLength)
    else if |key| != BLOCK_LENGTH then Err(WrongKeyLength)
    else
      var plaintext := aes.dec(ciphertext[..BLOCK_LENGTH], key) + XorTail(ciphertext[BLOCK_LENGTH..], key);
      var v := ValidateFrame(plaintext);
      if v.Err? then Err(Malformed(v.error)) else Ok(plaintext)
  }

  lemma XorTailTwice(tail: seq<byte>, key: seq<byte>)
    requires |key| == BLOCK_LENGTH
    ensures XorTail(XorTail(tail, key), key) == tail
  {
    forall i | 0 <= i < |tail|
      ensures XorTail(XorTail(tail, key), key)[i] == tail[i]
    {
      XorCancels(tail[i], KeystreamByte(key, i));
    }
  }

  /** Encryption accepts exactly the valid frames under a full key, and decryption
    * under the same key accepts exactly the encryptions of valid frames and returns
    * the frame: the two are inverse to each other. */
  lemma DecryptInvertsEncrypt(aes: Cipher, key: seq<byte>, p: seq<byte>, c: seq<byte>)
    requires aes.Valid() && |key| == BLOCK_LENGTH
    ensures Encrypt(aes, p, key).Ok? <==> IsFrame(p)
    ensures Encrypt(aes, p, key) == Ok(c) <==> Decrypt(aes, c, key) == Ok(p)
  {
    if Encrypt(aes, p, key) == Ok(c) {
      assert c[..BLOCK_LENGTH] == aes.enc(p[..BLOCK_LENGTH], key);
      assert c[BLOCK_LENGTH..] == XorTail(p[BLOCK_LENGTH..], key);
      XorTailTwice(p[BLOCK_LENGTH..], key);
      assert p == p[..BLOCK_LENGTH] + p[BLOCK_LENGTH..];
    }
    if Decrypt(aes, c, key) == Ok(p) {
      assert p[..BLOCK_LENGTH] == aes.dec(c[..BLOCK_LENGTH], key);
      assert p[BLOCK_LENGTH..] == XorTail(c[BLOCK_LENGTH..], key);
      XorTailTwice(c[BLOCK_LENGTH..], key);
      assert c == c[..BLOCK_LENGTH] + c[BLOCK_LENGTH..];
    }
  }

  function ExtractSessionKey(frame: seq<byte>): Result<seq<byte>, CryptoError> {
    var v := ValidateFrame(frame);
    if v.Err? then Err(Malformed(v.error))
    else if frame[..2] != [0xe7, 0x01] then Err(NoSessionKey)
    else Ok(frame[2..18])
  }

  function NegotiationFrame(step: byte, padding: seq<byte>): Result<seq<byte>, CryptoError> {
    if step != 1 && step != 2 then Err(NoSessionKey)
    else if |padding| != 17 then Err(WrongKeyLength)
    else
      var f := BuildFrame([0xe7, step] + padding);
      if f.Err? then Err(Malformed(f.error)) else Ok(f.value)
  }

  /** A negotiation frame is built exactly for steps 1 and 2 with seventeen octets of
    * padding; only a step 1 frame yields a session key, the first sixteen of them. */
  lemma SessionKeysComeFromStepOne(step: byte, padding: seq<byte>)
    ensures var f := NegotiationFrame(step, padding);
      && (f.Ok? <==> (step == 1 || step == 2) && |padding| == 17)
      && (f.Ok? ==> ExtractSessionKey(f.value) == if step == 1 then Ok(padding[..BLOCK_LENGTH]) else Err(NoSessionKey))
  {
    if (step == 1 || step == 2) && |padding| == 17 {
      var content := [0xe7, step] + padding;
      BuiltFramesValidate(content);
      var f := BuildFrame(content).value;
      assert f[..CONTENT_LENGTH] == content;
      assert f[..2] == f[..CONTENT_LENGTH][..2] == [0xe7, step];
      assert f[2..18] == f[..CONTENT_LENGTH][2..18] == padding[..BLOCK_LENGTH];
    }
  }
}
