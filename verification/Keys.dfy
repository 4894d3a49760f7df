/** The 64-bit LRU keys of src/indexer/cache.rs: four bits of type prefix, twelve bits of sub field
    (the shard) and forty-eight bits of value (the index), packed with masks and wrapping shifts.

    A machine word is its string of sixty-four bits, lowest bit first, and the operators act on the bits.
    The rest of the model speaks about the three fields (`Key`). `KeyValues` and `KeysCollide` are what
    entitles it to: two packed keys are the same word exactly when their fields are the same. */
module Keys {
  // ---- machine words ----

  type Word = w: seq<bool> | |w| == 64 witness seq(64, _ => false)

  function Not(a: Word): Word { seq(64, i requires 0 <= i < 64 => !a[i]) }
  function And(a: Word, b: Word): Word { seq(64, i requires 0 <= i < 64 => a[i] && b[i]) }
  function Or(a: Word, b: Word): Word { seq(64, i requires 0 <= i < 64 => a[i] || b[i]) }
  function Shl(a: Word, k: nat): Word requires k < 64 { seq(64, i requires 0 <= i < 64 => i >= k && a[i - k]) }
  function Shr(a: Word, k: nat): Word requires k < 64 { seq(64, i requires 0 <= i < 64 => i + k < 64 && a[i + k]) }

  function AllOnes(): Word { seq(64, i => true) }
  function One(): Word { seq(64, i => i == 0) }
  function Two(): Word { seq(64, i => i == 1) }

  /** The number a bit string stands for. */
  function Val(w: seq<bool>): nat {
    if w == [] then 0 else (if w[0] then 1 else 0) + 2 * Val(w[1..])
  }

  // ---- the keys ----

  function TypePrefixMask(): Word { Not(Shr(AllOnes(), 4)) }
  function SubFieldMask(): Word { And(Shr(AllOnes(), 4), Shl(AllOnes(), 48)) }
  function ValueMask(): Word { Not(Shl(AllOnes(), 48)) }

  function ReceiverKey(shard: Word, utxo: Word): Word {
    Or(Or(And(Shl(One(), 60), TypePrefixMask()), And(Shl(shard, 48), SubFieldMask())), And(utxo, ValueMask()))
  }

  function SenderKey(idx: Word): Word {
    Or(And(Shl(Two(), 60), TypePrefixMask()), And(idx, ValueMask()))
  }

  /** The three fields of a key. */
  datatype Key = Key(prefix: nat, sub: nat, value: nat)

  const TWO_48: nat := 0x1_0000_0000_0000
  const TWO_60: nat := 0x1000_0000_0000_0000

  /** The fields of a receiver's key: an index of 2^48 or more loses its high bits. */
  function ReceiverFields(shard: nat, utxo: nat): Key {
    Key(1, shard % 4096, utxo % TWO_48)
  }

  function SenderFields(idx: nat): Key {
    Key(2, 0, idx % TWO_48)
  }

  /** The number a word with these fields stands for. */
  function Packed(k: Key): nat {
    k.prefix * TWO_60 + k.sub * TWO_48 + k.value
  }

  // ---- bit strings and numbers ----

  function Pow2(k: nat): (p: nat)
    ensures p >= 1
  {
    if k == 0 then 1 else 2 * Pow2(k - 1)
  }

  lemma Associate(a: int, b: int, c: int)
    ensures a * (b * c) == (a * b) * c
  {
  }

  lemma {:induction false} PowAdd(a: nat, b: nat)
    ensures Pow2(a + b) == Pow2(a) * Pow2(b)
  {
    if a > 0 {
      PowAdd(a - 1, b);
      Associate(2, Pow2(a - 1), Pow2(b));
    }
  }

  lemma Powers()
    ensures Pow2(12) == 4096 && Pow2(48) == TWO_48
  {
    PowAdd(12, 12);
    PowAdd(24, 24);
  }

  lemma {:induction false} ValBound(w: seq<bool>)
    ensures Val(w) < Pow2(|w|)
  {
    if w != [] { ValBound(w[1..]); }
  }

  lemma {:induction false} ValConcat(a: seq<bool>, b: seq<bool>)
    ensures Val(a + b) == Val(a) + Pow2(|a|) * Val(b)
  {
    if a == [] {
      assert a + b == b;
    } else {
      ValConcat(a[1..], b);
      assert (a + b)[1..] == a[1..] + b;
      Associate(2, Pow2(|a| - 1), Val(b));
    }
  }

  lemma {:induction false} ValInjective(a: seq<bool>, b: seq<bool>)
    requires |a| == |b|
    ensures a == b <==> Val(a) == Val(b)
  {
    if a != [] {
      ValInjective(a[1..], b[1..]);
      assert a == [a[0]] + a[1..] && b == [b[0]] + b[1..];
    }
  }

  lemma Remainder(n: nat, m: nat, q: nat, r: nat)
    requires n == m * q + r && r < m
    ensures n % m == r
  {
    var d := q - n / m;
    assert m * d == n % m - r by { assert m * q - m * (n / m) == m * d; }
  }

  /** Keeping the low k bits is reduction modulo 2^k. */
  lemma LowBits(w: seq<bool>, k: nat, p: nat)
    requires k <= |w| && p == Pow2(k)
    ensures Val(w[..k]) == Val(w) % p
  {
    assert w == w[..k] + w[k..];
    ValConcat(w[..k], w[k..]);
    ValBound(w[..k]);
    Remainder(Val(w), p, Val(w[k..]), Val(w[..k]));
  }

  lemma {:induction false} ZeroBits(w: seq<bool>)
    requires forall i :: 0 <= i < |w| ==> !w[i]
    ensures Val(w) == 0
  {
    if w != [] { ZeroBits(w[1..]); }
  }

  lemma SmallValues()
    ensures Val(One()[..4]) == 1 && Val(Two()[..4]) == 2
  {
    ZeroBits(One()[..4][1..]);
    ZeroBits(Two()[..4][1..][1..]);
  }

  lemma ThreeFields(value: seq<bool>, sub: seq<bool>, prefix: seq<bool>)
    requires |value| == 48 && |sub| == 12
    ensures Val(value + (sub + prefix)) == Packed(Key(Val(prefix), Val(sub), Val(value)))
  {
    Powers();
    ValConcat(sub, prefix);
    ValConcat(value, sub + prefix);
  }

  // ---- layout ----

  lemma MaskBits(i: nat)
    requires i < 64
    ensures TypePrefixMask()[i] == (i >= 60) && SubFieldMask()[i] == (48 <= i < 60) && ValueMask()[i] == (i < 48)
  {
  }

  /** The masks cut the key into forty-eight, twelve and four bits. */
  lemma ReceiverLayout(shard: Word, idx: Word)
    ensures ReceiverKey(shard, idx) == idx[..48] + (shard[..12] + One()[..4])
  {
    forall i | 0 <= i < 64 ensures ReceiverKey(shard, idx)[i] == (idx[..48] + (shard[..12] + One()[..4]))[i] {
      MaskBits(i);
    }
  }

  lemma SenderLayout(idx: Word, zeros: seq<bool>)
    requires zeros == seq(12, i => false)
    ensures SenderKey(idx) == idx[..48] + (zeros + Two()[..4])
  {
    forall i | 0 <= i < 64 ensures SenderKey(idx)[i] == (idx[..48] + (zeros + Two()[..4]))[i] {
      MaskBits(i);
    }
  }

  predicate WellFormed(k: Key) {
    k.sub < 4096 && k.value < TWO_48
  }

  lemma SameWordSameFields(w: Word, w': Word, k: Key, k': Key)
    requires Val(w) == Packed(k) && Val(w') == Packed(k') && WellFormed(k) && WellFormed(k')
    ensures w == w' <==> k == k'
  {
    ValInjective(w, w');
    PackedInjective(k, k');
  }

  lemma PackedInjective(k: Key, k': Key)
    requires WellFormed(k) && WellFormed(k')
    ensures Packed(k) == Packed(k') <==> k == k'
  {
    if Packed(k) == Packed(k') {
      UniqueSplit(TWO_48, k.prefix * 4096 + k.sub, k.value, k'.prefix * 4096 + k'.sub, k'.value);
      UniqueSplit(4096, k.prefix, k.sub, k'.prefix, k'.sub);
    }
  }

  lemma UniqueSplit(m: nat, q: nat, r: nat, q': nat, r': nat)
    requires r < m && r' < m && m * q + r == m * q' + r'
    ensures q == q' && r == r'
  {
    Remainder(m * q + r, m, q, r);
    Remainder(m * q + r, m, q', r');
    assert m * (q - q') == 0;
  }

  // ---- main results ----

  /** The masked shifts compute the packed fields, for every 64-bit shard and index. */
  lemma KeyValues(shard: Word, idx: Word)
    ensures Val(ReceiverKey(shard, idx)) == Packed(ReceiverFields(Val(shard), Val(idx)))
    ensures Val(SenderKey(idx)) == Packed(SenderFields(Val(idx)))
  {
    var zeros := seq(12, i => false);
    ReceiverLayout(shard, idx);
    SenderLayout(idx, zeros);
    Powers();
    SmallValues();
    ZeroBits(zeros);
    LowBits(idx, 48, TWO_48);
    LowBits(shard, 12, 4096);
    ThreeFields(idx[..48], shard[..12], One()[..4]);
    ThreeFields(idx[..48], zeros, Two()[..4]);
  }

  /** Two keys are the same word exactly when their fields are the same: receivers of one shard collide only
      when their indices agree modulo 2^48, senders likewise, and a receiver never collides with a sender. */
  lemma KeysCollide(shard: Word, idx: Word, shard': Word, idx': Word)
    ensures ReceiverKey(shard, idx) == ReceiverKey(shard', idx')
       <==> ReceiverFields(Val(shard), Val(idx)) == ReceiverFields(Val(shard'), Val(idx'))
    ensures SenderKey(idx) == SenderKey(idx') <==> SenderFields(Val(idx)) == SenderFields(Val(idx'))
    ensures ReceiverKey(shard, idx) != SenderKey(idx')
  {
    var r, r' := ReceiverFields(Val(shard), Val(idx)), ReceiverFields(Val(shard'), Val(idx'));
    var s, s' := SenderFields(Val(idx)), SenderFields(Val(idx'));
    KeyValues(shard, idx);
    KeyValues(shard', idx');
    SameWordSameFields(ReceiverKey(shard, idx), ReceiverKey(shard', idx'), r, r');
    SameWordSameFields(SenderKey(idx), SenderKey(idx'), s, s');
    SameWordSameFields(ReceiverKey(shard, idx), SenderKey(idx'), r, s');
  }
}
