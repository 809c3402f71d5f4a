/** The algebra of a linear feedback shift register, over any word type. */
module ShiftRegister {

  /** `step` is one shift, `back` its inverse, `low`/`rest` take a word's bits one by one. */
  datatype Register<!W> = Register(
    step: W -> W, back: W -> W, xor: (W, W) -> W, zero: W, low: W -> W, rest: W -> W)

  function Iterate<W>(f: W -> W, n: nat, x: W): W
    decreases n
  {
    if n == 0 then x else Iterate(f, n - 1, f(x))
  }

  /** The register after the given message bits. */
  function Feed<W>(r: Register<W>, s: W, bits: seq<W>): W
    decreases |bits|
  {
    if bits == [] then s else Feed(r, r.step(r.xor(s, bits[0])), bits[1..])
  }

  /** The register after the given words of `n` bits, each entered at once. */
  function Enter<W>(r: Register<W>, s: W, words: seq<W>, n: nat): W
    decreases |words|
  {
    if words == [] then s else Enter(r, Iterate(r.step, n, r.xor(s, words[0])), words[1..], n)
  }

  function Bits<W>(r: Register<W>, v: W, n: nat): (bits: seq<W>)
    ensures |bits| == n
    decreases n
  {
    if n == 0 then [] else [r.low(v)] + Bits(r, r.rest(v), n - 1)
  }

  function AllBits<W>(r: Register<W>, words: seq<W>, n: nat): (bits: seq<W>)
    ensures |bits| == n * |words|
    decreases |words|
  {
    if words == [] then [] else Bits(r, words[0], n) + AllBits(r, words[1..], n)
  }

  ghost predicate LinearAt<W>(r: Register<W>, x: W, y: W) {
    r.step(r.xor(x, y)) == r.xor(r.step(x), r.step(y))
  }

  ghost predicate Linear<W(!new)>(r: Register<W>) {
    forall x, y :: LinearAt(r, x, y)
  }

  ghost predicate Invertible<W(!new)>(r: Register<W>) {
    forall x :: r.back(r.step(x)) == x
  }

  ghost predicate Cancels<W(!new)>(r: Register<W>) {
    && r.step(r.zero) == r.zero
    && (forall x :: r.xor(x, r.zero) == x)
    && (forall x, y :: r.xor(x, y) == r.zero <==> x == y)
  }

  ghost predicate AssociatesAt<W>(r: Register<W>, x: W, y: W, z: W) {
    r.xor(r.xor(x, y), z) == r.xor(x, r.xor(y, z))
  }

  ghost predicate CommutesAt<W>(r: Register<W>, x: W, y: W) {
    r.xor(x, y) == r.xor(y, x)
  }

  ghost predicate Commutative<W(!new)>(r: Register<W>) {
    && (forall x, y, z :: AssociatesAt(r, x, y, z))
    && (forall x, y :: CommutesAt(r, x, y))
  }

  lemma Swap<W(!new)>(r: Register<W>, s: W, a: W, t: W, b: W)
    requires Commutative(r)
    ensures r.xor(r.xor(s, a), r.xor(t, b)) == r.xor(r.xor(s, t), r.xor(a, b))
  {
    assert AssociatesAt(r, s, a, r.xor(t, b)) && AssociatesAt(r, a, t, b) && CommutesAt(r, a, t);
    assert AssociatesAt(r, t, a, b) && AssociatesAt(r, s, t, r.xor(a, b));
  }

  /** The bits above the lowest are only moved down by a step. */
  ghost predicate PeelsAt<W>(r: Register<W>, x: W, v: W) {
    r.step(r.xor(x, v)) == r.xor(r.step(r.xor(x, r.low(v))), r.rest(v))
  }

  ghost predicate Peels<W(!new)>(r: Register<W>) {
    && (forall x, v :: PeelsAt(r, x, v))
    && (forall v, w :: r.low(v) == r.low(w) && r.rest(v) == r.rest(w) ==> v == w)
  }

  lemma {:induction false} IterateInjective<W(!new)>(r: Register<W>, n: nat, x: W, y: W)
    requires Invertible(r)
    requires Iterate(r.step, n, x) == Iterate(r.step, n, y)
    ensures x == y
  {
    if n > 0 {
      IterateInjective(r, n - 1, r.step(x), r.step(y));
    }
  }

  lemma {:induction false} IterateCompose<W>(f: W -> W, m: nat, n: nat, x: W)
    ensures Iterate(f, n, Iterate(f, m, x)) == Iterate(f, m + n, x)
    decreases m
  {
    if m > 0 {
      IterateCompose(f, m - 1, n, f(x));
    }
  }

  lemma {:induction false} IterateLinear<W(!new)>(r: Register<W>, n: nat, x: W, y: W)
    requires Linear(r)
    ensures Iterate(r.step, n, r.xor(x, y)) == r.xor(Iterate(r.step, n, x), Iterate(r.step, n, y))
  {
    if n > 0 {
      assert LinearAt(r, x, y);
      IterateLinear(r, n - 1, r.step(x), r.step(y));
    }
  }

  lemma {:induction false} IterateZero<W(!new)>(r: Register<W>, n: nat)
    requires Cancels(r)
    ensures Iterate(r.step, n, r.zero) == r.zero
  {
    if n > 0 {
      IterateZero(r, n - 1);
    }
  }

  /** Entering a word at once and entering it bit by bit are the same. */
  lemma {:induction false} WordIsItsBits<W(!new)>(r: Register<W>, s: W, v: W, n: nat)
    requires Peels(r) && Cancels(r) && Iterate(r.rest, n, v) == r.zero
    ensures Iterate(r.step, n, r.xor(s, v)) == Feed(r, s, Bits(r, v, n))
    decreases n
  {
    if n > 0 {
      var s' := r.step(r.xor(s, r.low(v)));
      assert PeelsAt(r, s, v);
      WordIsItsBits(r, s', r.rest(v), n - 1);
      assert Bits(r, v, n)[1..] == Bits(r, r.rest(v), n - 1);
    }
  }

  lemma {:induction false} BitsDetermineWord<W(!new)>(r: Register<W>, v: W, w: W, n: nat)
    requires Peels(r)
    requires Iterate(r.rest, n, v) == r.zero && Iterate(r.rest, n, w) == r.zero
    requires Bits(r, v, n) == Bits(r, w, n)
    ensures v == w
    decreases n
  {
    if n > 0 {
      assert Bits(r, v, n)[0] == Bits(r, w, n)[0];
      assert Bits(r, v, n)[1..] == Bits(r, w, n)[1..];
      BitsDetermineWord(r, r.rest(v), r.rest(w), n - 1);
    }
  }

  lemma {:induction false} FeedAppend<W>(r: Register<W>, s: W, a: seq<W>, b: seq<W>)
    ensures Feed(r, s, a + b) == Feed(r, Feed(r, s, a), b)
    decreases |a|
  {
    if a == [] {
      assert a + b == b;
    } else {
      assert (a + b)[0] == a[0] && (a + b)[1..] == a[1..] + b;
      FeedAppend(r, r.step(r.xor(s, a[0])), a[1..], b);
    }
  }

  /** The word-wise register is the bit-serial register over the same bits. */
  lemma {:induction false} EnterIsBitSerial<W(!new)>(r: Register<W>, s: W, words: seq<W>, n: nat)
    requires Peels(r) && Cancels(r)
    requires forall w | w in words :: Iterate(r.rest, n, w) == r.zero
    ensures Enter(r, s, words, n) == Feed(r, s, AllBits(r, words, n))
    decreases |words|
  {
    if words != [] {
      WordIsItsBits(r, s, words[0], n);
      FeedAppend(r, s, Bits(r, words[0], n), AllBits(r, words[1..], n));
      EnterIsBitSerial(r, Iterate(r.step, n, r.xor(s, words[0])), words[1..], n);
    }
  }

  lemma {:induction false} FeedInjective<W(!new)>(r: Register<W>, s: W, t: W, bits: seq<W>)
    requires Invertible(r) && Cancels(r) && Commutative(r)
    requires Feed(r, s, bits) == Feed(r, t, bits)
    ensures s == t
    decreases |bits|
  {
    if bits != [] {
      var b := bits[0];
      FeedInjective(r, r.step(r.xor(s, b)), r.step(r.xor(t, b)), bits[1..]);
      assert r.back(r.step(r.xor(s, b))) == r.back(r.step(r.xor(t, b)));
      Swap(r, s, b, t, b);
    }
  }

  /** Two streams that start alike and agree outside a burst end differently. */
  lemma {:induction false} FeedDifference<W(!new)>(r: Register<W>, s: W, t: W, a: seq<W>, b: seq<W>)
    requires Linear(r) && Commutative(r) && |a| == |b|
    ensures r.xor(Feed(r, s, a), Feed(r, t, b))
         == Feed(r, r.xor(s, t), seq(|a|, i requires 0 <= i < |a| => r.xor(a[i], b[i])))
    decreases |a|
  {
    var d := seq(|a|, i requires 0 <= i < |a| => r.xor(a[i], b[i]));
    if a != [] {
      var s', t' := r.step(r.xor(s, a[0])), r.step(r.xor(t, b[0]));
      FeedDifference(r, s', t', a[1..], b[1..]);
      assert d[1..] == seq(|a| - 1, i requires 0 <= i < |a| - 1 => r.xor(a[1..][i], b[1..][i]));
      assert LinearAt(r, r.xor(s, a[0]), r.xor(t, b[0]));
      Swap(r, s, a[0], t, b[0]);
    }
  }

  lemma {:induction false} FeedZeros<W(!new)>(r: Register<W>, s: W, bits: seq<W>)
    requires Invertible(r) && Cancels(r) && Commutative(r)
    requires forall i | 0 <= i < |bits| :: bits[i] == r.zero
    ensures Feed(r, r.zero, bits) == r.zero
    ensures Feed(r, s, bits) == r.zero ==> s == r.zero
    decreases |bits|
  {
    if bits != [] {
      FeedZeros(r, r.step(r.xor(s, bits[0])), bits[1..]);
      assert r.back(r.step(s)) == s && r.back(r.step(r.zero)) == r.zero;
    }
  }

  /** `b` is a single message bit. */
  ghost predicate IsBit<W>(r: Register<W>, b: W) {
    r.low(b) == b && r.rest(b) == r.zero
  }

  /** If the word after a shift has its top bit clear, the shift dropped a clear bit. */
  ghost predicate DropsClearBit<W>(r: Register<W>, n: nat, u: W)
    requires n > 0
  {
    Iterate(r.rest, n - 1, r.step(u)) == r.zero ==> r.low(u) == r.zero && r.rest(u) == r.step(u)
  }

  /** A message bit meets only the lowest bit of the word. */
  ghost predicate MeetsLowBit<W>(r: Register<W>, s: W, b: W) {
    IsBit(r, b) ==>
      r.rest(r.xor(s, b)) == r.rest(s) && (r.low(r.xor(s, b)) == r.zero ==> r.low(s) == b)
  }

  /** The words have `n` bits. */
  ghost predicate Width<W(!new)>(r: Register<W>, n: nat) {
    && n > 0
    && r.low(r.zero) == r.zero
    && r.rest(r.zero) == r.zero
    && (forall u :: DropsClearBit(r, n, u))
    && (forall s, b :: MeetsLowBit(r, s, b))
  }

  lemma {:induction false} RestOfZero<W(!new)>(r: Register<W>, n: nat, k: nat)
    requires Width(r, n)
    ensures Iterate(r.rest, k, r.zero) == r.zero
    decreases k
  {
    if k > 0 {
      RestOfZero(r, n, k - 1);
    }
  }

  /** Bits that drive the register to zero are exactly the bits it already held. */
  lemma {:induction false} FeedToZero<W(!new)>(r: Register<W>, n: nat, s: W, bits: seq<W>)
    requires Width(r, n) && |bits| <= n
    requires forall i | 0 <= i < |bits| :: IsBit(r, bits[i])
    requires Feed(r, s, bits) == r.zero
    ensures Iterate(r.rest, |bits|, s) == r.zero && Bits(r, s, |bits|) == bits
    decreases |bits|
  {
    if bits != [] {
      var u := r.xor(s, bits[0]);
      FeedToZero(r, n, r.step(u), bits[1..]);
      var k := |bits| - 1;
      IterateCompose(r.rest, k, n - 1 - k, r.step(u));
      RestOfZero(r, n, n - 1 - k);
      assert DropsClearBit(r, n, u) && MeetsLowBit(r, s, bits[0]);
    }
  }

  lemma {:induction false} BitsOfZero<W(!new)>(r: Register<W>, n: nat, k: nat)
    requires Width(r, n)
    ensures forall i | 0 <= i < k :: Bits(r, r.zero, k)[i] == r.zero
    decreases k
  {
    if k > 0 {
      BitsOfZero(r, n, k - 1);
    }
  }

  /** Leading and trailing zero bits decide nothing. */
  lemma TrimZeros<W(!new)>(r: Register<W>, bits: seq<W>, from: nat, to: nat)
    requires Invertible(r) && Cancels(r) && Commutative(r)
    requires from <= to <= |bits|
    requires forall i | 0 <= i < |bits| && !(from <= i < to) :: bits[i] == r.zero
    requires Feed(r, r.zero, bits) == r.zero
    ensures Feed(r, r.zero, bits[from..to]) == r.zero
  {
    var head, burst, tail := bits[..from], bits[from..to], bits[to..];
    assert bits == head + (burst + tail);
    FeedAppend(r, r.zero, head, burst + tail);
    FeedZeros(r, r.zero, head);
    FeedAppend(r, r.zero, burst, tail);
    FeedZeros(r, Feed(r, r.zero, burst), tail);
  }

  /** A non-zero pattern confined to `n` consecutive bits leaves a non-zero register. */
  lemma BurstLeavesTrace<W(!new)>(r: Register<W>, n: nat, bits: seq<W>, from: nat)
    requires Invertible(r) && Cancels(r) && Commutative(r) && Width(r, n)
    requires forall i | 0 <= i < |bits| :: IsBit(r, bits[i])
    requires forall i | 0 <= i < |bits| && !(from <= i < from + n) :: bits[i] == r.zero
    requires Feed(r, r.zero, bits) == r.zero
    ensures forall i | 0 <= i < |bits| :: bits[i] == r.zero
  {
    if from < |bits| {
      var to := if from + n < |bits| then from + n else |bits|;
      TrimZeros(r, bits, from, to);
      var burst := bits[from..to];
      FeedToZero(r, n, r.zero, burst);
      BitsOfZero(r, n, |burst|);
      forall i | from <= i < to ensures bits[i] == r.zero {
        assert burst[i - from] == bits[i];
      }
    }
  }

  ghost predicate BitsClosed<W(!new)>(r: Register<W>) {
    forall a, b :: IsBit(r, a) && IsBit(r, b) ==> IsBit(r, r.xor(a, b))
  }

  /** Streams of message bits that differ only within `n` consecutive bits and end alike are equal. */
  lemma BurstDetected<W(!new)>(r: Register<W>, n: nat, s: W, p: seq<W>, q: seq<W>, from: nat)
    requires Linear(r) && Commutative(r) && Invertible(r) && Cancels(r) && Width(r, n) && BitsClosed(r)
    requires |p| == |q|
    requires forall i | 0 <= i < |p| :: IsBit(r, p[i]) && IsBit(r, q[i])
    requires forall i | 0 <= i < |p| && !(from <= i < from + n) :: p[i] == q[i]
    requires Feed(r, s, p) == Feed(r, s, q)
    ensures p == q
  {
    var d := seq(|p|, i requires 0 <= i < |p| => r.xor(p[i], q[i]));
    FeedDifference(r, s, s, p, q);
    BurstLeavesTrace(r, n, d, from);
    forall i | 0 <= i < |p| ensures p[i] == q[i] {
      assert d[i] == r.zero;
    }
  }

  /** Two words entered in turn are one double word entered at once. */
  lemma EnterTwo<W(!new)>(r: Register<W>, s: W, first: W, second: W, raised: W, n: nat)
    requires Linear(r) && Commutative(r) && Iterate(r.step, n, raised) == second
    ensures Iterate(r.step, n, r.xor(Iterate(r.step, n, r.xor(s, first)), second))
         == Iterate(r.step, n + n, r.xor(s, r.xor(first, raised)))
  {
    var low := r.xor(s, first);
    IterateLinear(r, n, low, raised);
    assert AssociatesAt(r, s, first, raised);
    IterateCompose(r.step, n, n, r.xor(low, raised));
  }

  lemma AllBitsFirst<W>(r: Register<W>, words: seq<W>, n: nat, j: nat)
    requires words != [] && j < n
    ensures j < |AllBits(r, words, n)| && AllBits(r, words, n)[j] == Bits(r, words[0], n)[j]
  {
    assert AllBits(r, words, n) == Bits(r, words[0], n) + AllBits(r, words[1..], n);
  }

  lemma AllBitsRest<W>(r: Register<W>, words: seq<W>, n: nat, i: nat)
    requires words != [] && i < |AllBits(r, words[1..], n)|
    ensures n + i < |AllBits(r, words, n)| && AllBits(r, words, n)[n + i] == AllBits(r, words[1..], n)[i]
  {
    After(Bits(r, words[0], n), AllBits(r, words[1..], n), i);
  }

  lemma OneGroupMore(n: nat, k: nat)
    requires k > 0
    ensures n * k == n * (k - 1) + n
  {
  }

  /** Bit j of word k, where the stream puts it. */
  lemma {:induction false} AllBitsAt<W>(r: Register<W>, words: seq<W>, n: nat, k: nat, j: nat, i: nat)
    requires k < |words| && j < n && i == n * k + j
    ensures i < |AllBits(r, words, n)|
    ensures AllBits(r, words, n)[i] == Bits(r, words[k], n)[j]
    decreases k
  {
    if k > 0 {
      var rest := words[1..];
      assert rest[k - 1] == words[k];
      OneGroupMore(n, k);
      AllBitsAt(r, rest, n, k - 1, j, i - n);
      AllBitsRest(r, words, n, i - n);
    } else {
      assert n * k == 0;
      AllBitsFirst(r, words, n, j);
    }
  }

  lemma After<W>(a: seq<W>, b: seq<W>, i: nat)
    requires i < |b|
    ensures (a + b)[|a| + i] == b[i]
  {
  }
}
