/** The checksum of an output descriptor (src/lib/descriptor.ts; 'Checksum' section of BIP 380):
    a linear code over a 40-bit state. A word is the set of its one-bits, so that exclusive or
    is symmetric difference and a shift moves every position. */
module Descriptor {
  import opened Wrappers

  type Word = set<nat>

  /** The characters a descriptor may use, by position. */
  function InputCharset(): string {
    "0123456789()[],'/*abcdefgh@:$%{}IJKLMNOPQRSTUVWXYZ&+-.;<=>?!^_|~ijklmnopqrstuvwxyzABCDEFGH`#\"\\ "
  }

  function ChecksumCharset(): string {
    "qpzry9x8gf2tvdw0s3jn54khce6mua7l"
  }

  // ---- words ---------------------------------------------------------------------------

  predicate Bit(n: nat, e: nat) {
    if e == 0 then n % 2 == 1 else Bit(n / 2, e - 1)
  }

  /** The low `w` bits of a number. */
  function Ones(n: nat, w: nat): Word {
    set e: nat | e < w && Bit(n, e)
  }

  function Xor(a: Word, b: Word): Word {
    (a - b) + (b - a)
  }

  predicate Fits(a: Word, w: nat) {
    forall e :: e in a ==> e < w
  }

  const GENERATOR: seq<nat> := [0xf5dee51989, 0xa9fdca3312, 0x1bab10e32d, 0x3706b1677a, 0x644d626ffd]

  function Gen(i: nat): Word
    requires i < 5
  {
    Ones(GENERATOR[i], 40)
  }

  /** Eight symbols of five bits, the lowest first. */
  function EightSymbols(a: nat, b: nat, c: nat, d: nat, e: nat, f: nat, g: nat, h: nat): nat {
    a + 32 * (b + 32 * (c + 32 * (d + 32 * (e + 32 * (f + 32 * (g + 32 * h))))))
  }

  /** Twice a symbol in the field of 32 elements, where x^5 = x^3 + 1. */
  function Doubled(x: nat): nat {
    if x < 16 then 2 * x
    else if (x - 16) / 4 % 2 == 0 then 2 * (x - 16) + 9
    else 2 * (x - 16) - 7
  }

  function Twice(s: seq<nat>): (r: seq<nat>)
    ensures |r| == |s|
  {
    seq(|s|, i requires 0 <= i < |s| => Doubled(s[i]))
  }

  /** The five generators are one: each is the one before it, doubled symbol by symbol, so the
      code is linear over the field of 32 elements and not only over bits. The first one is the
      code's generator polynomial. */
  lemma GeneratorsDouble()
    ensures GENERATOR[0] == EightSymbols(9, 12, 6, 10, 14, 15, 23, 30)
    ensures var g1 := Twice([9, 12, 6, 10, 14, 15, 23, 30]);
      var g2 := Twice(g1);
      var g3 := Twice(g2);
      var g4 := Twice(g3);
      && GENERATOR[1] == EightSymbols(g1[0], g1[1], g1[2], g1[3], g1[4], g1[5], g1[6], g1[7])
      && GENERATOR[2] == EightSymbols(g2[0], g2[1], g2[2], g2[3], g2[4], g2[5], g2[6], g2[7])
      && GENERATOR[3] == EightSymbols(g3[0], g3[1], g3[2], g3[3], g3[4], g3[5], g3[6], g3[7])
      && GENERATOR[4] == EightSymbols(g4[0], g4[1], g4[2], g4[3], g4[4], g4[5], g4[6], g4[7])
  {
    TwiceIs();
    hide Twice;
  }

  lemma TwiceIs()
    ensures Twice([9, 12, 6, 10, 14, 15, 23, 30]) == [18, 24, 12, 20, 28, 30, 7, 21]
    ensures Twice([18, 24, 12, 20, 28, 30, 7, 21]) == [13, 25, 24, 1, 17, 21, 14, 3]
    ensures Twice([13, 25, 24, 1, 17, 21, 14, 3]) == [26, 27, 25, 2, 11, 3, 28, 6]
    ensures Twice([26, 27, 25, 2, 11, 3, 28, 6]) == [29, 31, 27, 4, 22, 6, 17, 12]
  {
  }

  /** Bit `i` of the top five bits selects generator `i`. */
  function Part(c: Word, i: nat): Word
    requires i < 5
  {
    if 35 + i in c then Gen(i) else {}
  }

  /** The low 35 bits, moved up by five. */
  function Moved(c: Word): Word {
    set e | e in c && e < 35 :: e + 5
  }

  function Mixed(c: Word, w: Word, n: nat): Word
    requires n <= 5
  {
    if n == 0 then w else Xor(Mixed(c, w, n - 1), Part(c, n - 1))
  }

  function Step(c: Word, v: Word): Word {
    Mixed(c, Xor(Moved(c), v), 5)
  }

  function PolymodFrom(c: Word, vs: seq<Word>): Word {
    if vs == [] then c else Step(PolymodFrom(c, vs[..|vs| - 1]), vs[|vs| - 1])
  }

  const ONE: Word := {0}

  function Words(symbols: seq<nat>): (r: seq<Word>)
    ensures |r| == |symbols| && forall i :: 0 <= i < |r| ==> r[i] == Ones(symbols[i], 5) && Fits(r[i], 5)
  {
    seq(|symbols|, i requires 0 <= i < |symbols| => Ones(symbols[i], 5))
  }

  /** The loop over the symbols, with its inner loop over the generators. */
  method Polymod(symbols: seq<nat>) returns (chk: Word)
    ensures chk == PolymodFrom({0}, Words(symbols))
  {
    chk := ONE;
    for i := 0 to |symbols|
      invariant chk == PolymodFrom(ONE, Words(symbols)[..i])
    {
      assert Words(symbols)[..i + 1][..i] == Words(symbols)[..i];
      var top := chk;
      chk := Xor(Moved(chk), Ones(symbols[i], 5));
      for k := 0 to 5
        invariant chk == Mixed(top, Xor(Moved(top), Ones(symbols[i], 5)), k)
      {
        if 35 + k in top {
          chk := Xor(chk, Gen(k));
        } else {
          assert Xor(chk, {}) == chk;
        }
      }
    }
    assert Words(symbols)[..|symbols|] == Words(symbols);
  }

  // ---- the step is linear and loses nothing ------------------------------------------------

  /** Bit `e` of a step. */
  lemma StepBit(c: Word, v: Word, e: nat)
    ensures e in Step(c, v) <==>
      ((((((5 <= e < 40 && e - 5 in c) != (e in v)) != (35 in c && e in Gen(0))) != (36 in c && e in Gen(1)))
        != (37 in c && e in Gen(2))) != (38 in c && e in Gen(3))) != (39 in c && e in Gen(4))
  {
    hide Gen;
    var w := Xor(Moved(c), v);
    assert e in Moved(c) <==> 5 <= e < 40 && e - 5 in c by {
      if 5 <= e < 40 && e - 5 in c {
        assert e == e - 5 + 5;
      }
    }
    MixedBit(c, w, e);
  }

  lemma MixedBit(c: Word, w: Word, e: nat)
    ensures e in Mixed(c, w, 5) <==>
      (((((e in w) != (35 in c && e in Gen(0))) != (36 in c && e in Gen(1))) != (37 in c && e in Gen(2))) != (38 in c && e in Gen(3)))
        != (39 in c && e in Gen(4))
  {
    hide Gen;
    assert e in Mixed(c, w, 1) <==> (e in w) != (35 in c && e in Gen(0)) by {
      assert Mixed(c, w, 0) == w;
    }
    assert e in Mixed(c, w, 2) <==> (e in Mixed(c, w, 1)) != (36 in c && e in Gen(1));
    assert e in Mixed(c, w, 3) <==> (e in Mixed(c, w, 2)) != (37 in c && e in Gen(2));
    assert e in Mixed(c, w, 4) <==> (e in Mixed(c, w, 3)) != (38 in c && e in Gen(3));
    assert e in Mixed(c, w, 5) <==> (e in Mixed(c, w, 4)) != (39 in c && e in Gen(4));
  }

  lemma StepIsLinear(a: Word, b: Word, u: Word, v: Word)
    ensures Step(Xor(a, b), Xor(u, v)) == Xor(Step(a, u), Step(b, v))
  {
    hide Step, Gen;
    forall e: nat ensures e in Step(Xor(a, b), Xor(u, v)) <==> e in Xor(Step(a, u), Step(b, v)) {
      StepBit(Xor(a, b), Xor(u, v), e);
      StepBit(a, u, e);
      StepBit(b, v, e);
    }
  }

  lemma StepFits(c: Word, v: Word)
    requires Fits(c, 40) && Fits(v, 5)
    ensures Fits(Step(c, v), 40)
  {
    hide Step;
    forall e | e in Step(c, v) ensures e < 40 {
      StepBit(c, v, e);
    }
  }

  /** The low bits of the generators, as far as the kernel needs them. */
  lemma LowBits()
    ensures 0 in Gen(0) && 1 !in Gen(0) && 2 !in Gen(0) && 3 in Gen(0) && 4 !in Gen(0)
    ensures 0 !in Gen(1) && 1 in Gen(1) && 2 !in Gen(1) && 3 !in Gen(1) && 4 in Gen(1)
    ensures 0 in Gen(2) && 1 !in Gen(2) && 2 in Gen(2) && 3 in Gen(2) && 4 !in Gen(2)
    ensures 0 !in Gen(3) && 1 in Gen(3) && 2 !in Gen(3) && 3 in Gen(3) && 4 in Gen(3)
    ensures 0 in Gen(4) && 1 !in Gen(4) && 2 in Gen(4) && 3 in Gen(4) && 4 in Gen(4)
  {
    FiveBits(0xf5dee51989);
    FiveBits(0xa9fdca3312);
    FiveBits(0x1bab10e32d);
    FiveBits(0x3706b1677a);
    FiveBits(0x644d626ffd);
  }

  lemma FiveBits(n: nat)
    ensures Bit(n, 0) == (n % 2 == 1)
    ensures Bit(n, 1) == (n / 2 % 2 == 1)
    ensures Bit(n, 2) == (n / 2 / 2 % 2 == 1)
    ensures Bit(n, 3) == (n / 2 / 2 / 2 % 2 == 1)
    ensures Bit(n, 4) == (n / 2 / 2 / 2 / 2 % 2 == 1)
  {
    assert Bit(n, 2) == Bit(n / 2, 1) == Bit(n / 2 / 2, 0);
    assert Bit(n, 3) == Bit(n / 2, 2) == Bit(n / 2 / 2, 1) == Bit(n / 2 / 2 / 2, 0);
    assert Bit(n, 4) == Bit(n / 2, 3) == Bit(n / 2 / 2, 2) == Bit(n / 2 / 2 / 2, 1) == Bit(n / 2 / 2 / 2 / 2, 0);
  }

  /** A step of nothing that leaves nothing had nothing: no two states lead to the same one. */
  lemma StepKernel(c: Word)
    requires Fits(c, 40) && Step(c, {}) == {}
    ensures c == {}
  {
    hide Step, Gen;
    LowBits();
    StepBit(c, {}, 0);
    StepBit(c, {}, 1);
    StepBit(c, {}, 2);
    StepBit(c, {}, 3);
    StepBit(c, {}, 4);
    assert 35 !in c && 36 !in c && 37 !in c && 38 !in c && 39 !in c;
    forall e | e in c ensures false {
      StepBit(c, {}, e + 5);
    }
  }

  // ---- whole streams --------------------------------------------------------------------------

  ghost predicate Symbols(vs: seq<Word>) {
    forall i :: 0 <= i < |vs| ==> Fits(vs[i], 5)
  }

  lemma {:induction false} PolymodAppend(c: Word, a: seq<Word>, b: seq<Word>)
    ensures PolymodFrom(c, a + b) == PolymodFrom(PolymodFrom(c, a), b)
    decreases |b|
  {
    hide Step;
    if b == [] {
      assert a + b == a;
    } else {
      assert (a + b)[..|a + b| - 1] == a + b[..|b| - 1];
      PolymodAppend(c, a, b[..|b| - 1]);
    }
  }

  lemma {:induction false} PolymodFits(c: Word, vs: seq<Word>)
    requires Fits(c, 40) && Symbols(vs)
    ensures Fits(PolymodFrom(c, vs), 40)
    decreases |vs|
  {
    hide Step;
    if vs != [] {
      PolymodFits(c, vs[..|vs| - 1]);
      StepFits(PolymodFrom(c, vs[..|vs| - 1]), vs[|vs| - 1]);
    }
  }

  function XorAll(a: seq<Word>, b: seq<Word>): (r: seq<Word>)
    requires |a| == |b|
    ensures |r| == |a|
  {
    seq(|a|, i requires 0 <= i < |a| => Xor(a[i], b[i]))
  }

  lemma {:induction false} PolymodIsLinear(c: Word, d: Word, a: seq<Word>, b: seq<Word>)
    requires |a| == |b|
    ensures PolymodFrom(Xor(c, d), XorAll(a, b)) == Xor(PolymodFrom(c, a), PolymodFrom(d, b))
    decreases |a|
  {
    hide Step, Xor;
    if a != [] {
      var a0, b0 := a[..|a| - 1], b[..|b| - 1];
      assert XorAll(a, b)[..|a| - 1] == XorAll(a0, b0);
      PolymodIsLinear(c, d, a0, b0);
      StepIsLinear(PolymodFrom(c, a0), PolymodFrom(d, b0), a[|a| - 1], b[|b| - 1]);
    }
  }

  function Zeros(n: nat): (r: seq<Word>)
    ensures |r| == n && forall i :: 0 <= i < n ==> r[i] == {}
  {
    seq(n, i => {})
  }

  lemma {:induction false} ZerosKeep(c: Word, n: nat)
    requires Fits(c, 40) && PolymodFrom(c, Zeros(n)) == {}
    ensures c == {}
    decreases n
  {
    hide Step;
    if n > 0 {
      assert Zeros(n)[..n - 1] == Zeros(n - 1);
      PolymodFits(c, Zeros(n - 1));
      StepKernel(PolymodFrom(c, Zeros(n - 1)));
      ZerosKeep(c, n - 1);
    }
  }

  /** Symbols side by side, the last one lowest. */
  function Packed(vs: seq<Word>): Word {
    if vs == [] then {} else Xor(Shifted(Packed(vs[..|vs| - 1])), vs[|vs| - 1])
  }

  function Shifted(c: Word): Word {
    set e | e in c :: e + 5
  }

  lemma {:induction false} PackedBit(vs: seq<Word>, e: nat)
    requires Symbols(vs)
    ensures e in Packed(vs) <==> e < 5 * |vs| && e % 5 in vs[|vs| - 1 - e / 5]
    decreases |vs|
  {
    if vs != [] {
      var rest := vs[..|vs| - 1];
      var w := vs[|vs| - 1];
      if e >= 5 {
        PackedBit(rest, e - 5);
        assert e !in w;
        assert e in Shifted(Packed(rest)) <==> e - 5 in Packed(rest) by {
          assert e == e - 5 + 5;
        }
        assert (e - 5) / 5 == e / 5 - 1 && (e - 5) % 5 == e % 5;
      } else {
        assert e !in Shifted(Packed(rest)) && e / 5 == 0 && e % 5 == e;
      }
    }
  }

  /** Up to eight symbols fit in a state without any mixing. */
  lemma {:induction false} ShortIsPacked(vs: seq<Word>)
    requires Symbols(vs) && |vs| <= 8
    ensures PolymodFrom({}, vs) == Packed(vs)
    decreases |vs|
  {
    assert Packed([]) == {};
    hide Step, Packed;
    if vs != [] {
      var rest, v := vs[..|vs| - 1], vs[|vs| - 1];
      ShortIsPacked(rest);
      forall e: nat ensures (e in Packed(rest) ==> e < 35) && (e in Step(Packed(rest), v) <==> e in Packed(vs)) {
        PackedBit(rest, e);
        PackedBit(vs, e);
        StepBit(Packed(rest), v, e);
        forall k: nat | 35 <= k < 40 ensures k !in Packed(rest) {
          PackedBit(rest, k);
        }
        assert 35 !in Packed(rest) && 36 !in Packed(rest) && 37 !in Packed(rest) && 38 !in Packed(rest) && 39 !in Packed(rest);
        if e >= 5 {
          PackedBit(rest, e - 5);
          assert (e - 5) / 5 == e / 5 - 1 && (e - 5) % 5 == e % 5;
        } else {
          assert e / 5 == 0 && e % 5 == e;
        }
      }
    }
  }

  lemma XorTwice(a: Word, b: Word)
    ensures Xor(Xor(a, b), b) == a && Xor(a, {}) == a && Xor({}, a) == a && Xor(a, a) == {}
    ensures Xor(a, b) == {} ==> a == b
    ensures Xor(b, Xor(a, b)) == a
  {
    if Xor(a, b) == {} {
      assert forall e :: e in a <==> e in b by {
        forall e ensures e in a <==> e in b {
          assert e !in Xor(a, b);
        }
      }
    }
  }

  /** What an eight-symbol tail does to a state. */
  lemma TailAdds(c: Word, tail: seq<Word>)
    requires Symbols(tail) && |tail| == 8
    ensures PolymodFrom(c, tail) == Xor(PolymodFrom(c, Zeros(8)), Packed(tail))
  {
    hide PolymodFrom, Packed;
    XorTwice(c, {});
    assert XorAll(Zeros(8), tail) == tail by {
      forall i | 0 <= i < 8 ensures XorAll(Zeros(8), tail)[i] == tail[i] {
        XorTwice(tail[i], {});
      }
    }
    PolymodIsLinear(c, {}, Zeros(8), tail);
    ShortIsPacked(tail);
  }

  /** The eight symbols of a 40-bit word, highest first. */
  function Digit(w: Word, i: nat): Word
    requires i < 8
  {
    set k | k in w && 5 * (7 - i) <= k < 5 * (8 - i) :: k - 5 * (7 - i)
  }

  lemma DigitBit(w: Word, i: nat, e: nat)
    requires i < 8
    ensures e in Digit(w, i) <==> e < 5 && e + 5 * (7 - i) in w
  {
    if e < 5 && e + 5 * (7 - i) in w {
      assert e == e + 5 * (7 - i) - 5 * (7 - i);
    }
  }

  function Digits(w: Word): (r: seq<Word>)
    ensures |r| == 8 && Symbols(r)
  {
    seq(8, i requires 0 <= i < 8 => Digit(w, i))
  }

  lemma PackedDigits(w: Word, vs: seq<Word>)
    requires Fits(w, 40) && Symbols(vs) && |vs| == 8
    ensures Packed(vs) == w <==> vs == Digits(w)
  {
    hide Packed;
    forall e: nat ensures e in Packed(vs) <==> e < 40 && e % 5 in vs[7 - e / 5] {
      PackedBit(vs, e);
    }
    if Packed(vs) == w {
      forall i | 0 <= i < 8 ensures vs[i] == Digit(w, i) {
        forall e: nat ensures e in vs[i] <==> e in Digit(w, i) {
          DigitBit(w, i, e);
          if e < 5 {
            assert (e + 5 * (7 - i)) / 5 == 7 - i && (e + 5 * (7 - i)) % 5 == e;
          }
        }
      }
    }
    if vs == Digits(w) {
      forall e: nat ensures e in Packed(vs) <==> e in w {
        if e < 40 {
          DigitBit(w, 7 - e / 5, e % 5);
          assert e == e % 5 + 5 * (7 - (7 - e / 5));
        }
      }
    }
  }

  /** The checksum of a stream: what eight zero symbols leave, with its lowest bit flipped. */
  function ChecksumWord(stream: seq<Word>): Word {
    Xor(PolymodFrom(ONE, stream + Zeros(8)), ONE)
  }

  lemma ChecksumFits(stream: seq<Word>)
    requires Symbols(stream)
    ensures Fits(ChecksumWord(stream), 40)
  {
    PolymodFits(ONE, stream + Zeros(8));
  }

  /** The checksum is the one valid tail: of all eight-symbol tails, exactly its digits bring
      the state of the whole stream to one. */
  lemma ChecksumIsTheTail(stream: seq<Word>, tail: seq<Word>)
    requires Symbols(stream) && Symbols(tail) && |tail| == 8
    ensures PolymodFrom({0}, stream + tail) == {0} <==> tail == Digits(ChecksumWord(stream))
  {
    hide PolymodFrom, Packed;
    PolymodAppend(ONE, stream, tail);
    PolymodAppend(ONE, stream, Zeros(8));
    TailAdds(PolymodFrom(ONE, stream), tail);
    var zeros := PolymodFrom(ONE, stream + Zeros(8));
    ChecksumFits(stream);
    PackedDigits(ChecksumWord(stream), tail);
    XorTwice(zeros, Packed(tail));
    XorTwice(zeros, ONE);
    XorSolves(zeros, Packed(tail), ONE);
  }

  lemma XorSolves(a: Word, b: Word, c: Word)
    ensures Xor(a, b) == c <==> b == Xor(a, c)
  {
    if Xor(a, b) == c {
      assert Xor(a, c) == b;
    }
    if b == Xor(a, c) {
      assert Xor(a, b) == c;
    }
  }

  // ---- errors are seen ---------------------------------------------------------------------------

  /** Two streams that agree outside eight consecutive symbols and differ somewhere have
      different checksums. */
  lemma BurstsAreSeen(before: seq<Word>, a: seq<Word>, b: seq<Word>, after: seq<Word>)
    requires Symbols(before) && Symbols(a) && Symbols(b) && Symbols(after) && |a| == |b| <= 8 && a != b
    ensures ChecksumWord(before + a + after) != ChecksumWord(before + b + after)
  {
    hide PolymodFrom, Packed, Xor, XorAll;
    var rest := after + Zeros(8);
    var c := PolymodFrom(ONE, before);
    var x, y := PolymodFrom(c, a), PolymodFrom(c, b);
    StreamParts(before, a, after);
    StreamParts(before, b, after);
    PolymodFits(ONE, before);
    PolymodFits(c, a);
    PolymodFits(c, b);
    assert x != y by {
      XorTwice(c, {});
      PolymodIsLinear(c, c, a, b);
      DifferenceShows(a, b);
      XorTwice(x, y);
    }
    if PolymodFrom(x, rest) == PolymodFrom(y, rest) {
      PolymodIsLinear(x, y, rest, rest);
      XorTwice(PolymodFrom(x, rest), {});
      SelfXor(rest);
      XorFits(x, y);
      ZerosKeep(Xor(x, y), |rest|);
      XorTwice(x, y);
    }
    XorTwice(PolymodFrom(x, rest), ONE);
    XorTwice(PolymodFrom(y, rest), ONE);
  }

  lemma StreamParts(before: seq<Word>, a: seq<Word>, after: seq<Word>)
    ensures PolymodFrom(ONE, before + a + after + Zeros(8)) == PolymodFrom(PolymodFrom(PolymodFrom(ONE, before), a), after + Zeros(8))
  {
    hide PolymodFrom;
    PolymodAppend(ONE, before, a);
    PolymodAppend(ONE, before + a, after + Zeros(8));
    assert before + a + after + Zeros(8) == before + a + (after + Zeros(8));
  }

  lemma XorFits(x: Word, y: Word)
    requires Fits(x, 40) && Fits(y, 40)
    ensures Fits(Xor(x, y), 40)
  {
  }

  lemma SelfXor(vs: seq<Word>)
    ensures XorAll(vs, vs) == Zeros(|vs|)
  {
    forall i | 0 <= i < |vs| ensures Xor(vs[i], vs[i]) == {} {
      XorTwice(vs[i], {});
    }
  }

  /** A short difference leaves a trace. */
  lemma DifferenceShows(a: seq<Word>, b: seq<Word>)
    requires Symbols(a) && Symbols(b) && |a| == |b| <= 8 && a != b
    ensures PolymodFrom({}, XorAll(a, b)) != {}
  {
    var d := XorAll(a, b);
    assert Symbols(d);
    ShortIsPacked(d);
    var i :| 0 <= i < |a| && a[i] != b[i];
    XorTwice(a[i], b[i]);
    assert d[i] != {};
    var e :| e in d[i];
    var k := e + 5 * (|d| - 1 - i);
    assert k / 5 == |d| - 1 - i && k % 5 == e;
    PackedBit(d, k);
  }

  // ---- strings ----------------------------------------------------------------------------------

  function IndexOf(charset: string, c: char): (r: Option<nat>)
    ensures r.Some? ==> r.value < |charset| && charset[r.value] == c
    ensures r.None? <==> c !in charset
  {
    if charset == [] then None
    else if charset[0] == c then Some(0)
    else
      match IndexOf(charset[1..], c)
      case None => None
      case Some(i) => Some(i + 1)
  }

  function Value(c: char): nat {
    IndexOf(InputCharset(), c).GetOr(0)
  }

  lemma ValuesDiffer(c: char, d: char)
    requires c in InputCharset() && d in InputCharset() && c != d
    ensures Value(c) != Value(d) && Value(c) < 96 && Value(d) < 96
  {
    assert |InputCharset()| <= 96;
    hide InputCharset;
  }

  predicate Accepted(s: string) {
    forall c :: c in s ==> c in InputCharset()
  }

  function Values(s: string): seq<nat> {
    seq(|s|, i requires 0 <= i < |s| => Value(s[i]))
  }

  function Lo(v: nat): nat {
    v % 32
  }

  function Hi(v: nat): nat {
    v / 32
  }

  /** The low five bits of each character, and after every third the high parts together. */
  function Expanded(vs: seq<nat>): (r: seq<nat>) {
    if |vs| >= 3 then
      [Lo(vs[0]), Lo(vs[1]), Lo(vs[2]), Hi(vs[0]) * 9 + Hi(vs[1]) * 3 + Hi(vs[2])] + Expanded(vs[3..])
    else if |vs| == 2 then [Lo(vs[0]), Lo(vs[1]), Hi(vs[0]) * 3 + Hi(vs[1])]
    else if |vs| == 1 then [Lo(vs[0]), Hi(vs[0])]
    else []
  }

  lemma {:induction false} ExpandedGroups(done: seq<nat>, part: seq<nat>)
    requires |done| % 3 == 0
    ensures Expanded(done + part) == Expanded(done) + Expanded(part)
    decreases |done|
  {
    hide Lo, Hi;
    if done == [] {
      assert done + part == part;
    } else {
      ExpandedGroups(done[3..], part);
      assert (done + part)[3..] == done[3..] + part;
    }
  }

  function Lows(part: seq<nat>): seq<nat> {
    seq(|part|, i requires 0 <= i < |part| => Lo(part[i]))
  }

  function Highs(part: seq<nat>): seq<nat> {
    seq(|part|, i requires 0 <= i < |part| => Hi(part[i]))
  }

  lemma PartsGrow(part: seq<nat>, v: nat)
    ensures Lows(part + [v]) == Lows(part) + [Lo(v)] && Highs(part + [v]) == Highs(part) + [Hi(v)]
    ensures |Highs(part)| == |part|
  {
    hide Lo, Hi;
  }

  /** The symbol the high parts of a group make. */
  function Together(highs: seq<nat>): seq<nat> {
    if |highs| == 1 then [highs[0]]
    else if |highs| == 2 then [highs[0] * 3 + highs[1]]
    else if |highs| == 3 then [highs[0] * 9 + highs[1] * 3 + highs[2]]
    else []
  }

  lemma NoGroup()
    ensures Expanded([]) == [] && Lows([]) == [] && Highs([]) == [] && Together([]) == []
    ensures Expanded([]) == Lows([]) + Together(Highs([]))
  {
  }

  /** The parts of at most three characters, one by one. */
  lemma PartsOf(x: nat, y: nat, z: nat)
    ensures Lows([x]) == [Lo(x)] && Highs([x]) == [Hi(x)]
    ensures Lows([x, y]) == [Lo(x), Lo(y)] && Highs([x, y]) == [Hi(x), Hi(y)]
    ensures Lows([x, y, z]) == [Lo(x), Lo(y), Lo(z)] && Highs([x, y, z]) == [Hi(x), Hi(y), Hi(z)]
  {
    NoGroup();
    hide *;
    PartsGrow([], x);
    PartsGrow([x], y);
    PartsGrow([x, y], z);
    assert [] + [x] == [x] && [x] + [y] == [x, y] && [x, y] + [z] == [x, y, z];
    assert [] + [Lo(x)] == [Lo(x)] && [] + [Hi(x)] == [Hi(x)];
  }

  lemma GroupOfOne(x: nat)
    ensures Expanded([x]) == Lows([x]) + Together(Highs([x]))
  {
    PartsOf(x, 0, 0);
    hide Lo, Hi, Lows, Highs;
  }

  lemma GroupOfTwo(x: nat, y: nat)
    ensures Expanded([x, y]) == Lows([x, y]) + Together(Highs([x, y]))
  {
    PartsOf(x, y, 0);
    hide Lo, Hi, Lows, Highs;
  }

  lemma GroupOfThree(x: nat, y: nat, z: nat)
    ensures Expanded([x, y, z]) == Lows([x, y, z]) + Together(Highs([x, y, z]))
  {
    PartsOf(x, y, z);
    NoGroup();
    hide Lo, Hi, Lows, Highs;
    assert [x, y, z][3..] == [];
  }

  lemma Spelled(part: seq<nat>)
    requires |part| <= 3
    ensures |part| == 0 ==> part == []
    ensures |part| == 1 ==> part == [part[0]]
    ensures |part| == 2 ==> part == [part[0], part[1]]
    ensures |part| == 3 ==> part == [part[0], part[1], part[2]]
  {
  }

  /** What a last group adds. */
  lemma LastGroup(part: seq<nat>)
    requires |part| <= 3
    ensures Expanded(part) == Lows(part) + Together(Highs(part))
  {
    hide *;
    Spelled(part);
    if |part| == 0 {
      NoGroup();
    } else if |part| == 1 {
      GroupOfOne(part[0]);
    } else if |part| == 2 {
      GroupOfTwo(part[0], part[1]);
    } else {
      GroupOfThree(part[0], part[1], part[2]);
    }
  }

  /** Groups of three, with the high parts of the last group at the end; None for a character
      outside the charset. */
  method Expand(s: string) returns (r: Option<seq<nat>>)
    ensures r.Some? <==> Accepted(s)
    ensures r.Some? ==> r.value == Expanded(Values(s))
  {
    hide InputCharset, Expanded, Value, Lo, Hi, Lows, Highs;
    var symbols: seq<nat>, groups: seq<nat> := [], [];
    ghost var done: seq<nat>, part: seq<nat> := [], [];
    NoGroup();
    for n := 0 to |s|
      invariant forall i :: 0 <= i < n ==> s[i] in InputCharset()
      invariant |done| % 3 == 0 && |part| < 3 && |groups| == |part| && |done + part| == n
      invariant forall i :: 0 <= i < n ==> (done + part)[i] == Value(s[i])
      invariant symbols == Expanded(done) + Lows(part) && groups == Highs(part)
    {
      if s[n] !in InputCharset() {
        return None;
      }
      var v := Value(s[n]);
      PartsGrow(part, v);
      symbols := symbols + [Lo(v)];
      groups := groups + [Hi(v)];
      assert done + (part + [v]) == (done + part) + [v];
      part := part + [v];
      if |groups| == 3 {
        symbols := symbols + [groups[0] * 9 + groups[1] * 3 + groups[2]];
        FullGroup(done, part);
        groups := [];
        done, part := done + part, [];
      }
    }
    LastGroup(part);
    ExpandedGroups(done, part);
    assert done + part == Values(s);
    if |groups| == 1 {
      symbols := symbols + [groups[0]];
    } else if |groups| == 2 {
      symbols := symbols + [groups[0] * 3 + groups[1]];
    }
    r := Some(symbols);
  }

  lemma FullGroup(done: seq<nat>, part: seq<nat>)
    requires |done| % 3 == 0 && |part| == 3
    ensures Expanded(done + part) + Lows([]) == Expanded(done) + Lows(part) + Together(Highs(part))
    ensures done + part + [] == done + part && Highs([]) == []
  {
    NoGroup();
    hide Expanded, Lo, Hi, Lows, Highs, Together;
    LastGroup(part);
    ExpandedGroups(done, part);
  }

  // ---- the checksum of a descriptor ----------------------------------------------------------------

  function Stream(s: string): (r: seq<Word>)
    ensures Symbols(r)
  {
    Words(Expanded(Values(s)))
  }

  function Number(w: Word): (n: nat)
    ensures n < 32
  {
    (if 0 in w then 1 else 0) + (if 1 in w then 2 else 0) + (if 2 in w then 4 else 0) + (if 3 in w then 8 else 0) + (if 4 in w then 16 else 0)
  }

  /** The character of a five-bit symbol. */
  function SymbolChar(w: Word): char {
    ChecksumCharset()[Number(w)]
  }

  /** The specification of DescriptorChecksum. */
  function Checksum(s: string): (r: string)
    ensures |r| == 8
  {
    hide *;
    seq(8, i requires 0 <= i < 8 => SymbolChar(Digit(ChecksumWord(Stream(s)), i)))
  }

  method DescriptorChecksum(descriptor: string) returns (out: Option<string>)
    ensures out.Some? <==> Accepted(descriptor)
    ensures out.Some? ==> out.value == Checksum(descriptor)
  {
    hide SymbolChar, Expanded, InputCharset, PolymodFrom;
    var symbols := Expand(descriptor);
    if symbols.None? {
      return None;
    }
    var chk := Polymod(symbols.value + [0, 0, 0, 0, 0, 0, 0, 0]);
    assert Words(symbols.value + [0, 0, 0, 0, 0, 0, 0, 0]) == Stream(descriptor) + Zeros(8) by {
      ZeroSymbol();
    }
    chk := Xor(chk, ONE);
    var text := "";
    for i := 0 to 8
      invariant |text| == i && forall k :: 0 <= k < i ==> text[k] == SymbolChar(Digit(chk, k))
    {
      text := text + [SymbolChar(Digit(chk, i))];
    }
    out := Some(text);
  }

  lemma ZeroSymbol()
    ensures Ones(0, 5) == {}
  {
    forall e: nat ensures !Bit(0, e) {
      NoBits(e);
    }
  }

  lemma {:induction false} NoBits(e: nat)
    ensures !Bit(0, e)
    decreases e
  {
    if e > 0 {
      NoBits(e - 1);
    }
  }

  // ---- which mistakes a checksum shows ---------------------------------------------------------------

  lemma NumbersDiffer(a: Word, b: Word)
    requires Fits(a, 5) && Fits(b, 5) && Number(a) == Number(b)
    ensures a == b
  {
    forall e: nat ensures e in a <==> e in b {
      assert e == 0 || e == 1 || e == 2 || e == 3 || e == 4 || e >= 5;
    }
  }

  /** The place of a checksum character. */
  function Place(c: char): nat {
    match c
    case 'q' => 0 case 'p' => 1 case 'z' => 2 case 'r' => 3 case 'y' => 4 case '9' => 5 case 'x' => 6 case '8' => 7
    case 'g' => 8 case 'f' => 9 case '2' => 10 case 't' => 11 case 'v' => 12 case 'd' => 13 case 'w' => 14 case '0' => 15
    case 's' => 16 case '3' => 17 case 'j' => 18 case 'n' => 19 case '5' => 20 case '4' => 21 case 'k' => 22 case 'h' => 23
    case 'c' => 24 case 'e' => 25 case '6' => 26 case 'm' => 27 case 'u' => 28 case 'a' => 29 case '7' => 30 case 'l' => 31
    case _ => 32
  }

  lemma PlaceInverts(n: nat)
    requires n < 32
    ensures Place(ChecksumCharset()[n]) == n
  {
  }

  lemma CharsDiffer(a: Word, b: Word)
    requires Fits(a, 5) && Fits(b, 5) && SymbolChar(a) == SymbolChar(b)
    ensures a == b
  {
    hide Number, ChecksumCharset, Place;
    PlaceInverts(Number(a));
    PlaceInverts(Number(b));
    NumbersDiffer(a, b);
  }

  /** Different checksum words are different checksums. */
  lemma ChecksumsDiffer(s: string, t: string)
    requires ChecksumWord(Stream(s)) != ChecksumWord(Stream(t))
    ensures Checksum(s) != Checksum(t)
  {
    hide SymbolChar, Stream, ChecksumWord;
    var a, b := ChecksumWord(Stream(s)), ChecksumWord(Stream(t));
    if Checksum(s) == Checksum(t) {
      forall i | 0 <= i < 8 ensures Digit(a, i) == Digit(b, i) {
        assert Checksum(s)[i] == Checksum(t)[i];
        CharsDiffer(Digits(a)[i], Digits(b)[i]);
      }
      assert Digits(a) == Digits(b);
      ChecksumFits(Stream(s));
      ChecksumFits(Stream(t));
      PackedDigits(a, Digits(a));
      PackedDigits(b, Digits(b));
    }
  }

  ghost predicate Codes(vs: seq<nat>) {
    forall i :: 0 <= i < |vs| ==> vs[i] < 96
  }

  lemma {:induction false} ExpandedShape(vs: seq<nat>, ws: seq<nat>)
    requires |vs| == |ws| && Codes(vs)
    ensures |Expanded(vs)| == |Expanded(ws)| && (|vs| <= 6 ==> |Expanded(vs)| <= 8)
    ensures forall x :: x in Expanded(vs) ==> x < 32
    decreases |vs|
  {
    if |vs| >= 3 {
      ExpandedShape(vs[3..], ws[3..]);
    }
  }

  lemma CodeParts(x: nat, y: nat)
    requires x < 96 && y < 96
    ensures Hi(x) < 3 && (Lo(x) == Lo(y) && Hi(x) == Hi(y) ==> x == y)
  {
  }

  /** Nothing is lost in the expansion. */
  lemma {:induction false} ExpandedDiffers(vs: seq<nat>, ws: seq<nat>)
    requires |vs| == |ws| && Codes(vs) && Codes(ws) && Expanded(vs) == Expanded(ws)
    ensures vs == ws
    decreases |vs|
  {
    forall i | 0 <= i < |vs| ensures Hi(vs[i]) < 3 && Hi(ws[i]) < 3 && (Lo(vs[i]) == Lo(ws[i]) && Hi(vs[i]) == Hi(ws[i]) ==> vs[i] == ws[i]) {
      CodeParts(vs[i], ws[i]);
      CodeParts(ws[i], vs[i]);
    }
    hide Lo, Hi;
    if |vs| >= 3 {
      assert Expanded(vs)[4..] == Expanded(vs[3..]) && Expanded(ws)[4..] == Expanded(ws[3..]);
      ExpandedDiffers(vs[3..], ws[3..]);
      assert Expanded(vs)[0] == Expanded(ws)[0] && Expanded(vs)[1] == Expanded(ws)[1] && Expanded(vs)[2] == Expanded(ws)[2] && Expanded(vs)[3] == Expanded(ws)[3];
      assert vs == [vs[0], vs[1], vs[2]] + vs[3..] && ws == [ws[0], ws[1], ws[2]] + ws[3..];
    } else if |vs| == 2 {
      assert Expanded(vs)[0] == Expanded(ws)[0] && Expanded(vs)[1] == Expanded(ws)[1] && Expanded(vs)[2] == Expanded(ws)[2];
    } else if |vs| == 1 {
      assert Expanded(vs)[0] == Expanded(ws)[0] && Expanded(vs)[1] == Expanded(ws)[1];
    }
  }

  lemma BitsOf(x: nat)
    requires x < 32
    ensures Number(Ones(x, 5)) == x
  {
    FiveBits(x);
  }

  lemma WordsDiffer(xs: seq<nat>, ys: seq<nat>)
    requires |xs| == |ys| && xs != ys && (forall x :: x in xs ==> x < 32) && forall y :: y in ys ==> y < 32
    ensures Words(xs) != Words(ys)
  {
    var i :| 0 <= i < |xs| && xs[i] != ys[i];
    assert xs[i] in xs && ys[i] in ys;
    BitsOf(xs[i]);
    BitsOf(ys[i]);
    assert Words(xs)[i] != Words(ys)[i];
  }

  lemma WordsAppend(a: seq<nat>, b: seq<nat>)
    ensures Words(a + b) == Words(a) + Words(b)
  {
  }

  /** Three pieces of a value sequence, the first ending on a group border. */
  lemma StreamOf(a: seq<nat>, b: seq<nat>, c: seq<nat>)
    requires |a| % 3 == 0 && (|b| % 3 == 0 || c == [])
    ensures Words(Expanded(a + b + c)) == Words(Expanded(a)) + Words(Expanded(b)) + Words(Expanded(c))
  {
    hide Expanded, Words;
    if c == [] {
      NoGroup();
      ExpandedGroups(a, b);
      assert a + b + c == a + b;
      WordsAppend(Expanded(a), Expanded(b));
      WordsAppend(Expanded(a) + Expanded(b), []);
      assert Expanded(a) + Expanded(b) + [] == Expanded(a) + Expanded(b);
    } else {
      ExpandedGroups(a, b);
      ExpandedGroups(a + b, c);
      WordsAppend(Expanded(a), Expanded(b));
      WordsAppend(Expanded(a) + Expanded(b), Expanded(c));
    }
  }

  lemma PiecesSeen(a: seq<nat>, b: seq<nat>, d: seq<nat>, c: seq<nat>)
    requires |a| % 3 == 0 && |b| == |d| <= 6 && (|b| % 3 == 0 || c == []) && b != d && Codes(b) && Codes(d)
    ensures ChecksumWord(Words(Expanded(a + b + c))) != ChecksumWord(Words(Expanded(a + d + c)))
  {
    hide Expanded, Words, ChecksumWord;
    StreamOf(a, b, c);
    StreamOf(a, d, c);
    ExpandedShape(b, d);
    ExpandedShape(d, b);
    if Expanded(b) == Expanded(d) {
      ExpandedDiffers(b, d);
    }
    WordsDiffer(Expanded(b), Expanded(d));
    BurstsAreSeen(Words(Expanded(a)), Words(Expanded(b)), Words(Expanded(d)), Words(Expanded(c)));
  }

  lemma NearbyCodesAreSeen(vs: seq<nat>, ws: seq<nat>, i: nat, k: nat)
    requires |vs| == |ws| && Codes(vs) && Codes(ws) && k < |vs| && vs[k] != ws[k]
    requires forall j :: 0 <= j < |vs| && !(i <= j < i + 4) ==> vs[j] == ws[j]
    ensures ChecksumWord(Words(Expanded(vs))) != ChecksumWord(Words(Expanded(ws)))
  {
    var g := GroupStart(i);
    assert i <= k < i + 4;
    var h := if g + 6 <= |vs| then g + 6 else |vs|;
    hide *;
    assert |vs[..g]| == g && |vs[g..h]| == h - g == |ws[g..h]| && (h < |vs| ==> h - g == 6);
    ThreePieces(vs, ws, g, h);
    PieceDiffers(vs, ws, g, h, k);
    CodesPiece(vs, g, h);
    CodesPiece(ws, g, h);
    PiecesSeen(vs[..g], vs[g..h], ws[g..h], vs[h..]);
  }

  /** Where the group of a character starts. */
  function GroupStart(i: nat): (g: nat)
    ensures g % 3 == 0 && g <= i <= g + 2
  {
    i - i % 3
  }

  lemma ThreePieces(vs: seq<nat>, ws: seq<nat>, g: nat, h: nat)
    requires |vs| == |ws| && g <= h <= |vs| && forall j :: 0 <= j < |vs| && !(g <= j < h) ==> vs[j] == ws[j]
    ensures vs == vs[..g] + vs[g..h] + vs[h..] && ws == vs[..g] + ws[g..h] + vs[h..]
  {
  }

  lemma PieceDiffers(vs: seq<nat>, ws: seq<nat>, g: nat, h: nat, k: nat)
    requires |vs| == |ws| && g <= k < h <= |vs| && vs[k] != ws[k]
    ensures vs[g..h] != ws[g..h]
  {
    assert vs[g..h][k - g] == vs[k] && ws[g..h][k - g] == ws[k];
  }

  lemma CodesPiece(vs: seq<nat>, g: nat, h: nat)
    requires Codes(vs) && g <= h <= |vs|
    ensures Codes(vs[g..h])
  {
  }

  /** Any mistake inside four consecutive characters changes the checksum: one wrong character,
      two swapped neighbours, a mistyped run. */
  lemma NearbyErrorsAreSeen(s: string, t: string, i: nat)
    requires Accepted(s) && Accepted(t) && |s| == |t| && s != t
    requires forall k :: 0 <= k < |s| && !(i <= k < i + 4) ==> s[k] == t[k]
    ensures Checksum(s) != Checksum(t)
  {
    hide InputCharset, Value, Expanded, Words, ChecksumWord, Checksum;
    CodesDiffer(s, t);
    var k :| 0 <= k < |s| && s[k] != t[k];
    NearbyCodesAreSeen(Values(s), Values(t), i, k);
    ChecksumsDiffer(s, t);
  }

  lemma CodesDiffer(s: string, t: string)
    requires Accepted(s) && Accepted(t) && |s| == |t| && s != t
    ensures Codes(Values(s)) && Codes(Values(t)) && Values(s) != Values(t)
    ensures forall k :: 0 <= k < |s| ==> (s[k] == t[k] <==> Values(s)[k] == Values(t)[k])
  {
    hide InputCharset, Value;
    forall c | c in InputCharset() ensures Value(c) < 96 {
      CodeBound(c);
    }
    forall k | 0 <= k < |s| ensures s[k] == t[k] <==> Values(s)[k] == Values(t)[k] {
      if s[k] != t[k] {
        ValuesDiffer(s[k], t[k]);
      }
    }
  }

  lemma CodeBound(c: char)
    requires c in InputCharset()
    ensures Value(c) < 96
  {
    assert |InputCharset()| <= 96;
    hide InputCharset;
  }
}
