/** The /24 tenant blocks of a node CIDR. A block is named by its first address. */
module Subnets {
  import opened Text

  const BLOCK: nat := 256
  const TENANT_BITS: nat := 24

  function Pow2(n: nat): (r: nat)
    ensures r >= 1
  {
    if n == 0 then 1 else 2 * Pow2(n - 1)
  }

  /** The last n bits of a are zero. */
  predicate LowBitsZero(a: nat, n: nat) {
    n == 0 || (a % 2 == 0 && LowBitsZero(a / 2, n - 1))
  }

  /** A node CIDR with a prefix of at most 24 whose address has no host bits. */
  ghost predicate NodeCidr(c: Cidr) {
    c.bits <= TENANT_BITS && LowBitsZero(c.addr, 32 - c.bits) && c.addr + Pow2(32 - c.bits) <= SPACE
  }

  ghost predicate InCidr(x: int, c: Cidr)
    requires c.bits <= 32
  {
    c.addr <= x < c.addr + Pow2(32 - c.bits)
  }

  ghost predicate InBlock(x: int, block: int) {
    block <= x < block + BLOCK
  }

  ghost function TenantBlocks(c: Cidr): (blocks: seq<int>)
    requires c.bits <= TENANT_BITS
  {
    seq(Pow2(TENANT_BITS - c.bits), i => c.addr + BLOCK * i)
  }

  lemma BlocksFill(c: Cidr)
    requires c.bits <= TENANT_BITS
    ensures Pow2(32 - c.bits) == BLOCK * Pow2(TENANT_BITS - c.bits)
  {
    var n := TENANT_BITS - c.bits;
    assert Pow2(n + 2) == 4 * Pow2(n);
    assert Pow2(n + 4) == 4 * Pow2(n + 2);
    assert Pow2(n + 6) == 4 * Pow2(n + 4);
    assert Pow2(n + 8) == 4 * Pow2(n + 6);
  }

  /** The loop over the prefix iterator. */
  method ListSubnets(c: Cidr) returns (subnets: seq<int>)
    requires NodeCidr(c)
    ensures subnets == TenantBlocks(c)
  {
    BlocksFill(c);
    subnets := [];
    var next: int := c.addr;
    while next < c.addr + Pow2(32 - c.bits)
      invariant next == c.addr + BLOCK * |subnets|
      invariant |subnets| <= Pow2(TENANT_BITS - c.bits)
      invariant forall i :: 0 <= i < |subnets| ==> subnets[i] == c.addr + BLOCK * i
    {
      subnets := subnets + [next];
      next := next + BLOCK;
    }
  }

  ghost predicate Divides(m: nat, a: nat) {
    exists k: nat :: a == m * k
  }

  /** The last n bits of a number are zero exactly when 2^n divides it. */
  lemma {:induction false} LowBitsDivide(a: nat, n: nat)
    ensures LowBitsZero(a, n) <==> Divides(Pow2(n), a)
  {
    if n == 0 {
      assert a == Pow2(0) * a;
    } else {
      LowBitsDivide(a / 2, n - 1);
      if LowBitsZero(a, n) {
        var k: nat :| a / 2 == Pow2(n - 1) * k;
        assert a == Pow2(n) * k;
      }
      if Divides(Pow2(n), a) {
        var k: nat :| a == Pow2(n) * k;
        assert a == 2 * (Pow2(n - 1) * k);
        assert a / 2 == Pow2(n - 1) * k;
      }
    }
  }

  /** Numbers whose last eight bits are zero are the multiples of a block. */
  lemma {:induction false} EightLowBits(a: nat, n: nat)
    requires n >= 8
    ensures LowBitsZero(a, n) ==> a % BLOCK == 0
    ensures n == 8 ==> (LowBitsZero(a, n) <==> a % BLOCK == 0)
  {
    hide LowBitsZero;
    FourLowBits(a, n);
    FourLowBits(a / 16, n - 4);
    TwoHexDigits(a);
  }

  lemma TwoHexDigits(a: nat)
    ensures a % 256 == 0 <==> a % 16 == 0 && a / 16 % 16 == 0
  {
    assert a == 256 * (a / 16 / 16) + 16 * (a / 16 % 16) + a % 16;
  }

  lemma {:induction false} FourLowBits(a: nat, n: nat)
    requires n >= 4
    ensures LowBitsZero(a, n) <==> a % 16 == 0 && (n == 4 || LowBitsZero(a / 16, n - 4))
  {
    var b := a / 2;
    var c := b / 2;
    var d := c / 2;
    assert LowBitsZero(a, n) <==> a % 2 == 0 && LowBitsZero(b, n - 1);
    assert LowBitsZero(b, n - 1) <==> b % 2 == 0 && LowBitsZero(c, n - 2);
    assert LowBitsZero(c, n - 2) <==> c % 2 == 0 && LowBitsZero(d, n - 3);
    assert LowBitsZero(d, n - 3) <==> d % 2 == 0 && LowBitsZero(d / 2, n - 4);
    assert d / 2 == a / 16 && a == 16 * (d / 2) + 8 * (d % 2) + 4 * (c % 2) + 2 * (b % 2) + a % 2;
  }

  lemma StaysMultiple(a: nat, i: nat)
    requires a % 256 == 0
    ensures (a + 256 * i) % 256 == 0
  {
    assert a + 256 * i == 256 * (a / 256 + i);
  }

  lemma {:induction false} BlockAligned(c: Cidr, i: nat)
    requires NodeCidr(c) && i < Pow2(TENANT_BITS - c.bits)
    ensures (c.addr + BLOCK * i) % BLOCK == 0
  {
    EightLowBits(c.addr, 32 - c.bits);
    StaysMultiple(c.addr, i);
  }

  lemma BlockOf(c: Cidr, x: int)
    requires NodeCidr(c) && InCidr(x, c)
    ensures exists i :: 0 <= i < |TenantBlocks(c)| && InBlock(x, TenantBlocks(c)[i])
  {
    BlocksFill(c);
    var i := (x - c.addr) / BLOCK;
    assert 0 <= i < |TenantBlocks(c)| && InBlock(x, TenantBlocks(c)[i]);
  }

  /** The blocks are aligned, ascending and pairwise disjoint, and they cover the CIDR exactly: every
      address of it lies in exactly one of them and no block reaches outside. */
  lemma BlocksPartition(c: Cidr)
    requires NodeCidr(c)
    ensures var bs := TenantBlocks(c);
            && |bs| == Pow2(TENANT_BITS - c.bits)
            && (forall i :: 0 <= i < |bs| ==> bs[i] % BLOCK == 0 && 0 <= bs[i] <= SPACE - BLOCK)
            && (forall i, j :: 0 <= i < j < |bs| ==> bs[i] + BLOCK <= bs[j])
            && (forall x: int :: InCidr(x, c) <==> exists i :: 0 <= i < |bs| && InBlock(x, bs[i]))
  {
    var bs := TenantBlocks(c);
    BlocksFill(c);
    forall i | 0 <= i < |bs| ensures bs[i] % BLOCK == 0 && 0 <= bs[i] <= SPACE - BLOCK {
      BlockAligned(c, i);
    }
    forall x: int ensures InCidr(x, c) <==> exists i :: 0 <= i < |bs| && InBlock(x, bs[i]) {
      if InCidr(x, c) {
        BlockOf(c, x);
      }
    }
  }

  /** The documented node CIDRs are /22 (README.md:5 of the repository): four tenant blocks a node. */
  lemma FourBlocksOfASlash22(c: Cidr)
    requires NodeCidr(c) && c.bits == 22
    ensures TenantBlocks(c) == [c.addr, c.addr + 256, c.addr + 512, c.addr + 768]
  {
    assert Pow2(2) == 4;
  }
}
