/** IPv4 subnets: the configuration check on gateway and netmask (config/config.go), and the
    network / broadcast arithmetic the allocator and the request check both use.  Addresses are
    integers below 2^32 and every wrap-around of the 32-bit operations is written out. */
module Subnet {
  import opened Text

  function Pow2(k: nat): (p: nat)
    ensures p > 0
  {
    if k == 0 then 1 else 2 * Pow2(k - 1)
  }

  lemma {:induction false} Pow2Monotone(j: nat, k: nat)
    requires j <= k
    ensures Pow2(j) <= Pow2(k)
    decreases k
  {
    if j < k { Pow2Monotone(j, k - 1); }
  }

  lemma Pow2Of32()
    ensures Pow2(32) == UINT32_MAX + 1
  {
    assert Pow2(8) == 256;
    assert Pow2(16) == 65536;
    assert Pow2(24) == 16777216;
  }

  // -------------------------------------------------------- bitwise operations

  function And(a: nat, b: nat): nat {
    if a == 0 || b == 0 then 0
    else 2 * And(a / 2, b / 2) + (if a % 2 == 1 && b % 2 == 1 then 1 else 0)
  }

  function Or(a: nat, b: nat): nat {
    if a == 0 then b
    else if b == 0 then a
    else 2 * Or(a / 2, b / 2) + (if a % 2 == 1 || b % 2 == 1 then 1 else 0)
  }

  function Not32(a: nat): nat
    requires a <= UINT32_MAX
  {
    UINT32_MAX - a
  }

  lemma MulGrows(a: int, d: int)
    requires d > 0
    ensures a >= 1 ==> a * d >= d
    ensures a <= -1 ==> a * d <= -d
  {
  }

  /** The usual uniqueness of quotient and remainder. */
  lemma DivModUnique(x: nat, d: nat, q: nat, r: nat)
    requires r < d && x == q * d + r
    ensures x / d == q && x % d == r
  {
    var q' := x / d;
    assert x == q' * d + x % d;
    assert (q - q') * d == q * d - q' * d;
    MulGrows(q - q', d);
  }

  lemma DivPow2Step(x: nat, k: nat)
    requires k > 0
    ensures x / Pow2(k) == (x / 2) / Pow2(k - 1)
    ensures x % Pow2(k) == 2 * ((x / 2) % Pow2(k - 1)) + x % 2
  {
    var m := Pow2(k - 1);
    var h := x / 2;
    var q, r := h / m, h % m;
    assert h == q * m + r;
    assert q * (2 * m) == 2 * (q * m);
    DivModUnique(x, 2 * m, q, 2 * r + x % 2);
  }

  lemma {:induction false} AndZero(a: nat, i: nat)
    ensures And(a, Pow2(i)) == 0 <==> a / Pow2(i) % 2 == 0
    decreases i
  {
    if i == 0 {
      assert a / 1 == a;
    } else {
      DivPow2Step(a, i);
      AndZero(a / 2, i - 1);
      assert Pow2(i) / 2 == Pow2(i - 1) && Pow2(i) % 2 == 0;
      if a == 0 {
        DivModUnique(0, Pow2(i), 0, 0);
      }
    }
  }

  lemma {:induction false} AndFull(a: nat, n: nat)
    requires a < Pow2(n)
    ensures And(a, Pow2(n) - 1) == a
    decreases n
  {
    if n > 0 {
      assert (Pow2(n) - 1) / 2 == Pow2(n - 1) - 1 && (Pow2(n) - 1) % 2 == 1;
      AndFull(a / 2, n - 1);
    }
  }

  /** The number formed by the `k` low bits. */
  function Low(x: nat, k: nat): (r: nat)
    ensures r <= x && r < Pow2(k)
    decreases k
  {
    if k == 0 then 0 else 2 * Low(x / 2, k - 1) + x % 2
  }

  lemma {:induction false} LowIsRemainder(x: nat, k: nat)
    ensures Low(x, k) == x % Pow2(k)
    decreases k
  {
    if k == 0 {
      assert x % 1 == 0;
    } else {
      DivPow2Step(x, k);
      LowIsRemainder(x / 2, k - 1);
    }
  }

  /** Masking with `n - k` leading ones clears exactly the `k` low bits. */
  lemma {:induction false} AndContiguous(a: nat, n: nat, k: nat)
    requires a < Pow2(n) && k <= n
    ensures Pow2(k) <= Pow2(n)
    ensures And(a, Pow2(n) - Pow2(k)) == a - Low(a, k)
    decreases k
  {
    Pow2Monotone(k, n);
    if k == 0 {
      AndFull(a, n);
    } else {
      AndContiguous(a / 2, n - 1, k - 1);
      var b := Pow2(n) - Pow2(k);
      assert b == 2 * (Pow2(n - 1) - Pow2(k - 1));
      assert b / 2 == Pow2(n - 1) - Pow2(k - 1) && b % 2 == 0;
      if b == 0 {
        assert And(a / 2, 0) == 0;
      }
    }
  }

  /** Setting the `k` low bits where they are clear adds 2^k - 1. */
  lemma {:induction false} OrLowBits(a: nat, k: nat)
    requires Low(a, k) == 0
    ensures Or(a, Pow2(k) - 1) == a + Pow2(k) - 1
    decreases k
  {
    if k > 0 {
      OrLowBits(a / 2, k - 1);
      assert (Pow2(k) - 1) / 2 == Pow2(k - 1) - 1 && (Pow2(k) - 1) % 2 == 1;
    }
  }

  /** The block of size 2^k around `g` is aligned and does not reach past 2^n. */
  lemma {:induction false} BlockFits(g: nat, n: nat, k: nat)
    requires g < Pow2(n) && k <= n
    ensures Low(g - Low(g, k), k) == 0
    ensures g - Low(g, k) + Pow2(k) <= Pow2(n)
    decreases k
  {
    if k > 0 {
      BlockFits(g / 2, n - 1, k - 1);
      var low := g - Low(g, k);
      assert low == 2 * (g / 2 - Low(g / 2, k - 1));
    }
  }

  // ----------------------------------------------------------- the netmask check

  /** A mask of `32 - k` ones followed by `k` zeros, neither all ones nor all zeros
      (section 3.1 of RFC 4632). */
  ghost predicate IsContiguousMask(mask: nat, k: nat) {
    1 <= k <= 31 && mask == Pow2(32) - Pow2(k)
  }

  ghost predicate AcceptableMask(mask: nat) {
    exists k :: IsContiguousMask(mask, k)
  }

  /** Private IPv4 space as the three blocks of section 3 of RFC 1918. */
  predicate IsPrivate(ip: nat) {
    10 * 0x100_0000 <= ip < 11 * 0x100_0000 ||
    172 * 0x100_0000 + 16 * 0x1_0000 <= ip < 172 * 0x100_0000 + 32 * 0x1_0000 ||
    192 * 0x100_0000 + 168 * 0x1_0000 <= ip < 192 * 0x100_0000 + 169 * 0x1_0000
  }

  datatype ConfigError =
    | GatewayInvalid | GatewayBroadcast | GatewayMulticast | GatewayPublic
    | MaskInvalid | MaskTrivial | MaskNotContiguous

  /** All bits of `val` from 31 down to `i` are ones. */
  ghost predicate TopOnes(val: nat, i: nat) {
    i <= 32 && val / Pow2(i) == Pow2(32 - i) - 1
  }

  /** The bits of `val` from 31 down to `i` are ones above position `k` and zeros from there. */
  ghost predicate TopOnesThenZeros(val: nat, i: nat, k: nat) {
    i < k <= 32 && val / Pow2(i) == Pow2(32 - i) - Pow2(k - i)
  }

  lemma {:induction false} ShiftDown(val: nat, i: nat)
    requires i > 0
    ensures val / Pow2(i - 1) == 2 * (val / Pow2(i)) + val / Pow2(i - 1) % 2
    decreases i
  {
    DivPow2Step(val, i);
    if i == 1 {
      assert val / 1 == val;
    } else {
      DivPow2Step(val, i - 1);
      ShiftDown(val / 2, i - 1);
    }
  }

  /** A one below a zero: no contiguous mask has this shape. */
  lemma GapRefutes(val: nat, i: nat, k: nat, j: nat)
    requires val <= UINT32_MAX && 0 < i
    requires TopOnesThenZeros(val, i, k)
    requires val / Pow2(i - 1) % 2 == 1
    ensures !IsContiguousMask(val, j)
  {
    assert Pow2(k - i) == 2 * Pow2(k - i - 1);
    if IsContiguousMask(val, j) {
      ContiguousBit(j, i - 1);
    }
  }

  /** Bit `i` of a contiguous mask is set exactly from position `j` up, and above it are ones. */
  lemma ContiguousBit(j: nat, i: nat)
    requires j <= 32 && i <= 31
    ensures Pow2(j) <= Pow2(32)
    ensures (Pow2(32) - Pow2(j)) / Pow2(i) % 2 == (if j <= i then 1 else 0)
    ensures j <= i ==> (Pow2(32) - Pow2(j)) / Pow2(i + 1) == Pow2(32 - (i + 1)) - 1
  {
    ContiguousShift(j, i);
    ContiguousShift(j, i + 1);
    assert Pow2(32 - i) == 2 * Pow2(32 - i - 1);
    if j > i {
      assert Pow2(j - i) == 2 * Pow2(j - i - 1);
    }
  }

  /** The leading part of a contiguous mask. */
  lemma ContiguousShift(j: nat, i: nat)
    requires j <= 32 && i <= 32
    ensures Pow2(j) <= Pow2(32)
    ensures (Pow2(32) - Pow2(j)) / Pow2(i) == if j <= i then Pow2(32 - i) - 1 else Pow2(32 - i) - Pow2(j - i)
  {
    Pow2Monotone(j, 32);
    Pow2Add(i, 32 - i);
    var val := Pow2(32) - Pow2(j);
    if j <= i {
      Pow2Monotone(j, i);
      assert (Pow2(32 - i) - 1) * Pow2(i) == Pow2(32) - Pow2(i) by {
        assert (Pow2(32 - i) - 1) * Pow2(i) == Pow2(32 - i) * Pow2(i) - Pow2(i);
      }
      DivModUnique(val, Pow2(i), Pow2(32 - i) - 1, Pow2(i) - Pow2(j));
    } else {
      Pow2Add(i, j - i);
      Pow2Monotone(j - i, 32 - i);
      assert (Pow2(32 - i) - Pow2(j - i)) * Pow2(i) == val by {
        assert (Pow2(32 - i) - Pow2(j - i)) * Pow2(i) == Pow2(32 - i) * Pow2(i) - Pow2(j - i) * Pow2(i);
      }
      DivModUnique(val, Pow2(i), Pow2(32 - i) - Pow2(j - i), 0);
    }
  }

  lemma {:induction false} Pow2Add(a: nat, b: nat)
    ensures Pow2(a + b) == Pow2(a) * Pow2(b) == Pow2(b) * Pow2(a)
    decreases b
  {
    if b > 0 {
      Pow2Add(a, b - 1);
      assert Pow2(a + b) == 2 * Pow2(a + b - 1);
      assert 2 * (Pow2(a) * Pow2(b - 1)) == Pow2(a) * (2 * Pow2(b - 1));
    }
  }

  /** The bit loop on the mask: it accepts exactly 2^32 - 2^k for k in 1..31. */
  method ValidateNetmask(val: nat) returns (r: Result<(), ConfigError>)
    requires val <= UINT32_MAX
    ensures r.Ok? <==> AcceptableMask(val)
    ensures r == Err(MaskTrivial) <==> val == 0 || val == UINT32_MAX
    ensures r == Err(MaskNotContiguous) <==> !AcceptableMask(val) && val != 0 && val != UINT32_MAX
  {
    Pow2Of32();
    if val == 0 || val == UINT32_MAX {
      TrivialMasks(val);
      return Err(MaskTrivial);
    }
    var foundZero := false;
    ghost var k := 0;
    var i: nat := 32;
    DivModUnique(val, Pow2(32), 0, val);
    while i > 0
      invariant i <= 32
      invariant !foundZero ==> TopOnes(val, i)
      invariant foundZero ==> TopOnesThenZeros(val, i, k)
    {
      AndZero(val, i - 1);
      ShiftDown(val, i);
      assert Pow2(32 - (i - 1)) == 2 * Pow2(32 - i);
      if And(val, Pow2(i - 1)) == 0 {
        if !foundZero { k := i; }
        assert Pow2(k - (i - 1)) == 2 * Pow2(k - i);
        foundZero := true;
      } else if foundZero {
        forall j ensures !IsContiguousMask(val, j) { GapRefutes(val, i, k, j); }
        return Err(MaskNotContiguous);
      }
      i := i - 1;
    }
    assert val / Pow2(0) == val;
    if foundZero && k < 32 {
      assert IsContiguousMask(val, k);
    }
    return Ok(());
  }

  lemma TrivialMasks(val: nat)
    requires val == 0 || val == UINT32_MAX
    ensures !AcceptableMask(val)
  {
    forall k ensures !IsContiguousMask(val, k) {
      if 1 <= k <= 31 {
        Pow2Of32();
        Pow2Monotone(1, k);
        Pow2Monotone(k, 31);
      }
    }
  }

  /** The whole check on one configured gateway and netmask; `None` stands for text that is no
      IPv4 address. */
  method ValidateGatewayAndNetmask(gateway: Option<nat>, netmask: Option<nat>) returns (r: Result<(), ConfigError>)
    requires gateway.Some? ==> gateway.value <= UINT32_MAX
    requires netmask.Some? ==> netmask.value <= UINT32_MAX
    ensures r.Ok? <==> gateway.Some? && netmask.Some? && IsPrivate(gateway.value) &&
                       gateway.value % 256 != 255 && AcceptableMask(netmask.value)
    ensures r == Err(GatewayPublic) ==> gateway.Some? && !IsPrivate(gateway.value)
  {
    if gateway.None? { return Err(GatewayInvalid); }
    var b0 := gateway.value / 0x100_0000;
    var b1 := gateway.value / 0x1_0000 % 256;
    var b3 := gateway.value % 256;
    if b3 == 255 { return Err(GatewayBroadcast); }
    if 224 <= b0 <= 239 { return Err(GatewayMulticast); }
    var priv := false;
    if b0 == 10 {
      priv := true;
    } else if b0 == 172 && 16 <= b1 <= 31 {
      priv := true;
    } else if b0 == 192 && b1 == 168 {
      priv := true;
    }
    if !priv { return Err(GatewayPublic); }
    if netmask.None? { return Err(MaskInvalid); }
    r := ValidateNetmask(netmask.value);
  }

  // ------------------------------------------------------------ the usable range

  /** A configured subnet: the gateway address and the mask. */
  datatype Net = Net(gateway: nat, mask: nat) {

    /** What `ValidateGatewayAndNetmask` guarantees of every configured subnet. */
    ghost predicate Valid() {
      gateway <= UINT32_MAX && mask <= UINT32_MAX && AcceptableMask(mask)
    }

    function Network(): nat {
      And(gateway, mask)
    }

    function Broadcast(): nat
      requires mask <= UINT32_MAX
    {
      Or(Network(), Not32(mask))
    }

    /** First and last usable address, in 32-bit arithmetic. */
    function First(): nat {
      (Network() + 1) % (UINT32_MAX + 1)
    }

    function Last(): nat
      requires mask <= UINT32_MAX
    {
      (Broadcast() + UINT32_MAX) % (UINT32_MAX + 1)
    }

    /** The check on an address a client asks for. */
    predicate RequestAllowed(ip: nat)
      requires mask <= UINT32_MAX
    {
      ip != gateway && !(ip < First() || ip > Last())
    }

    /** Strictly between network and broadcast, and not the gateway. */
    predicate Usable(ip: nat)
      requires mask <= UINT32_MAX
    {
      Network() < ip < Broadcast() && ip != gateway
    }

    ghost function UsableSet(): set<uint32>
      requires mask <= UINT32_MAX
    {
      set ip: uint32 | Usable(ip)
    }
  }

  lemma SmallNet()
    ensures Net(0, 0xFFFF_FF00).Valid()
  {
    Pow2Of32();
    assert Pow2(8) == 256;
    assert IsContiguousMask(0xFFFF_FF00, 8);
  }

  /** Subnets that passed the configuration check; the controller starts with no other. */
  type ValidNet = n: Net | n.Valid() ghost witness (SmallNet(); Net(0, 0xFFFF_FF00))

  lemma NetworkAndBroadcast(n: Net, k: nat)
    requires n.gateway <= UINT32_MAX && IsContiguousMask(n.mask, k)
    ensures n.mask <= UINT32_MAX
    ensures n.Network() == n.gateway - Low(n.gateway, k)
    ensures n.Broadcast() == n.Network() + Pow2(k) - 1 <= UINT32_MAX
    ensures Pow2(k) >= 2
  {
    Pow2Of32();
    AndContiguous(n.gateway, 32, k);
    BlockFits(n.gateway, 32, k);
    OrLowBits(n.Network(), k);
    Pow2Monotone(1, k);
  }

  /** For an accepted mask 2^32 - 2^k: no wrap-around, the subnet holds the gateway, and there are
      exactly 2^k - 2 addresses from first to last. */
  lemma UsableRange(n: Net, k: nat)
    requires n.gateway <= UINT32_MAX && IsContiguousMask(n.mask, k)
    ensures n.mask <= UINT32_MAX && n.Broadcast() <= UINT32_MAX
    ensures n.Network() == n.gateway - n.gateway % Pow2(k)
    ensures n.Broadcast() == n.Network() + Pow2(k) - 1
    ensures n.Network() <= n.gateway <= n.Broadcast()
    ensures n.First() == n.Network() + 1 && n.Last() == n.Broadcast() - 1
    ensures n.Last() + 1 - n.First() == Pow2(k) - 2
  {
    NetworkAndBroadcast(n, k);
    LowIsRemainder(n.gateway, k);
    WrapFree(n.Network() + 1, n.Broadcast() - 1);
  }

  lemma WrapFree(a: nat, b: nat)
    requires a <= UINT32_MAX && b < UINT32_MAX
    ensures a % (UINT32_MAX + 1) == a
    ensures (b + 1 + UINT32_MAX) % (UINT32_MAX + 1) == b
  {
    DivModUnique(b + 1 + UINT32_MAX, UINT32_MAX + 1, 1, b);
  }

  /** Request validation and the allocator agree on the range, and neither admits address 0. */
  lemma RequestAgreesWithRange(n: ValidNet, ip: nat)
    ensures n.RequestAllowed(ip) <==> n.Usable(ip)
    ensures n.Usable(ip) <==> n.First() <= ip <= n.Last() && ip != n.gateway
    ensures n.Usable(ip) ==> 0 < ip < UINT32_MAX
    ensures n.First() == n.Network() + 1 && n.Last() < UINT32_MAX
  {
    var k :| IsContiguousMask(n.mask, k);
    UsableRange(n, k);
  }
}
