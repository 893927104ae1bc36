/** The reserved networks as ranges of addresses. */
module Addresses {
  import opened Netfilter
  import opened Plan

  lemma {:induction false} Pow2Adds(a: nat, b: nat)
    ensures Pow2(a + b) == Pow2(a) * Pow2(b)
  {
    if a > 0 {
      Pow2Adds(a - 1, b);
    }
  }

  lemma Pow2Small()
    ensures Pow2(0) == 1 && Pow2(4) == 0x10 && Pow2(6) == 0x40 && Pow2(8) == 0x100
  {
    assert Pow2(1) == 2 && Pow2(2) == 4 && Pow2(3) == 8;
    assert Pow2(5) == 0x20 && Pow2(7) == 0x80;
  }

  lemma Pow2Medium()
    ensures Pow2(16) == 0x1_0000 && Pow2(20) == 0x10_0000 && Pow2(22) == 0x40_0000
    ensures Pow2(24) == 0x100_0000 && Pow2(28) == 0x1000_0000 && Pow2(32) == 0x1_0000_0000
  {
    Pow2Small();
    Pow2Adds(8, 8);
    Pow2Adds(4, 16);
    Pow2Adds(6, 16);
    Pow2Adds(8, 16);
    Pow2Adds(4, 24);
    Pow2Adds(16, 16);
  }

  lemma Pow2Large()
    ensures Pow2(118) == 0x40_0000_0000_0000_0000_0000_0000_0000
    ensures Pow2(120) == 0x100_0000_0000_0000_0000_0000_0000_0000
    ensures Pow2(121) == 0x200_0000_0000_0000_0000_0000_0000_0000
  {
    Pow2Small();
    Pow2Medium();
    Pow2Adds(32, 32);
    Pow2Adds(32, 64);
    Pow2Adds(22, 96);
    Pow2Adds(24, 96);
    assert Pow2(121) == 2 * Pow2(120);
  }

  /** A network whose host bits are clear is a range. */
  lemma InRange(address: nat, cidr: Cidr, k: nat)
    requires cidr.network == k * Pow2(cidr.hostBits)
    ensures InNetwork(address, cidr) <==> cidr.network <= address < cidr.network + Pow2(cidr.hostBits)
  {
    var size := Pow2(cidr.hostBits);
    Quotient(address, size, k);
    Quotient(cidr.network, size, k);
  }

  lemma Quotient(a: nat, size: nat, k: nat)
    requires size > 0
    ensures a / size == k <==> k * size <= a < k * size + size
  {
    var q, r := a / size, a % size;
    assert a == q * size + r && 0 <= r < size;
    if q > k {
      assert q * size >= (k + 1) * size;
    } else if q < k {
      assert (q + 1) * size <= k * size;
    }
  }

  lemma InAnyFour(address: nat, a: Cidr, b: Cidr, c: Cidr, d: Cidr)
    ensures InAny(address, [a, b, c, d]) <==>
      InNetwork(address, a) || InNetwork(address, b) || InNetwork(address, c) || InNetwork(address, d)
  {
    hide InNetwork;
    var all := [a, b, c, d];
    assert all[0] == a && all[1] == b && all[2] == c && all[3] == d;
  }

  lemma InAnyAppend(address: nat, a: seq<Cidr>, b: seq<Cidr>)
    ensures InAny(address, a + b) <==> InAny(address, a) || InAny(address, b)
  {
    hide InNetwork;
    forall i | 0 <= i < |a| && InNetwork(address, a[i])
      ensures InAny(address, a + b)
    {
      assert (a + b)[i] == a[i];
    }
    forall i | 0 <= i < |b| && InNetwork(address, b[i])
      ensures InAny(address, a + b)
    {
      assert (a + b)[|a| + i] == b[i];
    }
  }

  lemma InAnyOne(address: nat, a: Cidr)
    ensures InAny(address, [a]) <==> InNetwork(address, a)
  {
    assert [a][0] == a;
  }

  /**
   * IPv4: this network, 10.x, shared addresses, loopback, link-local, 172.16 to 172.31, 192.168.x, and everything from
   * 224.0.0.0 on.
   */
  lemma ReservedV4Ranges(address: nat)
    ensures InAny(address, ReservedV4()) <==>
      || address < 0x0100_0000
      || 0x0a00_0000 <= address < 0x0b00_0000
      || 0x6440_0000 <= address < 0x6480_0000
      || 0x7f00_0000 <= address < 0x8000_0000
      || 0xa9fe_0000 <= address < 0xa9ff_0000
      || 0xac10_0000 <= address < 0xac20_0000
      || 0xc0a8_0000 <= address < 0xc0a9_0000
      || 0xe000_0000 <= address < 0x1_0000_0000
  {
    Pow2Medium();
    InRange(address, Cidr(0, 24), 0);
    InRange(address, Cidr(0x0a00_0000, 24), 0x0a);
    InRange(address, Cidr(0x6440_0000, 22), 0x191);
    InRange(address, Cidr(0x7f00_0000, 24), 0x7f);
    InRange(address, Cidr(0xa9fe_0000, 16), 0xa9fe);
    InRange(address, Cidr(0xac10_0000, 20), 0xac1);
    InRange(address, Cidr(0xc0a8_0000, 16), 0xc0a8);
    InRange(address, Cidr(0xe000_0000, 28), 0xe);
    InRange(address, Cidr(0xf000_0000, 28), 0xf);
    hide InNetwork, Pow2;
    var first := [Cidr(0, 24), Cidr(0x0a00_0000, 24), Cidr(0x6440_0000, 22), Cidr(0x7f00_0000, 24)];
    var second := [Cidr(0xa9fe_0000, 16), Cidr(0xac10_0000, 20), Cidr(0xc0a8_0000, 16), Cidr(0xe000_0000, 28)];
    InAnyFour(address, first[0], first[1], first[2], first[3]);
    InAnyFour(address, second[0], second[1], second[2], second[3]);
    InAnyOne(address, Cidr(0xf000_0000, 28));
    InAnyAppend(address, first, second + [Cidr(0xf000_0000, 28)]);
    InAnyAppend(address, second, [Cidr(0xf000_0000, 28)]);
    assert ReservedV4() == first + (second + [Cidr(0xf000_0000, 28)]);
  }

  /** IPv6: loopback, link-local, unique local and multicast addresses. */
  lemma LocalV6Ranges(address: nat)
    ensures InAny(address, LocalV6()) <==>
      || address == 1
      || 0xfc00_0000_0000_0000_0000_0000_0000_0000 <= address < 0xfe00_0000_0000_0000_0000_0000_0000_0000
      || 0xfe80_0000_0000_0000_0000_0000_0000_0000 <= address < 0xfec0_0000_0000_0000_0000_0000_0000_0000
      || 0xff00_0000_0000_0000_0000_0000_0000_0000 <= address < 0x1_0000_0000_0000_0000_0000_0000_0000_0000
  {
    Pow2Small();
    Pow2Large();
    InRange(address, Cidr(1, 0), 1);
    InRange(address, Cidr(0xfe80_0000_0000_0000_0000_0000_0000_0000, 118), 0x3fa);
    InRange(address, Cidr(0xfc00_0000_0000_0000_0000_0000_0000_0000, 121), 0x7e);
    InRange(address, Cidr(0xff00_0000_0000_0000_0000_0000_0000_0000, 120), 0xff);
    hide InNetwork, Pow2;
    var all := LocalV6();
    InAnyFour(address, all[0], all[1], all[2], all[3]);
  }

  /** What is never captured: the reserved IPv4 addresses; of IPv6 the local ones and the unspecified address. */
  lemma NeverCaptured(address: nat)
    ensures InAny(address, ReservedDestinations(Ipv4)) <==> InAny(address, ReservedV4())
    ensures InAny(address, ReservedDestinations(Ipv6)) <==> address == 0 || InAny(address, LocalV6())
  {
    Pow2Small();
    InRange(address, Cidr(0, 0), 0);
    hide InNetwork, Pow2, LocalV6, ReservedV4;
    InAnyOne(address, Cidr(0, 0));
    InAnyAppend(address, [Cidr(0, 0)], LocalV6());
  }
}
