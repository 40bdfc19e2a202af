/** Expansion of the configured subnets into hosts to probe (internal/discovery/cidr.go). */
module Cidr {
  import opened Wrappers

  const MAX_SWEEP_HOSTS: nat := 4096

  const ADDRESSES: nat := 0x1_0000_0000

  /** A configured CIDR as parsed: malformed, not IPv4, or an address and a prefix length. */
  datatype Cidr = Malformed | NotIPv4 | V4(address: nat, bits: nat)
  {
    predicate Valid()
    {
      V4? ==> address < ADDRESSES && bits <= 32
    }
  }

  function Pow2(n: nat): (r: nat)
    ensures r > 0
  {
    if n == 0 then 1 else 2 * Pow2(n - 1)
  }

  function Size(p: Cidr): (r: nat)
    requires p.V4? && p.Valid()
    ensures r > 0
  {
    Pow2(32 - p.bits)
  }

  /** The address with its host bits cleared. */
  function Masked(a: nat, size: nat): int
    requires size > 0
  {
    a - a % size
  }

  /** The prefix's lowest address. */
  function Base(p: Cidr): int
    requires p.V4? && p.Valid()
  {
    Masked(p.address, Size(p))
  }

  /** Same network bits. */
  predicate Contains(p: Cidr, a: nat)
    requires p.V4? && p.Valid()
  {
    a < ADDRESSES && Masked(a, Size(p)) == Base(p)
  }

  function Range(lo: int, hi: int): seq<int>
    decreases hi - lo
  {
    if lo >= hi then [] else Range(lo, hi - 1) + [hi - 1]
  }

  /** The prefix's hosts in order: all its addresses, less the first and the last for a prefix shorter than /31. */
  function Hosts(p: Cidr): seq<int>
    requires p.V4? && p.Valid()
  {
    if p.bits < 31 then Range(Base(p) + 1, Base(p) + Size(p) - 1) else Range(Base(p), Base(p) + Size(p))
  }

  /** How many hosts a prefix has, by its length alone. */
  function HostCount(p: Cidr): int
    requires p.V4? && p.Valid()
  {
    if p.bits < 31 then Size(p) - 2 else Size(p)
  }

  // ----- a prefix is an interval of addresses

  lemma {:induction false} Pow2Add(a: nat, b: nat)
    ensures Pow2(a + b) == Pow2(a) * Pow2(b)
  {
    if a > 0 {
      Pow2Add(a - 1, b);
      assert Pow2(a + b) == 2 * (Pow2(a - 1) * Pow2(b));
    }
  }

  lemma Pow2AtLeast4(n: nat)
    requires n >= 2
    ensures Pow2(n) >= 4
  {
    assert Pow2(n) == 2 * Pow2(n - 1) == 4 * Pow2(n - 2);
  }

  lemma AddressesArePow2()
    ensures Pow2(32) == ADDRESSES
  {
    assert Pow2(8) == 256;
    Pow2Add(8, 8);
    Pow2Add(16, 16);
  }

  lemma {:induction false} MulMono(k: int, m: int, n: nat)
    requires k <= m
    ensures k * n <= m * n
    decreases m - k
  {
    if k < m {
      MulMono(k, m - 1, n);
      assert m * n == (m - 1) * n + n;
    }
  }

  /** Multiples of n lie at least n apart. */
  lemma NextMultiple(k: int, m: int, n: nat)
    requires k * n < m * n
    ensures k * n + n <= m * n
  {
    if m <= k {
      MulMono(m, k, n);
    } else {
      MulMono(k, m - 1, n);
      assert m * n == (m - 1) * n + n;
    }
  }

  lemma MaskedIs(a: nat, c: nat, n: nat)
    requires n > 0
    ensures 0 <= Masked(c, n) <= c
    ensures Masked(a, n) == Masked(c, n) <==> Masked(c, n) <= a < Masked(c, n) + n
  {
    var qa, qc := a / n, c / n;
    assert Masked(a, n) == qa * n && Masked(c, n) == qc * n;
    if qa * n < qc * n {
      NextMultiple(qa, qc, n);
    } else if qc * n < qa * n {
      NextMultiple(qc, qa, n);
    }
  }

  /** A block size that divides the space leaves room for a whole block above every masked address. */
  lemma BlockFits(c: nat, m: nat, n: nat, space: nat)
    requires n > 0 && space == m * n && c < space
    ensures Masked(c, n) + n <= space
  {
    var q := c / n;
    assert Masked(c, n) == q * n;
    NextMultiple(q, m, n);
  }

  /** The prefix's addresses are the Size(p) ones from its base on, all of them proper addresses. */
  lemma ContainsInterval(p: Cidr, a: nat)
    requires p.V4? && p.Valid()
    ensures 0 <= Base(p) && Base(p) + Size(p) <= ADDRESSES
    ensures Contains(p, a) <==> Base(p) <= a < Base(p) + Size(p)
  {
    MaskedIs(a, p.address, Size(p));
    Pow2Add(p.bits, 32 - p.bits);
    AddressesArePow2();
    BlockFits(p.address, Pow2(p.bits), Size(p), ADDRESSES);
  }

  lemma {:induction false} RangeLength(lo: int, hi: int)
    ensures |Range(lo, hi)| == if lo <= hi then hi - lo else 0
    decreases hi - lo
  {
    if lo < hi {
      RangeLength(lo, hi - 1);
    }
  }

  lemma HostsCount(p: Cidr)
    requires p.V4? && p.Valid()
    ensures |Hosts(p)| == HostCount(p) >= 0
  {
    RangeLength(Base(p) + 1, Base(p) + Size(p) - 1);
    RangeLength(Base(p), Base(p) + Size(p));
    if p.bits < 31 {
      Pow2AtLeast4(32 - p.bits);
    }
  }

  lemma {:induction false} RangeMembers(lo: int, hi: int, a: int)
    ensures a in Range(lo, hi) <==> lo <= a < hi
    decreases hi - lo
  {
    if lo < hi {
      RangeMembers(lo, hi - 1, a);
    }
  }

  lemma {:induction false} RangeAt(lo: int, hi: int, i: nat)
    requires i < |Range(lo, hi)|
    ensures Range(lo, hi)[i] == lo + i
    decreases hi - lo
  {
    RangeLength(lo, hi - 1);
    if i < |Range(lo, hi - 1)| {
      RangeAt(lo, hi - 1, i);
    }
  }

  /** The address is a proper one and agrees with the prefix's in its leading bits. */
  predicate OnNetwork(p: Cidr, a: int)
    requires p.V4? && p.Valid()
  {
    0 <= a < 0x1_0000_0000 && a / Pow2(32 - p.bits) == p.address / Pow2(32 - p.bits)
  }

  lemma OnNetworkMeans(p: Cidr, a: int)
    requires p.V4? && p.Valid()
    ensures OnNetwork(p, a) <==> Base(p) <= a < Base(p) + Size(p)
  {
    ContainsInterval(p, if a < 0 then 0 else a);
    if a >= 0 {
      var n := Size(p);
      SameQuotient(a, p.address, n);
    }
  }

  lemma SameQuotient(a: nat, c: nat, n: nat)
    requires n > 0
    ensures a / n == c / n <==> Masked(a, n) == Masked(c, n)
  {
    var qa, qc := a / n, c / n;
    assert Masked(a, n) == qa * n && Masked(c, n) == qc * n;
    if qa < qc {
      MulMono(qa + 1, qc, n);
      assert (qa + 1) * n == qa * n + n;
    } else if qc < qa {
      MulMono(qc + 1, qa, n);
      assert (qc + 1) * n == qc * n + n;
    }
  }

  /**
   The hosts of a prefix are its addresses, in ascending order; of one shorter than /31, only
   those with another of its addresses on either side.
   */
  lemma HostsAre(p: Cidr, a: int, i: nat, j: nat)
    requires p.V4? && p.Valid()
    ensures a in Hosts(p) <==> OnNetwork(p, a) && (p.bits < 31 ==> OnNetwork(p, a - 1) && OnNetwork(p, a + 1))
    ensures i < j < |Hosts(p)| ==> Hosts(p)[i] < Hosts(p)[j]
  {
    var lo, hi := if p.bits < 31 then Base(p) + 1 else Base(p), if p.bits < 31 then Base(p) + Size(p) - 1 else Base(p) + Size(p);
    RangeMembers(lo, hi, a);
    OnNetworkMeans(p, a);
    OnNetworkMeans(p, a - 1);
    OnNetworkMeans(p, a + 1);
    if i < j < |Hosts(p)| {
      RangeAt(lo, hi, i);
      RangeAt(lo, hi, j);
    }
  }

  // ----- ExpandCIDRs

  predicate AllV4(cidrs: seq<Cidr>)
  {
    forall i :: 0 <= i < |cidrs| ==> cidrs[i].V4? && cidrs[i].Valid()
  }

  function AllHosts(cidrs: seq<Cidr>): seq<int>
    requires AllV4(cidrs)
  {
    if cidrs == [] then [] else AllHosts(cidrs[..|cidrs| - 1]) + Hosts(cidrs[|cidrs| - 1])
  }

  function TotalHosts(cidrs: seq<Cidr>): int
    requires AllV4(cidrs)
  {
    if cidrs == [] then 0 else TotalHosts(cidrs[..|cidrs| - 1]) + HostCount(cidrs[|cidrs| - 1])
  }

  lemma {:induction false} AllHostsCount(cidrs: seq<Cidr>)
    requires AllV4(cidrs)
    ensures |AllHosts(cidrs)| == TotalHosts(cidrs)
  {
    if cidrs != [] {
      AllHostsCount(cidrs[..|cidrs| - 1]);
      HostsCount(cidrs[|cidrs| - 1]);
    }
  }

  /** More prefixes never mean fewer hosts. */
  lemma {:induction false} TotalGrows(cidrs: seq<Cidr>, n: nat)
    requires AllV4(cidrs) && n <= |cidrs|
    ensures TotalHosts(cidrs[..n]) <= TotalHosts(cidrs)
  {
    if n < |cidrs| {
      var init := cidrs[..|cidrs| - 1];
      TotalGrows(init, n);
      assert init[..n] == cidrs[..n];
      HostsCount(cidrs[|cidrs| - 1]);
    } else {
      assert cidrs[..n] == cidrs;
    }
  }

  /** One prefix: its hosts appended in order, or too many seen. */
  method ExpandOne(p: Cidr, before: seq<int>) returns (ok: bool, hosts: seq<int>, appends: nat)
    requires p.V4? && p.Valid() && |before| <= MAX_SWEEP_HOSTS
    ensures |before| + appends <= MAX_SWEEP_HOSTS + 1
    ensures ok <==> |before| + HostCount(p) <= MAX_SWEEP_HOSTS
    ensures ok ==> hosts == before + Hosts(p) && |hosts| == |before| + appends
  {
    hosts, appends := before, 0;
    var skipEdges := p.bits < 31;
    ContainsInterval(p, 0);
    var first: nat := Base(p);
    var a := first;
    ghost var lo := if skipEdges then first + 1 else first;
    ghost var end := first + Size(p);
    ContainsInterval(p, a);
    HostsCount(p);
    while Contains(p, a)
      invariant first <= a <= end && (Contains(p, a) <==> a < end)
      invariant hosts == before + Range(lo, if skipEdges && a == end then end - 1 else a)
      invariant |hosts| == |before| + appends && |hosts| <= MAX_SWEEP_HOSTS
      decreases end - a
    {
      ContainsInterval(p, a + 1);
      if skipEdges && (a == first || !Contains(p, a + 1)) {
        a := a + 1;
        continue;
      }
      hosts, appends := hosts + [a], appends + 1;
      if |hosts| > MAX_SWEEP_HOSTS {
        RangeLength(lo, a + 1);
        return false, [], appends;
      }
      a := a + 1;
    }
    return true, hosts, appends;
  }

  lemma OneMore(cidrs: seq<Cidr>, i: nat)
    requires i < |cidrs| && AllV4(cidrs[..i]) && cidrs[i].V4? && cidrs[i].Valid()
    ensures AllV4(cidrs[..i + 1])
    ensures AllHosts(cidrs[..i + 1]) == AllHosts(cidrs[..i]) + Hosts(cidrs[i])
    ensures TotalHosts(cidrs[..i + 1]) == TotalHosts(cidrs[..i]) + HostCount(cidrs[i])
  {
    assert cidrs[..i + 1][..i] == cidrs[..i];
  }

  /**
   ExpandCIDRs succeeds exactly when every entry is an IPv4 prefix and together they have
   at most 4096 hosts; the result is then their hosts in order, and never more than 4097
   hosts are appended, however wide a prefix is and wherever it ends.
   */
  method ExpandCIDRs(cidrs: seq<Cidr>) returns (r: Result<seq<int>, string>, appends: nat)
    requires forall i :: 0 <= i < |cidrs| ==> cidrs[i].Valid()
    ensures r.Ok? <==> AllV4(cidrs) && TotalHosts(cidrs) <= 4096
    ensures r.Ok? ==> AllV4(cidrs) && r.value == AllHosts(cidrs)
    ensures appends <= 4097
  {
    var hosts: seq<int> := [];
    appends := 0;
    for i := 0 to |cidrs|
      invariant AllV4(cidrs[..i]) && hosts == AllHosts(cidrs[..i])
      invariant |hosts| == appends == TotalHosts(cidrs[..i]) <= MAX_SWEEP_HOSTS
    {
      var p := cidrs[i];
      if p.Malformed? {
        return Err("bad CIDR"), appends;
      }
      if p.NotIPv4? {
        return Err("only IPv4"), appends;
      }
      OneMore(cidrs, i);
      HostsCount(p);
      var ok, more, n := ExpandOne(p, hosts);
      appends := appends + n;
      if !ok {
        if AllV4(cidrs) {
          TotalGrows(cidrs, i + 1);
        }
        return Err("too many hosts"), appends;
      }
      hosts := more;
    }
    assert cidrs[..|cidrs|] == cidrs;
    return Ok(hosts), appends;
  }
}
