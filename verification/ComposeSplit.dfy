/**
 `splitComposePolicy`: one policy shared out among the services of a Compose file, with the
 remainder going to the ingress service.
 */
module ComposeSplit {
  import opened Wrappers
  import opened Capacity
  import opened ResourcePolicy

  type Service = string
  datatype Share = Share(cpuMillis: nat, memoryMiB: nat, pids: nat)

  const MIN_CPU := 50
  const MIN_MEMORY := 64
  const MIN_PIDS := 32

  function Base(total: nat, minimum: nat, n: nat): nat
    requires n > 0
  {
    Max(minimum, total / n)
  }

  function Remainder(total: nat, minimum: nat, n: nat): nat
    requires n > 0
  {
    var base := Base(total, minimum, n);
    if total > base * n then total - base * n else 0
  }

  /** What one service gets of one resource. */
  function Part(name: Service, ingress: Service, total: nat, minimum: nat, n: nat): nat
    requires n > 0
  {
    Base(total, minimum, n) + if name == ingress then Remainder(total, minimum, n) else 0
  }

  /** A share depends on the services as a set and on their number, not on their order. */
  function Shares(policy: Policy, names: set<Service>, n: nat, ingress: Service): map<Service, Share>
    requires n > 0
  {
    map name | name in names :: Share(Part(name, ingress, policy.cpuMillis, MIN_CPU, n),
                                      Part(name, ingress, policy.memoryMiB, MIN_MEMORY, n),
                                      Part(name, ingress, policy.pids, MIN_PIDS, n))
  }

  /** Listing the services in another order changes nobody's share. */
  lemma PermutationsAreAlike(policy: Policy, names: seq<Service>, permuted: seq<Service>, ingress: Service)
    requires |names| > 0 && multiset(names) == multiset(permuted)
    ensures |permuted| == |names|
    ensures Shares(policy, set name | name in permuted, |permuted|, ingress)
            == Shares(policy, set name | name in names, |names|, ingress)
  {
    assert |names| == |multiset(names)| && |permuted| == |multiset(permuted)|;
    assert forall name :: name in names <==> name in multiset(names);
    assert forall name :: name in permuted <==> name in multiset(permuted);
    assert (set name | name in permuted) == (set name | name in names);
  }

  /** The inner `split`: every service gets the base, and the ingress entry is raised. */
  method Split(names: seq<Service>, ingress: Service, total: nat, minimum: nat) returns (values: map<Service, nat>)
    requires |names| > 0
    ensures forall name :: name in names ==>
        name in values && values[name] == Part(name, ingress, total, minimum, |names|)
  {
    var base := Max(minimum, total / |names|);
    values := map[];
    for i := 0 to |names|
      invariant forall name :: name in values <==> name in names[..i]
      invariant forall name :: name in values ==> values[name] == base
    {
      assert forall name :: name in names[..i + 1] <==> name in names[..i] || name == names[i];
      values := values[names[i] := base];
    }
    assert names[..|names|] == names;
    var extra := if total > base * |names| then total - base * |names| else 0;
    values := values[ingress := (if ingress in values then values[ingress] else base) + extra];
  }

  /** The shares by service, or an error outside one to four services. */
  method SplitComposePolicy(policy: Policy, names: seq<Service>, ingress: Service)
    returns (r: Option<map<Service, Share>>)
    ensures r == if 1 <= |names| <= 4 then Some(Shares(policy, (set name | name in names), |names|, ingress)) else None
  {
    if |names| < 1 || |names| > 4 {
      return None;
    }
    var cpus := Split(names, ingress, policy.cpuMillis, MIN_CPU);
    var memory := Split(names, ingress, policy.memoryMiB, MIN_MEMORY);
    var pids := Split(names, ingress, policy.pids, MIN_PIDS);
    var shares := map name | name in names :: Share(cpus[name], memory[name], pids[name]);
    ghost var expected := Shares(policy, (set name | name in names), |names|, ingress);
    assert shares.Keys == expected.Keys;
    assert forall name :: name in names ==> shares[name] == expected[name];
    assert shares == expected;
    r := Some(shares);
  }

  // ---------------------------------------------------------------- what the parts add up to

  /** Adds `base` for every service, and `extra` for the ingress service. */
  ghost function SumOver(names: set<Service>, ingress: Service, base: nat, extra: nat): nat {
    if names == {} then 0
    else
      var name :| name in names;
      base + (if name == ingress then extra else 0) + SumOver(names - {name}, ingress, base, extra)
  }

  ghost function SumParts(names: set<Service>, ingress: Service, total: nat, minimum: nat, n: nat): nat
    requires n > 0
  {
    SumOver(names, ingress, Base(total, minimum, n), Remainder(total, minimum, n))
  }

  lemma OneMore(k: nat, base: nat)
    ensures (k + 1) * base == k * base + base
  {
  }

  lemma {:induction false} SumIsProduct(names: set<Service>, ingress: Service, base: nat, extra: nat)
    ensures SumOver(names, ingress, base, extra) == |names| * base + if ingress in names then extra else 0
  {
    if names != {} {
      var name :| name in names && SumOver(names, ingress, base, extra)
        == base + (if name == ingress then extra else 0) + SumOver(names - {name}, ingress, base, extra);
      SumIsProduct(names - {name}, ingress, base, extra);
      OneMore(|names - {name}|, base);
    }
  }

  lemma TimesKeepsOrder(n: nat, a: nat, b: nat)
    requires a <= b
    ensures n * a <= n * b
  {
  }

  lemma QuotientBounds(total: nat, n: nat)
    requires n > 0
    ensures n * (total / n) <= total < n * (total / n + 1)
  {
  }

  lemma BaseTimesN(total: nat, minimum: nat, n: nat)
    requires n > 0
    ensures n * Base(total, minimum, n) + Remainder(total, minimum, n) == Max(total, n * minimum)
    ensures Remainder(total, minimum, n) > 0 ==> n * Base(total, minimum, n) < Max(total, n * minimum)
  {
    var q := total / n;
    QuotientBounds(total, n);
    if minimum <= q {
      TimesKeepsOrder(n, minimum, q);
    } else {
      TimesKeepsOrder(n, q + 1, minimum);
    }
  }

  /** Over distinct services each resource adds up to its total, or to the sum of the minimums
      when that is larger, exactly when the ingress service is among them or nothing is left
      over to give it. */
  lemma PartsAddUp(names: set<Service>, ingress: Service, total: nat, minimum: nat)
    requires names != {}
    ensures var n := |names|;
            SumParts(names, ingress, total, minimum, n) == Max(total, n * minimum)
            <==> ingress in names || Remainder(total, minimum, n) == 0
  {
    SumIsProduct(names, ingress, Base(total, minimum, |names|), Remainder(total, minimum, |names|));
    BaseTimesN(total, minimum, |names|);
  }

  /** All services but the ingress get the same, as even a share as whole numbers allow when that is
      above the minimum, and the ingress service no less. */
  lemma PartsAreEven(a: Service, b: Service, ingress: Service, total: nat, minimum: nat, n: nat)
    requires n > 0 && a != ingress
    ensures b != ingress ==> Part(a, ingress, total, minimum, n) == Part(b, ingress, total, minimum, n)
    ensures Part(a, ingress, total, minimum, n) <= Part(ingress, ingress, total, minimum, n)
    ensures var part := Part(a, ingress, total, minimum, n);
            if total >= n * minimum then n * part <= total < n * (part + 1) else part == minimum
  {
    QuotientBounds(total, n);
    var q := total / n;
    if minimum <= q {
      TimesKeepsOrder(n, minimum, q);
    } else {
      TimesKeepsOrder(n, q + 1, minimum);
    }
  }

  lemma EveryPartReachesMinimum(name: Service, ingress: Service, total: nat, minimum: nat, n: nat)
    requires n > 0
    ensures minimum <= Part(name, ingress, total, minimum, n)
  {
  }

  /** However small the policy, no service gets less than 50 millicores, 64 MiB and 32 processes; and
      with nothing to share out it gets just that. */
  lemma SharesReachMinimums(policy: Policy, names: set<Service>, n: nat, ingress: Service, name: Service)
    requires n > 0 && name in names
    ensures var share := Shares(policy, names, n, ingress)[name];
            && share.cpuMillis >= 50 && share.memoryMiB >= 64 && share.pids >= 32
            && (policy == Policy(0, 0, 0, 0) ==> share == Share(50, 64, 32))
  {
  }

  /** The default tiers are large enough for four services: nothing is handed out beyond them. */
  lemma DefaultTiersAddUp(tier: Tier, names: set<Service>, ingress: Service)
    requires 1 <= |names| <= 4 && ingress in names
    ensures var p, n := Defaults(tier), |names|;
            && SumParts(names, ingress, p.cpuMillis, MIN_CPU, n) == p.cpuMillis
            && SumParts(names, ingress, p.memoryMiB, MIN_MEMORY, n) == p.memoryMiB
            && SumParts(names, ingress, p.pids, MIN_PIDS, n) == p.pids
  {
    var p := Defaults(tier);
    PartsAddUp(names, ingress, p.cpuMillis, MIN_CPU);
    PartsAddUp(names, ingress, p.memoryMiB, MIN_MEMORY);
    PartsAddUp(names, ingress, p.pids, MIN_PIDS);
  }
}
