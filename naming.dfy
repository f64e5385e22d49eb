/**
  The naming convention that ties provider resources to a cluster: the
  frontend is `<cluster>-fe`, node i is `<cluster>-node` followed by i
  formatted as `%02d`, security groups are `<cluster>-ext` and
  `<cluster>-int`, the server group carries the cluster name, and a volume of
  an instance is `<instance>/<volume>`.
*/
module Naming {

  /** The decimal digit d as a character. */
  function Digit(d: nat): (c: char)
    requires d < 10
    ensures '0' <= c <= '9'
  {
    (48 + d) as char
  }

  /** n in decimal, without leading zeros (Python's `%d`). */
  function Decimal(n: nat): (r: string)
    ensures |r| >= 1
    ensures forall k :: 0 <= k < |r| ==> '0' <= r[k] <= '9'
    decreases n
  {
    if n < 10 then [Digit(n)] else Decimal(n / 10) + [Digit(n % 10)]
  }

  /** n formatted with `%02d`: zero-padded to at least two digits. */
  function Pad2(n: nat): string
  {
    if n < 10 then ['0', Digit(n)] else Decimal(n)
  }

  function FrontendName(cluster: string): string { cluster + "-fe" }

  function NodeBase(cluster: string): string { cluster + "-node" }

  /** The name of node i; the source formats it for every i it is given. */
  function NodeName(cluster: string, i: nat): string { NodeBase(cluster) + Pad2(i) }

  function ExtGroupName(cluster: string): string { cluster + "-ext" }

  function IntGroupName(cluster: string): string { cluster + "-int" }

  /** The display name of the volume `volume` of instance `vm`. */
  function VolumeName(vm: string, volume: string): string { vm + "/" + volume }

  /** The prefix by which a volume's display name names its owning instance. */
  function OwnerPrefix(vm: string): string { vm + "/" }

  lemma {:induction false} DecimalLength(n: nat)
    ensures n >= 10 ==> |Decimal(n)| >= 2
    ensures n >= 100 ==> |Decimal(n)| >= 3
    ensures n < 100 ==> |Decimal(n)| <= 2
    decreases n
  {
    if n >= 10 {
      DecimalLength(n / 10);
    }
  }

  /** Two-digit numbers print as their two digits. */
  lemma TwoDigits(n: nat)
    requires 10 <= n < 100
    ensures Decimal(n) == [Digit(n / 10), Digit(n % 10)]
  {
  }

  /** Node indices 1..99 have two-character suffixes, 100 and above have more. */
  lemma Pad2Length(n: nat)
    ensures 1 <= n <= 99 ==> |Pad2(n)| == 2
    ensures n >= 100 ==> |Pad2(n)| >= 3
  {
    DecimalLength(n);
  }

  /** Only zero prints with a leading zero. */
  lemma {:induction false} DecimalLeading(n: nat)
    requires n >= 1
    ensures Decimal(n)[0] != '0'
    decreases n
  {
    if n >= 10 {
      DecimalLeading(n / 10);
    }
  }

  /** Decimal printing is injective. */
  lemma {:induction false} DecimalInjective(i: nat, j: nat)
    requires Decimal(i) == Decimal(j)
    ensures i == j
    decreases i
  {
    DecimalLength(i);
    DecimalLength(j);
    if i >= 10 && j >= 10 {
      var di, dj := Decimal(i), Decimal(j);
      assert Decimal(i / 10) == di[..|di| - 1] == dj[..|dj| - 1] == Decimal(j / 10);
      assert Digit(i % 10) == di[|di| - 1] == dj[|dj| - 1] == Digit(j % 10);
      DecimalInjective(i / 10, j / 10);
    } else if i < 10 && j < 10 {
      assert Digit(i) == Decimal(i)[0] == Decimal(j)[0] == Digit(j);
    }
  }

  /** `%02d` tells node indices apart. */
  lemma Pad2Injective(i: nat, j: nat)
    requires Pad2(i) == Pad2(j)
    ensures i == j
  {
    if i < 10 && j < 10 {
      assert Digit(i) == Pad2(i)[1] == Pad2(j)[1] == Digit(j);
    } else if i < 10 {
      DecimalLeading(j);
      assert false;
    } else if j < 10 {
      DecimalLeading(i);
      assert false;
    } else {
      DecimalInjective(i, j);
    }
  }

  /** Distinct indices give distinct node names. */
  lemma NodeNameInjective(cluster: string, i: nat, j: nat)
    requires NodeName(cluster, i) == NodeName(cluster, j)
    ensures i == j
  {
    var b := NodeBase(cluster);
    assert Pad2(i) == NodeName(cluster, i)[|b|..];
    assert Pad2(j) == NodeName(cluster, j)[|b|..];
    Pad2Injective(i, j);
  }

  /** A node name repeats the cluster name as a prefix, then `-node`, then the index. */
  lemma NodeNameLength(cluster: string, i: nat)
    ensures 1 <= i <= 99 ==> |NodeName(cluster, i)| == |cluster| + 7
    ensures i >= 100 ==> |NodeName(cluster, i)| >= |cluster| + 8
  {
    Pad2Length(i);
  }

  /** A node name contains a slash only if the cluster name does. */
  lemma NodeNameHasNoSlash(cluster: string, i: nat)
    requires '/' !in cluster
    ensures '/' !in NodeName(cluster, i)
  {
    var p := Pad2(i);
    assert forall k :: 0 <= k < |p| ==> '0' <= p[k] <= '9';
    assert NodeName(cluster, i) == cluster + "-node" + p;
  }

  /** A display name has at most one owner among slash-free instance names:
      matching on `<name>/` cannot confuse `x-node01` with a longer name. */
  lemma OwnerPrefixUnique(a: string, b: string, s: string)
    requires '/' !in a && '/' !in b
    requires OwnerPrefix(a) <= s && OwnerPrefix(b) <= s
    ensures a == b
  {
    if |a| < |b| {
      OwnerPrefixAt(a, s);
      OwnerPrefixAt(b, s);
      assert false;
    } else if |b| < |a| {
      OwnerPrefixAt(a, s);
      OwnerPrefixAt(b, s);
      assert false;
    } else {
      assert a == s[..|a|];
    }
  }

  /** What `<vm>/` being a prefix of s says about s, character by character. */
  lemma OwnerPrefixAt(vm: string, s: string)
    requires OwnerPrefix(vm) <= s
    ensures |vm| < |s| && s[|vm|] == '/'
    ensures forall k :: 0 <= k < |vm| ==> s[k] == vm[k]
  {
    assert s[|vm|] == OwnerPrefix(vm)[|vm|];
  }

  /** A volume named after an instance is owned by that instance. */
  lemma VolumeNameOwner(vm: string, volume: string)
    ensures OwnerPrefix(vm) <= VolumeName(vm, volume)
  {
    assert VolumeName(vm, volume) == OwnerPrefix(vm) + volume;
  }
}
