/**
 * Replica synthesis and lookup (argus.go): a resource with `n` replicas advertises `n`
 * synthetic devices, all healthy, whose ids are the one-character strings with code points
 * 0, 1, ..., n - 1; an allocation request is checked by a linear scan for the id.
 */
module Argus {
  import opened PluginApi

  /**
   * Go's string(i) for an unsigned integer: the string of the one code point `i`, or of
   * U+FFFD (the replacement character) when `i` is a surrogate or beyond U+10FFFF.
   * It is not the decimal form of `i`.
   */
  function RuneString(i: nat): (s: string)
    ensures |s| == 1
    ensures i < 0xD800 || 0xE000 <= i < 0x11_0000 ==> s[0] as int == i
    ensures 0xD800 <= i < 0xE000 || 0x11_0000 <= i ==> s[0] as int == 0xFFFD
  {
    if i < 0xD800 || 0xE000 <= i < 0x11_0000 then [i as char] else [0xFFFD as char]
  }

  /** The device list a resource with `n` replicas advertises: what getDevices(n) builds. */
  function Replicas(n: nat): seq<Device> {
    seq(n, i requires 0 <= i < n => Device(RuneString(i), Healthy))
  }

  /** The ids of a device list, in order. */
  function Ids(devs: seq<Device>): seq<string> {
    seq(|devs|, i requires 0 <= i < |devs| => devs[i].id)
  }

  /** No two devices of the list share an id. */
  predicate DistinctIds(devs: seq<Device>) {
    forall i, j :: 0 <= i < j < |devs| ==> devs[i].id != devs[j].id
  }

  /** The reference meaning of deviceExists: some device in the list has this id. */
  predicate HasId(devs: seq<Device>, id: string) {
    exists i :: 0 <= i < |devs| && devs[i].id == id
  }

  /** getDevices: appends one healthy device per replica index. */
  method GetDevices(n: nat) returns (devs: seq<Device>)
    ensures |devs| == n
    ensures forall i :: 0 <= i < n ==> devs[i].id == RuneString(i) && devs[i].health == Healthy
    ensures forall i :: 0 <= i < n && i < 0xD800 ==> devs[i].id == [i as char]
    ensures devs == Replicas(n)
  {
    devs := [];
    var i := 0;
    while i < n
      invariant 0 <= i <= n
      invariant devs == Replicas(i)
    {
      devs := devs + [Device(RuneString(i), Healthy)];
      i := i + 1;
    }
  }

  /** deviceExists: a scan that returns as soon as it meets the id. */
  method DeviceExists(devs: seq<Device>, id: string) returns (found: bool)
    ensures found <==> HasId(devs, id)
    ensures devs == [] ==> !found
  {
    for k := 0 to |devs|
      invariant forall j :: 0 <= j < k ==> devs[j].id != id
    {
      if devs[k].id == id {
        return true;
      }
    }
    return false;
  }

  /** Below the surrogate range, distinct indices give distinct one-character ids. */
  lemma RuneStringInjective(i: nat, j: nat)
    requires i < j < 0xD801
    ensures RuneString(i) != RuneString(j)
  {
    if j < 0xD800 {
      assert RuneString(i)[0] as int == i && RuneString(j)[0] as int == j;
    } else {
      assert RuneString(i)[0] as int == i && RuneString(j)[0] as int == 0xFFFD;
    }
  }

  /**
   * The replica ids are pairwise distinct exactly when there are at most 0xD801 replicas:
   * indices 0xD800 and 0xD801 are both surrogates and both become U+FFFD.
   */
  lemma ReplicaIdsDistinctIff(n: nat)
    ensures DistinctIds(Replicas(n)) <==> n <= 0xD801
  {
    var r := Replicas(n);
    if n <= 0xD801 {
      forall i, j | 0 <= i < j < |r| ensures r[i].id != r[j].id {
        RuneStringInjective(i, j);
      }
    } else {
      assert r[0xD800].id == RuneString(0xD800) == RuneString(0xD801) == r[0xD801].id;
    }
  }

  /** Only ids matter to the lookup: two lists with the same ids answer alike. */
  lemma HasIdDependsOnlyOnIds(a: seq<Device>, b: seq<Device>, id: string)
    requires Ids(a) == Ids(b)
    ensures HasId(a, id) <==> HasId(b, id)
  {
    assert |a| == |Ids(a)| == |Ids(b)| == |b|;
    if HasId(a, id) {
      var i :| 0 <= i < |a| && a[i].id == id;
      assert Ids(a)[i] == Ids(b)[i];
    }
    if HasId(b, id) {
      var i :| 0 <= i < |b| && b[i].id == id;
      assert Ids(a)[i] == Ids(b)[i];
    }
  }

  /** The id of a replica is found among the replicas; an id of another length never is. */
  lemma HasIdReplicas(n: nat, id: string)
    ensures (exists i :: 0 <= i < n && RuneString(i) == id) <==> HasId(Replicas(n), id)
    ensures |id| != 1 ==> !HasId(Replicas(n), id)
  {
    var r := Replicas(n);
    if exists i :: 0 <= i < n && RuneString(i) == id {
      var i :| 0 <= i < n && RuneString(i) == id;
      assert r[i].id == id;
    }
  }
}
