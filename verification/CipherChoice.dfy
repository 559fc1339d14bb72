/**
How a server picks the cipher suite of a TLS 1.2 handshake: one pass over the preferred list, with
equal-preference groups when the server's list is the preferred one.
*/
module CipherChoice {
  import opened Words
  import opened Wire

  datatype Suite = Suite(id: nat, minVersion: nat, maxVersion: nat, mkey: nat, auth: nat)

  /** The version that was negotiated, and the masks of what the server can do. */
  datatype Support = Support(version: nat, maskK: nat, maskA: nat)

  /** ssl_cipher_preference_list_st: a flag of 1 says that the next suite is in the same group. */
  datatype Preferences = Preferences(ciphers: seq<Suite>, inGroup: seq<nat>)
  {
    predicate Valid() {
      |inGroup| == |ciphers| && forall i :: 0 <= i < |inGroup| ==> inGroup[i] == 0 || inGroup[i] == 1
    }
  }

  predicate Usable(v: Support, c: Suite) {
    c.minVersion <= v.version <= c.maxVersion && And(c.mkey, v.maskK) != 0 && And(c.auth, v.maskA) != 0
  }

  /** sk_SSL_CIPHER_find: the first index of a suite. */
  function IndexOf(list: seq<Suite>, c: Suite): (k: Option<nat>)
    ensures k.Some? ==> k.value < |list| && list[k.value] == c
    ensures k.None? <==> c !in list
  {
    if list == [] then None
    else if list[0] == c then Some(0)
    else
      var k := IndexOf(list[1..], c);
      if k.Some? then Some(k.value + 1) else None
  }

  /** The number of the group that position `i` is in: how many groups end before it. */
  function GroupOf(flags: seq<nat>, i: nat): nat
    requires i <= |flags|
  {
    if i == 0 then 0 else GroupOf(flags, i - 1) + if flags[i - 1] == 0 then 1 else 0
  }

  /** A suite of the preferred list that could be chosen. */
  predicate Candidate(v: Support, prio: seq<Suite>, allow: seq<Suite>, i: nat) {
    i < |prio| && Usable(v, prio[i]) && prio[i] in allow
  }

  function Rank(allow: seq<Suite>, c: Suite): nat {
    var k := IndexOf(allow, c);
    if k.Some? then k.value else |allow|
  }

  /** Position `i` comes first by server group, and within the group by the client's order. */
  ghost predicate Best(v: Support, server: Preferences, client: seq<Suite>, i: nat)
    requires server.Valid()
  {
    && Candidate(v, server.ciphers, client, i)
    && forall j: nat :: Candidate(v, server.ciphers, client, j) ==> NoWorse(server, client, i, j)
  }

  predicate NoWorse(server: Preferences, client: seq<Suite>, i: nat, j: nat)
    requires server.Valid() && i < |server.ciphers| && j < |server.ciphers|
  {
    || GroupOf(server.inGroup, i) < GroupOf(server.inGroup, j)
    || (GroupOf(server.inGroup, i) == GroupOf(server.inGroup, j)
        && Rank(client, server.ciphers[i]) <= Rank(client, server.ciphers[j]))
  }

  /** The group of position `i` is closed by a flag of 0. */
  ghost predicate Closed(server: Preferences, i: nat) {
    exists k :: i <= k < |server.inGroup| && server.inGroup[k] == 0
  }

  lemma {:induction false} GroupSame(flags: seq<nat>, i: nat, k: nat)
    requires i <= k <= |flags| && forall j :: i <= j < k ==> flags[j] != 0
    ensures GroupOf(flags, k) == GroupOf(flags, i)
    decreases k - i
  {
    if i < k { GroupSame(flags, i, k - 1); }
  }

  lemma {:induction false} GroupGrows(flags: seq<nat>, i: nat, k: nat)
    requires i <= k <= |flags|
    ensures GroupOf(flags, i) <= GroupOf(flags, k)
    ensures (exists j :: i <= j < k && flags[j] == 0) ==> GroupOf(flags, i) < GroupOf(flags, k)
    decreases k - i
  {
    if i < k { GroupGrows(flags, i, k - 1); }
  }

  /** What the loop knows at position `i`: every candidate so far is in the group that is still open. */
  ghost predicate OpenGroup(v: Support, server: Preferences, client: seq<Suite>, i: nat, groupMin: int)
    requires server.Valid() && i <= |server.ciphers|
  {
    && (forall j: nat :: j < i && Candidate(v, server.ciphers, client, j) ==> Open(server, client, i, groupMin, j))
    && (groupMin != -1 ==> exists j: nat :: j < i && Attains(v, server, client, j, groupMin))
  }

  predicate Open(server: Preferences, client: seq<Suite>, i: nat, groupMin: int, j: nat)
    requires server.Valid() && j < i <= |server.ciphers|
  {
    groupMin != -1 && groupMin <= Rank(client, server.ciphers[j]) && forall k :: j <= k < i ==> server.inGroup[k] != 0
  }

  predicate Attains(v: Support, server: Preferences, client: seq<Suite>, j: nat, groupMin: int) {
    Candidate(v, server.ciphers, client, j) && Rank(client, server.ciphers[j]) == groupMin
  }

  /** At the end of a group, a candidate of it with the least rank is the best of all. */
  lemma OpenBest(v: Support, server: Preferences, client: seq<Suite>, i: nat, b: nat, groupMin: int)
    requires server.Valid() && b <= i < |server.ciphers| && OpenGroup(v, server, client, i, groupMin)
    requires Candidate(v, server.ciphers, client, b) && server.inGroup[i] == 0
    requires groupMin != -1 ==> Rank(client, server.ciphers[b]) <= groupMin
    requires Candidate(v, server.ciphers, client, i)
             ==> Rank(client, server.ciphers[b]) <= Rank(client, server.ciphers[i])
    ensures Best(v, server, client, b) && Closed(server, b)
  {
    hide Usable, IndexOf, Rank;
    if b < i {
      assert Open(server, client, i, groupMin, b);
    }
    GroupSame(server.inGroup, b, i);
    forall j: nat | Candidate(v, server.ciphers, client, j) ensures NoWorse(server, client, b, j) {
      if j < i {
        assert Open(server, client, i, groupMin, j);
        GroupSame(server.inGroup, j, i);
      } else if j > i {
        GroupGrows(server.inGroup, i, j);
      }
    }
  }

  /** Position `i` continues the group. */
  lemma StaysOpen(v: Support, server: Preferences, client: seq<Suite>, i: nat, groupMin: int, next: int)
    requires server.Valid() && i < |server.ciphers| && OpenGroup(v, server, client, i, groupMin)
    requires if Candidate(v, server.ciphers, client, i) then
               server.inGroup[i] != 0
               && next == (if groupMin == -1 || groupMin > Rank(client, server.ciphers[i])
                           then Rank(client, server.ciphers[i]) else groupMin)
             else next == groupMin && (server.inGroup[i] != 0 || groupMin == -1)
    ensures OpenGroup(v, server, client, i + 1, next)
  {
    hide Usable, IndexOf, Rank;
    forall j: nat | j < i + 1 && Candidate(v, server.ciphers, client, j) ensures Open(server, client, i + 1, next, j) {
      if j < i { assert Open(server, client, i, groupMin, j); }
    }
    if next != -1 {
      if next == groupMin {
        var j: nat :| j < i && Attains(v, server, client, j, groupMin);
        assert Attains(v, server, client, j, next);
      } else {
        assert Attains(v, server, client, i, next);
      }
    }
  }

  /**
  ssl3_choose_cipher with SSL_OP_CIPHER_SERVER_PREFERENCE: the best usable shared suite of the groups that
  are closed, and none exactly when there is none.
  */
  method ChooseByServer(v: Support, server: Preferences, client: seq<Suite>) returns (r: Option<Suite>)
    requires server.Valid()
    ensures r.Some? ==> exists i: nat :: Best(v, server, client, i) && server.ciphers[i] == r.value
    ensures r.None? <==> forall j: nat :: Candidate(v, server.ciphers, client, j) ==> !Closed(server, j)
  {
    hide Usable, IndexOf, GroupOf, Best;
    var groupMin: int := -1;
    for i := 0 to |server.ciphers|
      invariant OpenGroup(v, server, client, i, groupMin)
      invariant groupMin == -1 || 0 <= groupMin < |client|
    {
      var c := server.ciphers[i];
      var found := IndexOf(client, c);
      ghost var before := groupMin;
      if Usable(v, c) && found.Some? {
        var index := found.value;
        if server.inGroup[i] == 1 {
          if groupMin == -1 || groupMin > index { groupMin := index; }
        } else {
          ghost var b: nat := i;
          if groupMin != -1 && groupMin < index {
            index := groupMin;
            b :| b < i && Attains(v, server, client, b, groupMin);
          }
          OpenBest(v, server, client, i, b, groupMin);
          return Some(client[index]);
        }
      }
      if server.inGroup[i] == 0 && groupMin != -1 {
        ghost var b: nat :| b < i && Attains(v, server, client, b, groupMin);
        OpenBest(v, server, client, i, b, groupMin);
        return Some(client[groupMin]);
      }
      StaysOpen(v, server, client, i, before, groupMin);
    }
    forall j: nat | Candidate(v, server.ciphers, client, j) ensures !Closed(server, j) {
      assert Open(server, client, |server.ciphers|, groupMin, j);
    }
    return None;
  }

  /** The first usable shared suite of the client's list. */
  ghost predicate First(v: Support, server: Preferences, client: seq<Suite>, i: nat) {
    && Candidate(v, client, server.ciphers, i)
    && forall j: nat :: j < i ==> !Candidate(v, client, server.ciphers, j)
  }

  /** ssl3_choose_cipher without it. */
  method ChooseByClient(v: Support, server: Preferences, client: seq<Suite>) returns (r: Option<Suite>)
    ensures r.Some? ==> exists i: nat :: First(v, server, client, i) && client[i] == r.value
    ensures r.None? <==> forall j: nat :: !Candidate(v, client, server.ciphers, j)
  {
    hide Usable;
    for i := 0 to |client|
      invariant forall j: nat :: j < i ==> !Candidate(v, client, server.ciphers, j)
    {
      var found := IndexOf(server.ciphers, client[i]);
      if Usable(v, client[i]) && found.Some? {
        assert First(v, server, client, i);
        return Some(server.ciphers[found.value]);
      }
    }
    return None;
  }

  /**
  In a list whose last flag is 0, as ssl_cipher_preference_list_st promises, every group is closed; so the
  server finds no suite exactly when no usable suite is shared.
  */
  lemma LastFlagCloses(v: Support, server: Preferences, client: seq<Suite>)
    requires server.Valid() && (server.ciphers != [] ==> server.inGroup[|server.inGroup| - 1] == 0)
    ensures (forall j: nat :: Candidate(v, server.ciphers, client, j) ==> !Closed(server, j))
       <==> (forall j: nat :: !Candidate(v, server.ciphers, client, j))
  {
    hide Usable;
    forall j: nat | Candidate(v, server.ciphers, client, j) ensures Closed(server, j) {
      assert server.inGroup[|server.inGroup| - 1] == 0;
    }
  }

  /** The best suite is one suite: all positions that are best hold it. */
  lemma BestIsOne(v: Support, server: Preferences, client: seq<Suite>, i: nat, j: nat)
    requires server.Valid() && Best(v, server, client, i) && Best(v, server, client, j)
    ensures server.ciphers[i] == server.ciphers[j]
  {
    hide Usable, GroupOf;
    assert NoWorse(server, client, i, j) && NoWorse(server, client, j, i);
  }

  /** What ssl3_choose_cipher promises of its result, with and without SSL_OP_CIPHER_SERVER_PREFERENCE. */
  ghost predicate Choice(v: Support, server: Preferences, client: seq<Suite>, byServer: bool, r: Option<Suite>)
    requires server.Valid()
  {
    if byServer then
      && (r.Some? ==> exists i: nat :: Best(v, server, client, i) && server.ciphers[i] == r.value)
      && (r.None? <==> forall j: nat :: Candidate(v, server.ciphers, client, j) ==> !Closed(server, j))
    else
      && (r.Some? ==> exists i: nat :: First(v, server, client, i) && client[i] == r.value)
      && (r.None? <==> forall j: nat :: !Candidate(v, client, server.ciphers, j))
  }

  /** ssl3_choose_cipher */
  method Choose(v: Support, server: Preferences, client: seq<Suite>, byServer: bool) returns (r: Option<Suite>)
    requires server.Valid()
    ensures Choice(v, server, client, byServer, r)
  {
    if byServer { r := ChooseByServer(v, server, client); } else { r := ChooseByClient(v, server, client); }
  }
}
