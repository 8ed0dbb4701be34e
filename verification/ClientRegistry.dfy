/**
 The server's two indexes of its clients: vectors by unit type and a map by uuid.
 */
module ClientRegistry {

  /** A connected client; only `abort` changes once it is registered. */
  class ClientInfo {
    const handle: int
    const unitType: nat
    const uuid: nat
    var abort: bool

    constructor (handle: int, unitType: nat, uuid: nat)
      ensures this.handle == handle && this.unitType == unitType && this.uuid == uuid && !abort
    {
      this.handle, this.unitType, this.uuid, abort := handle, unitType, uuid, false;
    }
  }

  type ByType = map<nat, seq<ClientInfo>>
  type ByUuid = map<nat, ClientInfo>

  function ClientsOf(types: ByType, t: nat): seq<ClientInfo> {
    if t in types then types[t] else []
  }

  ghost predicate NoRepeats(cs: seq<ClientInfo>) {
    forall i, j :: 0 <= i < j < |cs| ==> cs[i] != cs[j]
  }

  /** A client is registered under its own type and uuid. */
  ghost predicate Registered(types: ByType, uuids: ByUuid, c: ClientInfo) {
    c.uuid in uuids && uuids[c.uuid] == c && c in ClientsOf(types, c.unitType)
  }

  /** Both indexes hold exactly the same clients, each once. */
  ghost predicate Consistent(types: ByType, uuids: ByUuid) {
    && (forall t, c {:trigger c in ClientsOf(types, t)} :: c in ClientsOf(types, t) ==>
          c.unitType == t && Registered(types, uuids, c))
    && (forall t :: NoRepeats(ClientsOf(types, t)))
    && (forall u :: u in uuids ==> uuids[u].uuid == u && Registered(types, uuids, uuids[u]))
    && (forall u, v :: u in uuids && v in uuids && uuids[u].handle == uuids[v].handle ==> u == v)
  }

  /** Registered clients have pairwise distinct uuids. */
  lemma UuidsDistinct(types: ByType, uuids: ByUuid, t: nat, t': nat, c: ClientInfo, d: ClientInfo)
    requires Consistent(types, uuids) && c in ClientsOf(types, t) && d in ClientsOf(types, t') && c.uuid == d.uuid
    ensures c == d && t == t'
  {
  }

  /** The clients that stay when `gone` leave, in order. */
  function Without(cs: seq<ClientInfo>, gone: set<ClientInfo>): seq<ClientInfo> {
    if cs == [] then [] else
      var k := |cs| - 1;
      Without(cs[..k], gone) + if cs[k] in gone then [] else [cs[k]]
  }

  lemma {:induction false} WithoutMembers(cs: seq<ClientInfo>, gone: set<ClientInfo>)
    ensures forall c :: c in Without(cs, gone) <==> c in cs && c !in gone
    ensures |Without(cs, gone)| <= |cs|
  {
    if cs != [] {
      var k := |cs| - 1;
      WithoutMembers(cs[..k], gone);
      assert cs == cs[..k] + [cs[k]];
    }
  }

  lemma {:induction false} WithoutRepeats(cs: seq<ClientInfo>, gone: set<ClientInfo>)
    requires NoRepeats(cs)
    ensures NoRepeats(Without(cs, gone))
  {
    if cs != [] {
      var k := |cs| - 1;
      WithoutMembers(cs[..k], gone);
      WithoutRepeats(cs[..k], gone);
    }
  }

  lemma {:induction false} WithoutNone(cs: seq<ClientInfo>, gone: set<ClientInfo>)
    requires forall c :: c in cs ==> c !in gone
    ensures Without(cs, gone) == cs
  {
    if cs != [] {
      WithoutNone(cs[..|cs| - 1], gone);
    }
  }

  /** Erasing the element at k. */
  lemma {:induction false} ErasedAt(cs: seq<ClientInfo>, k: nat)
    requires k < |cs| && NoRepeats(cs)
    ensures cs[..k] + cs[k + 1..] == Without(cs, {cs[k]})
  {
    var n := |cs| - 1;
    if k == n {
      WithoutNone(cs[..n], {cs[k]});
    } else {
      ErasedAt(cs[..n], k);
      assert cs[..k] + cs[k + 1..] == cs[..n][..k] + cs[..n][k + 1..] + [cs[n]];
    }
  }

  function WithoutUuid(uuids: ByUuid, uuid: nat): ByUuid {
    map u | u in uuids && u != uuid :: uuids[u]
  }

  function WithoutClients(uuids: ByUuid, gone: set<ClientInfo>): ByUuid {
    map u | u in uuids && uuids[u] !in gone :: uuids[u]
  }

  /** The indexes after `c` has left. */
  ghost predicate Left(types: ByType, uuids: ByUuid, types': ByType, uuids': ByUuid, c: ClientInfo) {
    && (forall t {:trigger ClientsOf(types', t)} :: ClientsOf(types', t) == Without(ClientsOf(types, t), {c}))
    && uuids' == WithoutUuid(uuids, c.uuid)
  }

  lemma LeftConsistent(types: ByType, uuids: ByUuid, types': ByType, uuids': ByUuid, c: ClientInfo)
    requires Consistent(types, uuids) && Registered(types, uuids, c) && Left(types, uuids, types', uuids', c)
    ensures Consistent(types', uuids')
  {
    forall t
      ensures NoRepeats(ClientsOf(types', t))
      ensures forall d :: d in ClientsOf(types', t) <==> d in ClientsOf(types, t) && d != c
    {
      WithoutMembers(ClientsOf(types, t), {c});
      WithoutRepeats(ClientsOf(types, t), {c});
    }
    forall t, d | d in ClientsOf(types', t) ensures d.unitType == t && Registered(types', uuids', d) {
      assert d in ClientsOf(types, t) && Registered(types, uuids, d);
    }
    forall u | u in uuids' ensures Registered(types', uuids', uuids'[u]) {
      assert Registered(types, uuids, uuids[u]);
    }
  }

  lemma EnterConsistent(types: ByType, uuids: ByUuid, c: ClientInfo)
    requires Consistent(types, uuids) && c.uuid !in uuids && forall u :: u in uuids ==> uuids[u].handle != c.handle
    ensures Consistent(types[c.unitType := ClientsOf(types, c.unitType) + [c]], uuids[c.uuid := c])
  {
    var types', uuids' := types[c.unitType := ClientsOf(types, c.unitType) + [c]], uuids[c.uuid := c];
    assert c in ClientsOf(types, c.unitType) ==> Registered(types, uuids, c);
    forall t, d | d in ClientsOf(types', t) ensures d.unitType == t && Registered(types', uuids', d) {
      assert ClientsOf(types', t) == ClientsOf(types, t) + if t == c.unitType then [c] else [];
      if d != c || t != c.unitType {
        assert d in ClientsOf(types, t);
        assert d.unitType == t && Registered(types, uuids, d) && d.uuid != c.uuid;
      }
    }
    forall t ensures NoRepeats(ClientsOf(types', t)) {
      assert NoRepeats(ClientsOf(types, t));
    }
    forall u | u in uuids' ensures uuids'[u].uuid == u && Registered(types', uuids', uuids'[u]) {
      assert u == c.uuid || Registered(types, uuids, uuids[u]);
    }
  }

  /** The indexes after all of `gone` have left. */
  ghost predicate Cleared(types: ByType, uuids: ByUuid, types': ByType, uuids': ByUuid, gone: set<ClientInfo>) {
    && (forall t {:trigger ClientsOf(types', t)} :: ClientsOf(types', t) == Without(ClientsOf(types, t), gone))
    && uuids' == WithoutClients(uuids, gone)
  }

  lemma StartClearing(types: ByType, uuids: ByUuid)
    ensures Cleared(types, uuids, types, uuids, {})
  {
    assert WithoutClients(uuids, {}) == uuids;
    forall t ensures ClientsOf(types, t) == Without(ClientsOf(types, t), {}) {
      WithoutNone(ClientsOf(types, t), {});
    }
  }

  lemma WithoutAppend(cs: seq<ClientInfo>, c: ClientInfo, gone: set<ClientInfo>)
    ensures Without(cs + [c], gone) == Without(cs, gone) + if c in gone then [] else [c]
  {
    assert (cs + [c])[..|cs|] == cs;
  }

  lemma {:induction false} WithoutTwice(cs: seq<ClientInfo>, gone: set<ClientInfo>, c: ClientInfo)
    ensures Without(Without(cs, gone), {c}) == Without(cs, gone + {c})
  {
    if cs != [] {
      var k := |cs| - 1;
      WithoutTwice(cs[..k], gone, c);
      if cs[k] in gone {
        assert Without(cs, gone) == Without(cs[..k], gone);
      } else {
        WithoutAppend(Without(cs[..k], gone), cs[k], {c});
        assert Without(cs, gone) == Without(cs[..k], gone) + [cs[k]];
      }
      assert Without(cs, gone + {c}) == Without(cs[..k], gone + {c}) + if cs[k] in gone + {c} then [] else [cs[k]];
    }
  }

  lemma ClearStep(types: ByType, uuids: ByUuid, types1: ByType, uuids1: ByUuid, types2: ByType, uuids2: ByUuid,
                  gone: set<ClientInfo>, c: ClientInfo)
    requires Consistent(types, uuids) && Cleared(types, uuids, types1, uuids1, gone)
    requires c.uuid in uuids && uuids[c.uuid] == c && Left(types1, uuids1, types2, uuids2, c)
    ensures Cleared(types, uuids, types2, uuids2, gone + {c})
  {
    UuidsStep(types, uuids, uuids1, uuids2, gone, c);
    forall t ensures ClientsOf(types2, t) == Without(ClientsOf(types, t), gone + {c}) {
      WithoutTwice(ClientsOf(types, t), gone, c);
      assert ClientsOf(types2, t) == Without(ClientsOf(types1, t), {c});
    }
  }

  lemma UuidsStep(types: ByType, uuids: ByUuid, uuids1: ByUuid, uuids2: ByUuid, gone: set<ClientInfo>, c: ClientInfo)
    requires Consistent(types, uuids) && c.uuid in uuids && uuids[c.uuid] == c
    requires uuids1 == WithoutClients(uuids, gone) && uuids2 == WithoutUuid(uuids1, c.uuid)
    ensures uuids2 == WithoutClients(uuids, gone + {c})
  {
  }

  lemma ClearsRegistered(types: ByType, uuids: ByUuid, types1: ByType, uuids1: ByUuid, gone: set<ClientInfo>, t: nat,
                         c: ClientInfo)
    requires Consistent(types, uuids) && Cleared(types, uuids, types1, uuids1, gone) && c in ClientsOf(types1, t)
    ensures Registered(types, uuids, c) && c in uuids.Values && c in ClientsOf(types, t)
  {
    WithoutMembers(ClientsOf(types, t), gone);
    assert c in ClientsOf(types, t);
  }

  lemma ClearedNext(types: ByType, uuids: ByUuid, types1: ByType, uuids1: ByUuid, types2: ByType, uuids2: ByUuid,
                    gone: set<ClientInfo>, t: nat, k: nat)
    requires Consistent(types, uuids) && Consistent(types1, uuids1) && Cleared(types, uuids, types1, uuids1, gone)
    requires t in types1 && k < |types1[t]| && Left(types1, uuids1, types2, uuids2, types1[t][k])
    ensures types1[t][k] in uuids.Values && Cleared(types, uuids, types2, uuids2, gone + {types1[t][k]})
    ensures forall t', d :: d in ClientsOf(types2, t') ==> d in ClientsOf(types1, t')
  {
    var cs, c := types1[t], types1[t][k];
    assert cs == ClientsOf(types1, t) && c in cs;
    ClearsRegistered(types, uuids, types1, uuids1, gone, t, c);
    ClearStep(types, uuids, types1, uuids1, types2, uuids2, gone, c);
    StillLive(types1, types2, c);
  }

  lemma StillLive(types: ByType, types': ByType, c: ClientInfo)
    requires forall t :: ClientsOf(types', t) == Without(ClientsOf(types, t), {c})
    ensures forall t, d :: d in ClientsOf(types', t) ==> d in ClientsOf(types, t)
  {
    forall t, d | d in ClientsOf(types', t) ensures d in ClientsOf(types, t) {
      WithoutMembers(ClientsOf(types, t), {c});
    }
  }

  lemma AllGone(types: ByType, uuids: ByUuid, types': ByType, uuids': ByUuid, gone: set<ClientInfo>,
                aborted: set<ClientInfo>)
    requires Consistent(types, uuids) && Cleared(types, uuids, types', uuids', gone) && gone <= aborted <= uuids.Values
    requires forall t, c :: c in ClientsOf(types', t) ==> c !in aborted
    ensures gone == aborted
  {
    forall c | c in aborted ensures c in gone {
      assert Registered(types, uuids, c);
      assert ClientsOf(types', c.unitType) == Without(ClientsOf(types, c.unitType), gone);
      WithoutMembers(ClientsOf(types, c.unitType), gone);
    }
  }

  datatype Reply = Uuid(value: nat) | Refused

  /** The first uuid on offer that nobody uses, if the client keeps answering until then. */
  function Settled(first: nat, replies: seq<Reply>, uuids: ByUuid): Reply
    decreases |replies|
  {
    if first !in uuids then Uuid(first)
    else if replies == [] || replies[0].Refused? then Refused
    else Settled(replies[0].value, replies[1..], uuids)
  }

  /** The uuids offered before the client refuses or falls silent. */
  function Offers(first: nat, replies: seq<Reply>): (r: seq<nat>)
    ensures |r| > 0
    decreases |replies|
  {
    if replies == [] || replies[0].Refused? then [first] else [first] + Offers(replies[0].value, replies[1..])
  }

  /** The uuid taken is the first of those offered that is free; none is taken exactly if none is free. */
  lemma {:induction false} FirstFree(first: nat, replies: seq<Reply>, uuids: ByUuid) returns (k: nat)
    ensures var offers, taken := Offers(first, replies), Settled(first, replies, uuids);
            && k <= |offers| && (forall i :: 0 <= i < k ==> offers[i] in uuids)
            && if k == |offers| then taken.Refused? else offers[k] !in uuids && taken == Uuid(offers[k])
    decreases |replies|
  {
    if first !in uuids {
      k := 0;
    } else if replies == [] || replies[0].Refused? {
      k := 1;
    } else {
      k := FirstFree(replies[0].value, replies[1..], uuids);
      k := k + 1;
    }
  }

  class Registry {
    var types: ByType
    var uuids: ByUuid

    ghost predicate Valid()
      reads this
    {
      Consistent(types, uuids)
    }

    ghost predicate Knows(c: ClientInfo)
      reads this
    {
      Registered(types, uuids, c)
    }

    constructor ()
      ensures Valid() && types == map[] && uuids == map[]
    {
      types, uuids := map[], map[];
    }

    /** The connect callback: ask for a new uuid until it collides with none, then register the client. */
    method Connect(handle: int, unitType: nat, first: nat, replies: seq<Reply>) returns (client: ClientInfo?)
      requires Valid() && forall u :: u in uuids ==> uuids[u].handle != handle
      modifies this
      ensures Valid()
      ensures client == null <==> Settled(first, replies, old(uuids)).Refused?
      ensures client == null ==> unchanged(this)
      ensures client != null ==>
                && fresh(client) && client.handle == handle && client.unitType == unitType
                && Uuid(client.uuid) == Settled(first, replies, old(uuids))
                && types == old(types)[unitType := ClientsOf(old(types), unitType) + [client]]
                && uuids == old(uuids)[client.uuid := client]
    {
      var uuid, k := first, 0;
      while uuid in uuids
        invariant k <= |replies| && Settled(first, replies, uuids) == Settled(uuid, replies[k..], uuids)
        decreases |replies| - k
      {
        if k == |replies| || replies[k].Refused? {
          return null;
        }
        assert replies[k..][1..] == replies[k + 1..];
        uuid, k := replies[k].value, k + 1;
      }
      client := new ClientInfo(handle, unitType, uuid);
      Enter(client);
    }

    method Enter(client: ClientInfo)
      requires Valid() && client.uuid !in uuids && forall u :: u in uuids ==> uuids[u].handle != client.handle
      modifies this
      ensures Valid()
      ensures types == old(types)[client.unitType := ClientsOf(old(types), client.unitType) + [client]]
      ensures uuids == old(uuids)[client.uuid := client]
    {
      EnterConsistent(types, uuids, client);
      types := types[client.unitType := ClientsOf(types, client.unitType) + [client]];
      uuids := uuids[client.uuid := client];
    }

    /** `removeClient` with a type: the client leaves both indexes, if it is in that vector. */
    method RemoveFrom(unitType: nat, info: ClientInfo)
      requires Valid()
      modifies this
      ensures Valid()
      ensures if info in ClientsOf(old(types), unitType) then Left(old(types), old(uuids), types, uuids, info)
              else uuids == old(uuids) && forall t :: ClientsOf(types, t) == ClientsOf(old(types), t)
      ensures old(types).Keys <= types.Keys
    {
      ghost var before, ubefore := types, uuids;
      if unitType !in types {
        types := types[unitType := []];
      }
      var cs := types[unitType];
      var k := 0;
      while k < |cs| && cs[k] != info
        invariant k <= |cs| && forall i :: 0 <= i < k ==> cs[i] != info
      {
        k := k + 1;
      }
      if k < |cs| {
        uuids := WithoutUuid(uuids, info.uuid);
        types := types[unitType := cs[..k] + cs[k + 1..]];
        assert info in ClientsOf(before, unitType);
        OneLeft(before, ubefore, types, info, unitType, k);
        LeftConsistent(before, ubefore, types, uuids, info);
      } else {
        assert forall t :: ClientsOf(types, t) == ClientsOf(before, t);
      }
    }

    /** `removeClient` by handle: search all vectors. */
    method RemoveClient(info: ClientInfo)
      requires Valid()
      modifies this
      ensures Valid()
      ensures forall c :: Registered(old(types), old(uuids), c) && c.handle == info.handle ==>
                Left(old(types), old(uuids), types, uuids, c)
      ensures (forall c :: Registered(old(types), old(uuids), c) ==> c.handle != info.handle) ==> unchanged(this)
    {
      var rest := types.Keys;
      while rest != {}
        invariant rest <= types.Keys && unchanged(this)
        invariant forall t, c :: t in types && t !in rest && c in types[t] ==> c.handle != info.handle
        decreases rest
      {
        var t :| t in rest;
        var cs, k := types[t], 0;
        while k < |cs|
          invariant k <= |cs| && forall i :: 0 <= i < k ==> cs[i].handle != info.handle
        {
          if cs[k].handle == info.handle {
            assert cs[k] in ClientsOf(types, t) && Knows(cs[k]);
            RemoveFrom(t, cs[k]);
            return;
          }
          k := k + 1;
        }
        rest := rest - {t};
      }
      forall c | Knows(c) ensures c.handle != info.handle {
        assert c in types[c.unitType];
      }
    }

    /** Clients that are registered and have given up. */
    ghost function Aborted(): set<ClientInfo>
      reads this, uuids.Values
    {
      set c | c in uuids.Values && c.abort
    }

    ghost predicate Clearing(types0: ByType, uuids0: ByUuid, gone: set<ClientInfo>, rest: set<nat>)
      reads this, gone
    {
      && Consistent(types0, uuids0) && Valid() && Cleared(types0, uuids0, types, uuids, gone) && rest <= types.Keys
      && forall c :: c in gone ==> c.abort && Registered(types0, uuids0, c)
    }

    /** Exactly the live clients stay, in order, in both indexes. */
    method ClearAborted()
      requires Valid()
      modifies this
      ensures Valid()
      ensures Cleared(old(types), old(uuids), types, uuids, old(Aborted()))
    {
      StartClearing(types, uuids);
      ghost var gone := ClearEach(types, uuids);
      AllGone(old(types), old(uuids), types, uuids, gone, old(Aborted()));
    }

    /** The loop over the types. */
    method ClearEach(ghost types0: ByType, ghost uuids0: ByUuid) returns (ghost gone: set<ClientInfo>)
      requires types0 == types && uuids0 == uuids && Clearing(types0, uuids0, {}, types.Keys)
      modifies this
      ensures Clearing(types0, uuids0, gone, {})
      ensures forall t, c :: c in ClientsOf(types, t) ==> !c.abort
    {
      gone := {};
      var rest := types.Keys;
      while rest != {}
        invariant Clearing(types0, uuids0, gone, rest)
        invariant forall t, c :: t !in rest && c in ClientsOf(types, t) ==> !c.abort
        decreases rest
      {
        var t :| t in rest;
        gone := ClearVector(t, rest, types0, uuids0, gone);
        rest := rest - {t};
      }
    }

    method ClearVector(t: nat, ghost rest: set<nat>, ghost types0: ByType, ghost uuids0: ByUuid,
                       ghost gone0: set<ClientInfo>)
      returns (ghost gone: set<ClientInfo>)
      requires Clearing(types0, uuids0, gone0, rest) && t in rest
      modifies this
      ensures Clearing(types0, uuids0, gone, rest)
      ensures forall c :: c in ClientsOf(types, t) ==> !c.abort
      ensures forall t', c :: c in ClientsOf(types, t') ==> c in ClientsOf(old(types), t')
    {
      gone := gone0;
      var k := 0;
      while k < |types[t]|
        invariant Clearing(types0, uuids0, gone, rest)
        invariant k <= |types[t]| && forall i :: 0 <= i < k ==> !types[t][i].abort
        invariant forall t', c :: c in ClientsOf(types, t') ==> c in ClientsOf(old(types), t')
        decreases |types[t]| - k
      {
        if types[t][k].abort {
          gone := ClearNext(t, k, rest, types0, uuids0, gone);
        } else {
          k := k + 1;
        }
      }
    }

    /** One aborted client leaves. */
    method ClearNext(t: nat, k: nat, ghost rest: set<nat>, ghost types0: ByType, ghost uuids0: ByUuid,
                     ghost gone: set<ClientInfo>)
      returns (ghost gone': set<ClientInfo>)
      requires Clearing(types0, uuids0, gone, rest) && t in rest && k < |types[t]| && types[t][k].abort
      modifies this
      ensures Clearing(types0, uuids0, gone', rest)
      ensures t in types && types[t] == old(types[t][..k] + types[t][k + 1..])
      ensures forall t, c :: c in ClientsOf(types, t) ==> c in ClientsOf(old(types), t)
    {
      ghost var types1, uuids1 := types, uuids;
      ClearOne(t, k);
      ClearedNext(types0, uuids0, types1, uuids1, types, uuids, gone, t, k);
      gone' := gone + {types1[t][k]};
    }

    /** One client leaves; those before it stay where they are. */
    method ClearOne(t: nat, k: nat)
      requires Valid() && t in types && k < |types[t]|
      modifies this
      ensures Valid() && Left(old(types), old(uuids), types, uuids, old(types[t][k])) && old(types).Keys <= types.Keys
      ensures types[t] == old(types[t][..k] + types[t][k + 1..])
    {
      ghost var cs := types[t];
      assert cs == ClientsOf(types, t) && cs[k] in cs;
      ErasedAt(cs, k);
      RemoveFrom(t, types[t][k]);
      assert types[t] == ClientsOf(types, t) == Without(cs, {cs[k]});
    }

    /** A client that has given up, or that cannot be reached, is removed. `reached` is what the socket says. */
    method SendTo(c: ClientInfo, reached: bool) returns (sent: bool)
      requires Valid() && Knows(c)
      modifies this
      ensures Valid() && sent == (!c.abort && reached)
      ensures if sent then unchanged(this) else Left(old(types), old(uuids), types, uuids, c)
    {
      if c.abort {
        RemoveClient(c);
        return false;
      }
      if !reached {
        RemoveClient(c);
        return false;
      }
      return true;
    }

    /** Every client of the type has given up or is not reached by the socket. */
    ghost predicate NoneAnswers(unitType: nat, reached: set<ClientInfo>)
      reads this, ClientsOf(types, unitType)
    {
      forall c :: c in ClientsOf(types, unitType) ==> c.abort || c !in reached
    }

    /**
     Try random clients of a type until one takes the message; `reached` are the clients the socket can
     write to.  Each failure removes the client, and nobody else leaves.  It gives up exactly if none of
     them can take the message, and then all of them are gone.
     */
    method SendToAnyOfType(unitType: nat, reached: set<ClientInfo>)
      returns (receiver: ClientInfo?, ghost gone: set<ClientInfo>)
      requires Valid()
      modifies this
      ensures Valid() && Cleared(old(types), old(uuids), types, uuids, gone)
      ensures forall c :: c in gone ==> c in ClientsOf(old(types), unitType) && (c.abort || c !in reached)
      ensures receiver == null <==> old(NoneAnswers(unitType, reached))
      ensures receiver == null ==> ClientsOf(types, unitType) == []
      ensures receiver != null ==>
        !receiver.abort && receiver in reached && Knows(receiver) && receiver in ClientsOf(old(types), unitType)
      ensures forall t :: t != unitType ==> ClientsOf(types, t) == ClientsOf(old(types), t)
    {
      gone := {};
      StartClearing(types, uuids);
      while true
        invariant Valid() && Cleared(old(types), old(uuids), types, uuids, gone)
        invariant forall c :: c in gone ==> c in ClientsOf(old(types), unitType) && (c.abort || c !in reached)
        decreases |ClientsOf(types, unitType)|
      {
        if unitType !in types || types[unitType] == [] {
          OnlyOne(old(types), old(uuids), types, uuids, gone, unitType);
          WithoutMembers(ClientsOf(old(types), unitType), gone);
          assert ClientsOf(types, unitType) == [];
          return null, gone;
        }
        var idx := *;
        if idx < 0 || idx >= |types[unitType]| {
          idx := 0;
        }
        var c := types[unitType][idx];
        assert c in ClientsOf(types, unitType) && Knows(c);
        ghost var types1, uuids1 := types, uuids;
        ClearsRegistered(old(types), old(uuids), types, uuids, gone, unitType, c);
        var sent := SendTo(c, c in reached);
        if sent {
          OnlyOne(old(types), old(uuids), types, uuids, gone, unitType);
          return c, gone;
        }
        OneFewer(old(types), old(uuids), types1, uuids1, types, uuids, gone, unitType, c);
        gone := gone + {c};
      }
    }
  }

  lemma OnlyOne(types: ByType, uuids: ByUuid, types': ByType, uuids': ByUuid, gone: set<ClientInfo>, unitType: nat)
    requires Consistent(types, uuids) && Cleared(types, uuids, types', uuids', gone)
    requires forall c :: c in gone ==> c in ClientsOf(types, unitType)
    ensures forall t :: t != unitType ==> ClientsOf(types', t) == ClientsOf(types, t)
  {
    forall t | t != unitType ensures ClientsOf(types', t) == ClientsOf(types, t) {
      WithoutNone(ClientsOf(types, t), gone);
    }
  }

  /** One more client gone is one client of its type fewer. */
  lemma OneFewer(types: ByType, uuids: ByUuid, types1: ByType, uuids1: ByUuid, types2: ByType, uuids2: ByUuid,
                 gone: set<ClientInfo>, t: nat, c: ClientInfo)
    requires Consistent(types, uuids) && Cleared(types, uuids, types1, uuids1, gone)
    requires c.uuid in uuids && uuids[c.uuid] == c && Left(types1, uuids1, types2, uuids2, c)
    requires c in ClientsOf(types1, t)
    ensures Cleared(types, uuids, types2, uuids2, gone + {c}) && |ClientsOf(types2, t)| < |ClientsOf(types1, t)|
  {
    ClearStep(types, uuids, types1, uuids1, types2, uuids2, gone, c);
    Shrinks(ClientsOf(types1, t), c);
  }

  lemma {:induction false} Shrinks(cs: seq<ClientInfo>, c: ClientInfo)
    requires c in cs
    ensures |Without(cs, {c})| < |cs|
  {
    var k := |cs| - 1;
    WithoutMembers(cs[..k], {c});
    if cs[k] != c {
      Shrinks(cs[..k], c);
    }
  }

  lemma OneLeft(types: ByType, uuids: ByUuid, types': ByType, c: ClientInfo, t: nat, k: nat)
    requires Consistent(types, uuids) && t in types && k < |types[t]| && types[t][k] == c
    requires types' == types[t := types[t][..k] + types[t][k + 1..]]
    ensures forall t' :: ClientsOf(types', t') == Without(ClientsOf(types, t'), {c})
  {
    assert NoRepeats(ClientsOf(types, t));
    ErasedAt(types[t], k);
    forall t' | t' != t ensures ClientsOf(types', t') == Without(ClientsOf(types, t'), {c}) {
      assert c in ClientsOf(types, t);
      WithoutNone(ClientsOf(types, t'), {c});
    }
  }
}
