/**
 * The in-memory presence registry `usersInRooms` of the socket server: for
 * every room id, the ordered list of `{ socketId, user }` entries of the
 * sockets that joined it. The functions here specify what joining and
 * disconnecting do to the registry; the socket server's methods are proved
 * against them.
 *
 * The registry is a JavaScript object iterated with `for...in`, so it is
 * modelled as a map together with the sequence of its keys in the order
 * they were created; the scan visits them in `KeyOrder.ScanOrder` of that
 * sequence (array-index keys first, by value, then the rest as created).
 * The functions over a scan take the visiting order itself as `order`.
 */
module Registry {
  import opened Types
  import opened KeyOrder

  datatype Member = Member(socketId: SocketId, user: UserInfo)

  type Lists = map<RoomId, seq<Member>>

  /** The key order lists every key of the map exactly once. */
  ghost predicate RegistryValid(order: seq<RoomId>, reg: Lists)
  {
    && (forall k :: k in reg <==> k in order)
    && (forall i, j :: 0 <= i < j < |order| ==> order[i] != order[j])
  }

  /** Validity depends only on the set of rooms, not on their lists. */
  lemma ValidForSameRooms(order: seq<RoomId>, a: Lists, b: Lists)
    requires RegistryValid(order, a) && a.Keys == b.Keys
    ensures RegistryValid(order, b)
  {
  }

  /** The list of a room, or the empty list for a room with no key yet. */
  function ListOf(reg: Lists, roomId: RoomId): (r: seq<Member>)
    ensures roomId in reg ==> r == reg[roomId]
    ensures roomId !in reg ==> r == []
  {
    if roomId in reg then reg[roomId] else []
  }

  predicate HasEntry(list: seq<Member>, sid: SocketId)
  {
    exists i :: 0 <= i < |list| && list[i].socketId == sid
  }

  /** The entries of other sockets, in list order. */
  function Others(list: seq<Member>, sid: SocketId): (r: seq<Member>)
    ensures |r| == |list| - Count(list, sid)
    ensures forall i :: 0 <= i < |r| ==> r[i].socketId != sid
  {
    if list == [] then []
    else (if list[0].socketId != sid then [list[0]] else []) + Others(list[1..], sid)
  }

  /** The index of the first entry of `sid` in the list, or -1 when there is none. */
  function FirstIndex(list: seq<Member>, sid: SocketId): (r: int)
    ensures -1 <= r < |list|
    ensures r == -1 <==> !HasEntry(list, sid)
    ensures r >= 0 ==> list[r].socketId == sid
    ensures r >= 0 ==> forall j :: 0 <= j < r ==> list[j].socketId != sid
  {
    if list == [] then -1
    else if list[0].socketId == sid then 0
    else
      var k := FirstIndex(list[1..], sid);
      if k == -1 then -1 else k + 1
  }

  /** The list without its entry at `k`; the entries after it move up by one. */
  function RemoveAt(list: seq<Member>, k: nat): (r: seq<Member>)
    requires k < |list|
    ensures |r| == |list| - 1
    ensures forall i :: 0 <= i < k ==> r[i] == list[i]
    ensures forall i :: k <= i < |r| ==> r[i] == list[i + 1]
  {
    list[..k] + list[k + 1..]
  }

  /**
   * `r` is `list` with its first entry of `sid` spliced out: the entries
   * before it and after it stay, in order.
   */
  ghost predicate SplicesFirst(list: seq<Member>, sid: SocketId, r: seq<Member>)
  {
    exists k :: && 0 <= k < |list| && list[k].socketId == sid
                && (forall j :: 0 <= j < k ==> list[j].socketId != sid)
                && r == list[..k] + list[k + 1..]
  }

  /** The room list after the first entry of `sid` (if any) is spliced out. */
  function RemoveFirst(list: seq<Member>, sid: SocketId): (r: seq<Member>)
    ensures !HasEntry(list, sid) ==> r == list
    ensures HasEntry(list, sid) ==> |r| == |list| - 1
  {
    var k := FirstIndex(list, sid);
    if k == -1 then list else RemoveAt(list, k)
  }

  /** For a list that holds `sid`, `RemoveFirst` splices out exactly its first entry of `sid`. */
  lemma RemoveFirstSplicesFirst(list: seq<Member>, sid: SocketId)
    requires HasEntry(list, sid)
    ensures SplicesFirst(list, sid, RemoveFirst(list, sid))
  {
    var k := FirstIndex(list, sid);
    assert list[k].socketId == sid;
  }

  /** Splicing out the first entry determines the result: it can only be `RemoveFirst`. */
  lemma SplicesFirstUnique(list: seq<Member>, sid: SocketId, r: seq<Member>)
    requires SplicesFirst(list, sid, r)
    ensures r == RemoveFirst(list, sid)
  {
    var k :| && 0 <= k < |list| && list[k].socketId == sid
             && (forall j :: 0 <= j < k ==> list[j].socketId != sid)
             && r == list[..k] + list[k + 1..];
    var f := FirstIndex(list, sid);
    assert f != -1;
    assert f == k;
    assert RemoveFirst(list, sid) == RemoveAt(list, k);
  }

  /** The first room, in key order, whose list holds an entry of `sid`. */
  function Lookup(order: seq<RoomId>, reg: Lists, sid: SocketId): (r: Option<RoomId>)
    ensures r.Some? ==> r.value in order && r.value in reg && HasEntry(reg[r.value], sid)
    ensures r.None? <==>
      (forall i :: 0 <= i < |order| && order[i] in reg ==> !HasEntry(reg[order[i]], sid))
  {
    if order == [] then None
    else if order[0] in reg && HasEntry(reg[order[0]], sid) then Some(order[0])
    else
      var r := Lookup(order[1..], reg, sid);
      assert forall i :: 1 <= i < |order| ==> order[i] == order[1..][i - 1];
      r
  }

  /** The room the scan finds comes first, in key order, among the rooms holding `sid`. */
  lemma {:induction false} LookupFindsFirst(order: seq<RoomId>, reg: Lists, sid: SocketId)
    requires Lookup(order, reg, sid).Some?
    ensures exists j :: (0 <= j < |order| && order[j] == Lookup(order, reg, sid).value
                         && forall i :: 0 <= i < j && order[i] in reg ==> !HasEntry(reg[order[i]], sid))
  {
    if !(order[0] in reg && HasEntry(reg[order[0]], sid)) {
      var tail := order[1..];
      LookupFindsFirst(tail, reg, sid);
      var j :| 0 <= j < |tail| && tail[j] == Lookup(tail, reg, sid).value
        && (forall i :: 0 <= i < j && tail[i] in reg ==> !HasEntry(reg[tail[i]], sid));
      assert order[j + 1] == Lookup(order, reg, sid).value;
      forall i | 0 <= i < j + 1 && order[i] in reg ensures !HasEntry(reg[order[i]], sid) {
        if i > 0 {
          assert order[i] == tail[i - 1];
        }
      }
    } else {
      assert order[0] == Lookup(order, reg, sid).value;
    }
  }

  /** One step of the `for...in` scan: look at room `order[i]`, else go on with the rest. */
  lemma LookupStep(order: seq<RoomId>, reg: Lists, sid: SocketId, i: nat)
    requires i < |order|
    ensures Lookup(order[i..], reg, sid) ==
      if order[i] in reg && HasEntry(reg[order[i]], sid) then Some(order[i]) else Lookup(order[i + 1..], reg, sid)
  {
    assert order[i..][0] == order[i];
    assert order[i..][1..] == order[i + 1..];
  }

  /** The registry after `disconnect` of `sid`. */
  function AfterLeave(order: seq<RoomId>, reg: Lists, sid: SocketId): (r: Lists)
    ensures r.Keys == reg.Keys
    ensures Lookup(order, reg, sid).None? ==> r == reg
  {
    match Lookup(order, reg, sid)
    case Some(r) => reg[r := RemoveFirst(reg[r], sid)]
    case None => reg
  }

  /** The key order after a join to `roomId`: a new room's key goes last. */
  function JoinOrder(order: seq<RoomId>, reg: Lists, roomId: RoomId): (r: seq<RoomId>)
    ensures RegistryValid(order, reg) ==> RegistryValid(r, reg[roomId := ListOf(reg, roomId)])
    ensures |order| <= |r| <= |order| + 1 && r[..|order|] == order
  {
    if roomId in reg then order else order + [roomId]
  }

  /** The registry after `joinRoom` of `m` into `roomId`: `m` goes at the tail. */
  function AfterJoin(reg: Lists, roomId: RoomId, m: Member): (r: Lists)
    ensures r.Keys == reg.Keys + {roomId}
    ensures r[roomId] == ListOf(reg, roomId) + [m]
    ensures forall k :: k in reg && k != roomId ==> r[k] == reg[k]
  {
    reg[roomId := ListOf(reg, roomId) + [m]]
  }

  /** The number of entries of `sid` in a list. */
  function Count(list: seq<Member>, sid: SocketId): nat
  {
    if list == [] then 0
    else (if list[0].socketId == sid then 1 else 0) + Count(list[1..], sid)
  }

  /** `sid` has no entry in any room. */
  ghost predicate Absent(reg: Lists, sid: SocketId)
  {
    forall k :: k in reg ==> !HasEntry(reg[k], sid)
  }

  /** `sid` has at most one entry in the whole registry. */
  ghost predicate AtMostOnce(reg: Lists, sid: SocketId)
  {
    && (forall k :: k in reg ==> Count(reg[k], sid) <= 1)
    && (forall k1, k2 :: k1 in reg && k2 in reg && HasEntry(reg[k1], sid) && HasEntry(reg[k2], sid) ==> k1 == k2)
  }

  // ---------------------------------------------------------------------
  // The snapshot handed to a joiner

  /**
   * The snapshot holds exactly the room's entries of other sockets: never
   * the joiner's own, and none of the others is dropped.
   */
  lemma {:induction false} OthersMembers(list: seq<Member>, sid: SocketId, m: Member)
    ensures m in Others(list, sid) <==> m in list && m.socketId != sid
    decreases |list|
  {
    if list != [] {
      OthersMembers(list[1..], sid, m);
      assert list == [list[0]] + list[1..];
    }
  }

  /** Filtering distributes over concatenation, so it keeps join order. */
  lemma {:induction false} OthersAppend(a: seq<Member>, b: seq<Member>, sid: SocketId)
    ensures Others(a + b, sid) == Others(a, sid) + Others(b, sid)
    decreases |a|
  {
    if a == [] {
      assert a + b == b;
    } else {
      assert (a + b)[0] == a[0];
      assert (a + b)[1..] == a[1..] + b;
      OthersAppend(a[1..], b, sid);
    }
  }

  /** A joiner with no entry in the room sees the room's whole list, in join order. */
  lemma {:induction false} OthersOfFresh(list: seq<Member>, sid: SocketId)
    requires !HasEntry(list, sid)
    ensures Others(list, sid) == list
    decreases |list|
  {
    if list != [] {
      assert list[0].socketId != sid;
      assert !HasEntry(list[1..], sid) by {
        forall i | 0 <= i < |list[1..]| ensures list[1..][i].socketId != sid {
          assert list[1..][i] == list[i + 1];
        }
      }
      OthersOfFresh(list[1..], sid);
      assert list == [list[0]] + list[1..];
    }
  }

  /** The registry after the sockets of `ms` join `roomId` (from nothing), in order. */
  function JoinAllInto(roomId: RoomId, ms: seq<Member>): Lists
    decreases |ms|
  {
    if ms == [] then map[] else AfterJoin(JoinAllInto(roomId, ms[..|ms| - 1]), roomId, ms[|ms| - 1])
  }

  /** Sockets that join a room one after another leave the room's list in join order. */
  lemma {:induction false} JoinsKeepOrder(roomId: RoomId, ms: seq<Member>)
    ensures ListOf(JoinAllInto(roomId, ms), roomId) == ms
    decreases |ms|
  {
    if ms != [] {
      var init := ms[..|ms| - 1];
      var before := JoinAllInto(roomId, init);
      JoinsKeepOrder(roomId, init);
      assert JoinAllInto(roomId, ms) == AfterJoin(before, roomId, ms[|ms| - 1]);
      assert ListOf(AfterJoin(before, roomId, ms[|ms| - 1]), roomId) == ListOf(before, roomId) + [ms[|ms| - 1]];
      assert init + [ms[|ms| - 1]] == ms;
    }
  }

  /**
   * When every joiner has a socket id of its own, the snapshot the n-th
   * joiner receives is exactly the sockets that joined before it, in join
   * order, and never the joiner itself.
   */
  lemma JoinSnapshotIsPredecessors(roomId: RoomId, ms: seq<Member>, n: nat)
    requires forall i, j :: 0 <= i < j < |ms| ==> ms[i].socketId != ms[j].socketId
    requires n < |ms|
    ensures Others(ListOf(JoinAllInto(roomId, ms[..n]), roomId), ms[n].socketId) == ms[..n]
  {
    JoinsKeepOrder(roomId, ms[..n]);
    assert !HasEntry(ms[..n], ms[n].socketId) by {
      forall i | 0 <= i < n ensures ms[..n][i].socketId != ms[n].socketId {
        assert ms[..n][i] == ms[i];
      }
    }
    OthersOfFresh(ms[..n], ms[n].socketId);
  }

  // ---------------------------------------------------------------------
  // Disconnect

  lemma {:induction false} CountAppend(a: seq<Member>, b: seq<Member>, sid: SocketId)
    ensures Count(a + b, sid) == Count(a, sid) + Count(b, sid)
    decreases |a|
  {
    if a == [] {
      assert a + b == b;
    } else {
      assert (a + b)[0] == a[0];
      assert (a + b)[1..] == a[1..] + b;
      CountAppend(a[1..], b, sid);
    }
  }

  lemma {:induction false} CountPositive(list: seq<Member>, sid: SocketId)
    ensures Count(list, sid) > 0 <==> HasEntry(list, sid)
    decreases |list|
  {
    if list != [] {
      CountPositive(list[1..], sid);
      if HasEntry(list, sid) && list[0].socketId != sid {
        var i :| 0 <= i < |list| && list[i].socketId == sid;
        assert list[1..][i - 1] == list[i];
      }
      if HasEntry(list[1..], sid) {
        var i :| 0 <= i < |list[1..]| && list[1..][i].socketId == sid;
        assert list[i + 1] == list[1..][i];
      }
    }
  }

  /** Splicing out the entry at `k` removes exactly that entry from the count. */
  lemma RemoveAtCount(list: seq<Member>, k: nat, sid: SocketId)
    requires k < |list|
    ensures Count(RemoveAt(list, k), sid) + (if list[k].socketId == sid then 1 else 0) == Count(list, sid)
  {
    var front, rest, back := list[..k], list[k..], list[k + 1..];
    assert list == front + rest;
    assert rest[1..] == back;
    CountAppend(front, rest, sid);
    CountAppend(front, back, sid);
  }

  /** Splicing out the first entry of `sid` removes exactly one of its entries. */
  lemma RemoveFirstCount(list: seq<Member>, sid: SocketId)
    requires HasEntry(list, sid)
    ensures Count(RemoveFirst(list, sid), sid) == Count(list, sid) - 1
  {
    RemoveAtCount(list, FirstIndex(list, sid), sid);
  }

  /**
   * A disconnect that finds `sid` in room `r` takes exactly one of its
   * entries out of `r`, one entry shorter, and leaves every other room and
   * the set of rooms as they were; one that finds nothing changes nothing.
   */
  lemma DisconnectRemovesOne(order: seq<RoomId>, reg: Lists, sid: SocketId)
    ensures Lookup(order, reg, sid).None? ==> AfterLeave(order, reg, sid) == reg
    ensures Lookup(order, reg, sid).Some? ==>
      var r := Lookup(order, reg, sid).value;
      && AfterLeave(order, reg, sid).Keys == reg.Keys
      && |AfterLeave(order, reg, sid)[r]| == |reg[r]| - 1
      && Count(AfterLeave(order, reg, sid)[r], sid) == Count(reg[r], sid) - 1
      && SplicesFirst(reg[r], sid, AfterLeave(order, reg, sid)[r])
      && (forall k :: k in reg && k != r ==> AfterLeave(order, reg, sid)[k] == reg[k])
  {
    if Lookup(order, reg, sid).Some? {
      RemoveFirstCount(reg[Lookup(order, reg, sid).value], sid);
      RemoveFirstSplicesFirst(reg[Lookup(order, reg, sid).value], sid);
    }
  }

  /** When only room `k` holds `sid`, the disconnect scan finds `k`. */
  lemma {:induction false} LookupOnly(order: seq<RoomId>, reg: Lists, sid: SocketId, k: RoomId)
    requires k in order && k in reg && HasEntry(reg[k], sid)
    requires forall k' :: k' in reg && k' != k ==> !HasEntry(reg[k'], sid)
    ensures Lookup(order, reg, sid) == Some(k)
  {
    if order[0] != k {
      LookupOnly(order[1..], reg, sid, k);
    }
  }

  /** A disconnect scan that visits `roomId` undoes a join there of a socket with no other entry. */
  lemma LeaveUndoesFreshJoin(scan: seq<RoomId>, reg: Lists, roomId: RoomId, m: Member)
    requires roomId in scan
    requires Absent(reg, m.socketId)
    ensures AfterLeave(scan, AfterJoin(reg, roomId, m), m.socketId) == reg[roomId := ListOf(reg, roomId)]
  {
    var sid := m.socketId;
    var reg' := AfterJoin(reg, roomId, m);
    var old_ := ListOf(reg, roomId);
    assert HasEntry(reg'[roomId], sid) by {
      assert reg'[roomId][|old_|] == m;
    }
    assert forall k' :: k' in reg' && k' != roomId ==> !HasEntry(reg'[k'], sid);
    LookupOnly(scan, reg', sid, roomId);
    assert !HasEntry(old_, sid);
    assert FirstIndex(old_ + [m], sid) == |old_|;
    assert RemoveAt(old_ + [m], |old_|) == old_;
  }

  /**
   * Join followed by disconnect of a socket that had no entry anywhere
   * gives back the registry it started from, except that a room list the
   * join created stays behind, empty.
   */
  lemma JoinLeaveRoundTrip(order: seq<RoomId>, reg: Lists, roomId: RoomId, m: Member)
    requires RegistryValid(order, reg)
    requires Absent(reg, m.socketId)
    ensures AfterLeave(ScanOrder(JoinOrder(order, reg, roomId)), AfterJoin(reg, roomId, m), m.socketId)
         == reg[roomId := ListOf(reg, roomId)]
  {
    var joined := JoinOrder(order, reg, roomId);
    assert RegistryValid(joined, reg[roomId := ListOf(reg, roomId)]);
    assert roomId in multiset(joined);
    assert roomId in multiset(ScanOrder(joined));
    LeaveUndoesFreshJoin(ScanOrder(joined), reg, roomId, m);
  }

  /**
   * A socket with at most one entry in the registry has none after its
   * disconnect, so a second disconnect finds nothing (and so notifies
   * nobody and changes nothing).
   */
  lemma SecondDisconnectFindsNothing(order: seq<RoomId>, reg: Lists, sid: SocketId)
    requires RegistryValid(order, reg)
    requires AtMostOnce(reg, sid)
    ensures Lookup(order, AfterLeave(order, reg, sid), sid) == None
    ensures AfterLeave(order, AfterLeave(order, reg, sid), sid) == AfterLeave(order, reg, sid)
  {
    var reg' := AfterLeave(order, reg, sid);
    match Lookup(order, reg, sid)
    case None =>
    case Some(r) =>
      RemoveFirstCount(reg[r], sid);
      CountPositive(reg[r], sid);
      CountPositive(reg'[r], sid);
      assert !HasEntry(reg'[r], sid);
      assert forall k :: k in reg' ==> !HasEntry(reg'[k], sid);
  }
}
