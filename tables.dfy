/**
 * The backend state the handlers touch: the orders, messages and rewards
 * tables, and the auth identities (user id to password). Each table is a
 * sequence of rows; the storage operations the handlers issue (insert, update
 * by id, delete by owner) are the methods of `Backend`, each succeeding or
 * failing as an outcome the caller supplies.
 */
module Tables {
  import opened Wrappers

  type UserId = string

  datatype OrderStatus = Pending | Verified | Rejected

  datatype Order = Order(id: string, userId: UserId, orderNumber: string, source: string,
                         orderDate: string, receiptUrl: Option<string>, status: OrderStatus)

  datatype Role = FromUser | FromAdmin

  datatype Message = Message(userId: UserId, fromRole: Role, body: string)

  datatype RewardStatus = Claimed | Fulfilled

  datatype Reward = Reward(id: string, userId: UserId, status: RewardStatus, claimAddress: string)

  function OrderOwner(o: Order): UserId { o.userId }
  function MessageOwner(m: Message): UserId { m.userId }
  function RewardOwner(r: Reward): UserId { r.userId }

  // ---------------------------------------------------------------- queries and row updates

  predicate CountsFor(o: Order, uid: UserId)
  {
    o.userId == uid && o.status == Verified
  }

  /** `select * from orders where user_id = uid and status = 'verified'`, then `.length`. */
  function VerifiedCount(orders: seq<Order>, uid: UserId): (n: nat)
    ensures n <= |orders|
    ensures n == 0 <==> forall i :: 0 <= i < |orders| ==> !CountsFor(orders[i], uid)
  {
    if orders == [] then 0
    else
      var last := orders[|orders| - 1];
      var n := VerifiedCount(orders[..|orders| - 1], uid);
      assert forall i :: 0 <= i < |orders| - 1 ==> orders[..|orders| - 1][i] == orders[i];
      if CountsFor(last, uid) then n + 1 else n
  }

  /** The number of reward rows uid owns. */
  function RewardCount(rewards: seq<Reward>, uid: UserId): (n: nat)
    ensures n <= |rewards|
    ensures n == 0 <==> forall i :: 0 <= i < |rewards| ==> rewards[i].userId != uid
  {
    if rewards == [] then 0
    else
      var n := RewardCount(rewards[..|rewards| - 1], uid);
      assert forall i :: 0 <= i < |rewards| - 1 ==> rewards[..|rewards| - 1][i] == rewards[i];
      if rewards[|rewards| - 1].userId == uid then n + 1 else n
  }

  /**
   * `update table set … where …`: each matching row is rewritten, every other
   * row is kept, and no row moves, appears or disappears.
   */
  function UpdateWhere<R>(rows: seq<R>, matches: R -> bool, rewrite: R -> R): (updated: seq<R>)
    ensures |updated| == |rows|
    ensures forall i :: 0 <= i < |rows| && matches(rows[i]) ==> updated[i] == rewrite(rows[i])
    ensures forall i :: 0 <= i < |rows| && !matches(rows[i]) ==> updated[i] == rows[i]
  {
    seq(|rows|, i requires 0 <= i < |rows| => if matches(rows[i]) then rewrite(rows[i]) else rows[i])
  }

  /** `update orders set status = s where id = id`. */
  function SetOrderStatus(orders: seq<Order>, id: string, s: OrderStatus): seq<Order>
  {
    UpdateWhere(orders, (o: Order) => o.id == id, (o: Order) => o.(status := s))
  }

  /** `update rewards set status = s where id = id`. */
  function SetRewardStatus(rewards: seq<Reward>, id: string, s: RewardStatus): seq<Reward>
  {
    UpdateWhere(rewards, (r: Reward) => r.id == id, (r: Reward) => r.(status := s))
  }

  /** `delete from table where user_id = uid`: the rows of uid go, every other row stays. */
  function Without<T>(rows: seq<T>, owner: T -> UserId, uid: UserId): (kept: seq<T>)
    ensures forall r :: r in multiset(rows) && owner(r) == uid ==> multiset(kept)[r] == 0
    ensures forall r :: r in multiset(rows) && owner(r) != uid ==> multiset(kept)[r] == multiset(rows)[r]
    ensures multiset(kept) <= multiset(rows)
  {
    if rows == [] then []
    else
      assert rows == [rows[0]] + rows[1..];
      var rest := Without(rows[1..], owner, uid);
      if owner(rows[0]) == uid then rest else [rows[0]] + rest
  }

  // ---------------------------------------------------------------- the backend

  class Backend {
    var orders: seq<Order>
    var messages: seq<Message>
    var rewards: seq<Reward>
    var identities: map<UserId, string>

    constructor (orders: seq<Order>, messages: seq<Message>, rewards: seq<Reward>, identities: map<UserId, string>)
      ensures this.orders == orders && this.messages == messages
      ensures this.rewards == rewards && this.identities == identities
    {
      this.orders := orders;
      this.messages := messages;
      this.rewards := rewards;
      this.identities := identities;
    }

    /** Insert one order; on failure nothing is stored and the error is returned. */
    method InsertOrder(row: Order, failure: Option<string>) returns (error: Option<string>)
      modifies this
      ensures error == failure
      ensures orders == old(orders) + (if failure.None? then [row] else [])
      ensures messages == old(messages) && rewards == old(rewards) && identities == old(identities)
    {
      if failure.None? {
        orders := orders + [row];
      }
      error := failure;
    }

    /** Insert one message; on failure nothing is stored and the error is returned. */
    method InsertMessage(row: Message, failure: Option<string>) returns (error: Option<string>)
      modifies this
      ensures error == failure
      ensures messages == old(messages) + (if failure.None? then [row] else [])
      ensures orders == old(orders) && rewards == old(rewards) && identities == old(identities)
    {
      if failure.None? {
        messages := messages + [row];
      }
      error := failure;
    }

    /** Insert one reward; on failure nothing is stored and the error is returned. */
    method InsertReward(row: Reward, failure: Option<string>) returns (error: Option<string>)
      modifies this
      ensures error == failure
      ensures rewards == old(rewards) + (if failure.None? then [row] else [])
      ensures orders == old(orders) && messages == old(messages) && identities == old(identities)
    {
      if failure.None? {
        rewards := rewards + [row];
      }
      error := failure;
    }

    /** Set the status of the orders with this id. */
    method UpdateOrderStatus(id: string, s: OrderStatus, failure: Option<string>) returns (error: Option<string>)
      modifies this
      ensures error == failure
      ensures orders == if failure.None? then SetOrderStatus(old(orders), id, s) else old(orders)
      ensures messages == old(messages) && rewards == old(rewards) && identities == old(identities)
    {
      if failure.None? {
        orders := SetOrderStatus(orders, id, s);
      }
      error := failure;
    }

    /** Set the status of the rewards with this id. */
    method UpdateRewardStatus(id: string, s: RewardStatus, failure: Option<string>) returns (error: Option<string>)
      modifies this
      ensures error == failure
      ensures rewards == if failure.None? then SetRewardStatus(old(rewards), id, s) else old(rewards)
      ensures orders == old(orders) && messages == old(messages) && identities == old(identities)
    {
      if failure.None? {
        rewards := SetRewardStatus(rewards, id, s);
      }
      error := failure;
    }

    /** Delete the orders of uid. */
    method DeleteOrdersOf(uid: UserId, failure: Option<string>) returns (error: Option<string>)
      modifies this
      ensures error == failure
      ensures orders == if failure.None? then Without(old(orders), OrderOwner, uid) else old(orders)
      ensures messages == old(messages) && rewards == old(rewards) && identities == old(identities)
    {
      if failure.None? {
        orders := Without(orders, OrderOwner, uid);
      }
      error := failure;
    }

    /** Delete the messages of uid. */
    method DeleteMessagesOf(uid: UserId, failure: Option<string>) returns (error: Option<string>)
      modifies this
      ensures error == failure
      ensures messages == if failure.None? then Without(old(messages), MessageOwner, uid) else old(messages)
      ensures orders == old(orders) && rewards == old(rewards) && identities == old(identities)
    {
      if failure.None? {
        messages := Without(messages, MessageOwner, uid);
      }
      error := failure;
    }

    /** Delete the rewards of uid. */
    method DeleteRewardsOf(uid: UserId, failure: Option<string>) returns (error: Option<string>)
      modifies this
      ensures error == failure
      ensures rewards == if failure.None? then Without(old(rewards), RewardOwner, uid) else old(rewards)
      ensures orders == old(orders) && messages == old(messages) && identities == old(identities)
    {
      if failure.None? {
        rewards := Without(rewards, RewardOwner, uid);
      }
      error := failure;
    }

    /** `auth.admin.deleteUser(uid)`: the identity goes unless the backend refuses. */
    method DeleteIdentity(uid: UserId, failure: Option<string>) returns (error: Option<string>)
      modifies this
      ensures error == failure
      ensures identities == if failure.None? then old(identities) - {uid} else old(identities)
      ensures orders == old(orders) && messages == old(messages) && rewards == old(rewards)
    {
      if failure.None? {
        identities := identities - {uid};
      }
      error := failure;
    }

    /** `auth.updateUser({ password })` on behalf of uid. */
    method UpdatePassword(uid: UserId, password: string, failure: Option<string>) returns (error: Option<string>)
      modifies this
      ensures error == failure
      ensures identities == if failure.None? then old(identities)[uid := password] else old(identities)
      ensures orders == old(orders) && messages == old(messages) && rewards == old(rewards)
    {
      if failure.None? {
        identities := identities[uid := password];
      }
      error := failure;
    }
  }

  // ---------------------------------------------------------------- properties of the table operations

  /** One more row adds one to the count exactly when it is a verified order of uid. */
  lemma {:induction false} VerifiedCountAppend(orders: seq<Order>, row: Order, uid: UserId)
    ensures VerifiedCount(orders + [row], uid) == VerifiedCount(orders, uid) + (if CountsFor(row, uid) then 1 else 0)
  {
    assert (orders + [row])[..|orders|] == orders;
  }

  /** Submitting a pending order never changes anybody's verified count. */
  lemma PendingInsertKeepsCount(orders: seq<Order>, row: Order, uid: UserId)
    requires row.status == Pending
    ensures VerifiedCount(orders + [row], uid) == VerifiedCount(orders, uid)
  {
    VerifiedCountAppend(orders, row, uid);
  }

  /** A table whose rows count only where the other's rows do has no larger count. */
  lemma {:induction false} CountMonotone(more: seq<Order>, fewer: seq<Order>, uid: UserId)
    requires |more| == |fewer|
    requires forall i :: 0 <= i < |fewer| && CountsFor(fewer[i], uid) ==> CountsFor(more[i], uid)
    ensures VerifiedCount(fewer, uid) <= VerifiedCount(more, uid)
  {
    if more != [] {
      var n := |more| - 1;
      assert forall i :: 0 <= i < n ==> more[..n][i] == more[i] && fewer[..n][i] == fewer[i];
      CountMonotone(more[..n], fewer[..n], uid);
    }
  }

  /** Rejecting orders never raises a verified count. */
  lemma RejectNeverRaisesCount(orders: seq<Order>, id: string, uid: UserId)
    ensures VerifiedCount(SetOrderStatus(orders, id, Rejected), uid) <= VerifiedCount(orders, uid)
  {
    CountMonotone(orders, SetOrderStatus(orders, id, Rejected), uid);
  }

  /** After the user's orders are deleted the user has no verified order left. */
  lemma DeletedOrdersCountZero(orders: seq<Order>, uid: UserId)
    ensures VerifiedCount(Without(orders, OrderOwner, uid), uid) == 0
  {
    var kept := Without(orders, OrderOwner, uid);
    forall i | 0 <= i < |kept| ensures !CountsFor(kept[i], uid) {
      assert kept[i] in multiset(kept);
    }
  }

  /**
   * An update whose rewrite keeps rows matching and is itself idempotent (as
   * setting a column to a constant is) gives the same table when run twice.
   */
  lemma UpdateTwiceIsOnce<R>(rows: seq<R>, matches: R -> bool, rewrite: R -> R)
    requires forall r :: matches(r) ==> matches(rewrite(r)) && rewrite(rewrite(r)) == rewrite(r)
    ensures UpdateWhere(UpdateWhere(rows, matches, rewrite), matches, rewrite) == UpdateWhere(rows, matches, rewrite)
  {
  }

  /** Setting the same reward status twice is the same as setting it once. */
  lemma RewardStatusIdempotent(rewards: seq<Reward>, id: string, s: RewardStatus)
    ensures SetRewardStatus(SetRewardStatus(rewards, id, s), id, s) == SetRewardStatus(rewards, id, s)
  {
    UpdateTwiceIsOnce(rewards, (r: Reward) => r.id == id, (r: Reward) => r.(status := s));
  }

  /** An update that matches no row leaves the table as it was. */
  lemma NoMatchNoChange<R>(rows: seq<R>, matches: R -> bool, rewrite: R -> R)
    requires forall i :: 0 <= i < |rows| ==> !matches(rows[i])
    ensures UpdateWhere(rows, matches, rewrite) == rows
  {
  }

  /** One more reward row adds one to the owner's count and nothing to anybody else's. */
  lemma {:induction false} RewardCountAppend(rewards: seq<Reward>, row: Reward, uid: UserId)
    ensures RewardCount(rewards + [row], uid) == RewardCount(rewards, uid) + (if row.userId == uid then 1 else 0)
  {
    assert (rewards + [row])[..|rewards|] == rewards;
  }

  /** Deleting one user's rows leaves another user's verified count alone. */
  lemma {:induction false} DeleteKeepsOthersCount(orders: seq<Order>, uid: UserId, other: UserId)
    requires other != uid
    ensures VerifiedCount(Without(orders, OrderOwner, uid), other) == VerifiedCount(orders, other)
  {
    if orders != [] {
      DeleteKeepsOthersCount(orders[1..], uid, other);
      CountPrepend(orders[1..], orders[0], other);
      CountPrepend(Without(orders[1..], OrderOwner, uid), orders[0], other);
      assert orders == [orders[0]] + orders[1..];
    }
  }

  lemma {:induction false} CountPrepend(orders: seq<Order>, row: Order, uid: UserId)
    ensures VerifiedCount([row] + orders, uid) == VerifiedCount(orders, uid) + (if CountsFor(row, uid) then 1 else 0)
  {
    if orders != [] {
      var init := orders[..|orders| - 1];
      var last := orders[|orders| - 1];
      CountPrepend(init, row, uid);
      assert ([row] + orders)[..|orders|] == [row] + init;
      assert ([row] + orders)[|orders|] == last;
    } else {
      VerifiedCountAppend([], row, uid);
    }
  }
}
