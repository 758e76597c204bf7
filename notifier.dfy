/** The subscription registry and transaction dispatcher of notifier.js.
    A ledger address maps to the set of timeline tokens subscribed to it; every
    transaction is fanned out to the tokens of each affected account, and a
    token receives a timeline item only for a successful incoming Payment. */
module Notifier {

  datatype Option<T> = None | Some(value: T)

  /** A ledger account identifier, used as a key of the registry. */
  type Address = string
  /** An access credential for a recipient's timeline. */
  type Token = string
  /** The registry: address -> the tokens subscribed to it. */
  type Subscriptions = map<Address, set<Token>>

  /** The parts of a transaction message that the dispatcher looks at.
      `affected` is what the ledger library computes from the metadata;
      `amountHuman` and `amountCurrency` are the library's rendering of the
      amount. All three are taken as given. */
  datatype Transaction = Transaction(
    engineResult: string,
    transactionType: string,
    destination: Option<Address>,
    amountHuman: string,
    amountCurrency: string,
    affected: seq<Address>)

  datatype MenuItem = MenuItem(action: string)
  datatype Item = Item(text: string, menuItems: seq<MenuItem>)

  /** An item handed off to the timeline sender for one token. */
  datatype Handoff = Handoff(token: Token, item: Item)

  /** One call of notifyTransaction(token, account, msg) made by the fan-out. */
  datatype Call = Call(token: Token, account: Address)

  // ---------------------------------------------------------------------------
  // Registry

  /** `token` is subscribed to `address`. */
  predicate Subscribed(subs: Subscriptions, address: Address, token: Token) {
    address in subs && token in subs[address]
  }

  /** The tokens of `address`; none when the address has no entry. */
  function TokensOf(subs: Subscriptions, address: Address): set<Token> {
    if address in subs then subs[address] else {}
  }

  /** The registry after subscribe(address, token): an entry is created when
      missing, and the token is added to it. */
  function WithSubscription(subs: Subscriptions, address: Address, token: Token): (r: Subscriptions)
    ensures Subscribed(r, address, token)
    ensures forall a, t :: Subscribed(r, a, t) <==> Subscribed(subs, a, t) || (a == address && t == token)
    ensures r.Keys == subs.Keys + {address}
  {
    subs[address := TokensOf(subs, address) + {token}]
  }

  /** The registry after unsubscribe(address, token): nothing happens for an
      address without an entry; otherwise the token is dropped and the entry,
      possibly empty, stays. */
  function WithoutSubscription(subs: Subscriptions, address: Address, token: Token): (r: Subscriptions)
    ensures !Subscribed(r, address, token)
    ensures forall a, t :: Subscribed(r, a, t) <==> Subscribed(subs, a, t) && !(a == address && t == token)
    ensures r.Keys == subs.Keys
    ensures address !in subs ==> r == subs
  {
    if address !in subs then subs else subs[address := subs[address] - {token}]
  }

  /** Subscribing a pair that is already present changes nothing. */
  lemma SubscribeExisting(subs: Subscriptions, address: Address, token: Token)
    requires Subscribed(subs, address, token)
    ensures WithSubscription(subs, address, token) == subs
  {
    assert subs[address] + {token} == subs[address];
  }

  /** subscribe is idempotent: a second identical call leaves the state as the first left it. */
  lemma SubscribeIdempotent(subs: Subscriptions, address: Address, token: Token)
    ensures WithSubscription(WithSubscription(subs, address, token), address, token) == WithSubscription(subs, address, token)
  {
    SubscribeExisting(WithSubscription(subs, address, token), address, token);
  }

  /** subscribe leaves every other address's set, and every other token under
      `address`, as it was. */
  lemma SubscribeFrame(subs: Subscriptions, address: Address, token: Token)
    ensures forall a :: a in subs && a != address ==> WithSubscription(subs, address, token)[a] == subs[a]
    ensures WithSubscription(subs, address, token)[address] - {token} == TokensOf(subs, address) - {token}
  {
  }

  /** Unsubscribing a pair that is absent from an existing entry changes nothing. */
  lemma UnsubscribeAbsent(subs: Subscriptions, address: Address, token: Token)
    requires !Subscribed(subs, address, token)
    ensures WithoutSubscription(subs, address, token) == subs
  {
    if address in subs {
      assert subs[address] - {token} == subs[address];
    }
  }

  // ---------------------------------------------------------------------------
  // Classification

  /** The transaction is a successful Payment whose destination is `address`. */
  predicate ReceivedBy(msg: Transaction, address: Address) {
    msg.engineResult == "tesSUCCESS" && msg.transactionType == "Payment" && msg.destination == Some(address)
  }

  /** The timeline item built for a received payment. */
  function ReceivedItem(msg: Transaction): Item {
    Item("You received " + msg.amountHuman + " " + msg.amountCurrency, [MenuItem("DELETE")])
  }

  /** notifyTransaction(token, address, msg): the item handed off, if any. */
  function NotifyTransaction(token: Token, address: Address, msg: Transaction): (r: Option<Handoff>)
    ensures msg.engineResult != "tesSUCCESS" ==> r == None
    ensures r.Some? <==> ReceivedBy(msg, address)
    ensures r.Some? ==> r.value.token == token
    ensures r.Some? ==> r.value.item.text == "You received " + msg.amountHuman + " " + msg.amountCurrency
    ensures r.Some? ==> r.value.item.menuItems == [MenuItem("DELETE")]
  {
    if msg.engineResult != "tesSUCCESS" then None
    else if msg.transactionType == "Payment" && msg.destination == Some(address) then
      Some(Handoff(token, ReceivedItem(msg)))
    else None
  }

  /** A successful transaction that does not credit `address` (a non-Payment,
      or a Payment for which `address` is only the source) gives no item. */
  lemma NotCreditedGivesNothing(token: Token, address: Address, msg: Transaction)
    requires msg.engineResult == "tesSUCCESS"
    requires !ReceivedBy(msg, address)
    ensures NotifyTransaction(token, address, msg) == None
  {
  }

  // ---------------------------------------------------------------------------
  // Fan-out

  /** The calls that one account contributes: one per token subscribed to it. */
  function AccountCalls(subs: Subscriptions, account: Address): set<Call> {
    set t | t in TokensOf(subs, account) :: Call(t, account)
  }

  /** `s` lists every element of `c` exactly once, and nothing else. */
  ghost predicate Enumerates(s: seq<Call>, c: set<Call>) {
    (forall i, j :: 0 <= i < j < |s| ==> s[i] != s[j]) && (forall x :: x in s <==> x in c)
  }

  /** The concatenation of the blocks, in order. */
  function Flatten(blocks: seq<seq<Call>>): seq<Call>
  {
    if blocks == [] then [] else Flatten(blocks[..|blocks| - 1]) + blocks[|blocks| - 1]
  }

  /** The handoffs that the calls produce, in call order. */
  function Deliveries(calls: seq<Call>, msg: Transaction): seq<Handoff>
  {
    if calls == [] then []
    else
      var last := calls[|calls| - 1];
      Deliveries(calls[..|calls| - 1], msg) +
        match NotifyTransaction(last.token, last.account, msg)
        case Some(h) => [h]
        case None => []
  }

  /** The handoffs of consecutive runs of calls are consecutive. */
  lemma {:induction false} DeliveriesAppend(a: seq<Call>, b: seq<Call>, msg: Transaction)
    ensures Deliveries(a + b, msg) == Deliveries(a, msg) + Deliveries(b, msg)
  {
    if b == [] {
      assert a + b == a;
    } else {
      var init := b[..|b| - 1];
      DeliveriesAppend(a, init, msg);
      assert (a + b)[..|a + b| - 1] == a + init;
      assert (a + b)[|a + b| - 1] == b[|b| - 1];
    }
  }

  /** `calls` is a fan-out of `affected` over `subs`, split into `blocks`:
      one block per affected account, in list order, each listing that
      account's calls exactly once in some order. */
  ghost predicate FanOutOf(subs: Subscriptions, affected: seq<Address>, calls: seq<Call>, blocks: seq<seq<Call>>) {
    && |blocks| == |affected|
    && (forall i :: 0 <= i < |blocks| ==> Enumerates(blocks[i], AccountCalls(subs, affected[i])))
    && calls == Flatten(blocks)
  }

  /** A call is in the concatenation exactly when it is in one of the blocks. */
  lemma {:induction false} FlattenMembership(blocks: seq<seq<Call>>, c: Call)
    ensures c in Flatten(blocks) <==> exists i :: 0 <= i < |blocks| && c in blocks[i]
  {
    if blocks != [] {
      var init := blocks[..|blocks| - 1];
      FlattenMembership(init, c);
      if c in Flatten(blocks) {
        if c !in blocks[|blocks| - 1] {
          var i :| 0 <= i < |init| && c in init[i];
          assert blocks[i] == init[i];
        }
      } else {
        forall i | 0 <= i < |blocks| ensures c !in blocks[i] {
          if i < |init| {
            assert blocks[i] == init[i];
          }
        }
      }
    }
  }

  /** A handoff is delivered exactly when some call produces it. */
  lemma {:induction false} DeliveriesMembership(calls: seq<Call>, msg: Transaction, h: Handoff)
    ensures h in Deliveries(calls, msg) <==>
      exists k :: 0 <= k < |calls| && NotifyTransaction(calls[k].token, calls[k].account, msg) == Some(h)
  {
    if calls != [] {
      var init := calls[..|calls| - 1];
      DeliveriesMembership(init, msg, h);
      var last := calls[|calls| - 1];
      if h in Deliveries(calls, msg) {
        if NotifyTransaction(last.token, last.account, msg) != Some(h) {
          var k :| 0 <= k < |init| && NotifyTransaction(init[k].token, init[k].account, msg) == Some(h);
          assert calls[k] == init[k];
        }
      } else {
        forall k | 0 <= k < |calls| ensures NotifyTransaction(calls[k].token, calls[k].account, msg) != Some(h) {
          if k < |init| {
            assert calls[k] == init[k];
          }
        }
      }
    }
  }

  /** A transaction that failed, or is not a Payment, delivers nothing,
      whatever calls the fan-out makes. */
  lemma {:induction false} DroppedTransactionDeliversNothing(calls: seq<Call>, msg: Transaction)
    requires msg.engineResult != "tesSUCCESS" || msg.transactionType != "Payment"
    ensures Deliveries(calls, msg) == []
  {
    if calls != [] {
      DroppedTransactionDeliversNothing(calls[..|calls| - 1], msg);
    }
  }

  /** What the dispatcher delivers for `msg`: every token subscribed to the
      destination of a successful Payment, when the destination is among the
      affected accounts, receives the received-payment item. */
  ghost predicate Delivered(subs: Subscriptions, msg: Transaction, h: Handoff) {
    && msg.destination.Some?
    && ReceivedBy(msg, msg.destination.value)
    && msg.destination.value in msg.affected
    && Subscribed(subs, msg.destination.value, h.token)
    && h.item == ReceivedItem(msg)
  }

  /** Fan-out correctness: the handoffs of any fan-out of a transaction are
      exactly those that Delivered describes. */
  lemma FanOutDeliveries(subs: Subscriptions, msg: Transaction, calls: seq<Call>, blocks: seq<seq<Call>>, h: Handoff)
    requires FanOutOf(subs, msg.affected, calls, blocks)
    ensures h in Deliveries(calls, msg) <==> Delivered(subs, msg, h)
  {
    DeliveriesMembership(calls, msg, h);
    if h in Deliveries(calls, msg) {
      var k :| 0 <= k < |calls| && NotifyTransaction(calls[k].token, calls[k].account, msg) == Some(h);
      var c := calls[k];
      FlattenMembership(blocks, c);
      var i :| 0 <= i < |blocks| && c in blocks[i];
      assert c in AccountCalls(subs, msg.affected[i]);
      assert c.account == msg.affected[i];
    }
    if Delivered(subs, msg, h) {
      var dest := msg.destination.value;
      var i :| 0 <= i < |msg.affected| && msg.affected[i] == dest;
      var c := Call(h.token, dest);
      assert c in AccountCalls(subs, msg.affected[i]);
      assert c in blocks[i];
      FlattenMembership(blocks, c);
      var k :| 0 <= k < |calls| && calls[k] == c;
      assert NotifyTransaction(calls[k].token, calls[k].account, msg) == Some(h);
    }
  }

  /** A sequence without repetitions has as many elements as its set. */
  lemma {:induction false} DistinctCardinality(s: seq<Call>)
    requires forall i, j :: 0 <= i < j < |s| ==> s[i] != s[j]
    ensures |set x | x in s| == |s|
  {
    if s != [] {
      var init, last := s[..|s| - 1], s[|s| - 1];
      DistinctCardinality(init);
      assert (set x | x in s) == (set x | x in init) + {last};
      forall x | x in init ensures x != last {
        var k :| 0 <= k < |init| && init[k] == x;
        assert s[k] == x;
      }
    }
  }

  /** An enumeration of a set has exactly the set's size. */
  lemma EnumerationSize(s: seq<Call>, c: set<Call>)
    requires Enumerates(s, c)
    ensures |s| == |c|
  {
    DistinctCardinality(s);
    assert (set x | x in s) == c;
  }

  /** Calls to one account for distinct tokens are distinct, so there are as
      many calls as tokens. */
  lemma {:induction false} CallsForTokensSize(ts: set<Token>, account: Address)
    ensures |set t | t in ts :: Call(t, account)| == |ts|
    decreases ts
  {
    if ts != {} {
      var t :| t in ts;
      var rest := ts - {t};
      CallsForTokensSize(rest, account);
      assert (set u | u in ts :: Call(u, account)) == (set u | u in rest :: Call(u, account)) + {Call(t, account)};
      assert Call(t, account) !in (set u | u in rest :: Call(u, account));
    }
  }

  /** The calls made for one account are exactly as many as its subscribed tokens. */
  lemma AccountBlockSize(s: seq<Call>, subs: Subscriptions, account: Address)
    requires Enumerates(s, AccountCalls(subs, account))
    ensures |s| == |TokensOf(subs, account)|
  {
    EnumerationSize(s, AccountCalls(subs, account));
    CallsForTokensSize(TokensOf(subs, account), account);
  }

  /** With a single token t subscribed to a single address a, a transaction
      affecting another address and then a makes exactly the call (t, a). */
  lemma SingleSubscriptionFanOut(a: Address, t: Token, other: Address, calls: seq<Call>, blocks: seq<seq<Call>>)
    requires other != a
    requires FanOutOf(map[a := {t}], [other, a], calls, blocks)
    ensures calls == [Call(t, a)]
  {
    var subs := map[a := {t}];
    assert AccountCalls(subs, other) == {};
    EnumerationSize(blocks[0], {});
    assert AccountCalls(subs, a) == {Call(t, a)};
    EnumerationSize(blocks[1], {Call(t, a)});
    assert blocks[1][0] in blocks[1];
    assert blocks[..1][..0] == [];
    assert Flatten(blocks[..1]) == blocks[0];
  }

  /** Scenario: with "U1" subscribed to rAlice, a successful Payment of 10 USD
      from rBob to rAlice hands exactly one item to "U1", whatever order the
      fan-out uses. */
  lemma PaymentToAliceScenario(calls: seq<Call>, blocks: seq<seq<Call>>)
    requires FanOutOf(map["rAlice" := {"U1"}], ["rBob", "rAlice"], calls, blocks)
    ensures Deliveries(calls, Transaction("tesSUCCESS", "Payment", Some("rAlice"), "10", "USD", ["rBob", "rAlice"]))
      == [Handoff("U1", Item("You received 10 USD", [MenuItem("DELETE")]))]
  {
    assert "rBob"[1] != "rAlice"[1];
    SingleSubscriptionFanOut("rAlice", "U1", "rBob", calls, blocks);
    assert calls[..0] == [];
    assert "You received " + "10" + " " + "USD" == "You received 10 USD";
  }

  // ---------------------------------------------------------------------------
  // The notifier object

  class Notifier {
    var subscriptions: Subscriptions

    /** A fresh notifier has no subscriptions. */
    constructor ()
      ensures subscriptions == map[]
    {
      subscriptions := map[];
    }

    method Subscribe(address: Address, token: Token)
      modifies this
      ensures subscriptions == WithSubscription(old(subscriptions), address, token)
    {
      if address !in subscriptions {
        subscriptions := subscriptions[address := {}];
      }
      subscriptions := subscriptions[address := subscriptions[address] + {token}];
    }

    method Unsubscribe(address: Address, token: Token)
      modifies this
      ensures subscriptions == WithoutSubscription(old(subscriptions), address, token)
    {
      if address !in subscriptions {
        return;
      }
      subscriptions := subscriptions[address := subscriptions[address] - {token}];
    }

    /** handleTransaction(msg): for each affected account in order, one
        notifyTransaction call per token subscribed to it. Returns the calls
        made and the items handed off; `blocks` splits the calls by account. */
    method HandleTransaction(msg: Transaction) returns (calls: seq<Call>, handoffs: seq<Handoff>, ghost blocks: seq<seq<Call>>)
      ensures FanOutOf(subscriptions, msg.affected, calls, blocks)
      ensures handoffs == Deliveries(calls, msg)
    {
      calls, handoffs, blocks := [], [], [];
      var i := 0;
      while i < |msg.affected|
        invariant 0 <= i <= |msg.affected|
        invariant |blocks| == i
        invariant forall k :: 0 <= k < i ==> Enumerates(blocks[k], AccountCalls(subscriptions, msg.affected[k]))
        invariant calls == Flatten(blocks)
        invariant handoffs == Deliveries(calls, msg)
      {
        var block, delivered := NotifyAccount(msg.affected[i], msg);
        DeliveriesAppend(calls, block, msg);
        assert (blocks + [block])[..|blocks|] == blocks;
        blocks := blocks + [block];
        calls := calls + block;
        handoffs := handoffs + delivered;
        i := i + 1;
      }
    }

    /** The inner loop of handleTransaction for one affected account: one
        notifyTransaction call per token of its entry, none without an entry. */
    method NotifyAccount(account: Address, msg: Transaction) returns (block: seq<Call>, delivered: seq<Handoff>)
      ensures Enumerates(block, AccountCalls(subscriptions, account))
      ensures |block| == |TokensOf(subscriptions, account)|
      ensures delivered == Deliveries(block, msg)
    {
      block, delivered := [], [];
      if account in subscriptions {
        var pending := subscriptions[account];
        while pending != {}
          invariant pending <= subscriptions[account]
          invariant forall j, k :: 0 <= j < k < |block| ==> block[j] != block[k]
          invariant forall x :: x in block <==> x in AccountCalls(subscriptions, account) && x.token !in pending
          invariant delivered == Deliveries(block, msg)
          decreases pending
        {
          var token :| token in pending;
          var call := Call(token, account);
          assert (block + [call])[..|block|] == block;
          block := block + [call];
          var h := NotifyTransaction(token, account, msg);
          if h.Some? {
            delivered := delivered + [h.value];
          }
          pending := pending - {token};
        }
      }
      AccountBlockSize(block, subscriptions, account);
    }
  }
}
