/** The registry bookkeeping of app.js over an abstract token table: the
    startup replay of the stored rows, the address rebinding of
    POST /settings/address, and the signup insert. */
module App {
  import opened Notifier

  /** The token table: token -> stored address; "" until an address is set. */
  type Table = map<Token, Address>

  /** One row of the `tokens` table. */
  datatype Row = Row(token: Token, address: Address)

  /** What the table scan hands to its row callback: a row or an error. */
  datatype RowResult = RowError | RowOk(row: Row)

  /** The reply of a request handler: success, an error reply with its status
      code and message, or an exception thrown out of the handler. */
  datatype Response = Done | Failed(status: nat, error: string) | Thrown(message: string)

  /** The registry and the table together. */
  datatype State = State(subscriptions: Subscriptions, tokens: Table)

  // ---------------------------------------------------------------------------
  // Startup replay

  /** The row callback of the startup scan: rows with an error or an empty
      address are skipped, every other row is subscribed. */
  function ReplayRow(subs: Subscriptions, r: RowResult): (r': Subscriptions)
    ensures r.RowError? || r.row.address == "" ==> r' == subs
    ensures forall a, t :: Subscribed(r', a, t) <==>
      Subscribed(subs, a, t) || (r.RowOk? && r.row.address != "" && a == r.row.address && t == r.row.token)
  {
    if r.RowOk? && r.row.address != "" then WithSubscription(subs, r.row.address, r.row.token) else subs
  }

  /** The non-empty addresses of the rows delivered without error. */
  function NonEmptyAddresses(rows: seq<RowResult>): set<Address> {
    set k | 0 <= k < |rows| && rows[k].RowOk? && rows[k].row.address != "" :: rows[k].row.address
  }

  /** The registry after the row callback has run on every row, in order: an
      entry exists afterwards for every non-empty address a row carries. */
  function Replayed(subs: Subscriptions, rows: seq<RowResult>): (r: Subscriptions)
    ensures r.Keys == subs.Keys + NonEmptyAddresses(rows)
  {
    if rows == [] then subs else ReplayRow(Replayed(subs, rows[..|rows| - 1]), rows[|rows| - 1])
  }

  /** After replay a pair is subscribed exactly when it was before, or some
      row without error carries it with a non-empty address. */
  lemma {:induction false} ReplayMembership(subs: Subscriptions, rows: seq<RowResult>, a: Address, t: Token)
    ensures Subscribed(Replayed(subs, rows), a, t) <==> Subscribed(subs, a, t) || (a != "" && RowOk(Row(t, a)) in rows)
  {
    if rows != [] {
      var init := rows[..|rows| - 1];
      ReplayMembership(subs, init, a, t);
      assert rows == init + [rows[|rows| - 1]];
    }
  }

  /** `rows` is what a scan of `table` delivers: every row without error is
      an entry of the table, and every entry of the table comes as a row. */
  ghost predicate Lists(rows: seq<RowResult>, table: Table) {
    && (forall i :: 0 <= i < |rows| && rows[i].RowOk? ==> rows[i].row.token in table && table[rows[i].row.token] == rows[i].row.address)
    && (forall t :: t in table ==> RowOk(Row(t, table[t])) in rows)
  }

  /** The registry holds exactly the pairs of the table whose address is set. */
  ghost predicate Consistent(subs: Subscriptions, table: Table) {
    forall a, t :: Subscribed(subs, a, t) <==> t in table && table[t] == a && a != ""
  }

  /** Replaying a scan of the table into an empty registry yields exactly the
      table's pairs with a non-empty address. */
  lemma ReplayTable(rows: seq<RowResult>, table: Table)
    requires Lists(rows, table)
    ensures Consistent(Replayed(map[], rows), table)
  {
    forall a, t ensures Subscribed(Replayed(map[], rows), a, t) <==> t in table && table[t] == a && a != "" {
      ReplayMembership(map[], rows, a, t);
      if a != "" && RowOk(Row(t, a)) in rows {
        var i :| 0 <= i < |rows| && rows[i] == RowOk(Row(t, a));
      }
    }
  }

  // ---------------------------------------------------------------------------
  // POST /settings/address

  /** The handler of POST /settings/address. `parsed` is the validated and
      normalised address, None when validation fails. */
  function SetAddress(st: State, parsed: Option<Address>, token: Token): (r: (State, Response))
    ensures parsed.None? ==> r == (st, Thrown("Invalid address!"))
    ensures parsed.Some? && token !in st.tokens ==> r == (st, Failed(500, "Unknown token"))
    ensures parsed.Some? && token in st.tokens ==> r.1 == Done
  {
    match parsed
    case None => (st, Thrown("Invalid address!"))
    case Some(address) =>
      if token !in st.tokens then (st, Failed(500, "Unknown token"))
      else
        var subs := WithoutSubscription(st.subscriptions, st.tokens[token], token);
        (State(WithSubscription(subs, address, token), st.tokens[token := address]), Done)
  }

  /** Rebinding a known token moves it: it is subscribed under the new
      address, no longer under the old one (when they differ), and the table
      maps it to the new address. */
  lemma RebindMoves(st: State, address: Address, token: Token)
    requires token in st.tokens
    ensures var st' := SetAddress(st, Some(address), token).0;
      && Subscribed(st'.subscriptions, address, token)
      && (st.tokens[token] != address ==> !Subscribed(st'.subscriptions, st.tokens[token], token))
      && st'.tokens == st.tokens[token := address]
  {
  }

  /** Rebinding one token leaves the subscriptions of every other token, and
      its subscriptions under addresses other than the old and new one, as
      they were. */
  lemma RebindFrame(st: State, address: Address, token: Token, a: Address, t: Token)
    requires token in st.tokens
    requires t != token || (a != address && a != st.tokens[token])
    ensures Subscribed(SetAddress(st, Some(address), token).0.subscriptions, a, t) <==> Subscribed(st.subscriptions, a, t)
  {
  }

  /** The first rebind of a freshly signed-up token (stored address "") has
      the new subscription as its only registry change, provided nothing is
      subscribed under "". */
  lemma FirstRebind(st: State, address: Address, token: Token)
    requires token in st.tokens && st.tokens[token] == ""
    requires !Subscribed(st.subscriptions, "", token)
    ensures SetAddress(st, Some(address), token).0.subscriptions == WithSubscription(st.subscriptions, address, token)
  {
    UnsubscribeAbsent(st.subscriptions, "", token);
  }

  /** A rebind to a non-empty address keeps the registry and table consistent. */
  lemma RebindKeepsConsistent(st: State, parsed: Option<Address>, token: Token)
    requires Consistent(st.subscriptions, st.tokens)
    requires parsed.Some? ==> parsed.value != ""
    ensures var st' := SetAddress(st, parsed, token).0; Consistent(st'.subscriptions, st'.tokens)
  {
  }

  // ---------------------------------------------------------------------------
  // Signup (the OAuth callback)

  /** The OAuth callback: on a granted token, a row with an empty address is
      inserted; on an error nothing is stored. */
  function Signup(st: State, granted: Option<Token>): (r: State)
    ensures granted.None? ==> r == st
    ensures granted.Some? ==> r.tokens == st.tokens[granted.value := ""] && r.subscriptions == st.subscriptions
  {
    match granted
    case None => st
    case Some(token) => State(st.subscriptions, st.tokens[token := ""])
  }

  /** Signing up a new token keeps the registry and table consistent. */
  lemma SignupKeepsConsistent(st: State, token: Token)
    requires Consistent(st.subscriptions, st.tokens)
    requires token !in st.tokens
    ensures var st' := Signup(st, Some(token)); Consistent(st'.subscriptions, st'.tokens)
  {
  }

  /** A signed-up token whose address was never set is not subscribed by a
      replay of the table. */
  lemma SignedUpNotReplayed(st: State, token: Token, rows: seq<RowResult>, a: Address)
    requires Lists(rows, Signup(st, Some(token)).tokens)
    ensures !Subscribed(Replayed(map[], rows), a, token)
  {
    ReplayTable(rows, Signup(st, Some(token)).tokens);
  }

  // ---------------------------------------------------------------------------
  // The server's shared state

  class Server {
    const notifier: Notifier
    var tokens: Table

    /** The registry and the table agree. */
    ghost predicate Valid()
      reads this, notifier
    {
      Consistent(notifier.subscriptions, tokens)
    }

    /** Startup: a fresh notifier, then the scan of the stored rows replayed
        into it. */
    constructor (table: Table, rows: seq<RowResult>)
      ensures fresh(notifier)
      ensures tokens == table
      ensures notifier.subscriptions == Replayed(map[], rows)
      ensures Lists(rows, table) ==> Valid()
    {
      notifier := new Notifier();
      tokens := table;
      new;
      Replay(rows);
      if Lists(rows, table) {
        ReplayTable(rows, table);
      }
    }

    /** The row loop of the startup scan. */
    method Replay(rows: seq<RowResult>)
      modifies notifier
      ensures notifier.subscriptions == Replayed(old(notifier.subscriptions), rows)
    {
      var i := 0;
      while i < |rows|
        invariant 0 <= i <= |rows|
        invariant notifier.subscriptions == Replayed(old(notifier.subscriptions), rows[..i])
      {
        assert rows[..i + 1][..i] == rows[..i];
        var r := rows[i];
        if r.RowOk? && r.row.address != "" {
          notifier.Subscribe(r.row.address, r.row.token);
        }
        i := i + 1;
      }
      assert rows[..i] == rows;
    }

    /** POST /settings/address: unsubscribe the stored pair, subscribe the
        new one, store the new address. */
    method PostAddress(parsed: Option<Address>, token: Token) returns (res: Response)
      modifies this, notifier
      ensures (State(notifier.subscriptions, tokens), res)
        == SetAddress(State(old(notifier.subscriptions), old(tokens)), parsed, token)
      ensures old(Valid()) && (parsed.Some? ==> parsed.value != "") ==> Valid()
    {
      ghost var before := State(notifier.subscriptions, tokens);
      if Valid() && (parsed.Some? ==> parsed.value != "") {
        RebindKeepsConsistent(before, parsed, token);
      }
      if parsed.None? {
        return Thrown("Invalid address!");
      }
      var address := parsed.value;
      if token !in tokens {
        return Failed(500, "Unknown token");
      }
      var stored := tokens[token];
      notifier.Unsubscribe(stored, token);
      notifier.Subscribe(address, token);
      tokens := tokens[token := address];
      res := Done;
    }

    /** The OAuth callback's insert of a granted token with an empty address. */
    method OAuthCallback(granted: Option<Token>)
      modifies this
      ensures State(notifier.subscriptions, tokens) == Signup(State(old(notifier.subscriptions), old(tokens)), granted)
      ensures old(Valid()) && granted.Some? && granted.value !in old(tokens) ==> Valid()
    {
      if granted.Some? {
        ghost var before := State(notifier.subscriptions, tokens);
        if Valid() && granted.value !in tokens {
          SignupKeepsConsistent(before, granted.value);
        }
        tokens := tokens[granted.value := ""];
      }
    }
  }
}
