/** The watchlist hook: a view of the signed-in user's rows of the hosted
    `watchlist` table (newest first) with `loading` and `error` cells, and
    the two mutations it sends to the table, insert and delete. */
module WatchlistStore {
  import opened Wrappers
  import opened Seqs

  datatype AssetType = StockType | CryptoType

  /** A row of the `watchlist` table. `user_id` is `None` for a row inserted
      without a user id (the key is dropped from the JSON payload). */
  datatype WatchlistItem = WatchlistItem(id: string, user_id: Option<string>, symbol: string,
                                         kind: AssetType, created_at: int)

  /** A thrown value: whether it is an `Error` instance, and its message. */
  datatype StoreError = StoreError(isErrorInstance: bool, message: string)

  const GenericMessage: string := "An error occurred"

  /** The text the hook stores in `error`. */
  function ErrorMessage(e: StoreError): (m: string)
    ensures e.isErrorInstance ==> m == e.message
    ensures !e.isErrorInstance ==> m == GenericMessage
  {
    if e.isErrorInstance then e.message else GenericMessage
  }

  // ---- The table operations the hook sends ----

  /** `.eq('user_id', uid)`. */
  predicate OwnedBy(row: WatchlistItem, uid: string)
  {
    row.user_id == Some(uid)
  }

  /** Ordered by `created_at`, newest first. */
  predicate NewestFirst(rows: seq<WatchlistItem>)
  {
    forall i, j :: 0 <= i < j < |rows| ==> rows[i].created_at >= rows[j].created_at
  }

  /** Puts `x` before the first row that is strictly older. */
  function InsertByAge(x: WatchlistItem, rows: seq<WatchlistItem>): seq<WatchlistItem>
  {
    if rows == [] || x.created_at >= rows[0].created_at then [x] + rows
    else [rows[0]] + InsertByAge(x, rows[1..])
  }

  /** `.order('created_at', { ascending: false })`; rows of equal age keep table order. */
  function SortNewestFirst(rows: seq<WatchlistItem>): seq<WatchlistItem>
  {
    if rows == [] then [] else InsertByAge(rows[0], SortNewestFirst(rows[1..]))
  }

  /** The load query: the user's rows, newest first. */
  function Load(table: seq<WatchlistItem>, uid: string): seq<WatchlistItem>
  {
    SortNewestFirst(Filter(row => OwnedBy(row, uid), table))
  }

  /** The insert of `addToWatchlist`: one new row, no check for an existing one. */
  function Insert(table: seq<WatchlistItem>, row: WatchlistItem): (t: seq<WatchlistItem>)
    ensures multiset(t) == multiset(table) + multiset{row}
  {
    table + [row]
  }

  /** `.delete().eq('user_id', uid).eq('symbol', symbol)`. */
  predicate DeleteMatches(row: WatchlistItem, uid: string, symbol: string)
  {
    OwnedBy(row, uid) && row.symbol == symbol
  }

  function Delete(table: seq<WatchlistItem>, uid: string, symbol: string): seq<WatchlistItem>
  {
    Filter(row => !DeleteMatches(row, uid, symbol), table)
  }

  /** The filter value sent for the user: an undefined id is written into the
      query string as the text `undefined`. */
  function UserFilter(userId: Option<string>): string
  {
    if userId.Some? then userId.value else "undefined"
  }

  // ---- Properties of the table operations ----

  lemma {:induction false} InsertByAgeMultiset(x: WatchlistItem, rows: seq<WatchlistItem>)
    ensures multiset(InsertByAge(x, rows)) == multiset(rows) + multiset{x}
  {
    if !(rows == [] || x.created_at >= rows[0].created_at) {
      InsertByAgeMultiset(x, rows[1..]);
      assert rows == [rows[0]] + rows[1..];
    }
  }

  lemma NewestFirstCons(h: WatchlistItem, t: seq<WatchlistItem>)
    ensures NewestFirst([h] + t) <==>
              (forall k :: 0 <= k < |t| ==> h.created_at >= t[k].created_at) && NewestFirst(t)
  {
    var r := [h] + t;
    if (forall k :: 0 <= k < |t| ==> h.created_at >= t[k].created_at) && NewestFirst(t) {
      forall i, j | 0 <= i < j < |r| ensures r[i].created_at >= r[j].created_at {
        if i == 0 {
          assert r[j] == t[j - 1];
        } else {
          assert r[i] == t[i - 1] && r[j] == t[j - 1];
        }
      }
    }
    if NewestFirst(r) {
      forall k | 0 <= k < |t| ensures h.created_at >= t[k].created_at {
        assert r[0] == h && r[k + 1] == t[k];
      }
      forall i, j | 0 <= i < j < |t| ensures t[i].created_at >= t[j].created_at {
        assert r[i + 1] == t[i] && r[j + 1] == t[j];
      }
    }
  }

  lemma {:induction false} InsertByAgeSorted(x: WatchlistItem, rows: seq<WatchlistItem>)
    requires NewestFirst(rows)
    ensures NewestFirst(InsertByAge(x, rows))
    ensures multiset(InsertByAge(x, rows)) == multiset(rows) + multiset{x}
  {
    InsertByAgeMultiset(x, rows);
    if rows == [] || x.created_at >= rows[0].created_at {
      NewestFirstCons(x, rows);
    } else {
      assert rows == [rows[0]] + rows[1..];
      NewestFirstCons(rows[0], rows[1..]);
      InsertByAgeSorted(x, rows[1..]);
      var tail := InsertByAge(x, rows[1..]);
      forall k | 0 <= k < |tail| ensures rows[0].created_at >= tail[k].created_at {
        assert tail[k] in multiset(tail);
        if tail[k] != x {
          assert tail[k] in multiset(rows[1..]);
          assert tail[k] in rows[1..];
        }
      }
      NewestFirstCons(rows[0], tail);
    }
  }

  /** The sort puts rows newest first and neither adds nor loses a row. */
  lemma {:induction false} SortNewestFirstCorrect(rows: seq<WatchlistItem>)
    ensures NewestFirst(SortNewestFirst(rows))
    ensures multiset(SortNewestFirst(rows)) == multiset(rows)
  {
    if rows != [] {
      SortNewestFirstCorrect(rows[1..]);
      InsertByAgeSorted(rows[0], SortNewestFirst(rows[1..]));
      assert rows == [rows[0]] + rows[1..];
    }
  }

  /** A load returns exactly the user's rows (each as often as in the table), newest first. */
  lemma {:induction false} LoadIsOwnRowsNewestFirst(table: seq<WatchlistItem>, uid: string)
    ensures NewestFirst(Load(table, uid))
    ensures multiset(Load(table, uid)) == multiset(Filter(row => OwnedBy(row, uid), table))
    ensures forall row :: row in Load(table, uid) <==> row in table && OwnedBy(row, uid)
  {
    var own := Filter(row => OwnedBy(row, uid), table);
    SortNewestFirstCorrect(own);
    forall row ensures row in Load(table, uid) <==> row in table && OwnedBy(row, uid) {
      assert row in Load(table, uid) <==> row in multiset(Load(table, uid));
      assert row in own <==> row in multiset(own);
      if row in own {
        var i :| 0 <= i < |own| && own[i] == row;
      }
      if row in table && OwnedBy(row, uid) {
        var i :| 0 <= i < |table| && table[i] == row;
      }
    }
  }

  /** Adding a row and reloading gives the old load plus exactly that one row,
      whether or not the user already had the symbol. */
  lemma {:induction false} InsertThenLoad(table: seq<WatchlistItem>, row: WatchlistItem, uid: string)
    requires OwnedBy(row, uid)
    ensures multiset(Load(Insert(table, row), uid)) == multiset(Load(table, uid)) + multiset{row}
    ensures row in Load(Insert(table, row), uid)
  {
    var p := (r: WatchlistItem) => OwnedBy(r, uid);
    FilterAppend(p, table, [row]);
    assert Filter(p, [row]) == [row] + Filter(p, [row][1..]);
    assert [row][1..] == [];
    LoadIsOwnRowsNewestFirst(table, uid);
    LoadIsOwnRowsNewestFirst(Insert(table, row), uid);
  }

  /** Another user's insert leaves this user's load as it was. */
  lemma {:induction false} ForeignInsertInvisible(table: seq<WatchlistItem>, row: WatchlistItem, uid: string)
    requires !OwnedBy(row, uid)
    ensures Load(Insert(table, row), uid) == Load(table, uid)
  {
    var p := (r: WatchlistItem) => OwnedBy(r, uid);
    FilterAppend(p, table, [row]);
    assert Filter(p, [row]) == [];
    assert Filter(p, table) + [] == Filter(p, table);
  }

  /** Adding the same symbol twice leaves two rows for it: there is no de-duplication. */
  lemma {:induction false} NoDeduplication(table: seq<WatchlistItem>, r1: WatchlistItem, r2: WatchlistItem, uid: string)
    requires OwnedBy(r1, uid) && OwnedBy(r2, uid)
    ensures multiset(Load(Insert(Insert(table, r1), r2), uid)) == multiset(Load(table, uid)) + multiset{r1, r2}
    ensures r1 == r2 ==> multiset(Load(Insert(Insert(table, r1), r2), uid))[r1] >= 2
  {
    InsertThenLoad(table, r1, uid);
    InsertThenLoad(Insert(table, r1), r2, uid);
  }

  /** Delete removes every row of the user with the symbol and keeps all
      other rows, each as often as before, in their order. */
  lemma {:induction false} DeleteRemovesExactlyMatching(table: seq<WatchlistItem>, uid: string, symbol: string)
    ensures forall row :: row in Delete(table, uid, symbol) <==> row in table && !DeleteMatches(row, uid, symbol)
    ensures forall row :: multiset(Delete(table, uid, symbol))[row] ==
                            if DeleteMatches(row, uid, symbol) then 0 else multiset(table)[row]
    ensures IsSubsequence(Delete(table, uid, symbol), table)
  {
    var p := (row: WatchlistItem) => !DeleteMatches(row, uid, symbol);
    FilterIsSubsequence(p, table);
    forall row ensures multiset(Delete(table, uid, symbol))[row] ==
                         if DeleteMatches(row, uid, symbol) then 0 else multiset(table)[row] {
      FilterCount(p, table, row);
    }
    var d := Delete(table, uid, symbol);
    forall row ensures row in d <==> row in table && !DeleteMatches(row, uid, symbol) {
      if row in d {
        var i :| 0 <= i < |d| && d[i] == row;
      }
      if row in table && !DeleteMatches(row, uid, symbol) {
        var i :| 0 <= i < |table| && table[i] == row;
      }
    }
  }

  /** Deleting a symbol with no rows is not an error and changes nothing;
      deleting twice is deleting once. */
  lemma {:induction false} DeleteIdempotent(table: seq<WatchlistItem>, uid: string, symbol: string)
    ensures Delete(Delete(table, uid, symbol), uid, symbol) == Delete(table, uid, symbol)
    ensures (forall i :: 0 <= i < |table| ==> !DeleteMatches(table[i], uid, symbol)) ==> Delete(table, uid, symbol) == table
  {
    var p := (row: WatchlistItem) => !DeleteMatches(row, uid, symbol);
    FilterIdempotent(p, table);
    if forall i :: 0 <= i < |table| ==> !DeleteMatches(table[i], uid, symbol) {
      FilterKeepsAll(p, table);
    }
  }

  /** After a delete the user's load holds no row with the symbol and every
      other row of theirs, each as often as before. */
  lemma {:induction false} DeleteThenLoad(table: seq<WatchlistItem>, uid: string, symbol: string)
    ensures forall row :: row in Load(Delete(table, uid, symbol), uid) <==>
              row in Load(table, uid) && row.symbol != symbol
    ensures forall row :: multiset(Load(Delete(table, uid, symbol), uid))[row] ==
                            if row.symbol == symbol then 0 else multiset(Load(table, uid))[row]
  {
    DeleteRemovesExactlyMatching(table, uid, symbol);
    LoadIsOwnRowsNewestFirst(table, uid);
    LoadIsOwnRowsNewestFirst(Delete(table, uid, symbol), uid);
    var own := (row: WatchlistItem) => OwnedBy(row, uid);
    var d := Delete(table, uid, symbol);
    forall row ensures multiset(Load(d, uid))[row] ==
                         if row.symbol == symbol then 0 else multiset(Load(table, uid))[row] {
      FilterCount(own, d, row);
      FilterCount(own, table, row);
    }
  }

  // ---- The hook's state ----

  /** What the select query returned: rows, a `null` data field, or an error. */
  datatype FetchOutcome = Rows | NullData | FetchFailed(err: StoreError)

  /** What the store did with an insert or delete. */
  datatype MutationOutcome = Applied | Rejected(err: StoreError)

  class WatchlistHook {
    const userId: Option<string>
    /** The hosted table the hook reads and writes. */
    var table: seq<WatchlistItem>
    var watchlist: seq<WatchlistItem>
    var loading: bool
    var error: Option<string>

    /** `if (!userId) return`: an undefined or empty id turns the hook off. */
    predicate Enabled()
    {
      userId.Some? && userId.value != ""
    }

    constructor (userId: Option<string>, table: seq<WatchlistItem>)
      ensures this.userId == userId && this.table == table
      ensures watchlist == [] && loading && error.None?
    {
      this.userId := userId;
      this.table := table;
      watchlist := [];
      loading := true;
      error := None;
    }

    /** The effect run when the hook mounts: without a user id nothing is
        fetched and the initial state stays; otherwise the first fetch runs. */
    method Mount(outcome: FetchOutcome)
      modifies this
      ensures !Enabled() ==> watchlist == old(watchlist) && loading == old(loading) && error == old(error)
      ensures Enabled() ==> !loading
      ensures Enabled() && outcome.Rows? ==> watchlist == Load(table, userId.value) && error == old(error)
      ensures Enabled() && outcome.NullData? ==> watchlist == [] && error == old(error)
      ensures Enabled() && outcome.FetchFailed? ==>
                watchlist == old(watchlist) && error == Some(ErrorMessage(outcome.err))
      ensures table == old(table)
    {
      if !Enabled() {
        return;
      }
      FetchWatchlist(outcome);
    }

    /** `fetchWatchlist`, also run on every change notification. */
    method FetchWatchlist(outcome: FetchOutcome)
      requires Enabled()
      modifies this`watchlist, this`loading, this`error
      ensures outcome.Rows? ==> watchlist == Load(table, userId.value) && error == old(error)
      ensures outcome.NullData? ==> watchlist == [] && error == old(error)
      ensures outcome.FetchFailed? ==> watchlist == old(watchlist) && error == Some(ErrorMessage(outcome.err))
      ensures !loading
    {
      match outcome {
        case Rows => watchlist := Load(table, userId.value);
        case NullData => watchlist := [];
        case FetchFailed(e) => error := Some(ErrorMessage(e));
      }
      loading := false;
    }

    /** `addToWatchlist(symbol, type)`; `id` and `createdAt` are assigned by the store.
        A rejected insert records its message and is rethrown. */
    method AddToWatchlist(symbol: string, kind: AssetType, id: string, createdAt: int, outcome: MutationOutcome)
      returns (thrown: Option<StoreError>)
      modifies this`table, this`error
      ensures outcome.Applied? ==>
                table == Insert(old(table), WatchlistItem(id, userId, symbol, kind, createdAt)) &&
                error == old(error) && thrown.None?
      ensures outcome.Rejected? ==>
                table == old(table) && error == Some(ErrorMessage(outcome.err)) && thrown == Some(outcome.err)
    {
      match outcome
      case Applied =>
        table := Insert(table, WatchlistItem(id, userId, symbol, kind, createdAt));
        thrown := None;
      case Rejected(e) =>
        error := Some(ErrorMessage(e));
        thrown := Some(e);
    }

    /** `removeFromWatchlist(symbol)`. */
    method RemoveFromWatchlist(symbol: string, outcome: MutationOutcome) returns (thrown: Option<StoreError>)
      modifies this`table, this`error
      ensures outcome.Applied? ==>
                table == Delete(old(table), UserFilter(userId), symbol) && error == old(error) && thrown.None?
      ensures outcome.Rejected? ==>
                table == old(table) && error == Some(ErrorMessage(outcome.err)) && thrown == Some(outcome.err)
    {
      match outcome
      case Applied =>
        table := Delete(table, UserFilter(userId), symbol);
        thrown := None;
      case Rejected(e) =>
        error := Some(ErrorMessage(e));
        thrown := Some(e);
    }
  }
}
