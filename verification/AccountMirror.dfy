/** The user table as a mirror of the contract's account list: the paged listing and the three-way
  update of the table. */
module AccountMirror {
  import opened Options

  const PAGE_SIZE: nat := 50

  datatype ChainAccount = ChainAccount(user: string, balance: int, pendingRefund: int)

  datatype UserRow = UserRow(user: string, lockBalance: int, checkedAt: nat, skipUntil: Option<nat>)

  datatype Page = CallError | Page(accounts: seq<ChainAccount>, total: nat)

  // ----- listing

  function Min(a: nat, b: nat): nat {
    if a < b then a else b
  }

  /** The page at an offset of a contract that holds `accounts`; calls at some offsets fail. */
  function PageAt(accounts: seq<ChainAccount>, broken: nat -> bool, offset: nat): Page {
    if broken(offset) then CallError
    else if offset >= |accounts| then Page([], |accounts|)
    else Page(accounts[offset..Min(offset + PAGE_SIZE, |accounts|)], |accounts|)
  }

  /** The offsets at which a listing calls the contract. */
  predicate Visited(accounts: seq<ChainAccount>, offset: nat) {
    offset % 50 == 0 && (offset == 0 || offset < |accounts|)
  }

  method ListUserAccount(accounts: seq<ChainAccount>, broken: nat -> bool) returns (list: Option<seq<ChainAccount>>)
    ensures list.Some? <==> forall offset :: Visited(accounts, offset) ==> !broken(offset)
    ensures list.Some? ==> list.value == accounts
  {
    var all, offset := [], 0;
    while true
      invariant offset % PAGE_SIZE == 0 && (offset == 0 || offset < |accounts|)
      invariant all == accounts[..Min(offset, |accounts|)]
      invariant forall o :: 0 <= o < offset && Visited(accounts, o) ==> !broken(o)
      decreases |accounts| - offset
    {
      var result := PageAt(accounts, broken, offset);
      if result.CallError? {
        assert Visited(accounts, offset);
        return None;
      }
      all := all + result.accounts;
      offset := offset + PAGE_SIZE;
      if offset >= result.total {
        break;
      }
    }
    list := Some(all);
  }

  // ----- the table

  function LowerChar(c: char): char {
    if 'A' <= c <= 'Z' then c - 'A' + 'a' else c
  }

  /** Addresses are compared without regard to case. */
  function ToLower(s: string): (r: string)
    ensures |r| == |s|
    ensures forall i :: 0 <= i < |s| ==>
              if 'A' <= s[i] <= 'Z' then 'a' <= r[i] <= 'z' && r[i] as int == s[i] as int + 32 else r[i] == s[i]
  {
    seq(|s|, i requires 0 <= i < |s| => LowerChar(s[i]))
  }

  /** Live rows by folded address, which the table's unique index keeps apart. */
  type Table = map<string, UserRow>

  function Parse(account: ChainAccount, now: nat): UserRow {
    UserRow(account.user, account.balance - account.pendingRefund, now, None)
  }

  function ParseAll(accounts: seq<ChainAccount>, now: nat): (rows: seq<UserRow>)
    ensures |rows| == |accounts| && forall i :: 0 <= i < |rows| ==> rows[i] == Parse(accounts[i], now)
  {
    seq(|accounts|, i requires 0 <= i < |accounts| => Parse(accounts[i], now))
  }

  /** A struct update leaves out the wait, which the new row does not carry. */
  function Merge(old_: UserRow, new_: UserRow): UserRow {
    if new_.skipUntil.None? then new_.(skipUntil := old_.skipUntil) else new_
  }

  function Key(row: UserRow): string {
    ToLower(row.user)
  }

  predicate HasKey(rows: seq<UserRow>, key: string) {
    exists i :: 0 <= i < |rows| && Key(rows[i]) == key
  }

  ghost predicate DifferentKeys(rows: seq<UserRow>) {
    forall i, j :: 0 <= i < j < |rows| ==> Key(rows[i]) != Key(rows[j])
  }

  /** The table mirrors the new rows: the same folded keys, each row with the new values, and the
      rows that were there before keep their waits. */
  ghost predicate Mirrors(before: Table, after: Table, news: seq<UserRow>) {
    && (forall key :: key in after <==> HasKey(news, key))
    && forall i :: 0 <= i < |news| ==>
         Key(news[i]) in after
         && after[Key(news[i])] == if Key(news[i]) in before then Merge(before[Key(news[i])], news[i]) else news[i]
  }

  class UserDb {
    var table: Table

    constructor ()
      ensures table == map[]
    {
      table := map[];
    }

    /** One insert of several rows: all of them, or none when two share a key or one is taken. */
    method CreateUserAccounts(rows: seq<UserRow>) returns (ok: bool)
      modifies this
      ensures ok <==> Insertable(old(table).Keys, rows)
      ensures !ok ==> table == old(table)
      ensures ok ==> Added(old(table), table, rows)
    {
      var added := table;
      for i := 0 to |rows|
        invariant table == old(table) && Insertable(table.Keys, rows[..i])
        invariant Added(table, added, rows[..i])
      {
        InsertableGrows(table.Keys, rows, i);
        if Key(rows[i]) in added {
          return false;
        }
        AddedGrows(table, added, rows, i);
        added := added[Key(rows[i]) := rows[i]];
      }
      assert rows[..|rows|] == rows;
      table := added;
      ok := true;
    }

    /** A struct update of the row with the same folded address. */
    method UpdateUserAccounts(rows: seq<UserRow>)
      requires DifferentKeys(rows)
      modifies this
      ensures Updated(old(table), table, rows)
    {
      for i := 0 to |rows|
        invariant Updated(old(table), table, rows[..i])
      {
        UpdatedGrows(old(table), table, rows, i);
        if Key(rows[i]) in table {
          table := table[Key(rows[i]) := Merge(table[Key(rows[i])], rows[i])];
        }
      }
      assert rows[..|rows|] == rows;
    }

    /** Brings the table in line with the contract's accounts; it fails, and changes nothing, exactly
        when two accounts have the same folded address. */
    method BatchUpdateUserAccount(news: seq<UserRow>) returns (ok: bool)
      modifies this
      ensures ok <==> DifferentKeys(news)
      ensures ok ==> Mirrors(old(table), table, news)
      ensures !ok ==> table == old(table)
    {
      var left := table.Keys;
      var toAdd, toUpdate := [], [];
      for i := 0 to |news|
        invariant table == old(table)
        invariant forall key :: key in left <==> key in table && !HasKey(news[..i], key)
        invariant toAdd == ToAdd(table.Keys, news[..i]) && toUpdate == ToUpdate(table.Keys, news[..i])
      {
        HasKeyGrows(news, i);
        assert news[..i + 1][..i] == news[..i];
        if Key(news[i]) in left {
          left := left - {Key(news[i])};
          toUpdate := toUpdate + [news[i]];
          continue;
        }
        toAdd := toAdd + [news[i]];
      }
      assert news[..|news|] == news;
      AdditionsClash(table.Keys, news);
      ok := CreateUserAccounts(toAdd);
      if !ok {
        return;
      }
      ghost var added := table;
      UpdateUserAccounts(toUpdate);
      ghost var updated := table;
      table := table - left;
      MirrorsFromParts(old(table), added, updated, table, news);
    }

    method SyncUserAccounts(accounts: seq<ChainAccount>, broken: nat -> bool, now: nat) returns (ok: bool)
      modifies this
      ensures ok <==> (forall offset :: Visited(accounts, offset) ==> !broken(offset))
                      && DifferentKeys(ParseAll(accounts, now))
      ensures ok ==> Mirrors(old(table), table, ParseAll(accounts, now))
      ensures !ok ==> table == old(table)
    {
      var list := ListUserAccount(accounts, broken);
      if list.None? {
        return false;
      }
      ok := BatchUpdateUserAccount(ParseAll(list.value, now));
    }
  }

  /** A mirrored table holds exactly the chain's accounts, folded by case: each with its balance less
      the pending refund, and with the wait it had before. */
  lemma MirrorHoldsBalances(before: Table, after: Table, accounts: seq<ChainAccount>, now: nat)
    requires Mirrors(before, after, ParseAll(accounts, now))
    ensures forall key :: key in after <==> exists i :: 0 <= i < |accounts| && ToLower(accounts[i].user) == key
    ensures forall i :: 0 <= i < |accounts| ==>
              && var key := ToLower(accounts[i].user);
              && key in after
              && after[key].lockBalance == accounts[i].balance - accounts[i].pendingRefund
              && after[key].user == accounts[i].user && after[key].checkedAt == now
              && after[key].skipUntil == if key in before then before[key].skipUntil else None
  {
    var news := ParseAll(accounts, now);
    forall key
      ensures HasKey(news, key) <==> exists i :: 0 <= i < |accounts| && ToLower(accounts[i].user) == key
    {
      if HasKey(news, key) {
        var i :| 0 <= i < |news| && Key(news[i]) == key;
        assert ToLower(accounts[i].user) == key;
      }
      if i :| 0 <= i < |accounts| && ToLower(accounts[i].user) == key {
        assert Key(news[i]) == key;
      }
    }
    forall i | 0 <= i < |accounts|
      ensures Key(news[i]) == ToLower(accounts[i].user)
    {
    }
  }

  /** Mirroring the same accounts again changes nothing. */
  lemma MirrorIsIdempotent(before: Table, after: Table, again: Table, news: seq<UserRow>)
    requires Mirrors(before, after, news) && Mirrors(after, again, news)
    requires forall i :: 0 <= i < |news| ==> news[i].skipUntil.None?
    ensures again == after
  {
    forall key | key in after
      ensures key in again && again[key] == after[key]
    {
      var i :| 0 <= i < |news| && Key(news[i]) == key;
    }
  }

  /** The rows that the loop does not pair with an old row: new keys, and repeated ones. */
  function ToAdd(keys: set<string>, news: seq<UserRow>): seq<UserRow> {
    if news == [] then []
    else
      var n := |news| - 1;
      var key := Key(news[n]);
      ToAdd(keys, news[..n]) + if key in keys && !HasKey(news[..n], key) then [] else [news[n]]
  }

  function ToUpdate(keys: set<string>, news: seq<UserRow>): seq<UserRow> {
    if news == [] then []
    else
      var n := |news| - 1;
      var key := Key(news[n]);
      ToUpdate(keys, news[..n]) + if key in keys && !HasKey(news[..n], key) then [news[n]] else []
  }

  ghost predicate Updated(before: Table, after: Table, rows: seq<UserRow>) {
    && after.Keys == before.Keys
    && (forall key :: key in before && !HasKey(rows, key) ==> after[key] == before[key])
    && forall i :: 0 <= i < |rows| && Key(rows[i]) in before ==>
         after[Key(rows[i])] == Merge(before[Key(rows[i])], rows[i])
  }

  ghost predicate Added(before: Table, after: Table, rows: seq<UserRow>) {
    && (forall key :: key in after <==> key in before || HasKey(rows, key))
    && (forall key :: key in before ==> after[key] == before[key])
    && (forall i :: 0 <= i < |rows| ==>
          Key(rows[i]) in after && (Key(rows[i]) !in before ==> after[Key(rows[i])] == rows[i]))
  }

  lemma HasKeyAppend(rows: seq<UserRow>, row: UserRow, key: string)
    ensures HasKey(rows + [row], key) <==> HasKey(rows, key) || Key(row) == key
  {
    if HasKey(rows, key) {
      var k :| 0 <= k < |rows| && Key(rows[k]) == key;
      assert (rows + [row])[k] == rows[k];
    }
    assert (rows + [row])[|rows|] == row;
  }

  lemma HasKeyGrows(rows: seq<UserRow>, i: nat)
    requires i < |rows|
    ensures forall key :: HasKey(rows[..i + 1], key) <==> HasKey(rows[..i], key) || Key(rows[i]) == key
  {
    assert rows[..i + 1] == rows[..i] + [rows[i]];
    forall key {
      HasKeyAppend(rows[..i], rows[i], key);
    }
  }

  ghost predicate Insertable(keys: set<string>, rows: seq<UserRow>) {
    DifferentKeys(rows) && forall i :: 0 <= i < |rows| ==> Key(rows[i]) !in keys
  }

  lemma InsertableAppend(keys: set<string>, rows: seq<UserRow>, row: UserRow)
    ensures Insertable(keys, rows + [row]) <==> Insertable(keys, rows) && Key(row) !in keys && !HasKey(rows, Key(row))
  {
    var all := rows + [row];
    if Insertable(keys, all) {
      forall i | 0 <= i < |rows|
        ensures Key(rows[i]) !in keys && Key(rows[i]) != Key(row)
      {
        assert all[i] == rows[i] && all[|rows|] == row;
      }
      forall i, j | 0 <= i < j < |rows|
        ensures Key(rows[i]) != Key(rows[j])
      {
        assert all[i] == rows[i] && all[j] == rows[j];
      }
      assert all[|rows|] == row;
    }
  }

  /** Rows that can be inserted have prefixes that can be inserted. */
  lemma InsertableGrows(keys: set<string>, rows: seq<UserRow>, i: nat)
    requires i < |rows|
    ensures Insertable(keys, rows[..i + 1]) <==>
            Insertable(keys, rows[..i]) && Key(rows[i]) !in keys && !HasKey(rows[..i], Key(rows[i]))
    ensures Insertable(keys, rows) ==> Insertable(keys, rows[..i + 1])
  {
    assert rows[..i + 1] == rows[..i] + [rows[i]];
    InsertableAppend(keys, rows[..i], rows[i]);
  }

  lemma AddedGrows(before: Table, added: Table, rows: seq<UserRow>, i: nat)
    requires i < |rows| && Added(before, added, rows[..i]) && Key(rows[i]) !in added
    ensures Added(before, added[Key(rows[i]) := rows[i]], rows[..i + 1])
  {
    HasKeyGrows(rows, i);
    forall k | 0 <= k < i
      ensures Key(rows[k]) in added && Key(rows[k]) != Key(rows[i])
      ensures Key(rows[k]) !in before ==> added[Key(rows[k])] == rows[k]
    {
      assert rows[..i][k] == rows[k];
    }
  }

  lemma UpdatedGrows(before: Table, table: Table, rows: seq<UserRow>, i: nat)
    requires i < |rows| && DifferentKeys(rows) && Updated(before, table, rows[..i])
    ensures Updated(before,
              if Key(rows[i]) in table then table[Key(rows[i]) := Merge(table[Key(rows[i])], rows[i])] else table,
              rows[..i + 1])
  {
    HasKeyGrows(rows, i);
    assert !HasKey(rows[..i], Key(rows[i]));
    forall k | 0 <= k < i && Key(rows[k]) in before
      ensures table[Key(rows[k])] == Merge(before[Key(rows[k])], rows[k]) && Key(rows[k]) != Key(rows[i])
    {
      assert rows[..i][k] == rows[k];
    }
  }

  lemma {:induction false} SplitHasKey(keys: set<string>, news: seq<UserRow>, key: string)
    ensures HasKey(ToAdd(keys, news), key) ==> HasKey(news, key)
    ensures HasKey(news, key) && key !in keys ==> HasKey(ToAdd(keys, news), key)
    ensures HasKey(ToUpdate(keys, news), key) ==> HasKey(news, key) && key in keys
  {
    if news != [] {
      var n := |news| - 1;
      SplitHasKey(keys, news[..n], key);
      assert news == news[..n] + [news[n]];
      HasKeyAppend(news[..n], news[n], key);
      HasKeyAppend(ToAdd(keys, news[..n]), news[n], key);
      HasKeyAppend(ToUpdate(keys, news[..n]), news[n], key);
    }
  }

  /** The rows set aside for insertion can be inserted exactly when no key repeats. */
  lemma {:induction false} AdditionsClash(keys: set<string>, news: seq<UserRow>)
    ensures Insertable(keys, ToAdd(keys, news)) <==> DifferentKeys(news)
    ensures DifferentKeys(ToUpdate(keys, news))
  {
    if news != [] {
      var n := |news| - 1;
      var row, before := news[n], news[..n];
      AdditionsClash(keys, before);
      SplitHasKey(keys, before, Key(row));
      assert news == before + [row];
      var adds, updates := ToAdd(keys, before), ToUpdate(keys, before);
      InsertableAppend({}, before, row);
      InsertableAppend(keys, adds, row);
      InsertableAppend({}, updates, row);
      assert adds + [] == adds && updates + [] == updates;
      if Key(row) in keys && !HasKey(before, Key(row)) {
        assert ToAdd(keys, news) == adds && ToUpdate(keys, news) == updates + [row];
      } else {
        assert ToAdd(keys, news) == adds + [row] && ToUpdate(keys, news) == updates;
      }
    }
  }

  /** When no key repeats, each row is set aside for the side its key is on. */
  lemma {:induction false} SplitCovers(keys: set<string>, news: seq<UserRow>, i: nat)
    requires DifferentKeys(news) && i < |news|
    ensures news[i] in if Key(news[i]) in keys then ToUpdate(keys, news) else ToAdd(keys, news)
  {
    var n := |news| - 1;
    if i < n {
      SplitCovers(keys, news[..n], i);
    } else {
      assert !HasKey(news[..n], Key(news[n]));
    }
  }

  /** What insertion, update and deletion leave of one new row. */
  lemma RowIsMirrored(before: Table, added: Table, updated: Table, news: seq<UserRow>, i: nat)
    requires DifferentKeys(news) && i < |news|
    requires Added(before, added, ToAdd(before.Keys, news)) && Updated(added, updated, ToUpdate(before.Keys, news))
    ensures var key := Key(news[i]);
            && HasKey(news, key) && key in updated
            && updated[key] == if key in before then Merge(before[key], news[i]) else news[i]
  {
    var adds, updates, key := ToAdd(before.Keys, news), ToUpdate(before.Keys, news), Key(news[i]);
    SplitCovers(before.Keys, news, i);
    SplitHasKey(before.Keys, news, key);
    if key in before {
      var j :| 0 <= j < |updates| && updates[j] == news[i];
    } else {
      var j :| 0 <= j < |adds| && adds[j] == news[i];
    }
  }

  lemma MirrorsFromParts(before: Table, added: Table, updated: Table, after: Table, news: seq<UserRow>)
    requires DifferentKeys(news)
    requires Added(before, added, ToAdd(before.Keys, news)) && Updated(added, updated, ToUpdate(before.Keys, news))
    requires forall key :: key in after <==> key in updated && !(key in before && !HasKey(news, key))
    requires forall key :: key in after ==> after[key] == updated[key]
    ensures Mirrors(before, after, news)
  {
    forall i | 0 <= i < |news|
      ensures Key(news[i]) in after
           && after[Key(news[i])] == if Key(news[i]) in before then Merge(before[Key(news[i])], news[i]) else news[i]
    {
      RowIsMirrored(before, added, updated, news, i);
    }
    forall key
      ensures key in after <==> HasKey(news, key)
    {
      SplitHasKey(before.Keys, news, key);
    }
  }
}
