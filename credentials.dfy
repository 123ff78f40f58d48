/** The `social_accounts` credential table.

    The server's upsert names no conflict key, so the database resolves
    conflicts on the primary key. This model ASSUMES that (user_id, platform)
    is the upsert's conflict target, so that an upsert for a pair
    that already has a row replaces that row's data and keeps its id, and
    otherwise inserts a row under an id the database chooses. The rows are
    kept in insertion order; the real table has no defined order. */
module Credentials {
  import opened Wrappers
  import opened Types
  import Seqs

  datatype Key = Key(userId: string, platform: Platform)

  function KeyOf(a: SocialAccount): Key {
    Key(a.userId, a.platform)
  }

  /** What the server writes: a row without its database id. */
  datatype Credential = Credential(
    userId: string,
    platform: Platform,
    accessToken: string,
    refreshToken: Option<string>,
    pages: Option<seq<Page>>,
    expiresAt: Option<Time>,
    connectedAt: Time)

  function RowFor(c: Credential, id: string): SocialAccount {
    SocialAccount(id, c.userId, c.platform, c.accessToken, c.refreshToken, c.pages, c.connectedAt, c.expiresAt)
  }

  predicate WellKeyed(rows: seq<SocialAccount>) {
    && (forall i, j :: 0 <= i < j < |rows| ==> KeyOf(rows[i]) != KeyOf(rows[j]))
    && (forall i, j :: 0 <= i < j < |rows| ==> rows[i].id != rows[j].id)
  }

  predicate IdUnused(rows: seq<SocialAccount>, id: string) {
    forall r :: r in rows ==> r.id != id
  }

  predicate HasKey(rows: seq<SocialAccount>, k: Key) {
    exists r :: r in rows && KeyOf(r) == k
  }

  function IdsOf(rows: seq<SocialAccount>): set<string> {
    set r | r in rows :: r.id
  }

  /** The position of the first row stored under `k`. */
  function KeyIndex(rows: seq<SocialAccount>, k: Key): (r: Option<nat>)
    ensures r.Some? ==> r.value < |rows| && KeyOf(rows[r.value]) == k
    ensures r.None? ==> !HasKey(rows, k)
  {
    if rows == [] then None
    else if KeyOf(rows[0]) == k then Some(0)
    else
      var r := KeyIndex(rows[1..], k);
      assert r.None? ==> forall x :: x in rows ==> x == rows[0] || x in rows[1..];
      if r.Some? then Some(r.value + 1) else None
  }

  /** The upsert: the row under the credential's key takes the new data and
      keeps its id; without such a row one is appended under `freshId`. */
  function UpsertRows(rows: seq<SocialAccount>, c: Credential, freshId: string): (r: seq<SocialAccount>)
    requires WellKeyed(rows) && IdUnused(rows, freshId)
    ensures WellKeyed(r)
    ensures HasKey(r, Key(c.userId, c.platform))
    ensures forall x :: x in r && KeyOf(x) == Key(c.userId, c.platform) ==> x == RowFor(c, x.id)
    ensures forall x :: x in rows && KeyOf(x) != Key(c.userId, c.platform) ==> x in r
    ensures forall x :: x in r && KeyOf(x) != Key(c.userId, c.platform) ==> x in rows
    ensures IdsOf(r) <= IdsOf(rows) + {freshId}
  {
    var k := Key(c.userId, c.platform);
    match KeyIndex(rows, k)
    case Some(i) =>
      ReplaceRow(rows, c, i);
      rows[i := RowFor(c, rows[i].id)]
    case None =>
      AppendRow(rows, c, freshId);
      rows + [RowFor(c, freshId)]
  }

  /** The upsert over an existing row: the row takes the new data and its
      old id; every other row stays. */
  lemma ReplaceRow(rows: seq<SocialAccount>, c: Credential, i: nat)
    requires WellKeyed(rows) && i < |rows| && KeyOf(rows[i]) == Key(c.userId, c.platform)
    ensures var r := rows[i := RowFor(c, rows[i].id)];
            && WellKeyed(r)
            && r[i] in r
            && (forall x :: x in r && KeyOf(x) == Key(c.userId, c.platform) ==> x == RowFor(c, x.id))
            && (forall x :: x in rows && KeyOf(x) != Key(c.userId, c.platform) ==> x in r)
            && (forall x :: x in r && KeyOf(x) != Key(c.userId, c.platform) ==> x in rows)
            && IdsOf(r) <= IdsOf(rows)
  {
    var k := Key(c.userId, c.platform);
    var r := rows[i := RowFor(c, rows[i].id)];
    assert forall j :: 0 <= j < |rows| ==> KeyOf(r[j]) == KeyOf(rows[j]) && r[j].id == rows[j].id;
    assert r[i] in r;
    forall x | x in rows && x != rows[i] ensures x in r {
      var j :| 0 <= j < |rows| && rows[j] == x;
      assert r[j] == x;
    }
    forall x | x in r && x != r[i] ensures x in rows {
      var j :| 0 <= j < |r| && r[j] == x;
      assert rows[j] == x;
    }
    forall x | x in rows && KeyOf(x) == k ensures x == rows[i] {
      var j :| 0 <= j < |rows| && rows[j] == x;
    }
    forall x | x in r && KeyOf(x) == k ensures x == r[i] {
      var j :| 0 <= j < |r| && r[j] == x;
    }
    forall id | id in IdsOf(r) ensures id in IdsOf(rows) {
      var x :| x in r && x.id == id;
      var j :| 0 <= j < |r| && r[j] == x;
      assert rows[j].id == id;
    }
  }

  /** The upsert without an existing row: the new row is appended under the
      fresh id. */
  lemma AppendRow(rows: seq<SocialAccount>, c: Credential, freshId: string)
    requires WellKeyed(rows) && IdUnused(rows, freshId) && !HasKey(rows, Key(c.userId, c.platform))
    ensures var r := rows + [RowFor(c, freshId)];
            && WellKeyed(r)
            && r[|rows|] in r
            && (forall x :: x in r && KeyOf(x) == Key(c.userId, c.platform) ==> x == RowFor(c, x.id))
            && (forall x :: x in rows ==> x in r)
            && (forall x :: x in r && KeyOf(x) != Key(c.userId, c.platform) ==> x in rows)
            && IdsOf(r) <= IdsOf(rows) + {freshId}
  {
    var r := rows + [RowFor(c, freshId)];
    assert r[|rows|] in r;
    forall i, j | 0 <= i < j < |r| ensures KeyOf(r[i]) != KeyOf(r[j]) && r[i].id != r[j].id {
      if j == |rows| {
        assert r[i] in rows;
      }
    }
  }

  /** Connecting twice keeps one row per (user, platform) pair, and the one
      left holds the second connection's tokens, pages and dates. */
  lemma ReconnectKeepsOneRow(rows: seq<SocialAccount>, c1: Credential, c2: Credential, id1: string, id2: string)
    requires WellKeyed(rows) && IdUnused(rows, id1) && IdUnused(rows, id2) && id1 != id2
    requires Key(c1.userId, c1.platform) == Key(c2.userId, c2.platform)
    ensures IdUnused(UpsertRows(rows, c1, id1), id2)
    ensures var after := UpsertRows(UpsertRows(rows, c1, id1), c2, id2);
            && WellKeyed(after)
            && HasKey(after, Key(c2.userId, c2.platform))
            && forall x :: x in after && KeyOf(x) == Key(c2.userId, c2.platform) ==> x == RowFor(c2, x.id)
  {
    var mid := UpsertRows(rows, c1, id1);
    assert forall x :: x in mid ==> x.id in IdsOf(mid);
  }

  /** In a well-keyed table two rows with the same key are the same row. */
  lemma KeyIsUnique(rows: seq<SocialAccount>, x: SocialAccount, y: SocialAccount)
    requires WellKeyed(rows) && x in rows && y in rows && KeyOf(x) == KeyOf(y)
    ensures x == y
  {
    var i :| 0 <= i < |rows| && rows[i] == x;
    var j :| 0 <= j < |rows| && rows[j] == y;
  }

  /** `delete().eq('platform', p).eq('user_id', uid)`. */
  function DeleteRows(rows: seq<SocialAccount>, userId: string, p: Platform): seq<SocialAccount> {
    Seqs.Filter((r: SocialAccount) => !(r.userId == userId && r.platform == p), rows)
  }

  /** Deleting removes exactly that (user, platform) row, keeps every other
      row in order, and a second delete changes nothing. */
  lemma DeleteRemovesOnlyThePair(rows: seq<SocialAccount>, userId: string, p: Platform)
    requires WellKeyed(rows)
    ensures WellKeyed(DeleteRows(rows, userId, p))
    ensures !HasKey(DeleteRows(rows, userId, p), Key(userId, p))
    ensures forall x :: x in DeleteRows(rows, userId, p) ==> x in rows
    ensures forall x :: x in rows && KeyOf(x) != Key(userId, p) ==> x in DeleteRows(rows, userId, p)
    ensures Seqs.IsSubsequence(DeleteRows(rows, userId, p), rows)
    ensures DeleteRows(DeleteRows(rows, userId, p), userId, p) == DeleteRows(rows, userId, p)
  {
    var d := DeleteRows(rows, userId, p);
    Seqs.FilterIsSubsequence((r: SocialAccount) => !(r.userId == userId && r.platform == p), rows);
    Seqs.FilterAll((r: SocialAccount) => !(r.userId == userId && r.platform == p), d);
    SubsequencePreservesWellKeyed(d, rows);
  }

  lemma {:induction false} SubsequencePreservesWellKeyed(a: seq<SocialAccount>, b: seq<SocialAccount>)
    requires WellKeyed(b) && Seqs.IsSubsequence(a, b)
    ensures WellKeyed(a)
    ensures forall x :: x in a ==> x in b
    decreases |b|
  {
    if a != [] {
      if a[0] == b[0] && Seqs.IsSubsequence(a[1..], b[1..]) {
        SubsequencePreservesWellKeyed(a[1..], b[1..]);
        assert forall x :: x in a[1..] ==> x in b[1..];
        assert forall j :: 1 <= j < |a| ==> a[j] in b[1..] by {
          forall j | 1 <= j < |a| ensures a[j] in b[1..] { assert a[j] == a[1..][j - 1]; }
        }
      } else {
        SubsequencePreservesWellKeyed(a, b[1..]);
      }
    }
  }

  /** `select('*').eq('user_id', uid)`. */
  function RowsOfUser(rows: seq<SocialAccount>, userId: string): seq<SocialAccount> {
    Seqs.Filter((r: SocialAccount) => r.userId == userId, rows)
  }

  /** `.single()`: the one matching row, or an error when there are none or
      several. */
  function Single(matches: seq<SocialAccount>): (r: Option<SocialAccount>)
    ensures r.Some? <==> |matches| == 1
    ensures r.Some? ==> r.value == matches[0]
  {
    if |matches| == 1 then Some(matches[0]) else None
  }

  /** The credential table as a mutable store. */
  class CredentialTable {
    var rows: seq<SocialAccount>

    ghost predicate Valid()
      reads this
    {
      WellKeyed(rows)
    }

    constructor ()
      ensures Valid() && rows == []
    {
      rows := [];
    }

    /** `upsert(row)`; a failing write changes nothing and reports its message. */
    method Upsert(c: Credential, freshId: string, failure: Option<string>) returns (err: Option<string>)
      requires Valid() && IdUnused(rows, freshId)
      modifies this
      ensures Valid()
      ensures err == failure
      ensures rows == if failure.None? then UpsertRows(old(rows), c, freshId) else old(rows)
    {
      err := failure;
      if failure.None? {
        rows := UpsertRows(rows, c, freshId);
      }
    }

    /** `delete().eq('platform', p).eq('user_id', uid)`. */
    method Delete(userId: string, p: Platform, failure: Option<string>) returns (err: Option<string>)
      requires Valid()
      modifies this
      ensures Valid()
      ensures err == failure
      ensures rows == if failure.None? then DeleteRows(old(rows), userId, p) else old(rows)
    {
      err := failure;
      if failure.None? {
        DeleteRemovesOnlyThePair(rows, userId, p);
        rows := DeleteRows(rows, userId, p);
      }
    }
  }
}
